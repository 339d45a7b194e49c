/** Saving the queue to the state file and loading it again. */
module QueueSave {
  import opened Basics
  import opened Decimal

  const PRIO_LABEL: string := "Prio: "
  const END_MARKER: string := "playlist_end"

  /** A song of the queue, as far as it is saved. */
  datatype Saved = Saved(uri: string, priority: nat)

  // ---- read_text_line() ----

  function LineEnd(text: string): (i: nat)
    ensures i <= |text| && (i < |text| ==> text[i] == '\n')
    ensures forall j :: 0 <= j < i ==> text[j] != '\n'
  {
    if text == "" || text[0] == '\n' then 0 else 1 + LineEnd(text[1..])
  }

  function StripCr(line: string): string {
    if line != "" && line[|line| - 1] == '\r' then line[..|line| - 1] else line
  }

  datatype TextLine = TextLine(line: string, rest: string)

  /** The next line without its line break, and the text after it. */
  function ReadTextLine(text: string): (r: Option<TextLine>)
    ensures r.Some? ==> |r.value.rest| < |text|
  {
    if text == "" then None
    else
      var i := LineEnd(text);
      Some(TextLine(StripCr(text[..i]), if i < |text| then text[i + 1..] else ""))
  }

  // ---- queue_save() ----

  function SongLine(i: nat, s: Saved): string {
    Digits(i) + ":" + s.uri
  }

  function PriorityLine(s: Saved): string {
    PRIO_LABEL + Digits(s.priority)
  }

  /** What `queue_save()` writes for one song. */
  function SongText(i: nat, s: Saved): string {
    if s.priority != 0 then (PriorityLine(s) + "\n") + (SongLine(i, s) + "\n") else SongLine(i, s) + "\n"
  }

  /** What `queue_save()` writes for the songs from position `i`. */
  function SavedText(q: seq<Saved>, i: nat): string
    requires i <= |q|
    decreases |q| - i
  {
    if i == |q| then "" else SongText(i, q[i]) + SavedText(q, i + 1)
  }

  lemma SavedOneMore(text: string, q: seq<Saved>, i: nat)
    requires i < |q|
    ensures text + SongText(i, q[i]) + SavedText(q, i + 1) == text + SavedText(q, i)
  {
  }

  /** One turn of the loop of `queue_save()`. */
  method SaveSong(text: string, i: nat, s: Saved) returns (r: string)
    ensures r == text + SongText(i, s)
  {
    hide SongLine, PriorityLine;
    r := text;
    if s.priority != 0 {
      r := r + (PriorityLine(s) + "\n");
    }
    r := r + (SongLine(i, s) + "\n");
  }

  method Save(q: seq<Saved>) returns (text: string)
    ensures text == SavedText(q, 0)
  {
    hide SongText;
    text := "";
    for i := 0 to |q|
      invariant text + SavedText(q, i) == SavedText(q, 0)
    {
      SavedOneMore(text, q, i);
      text := SaveSong(text, i, q[i]);
    }
  }

  // ---- queue_load_song() and playlist_state_load() ----

  /** What is loaded into, and which URIs can be resolved to a song. */
  datatype Target = Target(maxLength: nat, known: string -> bool)

  /** Appends the song of a song line, if there is one. */
  function AppendLine(line: string, priority: nat, q: seq<Saved>, t: Target): seq<Saved> {
    var (ret, end) := StrToL(line);
    if ret < 0 || end >= |line| || line[end] != ':' || end + 1 == |line| then q
    else
      var uri := line[end + 1..];
      if t.known(uri) then q + [Saved(uri, priority)] else q
  }

  /** `queue_load_song()`: the new queue and the text that is left. */
  function LoadSong(line: string, text: string, q: seq<Saved>, t: Target): (r: (seq<Saved>, string))
    ensures |r.1| <= |text|
  {
    if |q| >= t.maxLength then (q, text)
    else if PRIO_LABEL <= line then
      var priority := StrToUl(line[|PRIO_LABEL|..]).0 % 256;
      match ReadTextLine(text)
      case None => (q, text)
      case Some(l) => (AppendLine(l.line, priority, q, t), l.rest)
    else (AppendLine(line, 0, q, t), text)
  }

  /** The queue after `playlist_state_load()` has read from `text`. */
  function Loaded(text: string, q: seq<Saved>, t: Target): seq<Saved>
    decreases |text|
  {
    match ReadTextLine(text)
    case None => q
    case Some(l) =>
      if END_MARKER <= l.line then q
      else
        var (q', rest) := LoadSong(l.line, l.rest, q, t);
        Loaded(rest, q', t)
  }

  method Load(text: string, t: Target) returns (q: seq<Saved>)
    ensures q == Loaded(text, [], t)
  {
    q := [];
    var rest := text;
    while true
      invariant Loaded(rest, q, t) == Loaded(text, [], t)
      decreases |rest|
    {
      var l := ReadTextLine(rest);
      if l.None? || END_MARKER <= l.value.line {
        return;
      }
      var (q', rest') := LoadSong(l.value.line, l.value.rest, q, t);
      q, rest := q', rest';
    }
  }

  // ---- the round trip ----

  /** A URI that is not empty and contains no line break. */
  predicate OneLine(uri: string) {
    uri != "" && '\n' !in uri
  }

  lemma {:induction false} LineEndOf(line: string, rest: string)
    requires '\n' !in line
    ensures LineEnd(line + "\n" + rest) == |line|
  {
    if line == "" {
      assert line + "\n" + rest == "\n" + rest;
    } else {
      assert (line + "\n" + rest)[1..] == line[1..] + "\n" + rest;
      LineEndOf(line[1..], rest);
    }
  }

  lemma ReadBack(line: string, rest: string)
    requires '\n' !in line
    ensures ReadTextLine(line + "\n" + rest) == Some(TextLine(StripCr(line), rest))
  {
    LineEndOf(line, rest);
    var text := line + "\n" + rest;
    assert text[..|line|] == line && text[|line| + 1..] == rest;
  }

  lemma DigitsHaveNoBreak(n: nat)
    ensures '\n' !in Digits(n) && '\r' !in Digits(n)
  {
  }

  lemma SongLineHasNoBreak(i: nat, s: Saved)
    requires OneLine(s.uri)
    ensures '\n' !in SongLine(i, s)
    ensures StripCr(SongLine(i, s)) == Digits(i) + ":" + StripCr(s.uri)
  {
  }

  /** A song line is neither an end marker nor a priority line, and yields its song. */
  lemma SongLineLoads(i: nat, uri: string, priority: nat, q: seq<Saved>, t: Target)
    ensures var line := Digits(i) + ":" + uri;
            && !(END_MARKER <= line) && !(PRIO_LABEL <= line)
            && AppendLine(line, priority, q, t) ==
               if uri != "" && t.known(uri) then q + [Saved(uri, priority)] else q
  {
    hide Digits, ScanNumber;
    var line := Digits(i) + ":" + uri;
    assert line == Digits(i) + (":" + uri);
    ScanDigits(i, ":" + uri);
    assert IsDigit(line[0]);
    assert line[|Digits(i)|] == ':' && line[|Digits(i)| + 1..] == uri;
  }

  /** A priority line is not an end marker, and yields its priority. */
  lemma PriorityLineLoads(priority: nat)
    requires priority < 256
    ensures var line := PRIO_LABEL + Digits(priority);
            && '\n' !in line && StripCr(line) == line && !(END_MARKER <= line) && PRIO_LABEL <= line
            && StrToUl(line[|PRIO_LABEL|..]).0 % 256 == priority
  {
    hide Digits, ScanNumber;
    DigitsHaveNoBreak(priority);
    var line := PRIO_LABEL + Digits(priority);
    assert line[|PRIO_LABEL|..] == Digits(priority) == Digits(priority) + "";
    ScanDigits(priority, "");
    assert line[0] == 'P';
    assert line[|line| - 1] == Digits(priority)[|Digits(priority)| - 1];
  }

  /** A saved song, if it comes back, which it does with its URI reread. */
  function Added(s: Saved, t: Target): seq<Saved> {
    var uri := StripCr(s.uri);
    if uri != "" && t.known(uri) then [Saved(uri, s.priority)] else []
  }

  /** The songs from position `i`, as they come back. */
  function Reloaded(q: seq<Saved>, i: nat, t: Target): seq<Saved>
    requires i <= |q|
    decreases |q| - i
  {
    if i == |q| then [] else Added(q[i], t) + Reloaded(q, i + 1, t)
  }

  predicate Savable(q: seq<Saved>) {
    forall i :: 0 <= i < |q| ==> OneLine(q[i].uri) && q[i].priority < 256
  }

  /** One song of the saved text. */
  lemma LoadOne(i: nat, s: Saved, rest: string, done: seq<Saved>, t: Target)
    requires OneLine(s.uri) && s.priority < 256 && |done| < t.maxLength
    ensures Loaded(SongText(i, s) + rest, done, t) == Loaded(rest, done + Added(s, t), t)
  {
    hide Digits, StrToL, StrToUl, Loaded, AppendLine, ReadTextLine, StripCr;
    var line := SongLine(i, s);
    SongLineHasNoBreak(i, s);
    ReadBack(line, rest);
    SongLineLoads(i, StripCr(s.uri), s.priority, done, t);
    if s.priority != 0 {
      PriorityLineLoads(s.priority);
      ReadBack(PriorityLine(s), line + "\n" + rest);
      assert SongText(i, s) + rest == PriorityLine(s) + "\n" + (line + "\n" + rest);
    } else {
      assert SongText(i, s) + rest == line + "\n" + rest;
    }
    LoadedStep(SongText(i, s) + rest, done, t);
    assert done + [] == done;
  }

  lemma LoadedStep(text: string, q: seq<Saved>, t: Target)
    ensures Loaded(text, q, t) ==
            match ReadTextLine(text)
            case None => q
            case Some(l) =>
              if END_MARKER <= l.line then q
              else var r := LoadSong(l.line, l.rest, q, t); Loaded(r.1, r.0, t)
  {
  }

  /** As many songs as fit. */
  function Fitting(q: seq<Saved>, t: Target): seq<Saved> {
    if |q| <= t.maxLength then q else q[..t.maxLength]
  }

  /** A full queue takes nothing more, whatever the text says. */
  lemma {:induction false} FullStays(text: string, q: seq<Saved>, t: Target)
    requires |q| >= t.maxLength
    ensures Loaded(text, q, t) == q
    decreases |text|
  {
    var l := ReadTextLine(text);
    if l.Some? && !(END_MARKER <= l.value.line) {
      FullStays(l.value.rest, q, t);
    }
  }

  lemma {:induction false} LoadFrom(q: seq<Saved>, i: nat, tail: string, done: seq<Saved>, t: Target)
    requires Savable(q) && i <= |q| && |done| <= t.maxLength
    ensures Loaded(SavedText(q, i) + (END_MARKER + "\n" + tail), done, t) == Fitting(done + Reloaded(q, i, t), t)
    decreases |q| - i
  {
    hide Digits, ReadTextLine, LoadSong, Loaded, SongText, Added;
    var marker := END_MARKER + "\n" + tail;
    if |done| == t.maxLength {
      FullStays(SavedText(q, i) + marker, done, t);
      assert (done + Reloaded(q, i, t))[..|done|] == done;
    } else if i == |q| {
      assert SavedText(q, i) + marker == marker && done + Reloaded(q, i, t) == done;
      ReadBack(END_MARKER, tail);
      LoadedStep(marker, done, t);
    } else {
      LoadOne(i, q[i], SavedText(q, i + 1) + marker, done, t);
      assert SavedText(q, i) + marker == SongText(i, q[i]) + (SavedText(q, i + 1) + marker);
      AtMostOneAdded(q[i], t);
      LoadFrom(q, i + 1, tail, done + Added(q[i], t), t);
      assert done + Reloaded(q, i, t) == done + Added(q[i], t) + Reloaded(q, i + 1, t);
    }
  }

  lemma AtMostOneAdded(s: Saved, t: Target)
    ensures |Added(s, t)| <= 1
  {
  }

  /** What comes back from a saved queue is each song with its URI reread, as many as fit. */
  lemma LoadSaved(q: seq<Saved>, tail: string, t: Target)
    requires Savable(q)
    ensures Loaded(SavedText(q, 0) + (END_MARKER + "\n" + tail), [], t) == Fitting(Reloaded(q, 0, t), t)
  {
    LoadFrom(q, 0, tail, [], t);
    assert [] + Reloaded(q, 0, t) == Reloaded(q, 0, t);
  }

  lemma {:induction false} ReloadedNoMore(q: seq<Saved>, i: nat, t: Target)
    requires i <= |q|
    ensures |Reloaded(q, i, t)| <= |q| - i
    decreases |q| - i
  {
    if i < |q| {
      ReloadedNoMore(q, i + 1, t);
    }
  }

  // ---- any text ----

  /** A song that may be loaded: it can be resolved, and its priority fits. */
  predicate IsResolved(s: Saved, t: Target) {
    s.uri != "" && t.known(s.uri) && s.priority < 256
  }

  /** Whatever the text, only songs that can be resolved are added, at the end and as many as fit. */
  lemma {:induction false} LoadedSound(text: string, q: seq<Saved>, t: Target)
    ensures q <= Loaded(text, q, t) && (|q| <= t.maxLength ==> |Loaded(text, q, t)| <= t.maxLength)
    ensures forall i :: |q| <= i < |Loaded(text, q, t)| ==> IsResolved(Loaded(text, q, t)[i], t)
    decreases |text|
  {
    hide ReadTextLine, Loaded, LoadSong, IsResolved;
    LoadedStep(text, q, t);
    var l := ReadTextLine(text);
    if l.Some? && !(END_MARKER <= l.value.line) {
      var r := LoadSong(l.value.line, l.value.rest, q, t);
      LoadSongSound(l.value.line, l.value.rest, q, t);
      LoadedSound(r.1, r.0, t);
    }
  }

  lemma LoadSongSound(line: string, text: string, q: seq<Saved>, t: Target)
    ensures var q' := LoadSong(line, text, q, t).0;
            q' == q || (|q| < t.maxLength && |q'| == |q| + 1 && q'[..|q|] == q && IsResolved(q'[|q|], t))
  {
    hide StrToL, StrToUl, ReadTextLine;
  }

  /** A song line with a negative index is ignored, and so is a line without a colon after its number. */
  lemma MalformedIgnored(n: nat, rest: string, priority: nat, q: seq<Saved>, t: Target)
    ensures n > 0 ==> AppendLine("-" + Digits(n) + ":" + rest, priority, q, t) == q
    ensures rest == "" || (rest[0] != ':' && !IsDigit(rest[0])) ==> AppendLine(Digits(n) + rest, priority, q, t) == q
  {
    hide Digits, ScanNumber;
    var line := "-" + Digits(n) + ":" + rest;
    assert line == "" + (['-'] + Digits(n) + (":" + rest));
    ScanSigned("", '-', n, ":" + rest);
    if rest == "" || !IsDigit(rest[0]) {
      ScanDigits(n, rest);
      assert rest != "" ==> (Digits(n) + rest)[|Digits(n)|] == rest[0];
    }
  }

  /** No URI ends with a carriage return. */
  predicate NoTrailingCr(q: seq<Saved>) {
    forall i :: 0 <= i < |q| ==> StripCr(q[i].uri) == q[i].uri
  }

  lemma {:induction false} ReloadedSame(q: seq<Saved>, i: nat, t: Target)
    requires i <= |q| && Savable(q) && NoTrailingCr(q)
    requires forall k :: 0 <= k < |q| ==> t.known(q[k].uri)
    ensures Reloaded(q, i, t) == q[i..]
    decreases |q| - i
  {
    if i < |q| {
      ReloadedSame(q, i + 1, t);
    }
  }

  lemma {:induction false} ReloadedNoLonger(q: seq<Saved>, i: nat, t: Target)
    requires i <= |q|
    ensures TotalLength(Reloaded(q, i, t)) <= TotalLength(q[i..])
    decreases |q| - i
  {
    if i < |q| {
      ReloadedNoLonger(q, i + 1, t);
      ReloadedLength(q, i, t);
    }
  }

  lemma ReloadedLength(q: seq<Saved>, i: nat, t: Target)
    requires i < |q|
    ensures TotalLength(q[i..]) == |q[i].uri| + TotalLength(q[i + 1..])
    ensures TotalLength(Reloaded(q, i, t)) == TotalLength(Reloaded(q, i + 1, t)) +
              var uri := StripCr(q[i].uri); if uri != "" && t.known(uri) then |uri| else 0
  {
    assert q[i..][1..] == q[i + 1..];
    var uri := StripCr(q[i].uri);
    var rest := Reloaded(q, i + 1, t);
    if uri != "" && t.known(uri) {
      assert ([Saved(uri, q[i].priority)] + rest)[1..] == rest;
    } else {
      assert [] + rest == rest;
    }
  }

  /** A URI that ends with a carriage return comes back shorter, if at all. */
  lemma {:induction false} ReloadedShorter(q: seq<Saved>, i: nat, k: nat, t: Target)
    requires i <= k < |q| && StripCr(q[k].uri) != q[k].uri
    ensures TotalLength(Reloaded(q, i, t)) < TotalLength(q[i..])
    decreases |q| - i
  {
    ReloadedLength(q, i, t);
    if i == k {
      ReloadedNoLonger(q, i + 1, t);
    } else {
      ReloadedShorter(q, i + 1, k, t);
    }
  }

  /** The number of characters in all URIs. */
  function TotalLength(q: seq<Saved>): nat {
    if q == [] then 0 else |q[0].uri| + TotalLength(q[1..])
  }

  /**
   A saved queue whose URIs can be resolved comes back unchanged exactly
   when no URI ends with a carriage return.
   */
  lemma RoundTripExactlyWhen(q: seq<Saved>, tail: string, t: Target)
    requires Savable(q) && |q| <= t.maxLength
    requires forall k :: 0 <= k < |q| ==> t.known(q[k].uri)
    ensures Loaded(SavedText(q, 0) + (END_MARKER + "\n" + tail), [], t) == q <==> NoTrailingCr(q)
  {
    LoadSaved(q, tail, t);
    ReloadedNoMore(q, 0, t);
    if NoTrailingCr(q) {
      ReloadedSame(q, 0, t);
    } else {
      var k :| 0 <= k < |q| && StripCr(q[k].uri) != q[k].uri;
      ReloadedShorter(q, 0, k, t);
      assert q[0..] == q;
    }
  }
}
