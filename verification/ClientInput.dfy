/**
 Input from a client: lines are cut out of the byte stream as they become complete,
 independently of how the socket divides the stream into chunks.
 */
module ClientInput {
  import opened Basics
  import opened FifoBuffer

  /** The capacity that `client_new()` gives the input buffer. */
  const INPUT_SIZE: nat := 4096

  const NEWLINE: Byte := 10

  /** `memchr(p, '\n', length)`: the index of the first newline, or the length. */
  function NewlineAt(s: seq<Byte>): (i: nat)
    ensures i <= |s| && (i < |s| ==> s[i] == NEWLINE)
    ensures forall j :: 0 <= j < i ==> s[j] != NEWLINE
  {
    if s == [] || s[0] == NEWLINE then 0 else 1 + NewlineAt(s[1..])
  }

  /** What `strndup()` copies: up to the first NUL. */
  function UpToNul(s: seq<Byte>): (r: seq<Byte>)
    ensures r <= s && 0 !in r && (|r| < |s| ==> s[|r|] == 0)
  {
    if s == [] || s[0] == 0 then [] else [s[0]] + UpToNul(s[1..])
  }

  /** `g_ascii_isspace()` */
  predicate IsSpace(c: Byte) {
    c == 32 || c == 9 || c == 10 || c == 12 || c == 13
  }

  /** `g_strchomp()` */
  function Chomp(s: seq<Byte>): (r: seq<Byte>)
    ensures r <= s && (r != [] ==> !IsSpace(r[|r| - 1]))
    ensures forall i :: |r| <= i < |s| ==> IsSpace(s[i])
  {
    if s != [] && IsSpace(s[|s| - 1]) then Chomp(s[..|s| - 1]) else s
  }

  /** The complete lines of a byte stream, as they are passed to `client_process_line()`. */
  function LinesOf(s: seq<Byte>): seq<seq<Byte>> {
    var i := NewlineAt(s);
    if i == |s| then [] else [Chomp(UpToNul(s[..i]))] + LinesOf(s[i + 1..])
  }

  /** The bytes after the last newline. */
  function RestOf(s: seq<Byte>): seq<Byte> {
    var i := NewlineAt(s);
    if i == |s| then s else RestOf(s[i + 1..])
  }

  /** What is left over is the beginning of an unterminated line. */
  lemma {:induction false} RestIsUnterminated(s: seq<Byte>)
    ensures NEWLINE !in RestOf(s)
    decreases |s|
  {
    var i := NewlineAt(s);
    if i < |s| {
      RestIsUnterminated(s[i + 1..]);
    }
  }

  lemma NewlineUnique(s: seq<Byte>, i: nat)
    requires i < |s| && s[i] == NEWLINE && forall j :: 0 <= j < i ==> s[j] != NEWLINE
    ensures NewlineAt(s) == i
  {
  }

  /** Cutting lines out of a prefix first changes nothing. */
  lemma {:induction false} LinesOfConcat(a: seq<Byte>, b: seq<Byte>)
    ensures LinesOf(a + b) == LinesOf(a) + LinesOf(RestOf(a) + b)
    ensures RestOf(a + b) == RestOf(RestOf(a) + b)
    decreases |a|
  {
    hide Chomp, UpToNul, NewlineAt, LinesOf, RestOf;
    var i := NewlineAt(a);
    LinesStep(a);
    if i < |a| {
      assert (a + b)[..i] == a[..i] && (a + b)[i + 1..] == a[i + 1..] + b;
      NewlineUnique(a + b, i);
      LinesStep(a + b);
      LinesOfConcat(a[i + 1..], b);
    }
  }

  /** What a client that is fed one chunk after another has processed and has left over. */
  function Feed(lines: seq<seq<Byte>>, rest: seq<Byte>, chunks: seq<seq<Byte>>): (seq<seq<Byte>>, seq<Byte>)
    decreases |chunks|
  {
    if chunks == [] then (lines, rest)
    else
      var all := rest + chunks[0];
      Feed(lines + LinesOf(all), RestOf(all), chunks[1..])
  }

  function Flatten(chunks: seq<seq<Byte>>): seq<Byte> {
    if chunks == [] then [] else chunks[0] + Flatten(chunks[1..])
  }

  lemma {:induction false} FeedFrom(seen: seq<Byte>, chunks: seq<seq<Byte>>)
    ensures Feed(LinesOf(seen), RestOf(seen), chunks) ==
            (LinesOf(seen + Flatten(chunks)), RestOf(seen + Flatten(chunks)))
    decreases |chunks|
  {
    hide LinesOf, RestOf, NewlineAt;
    if chunks == [] {
      assert seen + Flatten(chunks) == seen;
    } else {
      LinesOfConcat(seen, chunks[0]);
      FeedFrom(seen + chunks[0], chunks[1..]);
      assert seen + chunks[0] + Flatten(chunks[1..]) == seen + Flatten(chunks);
    }
  }

  /** Two ways to divide the same stream into chunks lead to the same lines and the same remainder. */
  lemma ChunkingIrrelevant(chunks: seq<seq<Byte>>, chunks': seq<seq<Byte>>)
    requires Flatten(chunks) == Flatten(chunks')
    ensures Feed([], [], chunks) == Feed([], [], chunks')
  {
    FeedFrom([], chunks);
    FeedFrom([], chunks');
    assert LinesOf([]) == [] && RestOf([]) == [];
  }

  /** A line that a client means: without newline and NUL, and without space at its end. */
  predicate IsPlain(line: seq<Byte>) {
    NEWLINE !in line && 0 !in line && (line != [] ==> !IsSpace(line[|line| - 1]))
  }

  /** What a client sends: each line, whatever space it puts after it, and a newline. */
  function Sent(lines: seq<seq<Byte>>, padding: seq<Byte>): seq<Byte> {
    if lines == [] then [] else lines[0] + padding + [NEWLINE] + Sent(lines[1..], padding)
  }

  /** Every client is understood: its lines are processed as it meant them, one by one. */
  lemma {:induction false} LinesRoundTrip(lines: seq<seq<Byte>>, padding: seq<Byte>, rest: seq<Byte>)
    requires forall i :: 0 <= i < |lines| ==> IsPlain(lines[i])
    requires forall i :: 0 <= i < |padding| ==> IsSpace(padding[i]) && padding[i] != NEWLINE
    requires NEWLINE !in rest
    ensures LinesOf(Sent(lines, padding) + rest) == lines && RestOf(Sent(lines, padding) + rest) == rest
    decreases |lines|
  {
    hide LinesOf, RestOf, NewlineAt, Chomp, UpToNul;
    var all := Sent(lines, padding) + rest;
    LinesStep(all);
    if lines == [] {
      assert all == rest;
    } else {
      var line, more := lines[0] + padding, Sent(lines[1..], padding) + rest;
      assert all == line + [NEWLINE] + more;
      NewlineUnique(all, |line|);
      assert all[..|line|] == line && all[|line| + 1..] == more;
      PaddingCut(lines[0], padding);
      LinesRoundTrip(lines[1..], padding, rest);
      assert [lines[0]] + lines[1..] == lines;
    }
  }

  lemma PaddingCut(line: seq<Byte>, padding: seq<Byte>)
    requires IsPlain(line) && forall i :: 0 <= i < |padding| ==> IsSpace(padding[i])
    ensures Chomp(UpToNul(line + padding)) == line
  {
    WithoutNul(line + padding);
    PaddingChomped(line, padding);
  }

  lemma {:induction false} WithoutNul(s: seq<Byte>)
    requires 0 !in s
    ensures UpToNul(s) == s
  {
    if s != [] {
      WithoutNul(s[1..]);
    }
  }

  lemma {:induction false} PaddingChomped(line: seq<Byte>, padding: seq<Byte>)
    requires IsPlain(line) && forall i :: 0 <= i < |padding| ==> IsSpace(padding[i])
    ensures Chomp(line + padding) == line
    decreases |padding|
  {
    if padding == [] {
      assert line + padding == line;
    } else {
      var n := |padding| - 1;
      assert (line + padding)[..|line| + n] == line + padding[..n];
      PaddingChomped(line, padding[..n]);
    }
  }

  datatype Return = Ok | Close | Kill

  /** What `client_process_line()` answers to a line, and whether the client has expired then. */
  datatype Verdict = Verdict(answer: Return, expired: bool)

  predicate GoesOn(v: Verdict) {
    v.answer.Ok? && !v.expired
  }

  /** What is made of the verdicts on the lines of one read: the first that ends the connection is the last. */
  predicate Concludes(verdicts: seq<Verdict>, r: Return) {
    if forall i :: 0 <= i < |verdicts| ==> GoesOn(verdicts[i]) then r.Ok?
    else
      var n := |verdicts| - 1;
      && (forall i :: 0 <= i < n ==> GoesOn(verdicts[i])) && !GoesOn(verdicts[n])
      && r == if verdicts[n].answer.Ok? then Close else verdicts[n].answer
  }

  /** What a read answers: an overflow, the end of the stream and an error close the connection. */
  predicate Answers(status: Status, overflow: bool, verdicts: seq<Verdict>, r: Return) {
    if overflow || status.Eof? || status.Error? then r.Close?
    else if status.Again? then r.Ok?
    else Concludes(verdicts, r)
  }

  class Client {
    const input: FifoBuffer

    /** The lines that have been passed to `client_process_line()`. */
    var lines: seq<seq<Byte>>

    /** The verdicts on these lines. */
    ghost var verdicts: seq<Verdict>

    /** Everything that has been read from the socket. */
    ghost var received: seq<Byte>

    ghost predicate Valid()
      reads this, input
    {
      input.Valid() && input.buffer.Length == INPUT_SIZE && |verdicts| == |lines|
    }

    /** All complete lines have been processed, and the buffer holds what follows them. */
    ghost predicate Ready()
      reads this, input, input.buffer
    {
      Valid() && lines == LinesOf(received) && input.Contents() == RestOf(received)
    }

    constructor ()
      ensures Ready() && received == []
      ensures fresh(input) && fresh(input.buffer)
    {
      input := new FifoBuffer(INPUT_SIZE);
      lines, verdicts, received := [], [], [];
    }

    /** `client_process_line()` with any outcome. */
    method ProcessLine(line: seq<Byte>) returns (r: Return, expired: bool)
      modifies this`lines, this`verdicts
      ensures lines == old(lines) + [line] && verdicts == old(verdicts) + [Verdict(r, expired)]
    {
      lines := lines + [line];
      r :| r.Ok? || r.Close? || r.Kill?;
      expired :| expired || !expired;
      verdicts := verdicts + [Verdict(r, expired)];
    }

    /** `client_read_line()` */
    method ReadLine() returns (line: Option<seq<Byte>>)
      requires Valid()
      modifies input`start
      ensures Valid() && input.buffer == old(input.buffer)
      ensures var s := old(input.Contents());
              var i := NewlineAt(s);
              if i == |s| then line.None? && input.Contents() == s
              else line == Some(Chomp(UpToNul(s[..i]))) && input.Contents() == s[i + 1..]
    {
      var p := input.Read();
      if p.None? {
        return None;
      }
      var newline := NewlineAt(p.value);
      if newline == |p.value| {
        return None;
      }
      input.Consume(newline + 1);
      return Some(Chomp(UpToNul(p.value[..newline])));
    }

    /** `client_input_received()` */
    method InputReceived(data: seq<Byte>) returns (r: Return)
      requires Ready() && input.end + |data| <= INPUT_SIZE
      modifies this`lines, this`verdicts, this`received, input, input.buffer
      ensures Valid() && input.buffer == old(input.buffer)
      ensures received == old(received) + data
      ensures r.Ok? ==> Ready()
      ensures old(lines) <= lines <= LinesOf(received)
      ensures old(verdicts) <= verdicts && Concludes(verdicts[|old(verdicts)|..], r)
    {
      hide LinesOf, RestOf, NewlineAt;
      LinesOfConcat(received, data);
      received := received + data;
      input.Append(data);
      while true
        invariant Valid() && input.buffer == old(input.buffer)
        invariant old(lines) <= lines && Processing() && received == old(received) + data
        invariant old(verdicts) <= verdicts
        invariant forall i :: |old(verdicts)| <= i < |verdicts| ==> GoesOn(verdicts[i])
        decreases |input.Contents()|
      {
        var more;
        more, r := ProcessNext();
        if !more {
          return;
        }
      }
    }

    /** The lines that have been processed and those still in the buffer are those of the stream. */
    ghost predicate Processing()
      reads this, input, input.buffer
    {
      && Valid()
      && lines + LinesOf(input.Contents()) == LinesOf(received)
      && RestOf(input.Contents()) == RestOf(received)
    }

    /** One turn of the loop of `client_input_received()`. */
    method ProcessNext() returns (more: bool, r: Return)
      requires Processing()
      modifies this`lines, this`verdicts, input`start
      ensures Processing() && old(lines) <= lines && input.buffer == old(input.buffer)
      ensures if |old(input.Contents())| == NewlineAt(old(input.Contents()))
              then !more && r.Ok? && verdicts == old(verdicts)
              else |verdicts| == |old(verdicts)| + 1 && old(verdicts) <= verdicts
                   && more == GoesOn(verdicts[|old(verdicts)|]) && Concludes([verdicts[|old(verdicts)|]], r)
      ensures more ==> |input.Contents()| < |old(input.Contents())|
      ensures !more && r.Ok? ==> Ready()
    {
      hide LinesOf, RestOf, NewlineAt, Chomp, UpToNul;
      LinesStep(input.Contents());
      var line := ReadLine();
      if line.None? {
        return false, Ok;
      }
      ghost var before := lines;
      var expired;
      r, expired := ProcessLine(line.value);
      assert before + ([line.value] + LinesOf(input.Contents())) == lines + LinesOf(input.Contents());
      if r.Kill? || r.Close? {
        return false, r;
      }
      if expired {
        return false, Close;
      }
      return true, Ok;
    }

    /** Makes room in the input buffer. */
    method PrepareInput() returns (room: Option<nat>)
      requires Ready()
      modifies input`start, input`end, input.buffer
      ensures Ready() && input.buffer == old(input.buffer)
      ensures room.None? <==> |RestOf(received)| == INPUT_SIZE
      ensures room.Some? ==> input.end + room.value == INPUT_SIZE
    {
      hide LinesOf, RestOf;
      room := input.PrepareWrite();
    }

    /** The part of `client_read()` after `g_io_channel_read_chars()`, which stores at most `room` bytes. */
    method ReadChars(status: Status, incoming: seq<Byte>, room: nat) returns (r: Return, n: nat)
      requires Ready() && input.end + room <= INPUT_SIZE
      modifies this`lines, this`verdicts, this`received, input, input.buffer
      ensures Valid() && input.buffer == old(input.buffer)
      ensures n <= |incoming| && received == old(received) + incoming[..n]
      ensures old(lines) <= lines <= LinesOf(received) && old(verdicts) <= verdicts
      ensures r.Ok? ==> Ready()
      ensures !status.Normal? ==> n == 0 && lines == old(lines)
      ensures Answers(status, false, verdicts[|old(verdicts)|..], r)
    {
      hide LinesOf, RestOf, Concludes;
      n := 0;
      match status
      case Normal =>
        n :| 0 <= n <= |incoming| && n <= room;
        r := InputReceived(incoming[..n]);
      case Again => r := Ok;
      case Eof => r := Close;
      case Error => r := Close;
    }

    /**
     `client_read()`, given what the socket holds and how it answers; `n` bytes are taken from it.
     An overflow closes the client only if an unterminated line fills the whole buffer.
     */
    method Read(status: Status, incoming: seq<Byte>) returns (r: Return, overflow: bool, n: nat)
      requires Ready()
      modifies this`lines, this`verdicts, this`received, input, input.buffer
      ensures Valid() && input.buffer == old(input.buffer)
      ensures n <= |incoming| && received == old(received) + incoming[..n]
      ensures overflow <==> |RestOf(old(received))| == INPUT_SIZE
      ensures old(lines) <= lines <= LinesOf(received) && old(verdicts) <= verdicts
      ensures r.Ok? ==> Ready()
      ensures overflow || !status.Normal? ==> n == 0 && lines == old(lines)
      ensures Answers(status, overflow, verdicts[|old(verdicts)|..], r)
    {
      hide LinesOf, RestOf, Concludes;
      var room := PrepareInput();
      overflow := room.None?;
      if overflow {
        return Close, overflow, 0;
      }
      r, n := ReadChars(status, incoming, room.value);
    }
  }

  lemma {:induction false} LinesStep(s: seq<Byte>)
    ensures var i := NewlineAt(s);
            if i == |s| then LinesOf(s) == [] && RestOf(s) == s
            else LinesOf(s) == [Chomp(UpToNul(s[..i]))] + LinesOf(s[i + 1..]) && RestOf(s) == RestOf(s[i + 1..])
  {
  }
}
