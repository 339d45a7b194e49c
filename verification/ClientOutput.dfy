/**
 Output to a client: a send buffer that is flushed to a non-blocking socket, and a
 queue of deferred buffers for what the socket does not accept.
 */
module ClientOutput {
  import opened Basics

  /** `sizeof(client->send_buf)` */
  const SEND_BUF_SIZE: nat := 16384

  /** The size of a deferred buffer without its data. */
  const HEADER: nat := 8

  /** The contents of the deferred buffers, in the order of the queue. */
  function Concat(q: seq<seq<Byte>>): seq<Byte> {
    if q == [] then [] else q[0] + Concat(q[1..])
  }

  /** The memory that the deferred buffers consume. */
  function Cost(q: seq<seq<Byte>>): nat {
    if q == [] then 0 else HEADER + |q[0]| + Cost(q[1..])
  }

  lemma {:induction false} ConcatSnoc(q: seq<seq<Byte>>, b: seq<Byte>)
    ensures Concat(q + [b]) == Concat(q) + b
    ensures Cost(q + [b]) == Cost(q) + HEADER + |b|
  {
    if q == [] {
      assert q + [b] == [b];
    } else {
      ConcatSnoc(q[1..], b);
      assert (q + [b])[1..] == q[1..] + [b];
    }
  }

  /** What is left of the queue after the first `n` bytes of its first buffer have been sent. */
  function Advance(q: seq<seq<Byte>>, n: nat): seq<seq<Byte>>
    requires q != [] && n <= |q[0]|
  {
    if n < |q[0]| then [q[0][n..]] + q[1..] else q[1..]
  }

  lemma {:induction false} AdvanceSends(q: seq<seq<Byte>>, n: nat)
    requires q != [] && n <= |q[0]|
    ensures q[0][..n] + Concat(Advance(q, n)) == Concat(q)
    ensures Cost(Advance(q, n)) == if n < |q[0]| then Cost(q) - n else Cost(q) - HEADER - |q[0]|
  {
    if n < |q[0]| {
      assert Advance(q, n)[1..] == q[1..];
      assert Concat(Advance(q, n)) == q[0][n..] + Concat(q[1..]);
      assert q[0][..n] + q[0][n..] == q[0];
    } else {
      assert q[0][..n] == q[0];
    }
  }

  lemma FirstCost(q: seq<seq<Byte>>)
    requires q != []
    ensures HEADER + |q[0]| <= Cost(q)
  {
  }

  lemma SentThenRest(sent: seq<Byte>, data: seq<Byte>, n: nat)
    requires n <= |data|
    ensures (sent + data[..n]) + data[n..] == sent + data
    ensures n == |data| ==> (sent + data[..n]) + [] == sent + data
    ensures sent <= sent + data[..n] <= sent + data && [] + data[n..] == data[n..]
  {
  }

  lemma NoCost()
    ensures Cost([]) == 0 && Concat([]) == []
  {
  }

  /** What the socket answers to an attempt to send something. */
  datatype Answer = Answer(status: Status, offered: nat, accepted: nat)

  predicate TakesAll(a: Answer) {
    a.status.Normal? && a.accepted == a.offered
  }

  /** The client has disconnected, or the connection is broken. */
  predicate IsBroken(a: Answer) {
    a.status.Eof? || a.status.Error?
  }

  predicate AllTaken(answers: seq<Answer>) {
    forall i :: 0 <= i < |answers| ==> TakesAll(answers[i])
  }

  /** Sending goes on as long as everything is accepted. */
  predicate StopsAtFirst(answers: seq<Answer>) {
    answers == [] || AllTaken(answers[..|answers| - 1])
  }

  predicate EndsBroken(answers: seq<Answer>) {
    answers != [] && IsBroken(answers[|answers| - 1])
  }

  lemma OneMoreAnswer(before: seq<Answer>, from: nat, answers: seq<Answer>)
    requires from <= |before| && |answers| == |before| + 1 && answers[..|before|] == before
    ensures answers[from..][..|answers| - 1 - from] == before[from..]
    ensures AllTaken(before[from..]) ==> StopsAtFirst(answers[from..])
    ensures AllTaken(answers[from..]) <==> AllTaken(before[from..]) && TakesAll(answers[|before|])
    ensures EndsBroken(answers[from..]) <==> IsBroken(answers[|before|])
  {
    assert answers[from..] == before[from..] + [answers[|before|]];
  }

  lemma LaterAnswers(before: seq<Answer>, from: nat, answers: seq<Answer>)
    requires from <= |before| && before <= answers
    ensures AllTaken(answers[from..]) <==> AllTaken(before[from..]) && AllTaken(answers[|before|..])
  {
    assert answers[from..] == before[from..] + answers[|before|..];
  }

  class Client {
    const sendBuf: array<Byte>
    var sendBufUsed: nat
    var deferredSend: seq<seq<Byte>>
    var deferredBytes: nat
    var expired: bool

    /** `client_max_output_buffer_size` */
    const maxOutput: nat

    /** What the socket has answered. */
    ghost var answers: seq<Answer>

    /** What the socket has accepted. */
    ghost var sent: seq<Byte>

    /** What has been written to the client while it was not expired. */
    ghost var written: seq<Byte>

    /** What is waiting in the client object to be sent. */
    ghost function Pending(): seq<Byte>
      reads this, sendBuf
      requires sendBufUsed <= sendBuf.Length
    {
      Concat(deferredSend) + sendBuf[..sendBufUsed]
    }

    /** The deferred buffers are accounted for. */
    ghost predicate Accounted()
      reads this
    {
      && deferredBytes == Cost(deferredSend) <= maxOutput
      && forall i :: 0 <= i < |deferredSend| ==> deferredSend[i] != []
    }

    /** Nothing but a prefix of what was written is ever sent; until the client expires, nothing is lost. */
    ghost predicate Valid()
      reads this, sendBuf
    {
      && sendBuf.Length == SEND_BUF_SIZE && sendBufUsed <= SEND_BUF_SIZE
      && sent <= written
      && (!expired ==> Accounted() && sent + Pending() == written && sendBufUsed < SEND_BUF_SIZE)
    }

    constructor (maxOutput: nat)
      ensures Valid() && fresh(sendBuf) && !expired && written == [] && this.maxOutput == maxOutput
    {
      sendBuf := new Byte[SEND_BUF_SIZE];
      this.maxOutput := maxOutput;
      sendBufUsed, deferredSend, deferredBytes, expired := 0, [], 0, false;
      sent, written, answers := [], [], [];
      new;
      assert Pending() == [];
    }

    /** `g_io_channel_write_chars()` on an unbuffered, non-blocking channel: any outcome. */
    method WriteChars(data: seq<Byte>) returns (status: Status, n: nat)
      modifies this`sent, this`answers
      ensures n <= |data| && (!status.Normal? ==> n == 0)
      ensures sent == old(sent) + data[..n] && answers == old(answers) + [Answer(status, |data|, n)]
    {
      status :| status.Normal? || status.Again? || status.Eof? || status.Error?;
      n := 0;
      if status.Normal? {
        n :| 0 <= n <= |data|;
      }
      sent := sent + data[..n];
      answers := answers + [Answer(status, |data|, n)];
    }

    /** `client_write_deferred_buffer()` */
    method WriteDeferredBuffer(data: seq<Byte>) returns (n: nat)
      modifies this`sent, this`answers, this`expired
      ensures n <= |data| && sent == old(sent) + data[..n]
      ensures |answers| == |old(answers)| + 1 && answers[..|old(answers)|] == old(answers)
      ensures var a := answers[|old(answers)|];
              && n == a.accepted && |data| == a.offered && (!a.status.Normal? ==> n == 0)
              && expired == (old(expired) || IsBroken(a))
    {
      var status;
      status, n := WriteChars(data);
      match status
      case Normal =>
      case Again =>
      case Eof => expired := true;
      case Error => expired := true;
    }

    /** `client_write_deferred()` */
    method WriteDeferred()
      requires !expired && Accounted()
      modifies this`sent, this`answers, this`expired, this`deferredSend, this`deferredBytes
      ensures Accounted() && sent + Concat(deferredSend) == old(sent + Concat(deferredSend))
      ensures |deferredSend| <= old(|deferredSend|) && old(sent) <= sent
      ensures old(answers) <= answers
      ensures var got := answers[|old(answers)|..];
              StopsAtFirst(got) && (deferredSend == [] <==> AllTaken(got)) && (expired <==> EndsBroken(got))
    {
      hide Concat, Cost;
      while deferredSend != []
        invariant !expired && Accounted() && sent + Concat(deferredSend) == old(sent + Concat(deferredSend))
        invariant |deferredSend| <= old(|deferredSend|) && old(sent) <= sent
        invariant old(answers) <= answers && AllTaken(answers[|old(answers)|..])
        decreases |deferredSend|
      {
        ghost var before := answers;
        var gone := SendFirst();
        OneMoreAnswer(before, old(|answers|), answers);
        if !gone {
          return;
        }
      }
      assert deferredSend == [] ==> deferredBytes == 0 by { NoCost(); }
    }

    /** One turn of the loop of `client_write_deferred()`; has the first buffer been sent completely? */
    method SendFirst() returns (gone: bool)
      requires !expired && Accounted() && deferredSend != []
      modifies this`sent, this`answers, this`expired, this`deferredSend, this`deferredBytes
      ensures Accounted() && sent + Concat(deferredSend) == old(sent + Concat(deferredSend)) && old(sent) <= sent
      ensures gone ==> !expired && |deferredSend| == old(|deferredSend|) - 1
      ensures !gone ==> |deferredSend| == old(|deferredSend|)
      ensures |answers| == |old(answers)| + 1 && answers[..|old(answers)|] == old(answers)
      ensures var a := answers[|old(answers)|]; (gone <==> TakesAll(a)) && (expired <==> IsBroken(a))
    {
      hide Concat, Cost;
      ghost var q := deferredSend;
      var buf := deferredSend[0];
      FirstCost(deferredSend);
      assert buf != [] && |buf| <= deferredBytes;
      var n := WriteDeferredBuffer(buf);
      AdvanceSends(q, n);
      assert sent + Concat(Advance(q, n)) == old(sent) + (buf[..n] + Concat(Advance(q, n)));
      if n == 0 {
        assert Advance(q, 0) == q;
        return false;
      }
      if n < |buf| {
        deferredBytes := deferredBytes - n;
        deferredSend := deferredSend[0 := buf[n..]];
        assert deferredSend == Advance(q, n);
        return false;
      } else {
        deferredBytes := deferredBytes - (HEADER + |buf|);
        deferredSend := deferredSend[1..];
        return true;
      }
    }

    /** `client_defer_output()` */
    method DeferOutput(data: seq<Byte>)
      requires !expired && Accounted() && data != []
      modifies this`expired, this`deferredSend, this`deferredBytes
      ensures expired <==> old(deferredBytes) + HEADER + |data| > maxOutput
      ensures !expired ==> Accounted() && deferredSend == old(deferredSend) + [data]
      ensures expired ==> deferredSend == old(deferredSend)
    {
      ConcatSnoc(deferredSend, data);
      deferredBytes := deferredBytes + HEADER + |data|;
      if deferredBytes > maxOutput {
        expired := true;
        return;
      }
      deferredSend := deferredSend + [data];
    }

    /** `client_write_direct()` */
    method WriteDirect(data: seq<Byte>)
      requires !expired && Accounted() && deferredSend == [] && data != []
      modifies this`sent, this`answers, this`expired, this`deferredSend, this`deferredBytes
      ensures !expired ==> Accounted() && sent + Concat(deferredSend) == old(sent) + data
      ensures old(sent) <= sent <= old(sent) + data
      ensures |answers| == |old(answers)| + 1 && answers[..|old(answers)|] == old(answers)
      ensures var a := answers[|old(answers)|];
              && a.offered == |data|
              && (expired <==> IsBroken(a) || (a.accepted < |data| && HEADER + |data| - a.accepted > maxOutput))
              && (TakesAll(a) <==> !expired && deferredSend == [])
    {
      var status, n := WriteChars(data);
      match status {
        case Normal =>
        case Again =>
        case Eof =>
          expired := true;
          return;
        case Error =>
          expired := true;
          return;
      }
      NoCost();
      hide Concat, Cost;
      SentThenRest(old(sent), data, n);
      if n < |data| {
        ConcatSnoc([], data[n..]);
        DeferOutput(data[n..]);
      }
    }

    /** `client_write_output()` */
    method WriteOutput()
      requires sendBuf.Length == SEND_BUF_SIZE && sendBufUsed <= SEND_BUF_SIZE && sent <= written
      requires !expired ==> Accounted() && sent + Pending() == written
      modifies this`sent, this`answers, this`expired, this`deferredSend, this`deferredBytes, this`sendBufUsed
      ensures Valid()
      ensures !expired && !old(expired) ==> sendBufUsed == 0
      ensures old(answers) <= answers
      ensures old(expired || sendBufUsed == 0) ==> answers == old(answers) && expired == old(expired)
      ensures var got := answers[|old(answers)|..];
              old(!expired && sendBufUsed > 0 && deferredSend != []) ==>
                var over := old(deferredBytes + HEADER + sendBufUsed) > maxOutput;
                && (expired <==> over || EndsBroken(got))
                && (!over ==> StopsAtFirst(got) && (deferredSend == [] <==> AllTaken(got)))
      ensures var got := answers[|old(answers)|..];
              old(!expired && sendBufUsed > 0 && deferredSend == []) ==>
                |got| == 1 && got[0].offered == old(sendBufUsed)
                && (TakesAll(got[0]) <==> !expired && deferredSend == [])
    {
      if expired || sendBufUsed == 0 {
        return;
      }
      var data := sendBuf[..sendBufUsed];
      if deferredSend != [] {
        ConcatSnoc(deferredSend, data);
        DeferOutput(data);
        if expired {
          return;
        }
        assert sent + Concat(deferredSend) == written;
        WriteDeferred();
      } else {
        assert sent + data == written;
        WriteDirect(data);
      }
      sendBufUsed := 0;
      assert Pending() == Concat(deferredSend);
    }

    /** `client_write()`: everything is sent or kept in order, unless the client expires. */
    method Write(buffer: seq<Byte>)
      requires Valid()
      modifies this, sendBuf
      ensures Valid()
      ensures old(written) <= written <= old(written) + buffer
      ensures old(expired) ==> expired && written == old(written) && sent == old(sent)
      ensures !expired ==> written == old(written) + buffer
      ensures old(answers) <= answers
      ensures old(!expired && deferredSend == []) && AllTaken(answers[|old(answers)|..]) ==>
                !expired && deferredSend == []
    {
      if expired {
        return;
      }
      var rest := buffer;
      while rest != [] && !expired
        invariant Valid() && |rest| <= |buffer|
        invariant old(written) + buffer == written + rest && old(written) <= written
        invariant old(answers) <= answers
        invariant old(deferredSend) == [] && AllTaken(answers[|old(answers)|..]) ==> !expired && deferredSend == []
        decreases |rest|
      {
        assert sendBufUsed < SEND_BUF_SIZE;
        var copylen := SEND_BUF_SIZE - sendBufUsed;
        if copylen > |rest| {
          copylen := |rest|;
        }
        CopyToSendBuf(rest[..copylen]);
        rest := rest[copylen..];
        if sendBufUsed >= SEND_BUF_SIZE {
          ghost var before := answers;
          WriteOutput();
          LaterAnswers(before, old(|answers|), answers);
        }
      }
    }

    /** Appends a block to the send buffer. */
    method CopyToSendBuf(data: seq<Byte>)
      requires Valid() && !expired && sendBufUsed + |data| <= SEND_BUF_SIZE
      modifies this`sendBufUsed, this`written, sendBuf
      ensures sendBufUsed == old(sendBufUsed) + |data| && written == old(written) + data
      ensures sent + Pending() == written && sent <= written && Accounted()
    {
      hide Concat, Cost;
      ghost var before := sendBuf[..sendBufUsed];
      Memcpy(sendBuf, sendBufUsed, data);
      sendBufUsed := sendBufUsed + |data|;
      written := written + data;
      assert sendBuf[..sendBufUsed] == before + data;
      assert sent + (Concat(deferredSend) + (before + data)) == sent + (Concat(deferredSend) + before) + data;
    }
  }

  method Memcpy(dest: array<Byte>, at: nat, data: seq<Byte>)
    requires at + |data| <= dest.Length
    modifies dest
    ensures dest[..] == old(dest[..at]) + data + old(dest[at + |data|..])
  {
    for i := 0 to |data|
      invariant forall j :: 0 <= j < dest.Length ==>
        dest[j] == if at <= j < at + i then data[j - at] else old(dest[j])
    {
      dest[at + i] := data[i];
    }
  }
}
