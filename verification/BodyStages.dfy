/** What the body stages of a round trip hand on: the mutated request body, the observed response
    body (up to the first error) and the response whose start was captured for the controller.
    A script is what a source's successive reads return and what the stage's callback makes of each. */
module BodyStages {
  import opened Prelude

  datatype Error = EOF | UnexpectedEOF | Canceled | Fault(code: nat)

  /** One read of the source: its bytes and its error, and the callback's answer to the bytes. */
  datatype Turn = Turn(data: seq<byte>, end: Option<Error>, answer: seq<byte>, failure: Option<Error>)

  predicate Failed(t: Turn) { t.data != [] && t.failure.Some? }

  predicate Quiet(t: Turn) { t.end.None? && !Failed(t) }

  function Processed(t: Turn): seq<byte> { if t.data == [] then [] else t.answer }

  // ---- The mutating body -------------------------------------------------

  /** The source's error replaces the callback's. */
  function MutateEnd(t: Turn): Option<Error> {
    if t.end.Some? then t.end else if Failed(t) then t.failure else None
  }

  /** What reading the mutating body to its error yields. No error: the source never ended. */
  function Mutated(script: seq<Turn>): (r: (seq<byte>, Option<Error>)) {
    if script == [] then ([], None)
    else if MutateEnd(script[0]).Some? then (Processed(script[0]), MutateEnd(script[0]))
    else
      var (rest, end) := Mutated(script[1..]);
      (Processed(script[0]) + rest, end)
  }

  function Answers(script: seq<Turn>): seq<seq<byte>> {
    seq(|script|, i requires 0 <= i < |script| => Processed(script[i]))
  }

  /** The bytes are the processed chunks in order, up to and including the first turn that ends the body. */
  lemma {:induction false} MutatedConcatenates(script: seq<Turn>, k: nat)
    requires k < |script| && MutateEnd(script[k]).Some?
    requires forall i :: 0 <= i < k ==> Quiet(script[i])
    ensures Mutated(script) == (Concat(Answers(script[..k + 1])), MutateEnd(script[k]))
    decreases k
  {
    var parts := Answers(script[..k + 1]);
    assert parts == [Processed(script[0])] + parts[1..];
    ConcatFront(Processed(script[0]), parts[1..]);
    if k == 0 {
      assert parts[1..] == [] && parts[0] + [] == parts[0];
    } else {
      assert Quiet(script[0]);
      MutatedConcatenates(script[1..], k - 1);
      assert parts[1..] == Answers(script[1..][..k]);
    }
  }

  /** A failed mutation reaches the reader of the body unless the same read also ended the source with
      a different error; the body then passes for one that ended as the source did. */
  lemma FailureIsReported(script: seq<Turn>, k: nat)
    requires k < |script| && Failed(script[k]) && forall i :: 0 <= i < k ==> Quiet(script[i])
    ensures Mutated(script).1 == script[k].failure <==> script[k].end.None? || script[k].end == script[k].failure
  {
    MutatedConcatenates(script, k);
  }

  /** A chunk that arrives together with EOF: its failed mutation looks like the end of the body. */
  lemma FailureCanBeHidden(b: byte)
    ensures Mutated([Turn([b], Some(EOF), [], Some(Fault(0)))]) == ([], Some(EOF))
  {
    var script := [Turn([b], Some(EOF), [], Some(Fault(0)))];
    assert Failed(script[0]);
  }

  /** The source's first k + 1 turns end it with EOF and no mutation failed on the way. */
  predicate EndsCleanly(script: seq<Turn>, k: nat) {
    k < |script| && script[k].end == Some(EOF) && !Failed(script[k]) && forall i :: 0 <= i < k ==> Quiet(script[i])
  }

  /** A store's reader never returns bytes with an error and mutation errors are never EOF: over it,
      a mutated body that ends in EOF is one whose every chunk was mutated. */
  lemma {:induction false} StoreHidesNothing(script: seq<Turn>)
    requires forall i :: 0 <= i < |script| ==> script[i].data == [] || script[i].end.None?
    requires forall i :: 0 <= i < |script| ==> script[i].failure != Some(EOF)
    ensures Mutated(script).1 == Some(EOF) <==> exists k: nat :: EndsCleanly(script, k)
  {
    if script != [] {
      var rest := script[1..];
      if MutateEnd(script[0]).Some? {
        assert Mutated(script).1 == Some(EOF) ==> EndsCleanly(script, 0);
        forall k: nat | EndsCleanly(script, k) ensures k == 0 { assert k > 0 ==> Quiet(script[0]); }
      } else {
        StoreHidesNothing(rest);
        if k: nat :| EndsCleanly(rest, k) {
          assert script[k + 1] == rest[k] && forall i :: 0 < i <= k ==> script[i] == rest[i - 1];
          assert EndsCleanly(script, k + 1);
        }
        if k: nat :| EndsCleanly(script, k) {
          assert k > 0 && rest[k - 1] == script[k] && forall i :: 0 <= i < k - 1 ==> rest[i] == script[i + 1];
          assert EndsCleanly(rest, k - 1);
        }
      }
    }
  }

  // ---- The observed body -------------------------------------------------

  /** What a read of the observed body reports on a turn: a failed callback drops the chunk and
        hides the read's own error. */
  function ObserveEnd(t: Turn, done: bool): Option<Error> {
    if t.data != [] && done then Some(Canceled) else if Failed(t) then t.failure else t.end
  }

  /** What reading the observed body up to its first error yields, and what is left of the source then;
      once the round trip is finished no chunk is processed any more. */
  function Observed(script: seq<Turn>, done: bool): (r: (seq<byte>, Option<Error>, seq<Turn>)) {
    if script == [] then ([], None, [])
    else
      var t := script[0];
      if t.data != [] && (done || Failed(t)) then ([], ObserveEnd(t, done), script[1..])
      else if t.end.Some? then (Processed(t), t.end, script[1..])
      else
        var (rest, end, left) := Observed(script[1..], done);
        (Processed(t) + rest, end, left)
  }

  lemma {:induction false} ObservedConcatenates(script: seq<Turn>, k: nat)
    requires k < |script| && !Quiet(script[k]) && forall i :: 0 <= i < k ==> Quiet(script[i])
    ensures Observed(script, false) ==
      (Concat(Answers(script[..if Failed(script[k]) then k else k + 1])), ObserveEnd(script[k], false), script[k + 1..])
    decreases k
  {
    var parts := Answers(script[..if Failed(script[k]) then k else k + 1]);
    if parts != [] {
      assert parts == [Processed(script[0])] + parts[1..];
      ConcatFront(Processed(script[0]), parts[1..]);
    }
    if k == 0 {
      if !Failed(script[0]) { assert parts[1..] == [] && parts[0] + [] == parts[0]; }
    } else {
      assert Quiet(script[0]);
      ObservedConcatenates(script[1..], k - 1);
      assert parts[1..] == Answers(script[1..][..if Failed(script[k]) then k - 1 else k]);
    }
  }

  /** After the round trip is finished, further reads yield no bytes: a reader that goes on past a
      processing error gets errors only. */
  lemma {:induction false} NothingAfterFinish(script: seq<Turn>)
    ensures Observed(script, true).0 == []
    ensures Observed(script, true).1 in {None, Some(Canceled)} ||
      exists i :: 0 <= i < |script| && script[i].data == [] && script[i].end == Observed(script, true).1
  {
    if script != [] && script[0].data == [] && script[0].end.None? {
      NothingAfterFinish(script[1..]);
      if Observed(script, true).1 !in {None, Some(Canceled)} {
        var i :| 0 <= i < |script[1..]| && script[1..][i].data == [] &&
              script[1..][i].end == Observed(script[1..], true).1;
        assert script[i + 1] == script[1..][i];
      }
    }
  }

  // ---- Only the callback's answers come out ------------------------------

  /** What the source's bytes are does not matter to what comes out, only where there are any. */
  lemma {:induction false} DataPlaysNoPart(script: seq<Turn>, other: seq<Turn>, done: bool)
    requires |script| == |other|
    requires forall i :: 0 <= i < |script| ==>
      other[i] == script[i].(data := other[i].data) && (other[i].data == [] <==> script[i].data == [])
    ensures Mutated(script) == Mutated(other)
    ensures Observed(script, done).0 == Observed(other, done).0 && Observed(script, done).1 == Observed(other, done).1
    decreases |script|
  {
    if script != [] {
      assert other[0] == script[0].(data := other[0].data);
      DataPlaysNoPart(script[1..], other[1..], done);
    }
  }

  /** The answers to the turns that brought bytes. */
  predicate AnswersAre(script: seq<Turn>, answers: seq<seq<byte>>) {
    |answers| == |script| &&
    forall i :: 0 <= i < |script| ==> answers[i] == if script[i].data == [] then [] else script[i].answer
  }

  lemma AnswersAreProcessed(script: seq<Turn>, answers: seq<seq<byte>>)
    requires AnswersAre(script, answers)
    ensures Answers(script) == answers
  {}

  /** After k quiet turns, at one that ends the body: the mutated body is the answers so far and this one's, then the
      source's error or else the callback's. The observed body leaves out the answer of a callback that failed and
      reports that failure, or else goes on to the source's error; once the round trip is over it yields nothing. */
  lemma WhatComesOut(script: seq<Turn>, k: nat, answers: seq<seq<byte>>)
    requires k < |script| && AnswersAre(script[..k + 1], answers)
    requires forall i :: 0 <= i < k ==> script[i].end.None? && (script[i].data == [] || script[i].failure.None?)
    requires script[k].end.Some? || (script[k].data != [] && script[k].failure.Some?)
    ensures Mutated(script) == (Concat(answers), if script[k].end.Some? then script[k].end else script[k].failure)
    ensures Observed(script, false) ==
      if script[k].data != [] && script[k].failure.Some?
      then (Concat(answers[..k]), script[k].failure, script[k + 1..])
      else (Concat(answers), script[k].end, script[k + 1..])
  {
    AnswersAreProcessed(script[..k + 1], answers);
    AnswersAreProcessed(script[..k], answers[..k]);
    assert script[..k + 1][..k] == script[..k];
    MutatedConcatenates(script, k);
    ObservedConcatenates(script, k);
  }

  /** Bodies whose chunks are all answered arrive as the answers, in order and complete. */
  lemma AllAnswersArrive(script: seq<Turn>, answers: seq<seq<byte>>, last: Turn)
    requires |script| == |answers| && last.data == [] && last.end == Some(EOF)
    requires forall i :: 0 <= i < |script| ==>
      script[i].data != [] && script[i].end.None? && script[i].failure.None? && script[i].answer == answers[i]
    ensures Mutated(script + [last]) == (Concat(answers), Some(EOF))
    ensures Observed(script + [last], false) == (Concat(answers), Some(EOF), [])
  {
    var (whole, k) := (script + [last], |script|);
    assert whole[..k + 1] == whole && whole[k + 1..] == [];
    WhatComesOut(whole, k, answers + [[]]);
    ConcatAppend(answers, []);
    assert Concat(answers) + [] == Concat(answers);
  }

  /** Once the round trip is over, the first chunk of the source is refused. */
  lemma {:induction false} RefusedWhenOver(script: seq<Turn>, k: nat)
    requires k < |script| && script[k].data != []
    requires forall i :: 0 <= i < k ==> script[i].data == [] && script[i].end.None?
    ensures Observed(script, true) == ([], Some(Canceled), script[k + 1..])
    decreases k
  {
    if k > 0 {
      RefusedWhenOver(script[1..], k - 1);
      assert script[1..][k..] == script[k + 1..] && Processed(script[0]) + [] == [];
    }
  }
}

/** The stages as objects: their fields updated by each Read, their loops as written. */
module BodyStagesImpl {
  import opened Prelude
  import opened BodyStages

  /** copy(target, pending) */
  method CopyOut(target: array<byte>, pending: seq<byte>) returns (n: nat)
    modifies target
    ensures n == Min(target.Length, |pending|)
    ensures target[..n] == pending[..n] && target[n..] == old(target[n..])
  {
    n := 0;
    while n < target.Length && n < |pending|
      invariant n <= target.Length && n <= |pending|
      invariant target[..n] == pending[..n] && target[n..] == old(target[..])[n..]
    {
      target[n] := pending[n];
      n := n + 1;
    }
  }

  lemma TakeFirst<T>(a: seq<T>, b: seq<T>, n: nat)
    requires n <= |a|
    ensures (a + b)[..n] == a[..n] && (a + b)[n..] == a[n..] + b && [] + b == b && a + [] == a
  {}

  class MutatingBody {
    var script: seq<Turn>   // the reads still to come from the source
    var pending: seq<byte>
    var terminalErr: Option<Error>
    var closed: bool

    constructor (script: seq<Turn>)
      ensures !closed && Remaining() == Mutated(script)
    {
      this.script, pending, terminalErr, closed := script, [], None, false;
      new;
      assert [] + Mutated(script).0 == Mutated(script).0;
    }

    /** What the reads from here on yield. */
    ghost function Remaining(): (seq<byte>, Option<Error>)
      reads this
    {
      if closed then ([], Some(EOF))
      else if terminalErr.Some? then (pending, terminalErr)
      else
        var (rest, end) := Mutated(script);
        (pending + rest, end)
    }

    /** Reads hand out the remaining bytes in order, and the error only once they are used up;
        every read after that is EOF. A source that never ends leaves the call waiting. */
    method Read(target: array<byte>) returns (n: nat, err: Option<Error>, waiting: bool)
      modifies this, target
      ensures n <= target.Length && n <= |old(Remaining()).0|
      ensures target[..n] == old(Remaining()).0[..n] && target[n..] == old(target[n..])
      ensures err.None? && !waiting ==>
        Remaining() == (old(Remaining()).0[n..], old(Remaining()).1) && (n > 0 <==> target.Length > 0)
      ensures err.Some? ==> n == 0 && !waiting && old(Remaining()) == ([], err) && Remaining() == ([], Some(EOF))
      ensures waiting ==> n == 0 && old(Remaining()) == ([], None) == Remaining()
      ensures target.Length == 0 && !old(closed) ==> err.None? && !waiting && unchanged(this)
    {
      n, err, waiting := 0, None, false;
      if closed {
        return 0, Some(EOF), false;
      }
      if target.Length == 0 {
        return;
      }
      var goOn := Refill();
      if !goOn {
        return 0, None, true;
      }
      if |pending| > 0 {
        n := CopyOut(target, pending);
        TakeFirst(pending, if terminalErr.Some? then [] else Mutated(script).0, n);
        pending := pending[n..];
        return;
      }
      err := terminalErr;
      closed := true;
    }

    /** The loop that fills pending. */
    method Refill() returns (ready: bool)
      requires !closed
      modifies `script, `pending, `terminalErr
      ensures Remaining() == old(Remaining())
      ensures ready <==> pending != [] || terminalErr.Some?
      ensures !ready ==> Remaining() == ([], None)
    {
      while pending == [] && terminalErr.None? && script != []
        invariant Remaining() == old(Remaining())
        decreases |script|
      {
        var t := script[0];
        TakeFirst([], Mutated(script).0, 0);
        TakeFirst([], Mutated(script[1..]).0, 0);
        if |t.data| > 0 {
          pending, terminalErr := t.answer, t.failure;
        }
        if t.end.Some? {
          terminalErr := t.end;
        }
        script := script[1..];
        assert pending == Processed(t) && terminalErr == MutateEnd(t);
      }
      TakeFirst([], Mutated(script).0, 0);
      ready := pending != [] || terminalErr.Some?;
    }
  }

  class ObservedBody {
    var script: seq<Turn>
    var pending: seq<byte>
    var terminalErr: Option<Error>
    var done: bool                 // the round trip is finished
    var cause: Option<Error>       // what it was finished with, by this body

    constructor (script: seq<Turn>)
      ensures !done && cause == None && Remaining() == Observed(script, false)
    {
      this.script, pending, terminalErr, done, cause := script, [], None, false, None;
      new;
      assert [] + Observed(script, false).0 == Observed(script, false).0;
    }

    /** What reads yield up to the next error, and the source's reads left after it. */
    ghost function Remaining(): (seq<byte>, Option<Error>, seq<Turn>)
      reads this
    {
      if terminalErr.Some? then (pending, terminalErr, script)
      else
        var (rest, end, left) := Observed(script, done);
        (pending + rest, end, left)
    }

    ghost predicate Valid()
      reads this
    {
      terminalErr.Some? ==> done
    }

    method Finish(err: Error)
      modifies `done, `cause
      ensures done
      ensures cause == if old(done) then old(cause) else Some(err)
    {
      if !done {
        done, cause := true, Some(err);
      }
    }

    /** Reads hand out the processed bytes in order. The first error, whichever it is, finishes the
        round trip with that error, once; the source's error stays, after a processing error reads go
        on with the source but yield no more bytes. */
    method Read(target: array<byte>) returns (n: nat, err: Option<Error>, waiting: bool)
      requires Valid()
      modifies this, target
      ensures Valid() && (old(done) ==> done)
      ensures cause == if done && !old(done) then old(Remaining()).1 else old(cause)
      ensures n <= target.Length && n <= |old(Remaining()).0|
      ensures target[..n] == old(Remaining()).0[..n] && target[n..] == old(target[n..])
      ensures err.None? && !waiting ==> (n > 0 <==> target.Length > 0)
      ensures err.None? && !waiting ==> Remaining() == (old(Remaining()).0[n..], old(Remaining()).1, old(Remaining()).2)
      ensures err.Some? ==> n == 0 && !waiting && done && old(Remaining()) == ([], err, script)
      ensures err.Some? ==> if terminalErr.Some? then Remaining() == old(Remaining()) else Remaining().0 == []
      ensures waiting ==> n == 0 && old(Remaining()) == ([], None, [])
      ensures target.Length == 0 ==> err.None? && !waiting && unchanged(this)
    {
      n, err, waiting := 0, None, false;
      if target.Length == 0 {
        return;
      }
      err := Refill();
      if err.Some? {
        return;
      }
      if |pending| > 0 {
        n := CopyOut(target, pending);
        TakeFirst(pending, if terminalErr.Some? then [] else Observed(script, done).0, n);
        pending := pending[n..];
      } else if terminalErr.Some? {
        err := terminalErr;
      } else {
        waiting := true;
      }
    }

    /** The part of Read's loop that asks the source; a processing error leaves it at once. */
    method Refill() returns (failure: Option<Error>)
      requires Valid()
      modifies this
      ensures Valid() && (old(done) ==> done)
      ensures cause == if done && !old(done) then old(Remaining()).1 else old(cause)
      ensures failure.None? ==> Remaining() == old(Remaining()) && (pending == [] && terminalErr.None? ==> script == [])
      ensures failure.Some? ==> done && terminalErr.None? && pending == [] && old(Remaining()) == ([], failure, script)
      ensures failure.Some? ==> Remaining().0 == []
    {
      while pending == [] && terminalErr.None? && script != []
        invariant Valid() && Remaining() == old(Remaining())
        invariant done ==> old(done) || terminalErr.Some?
        invariant old(done) ==> done
        invariant cause == if done && !old(done) then old(Remaining()).1 else old(cause)
        decreases |script|
      {
        var t := script[0];
        TakeFirst([], Observed(script, done).0, 0);
        TakeFirst([], Observed(script[1..], done).0, 0);
        TakeFirst([], Observed(script[1..], true).0, 0);
        NothingAfterFinish(script[1..]);
        script := script[1..];
        if |t.data| > 0 {
          failure := if done then Some(Canceled) else t.failure;
          if failure.Some? {
            Finish(failure.value);
            return;
          }
          pending := t.answer;
        }
        if t.end.Some? {
          terminalErr := t.end;
          Finish(t.end.value);
        }
      }
      failure := None;
    }

    /** Closing before the source ended finishes the round trip as broken off. */
    method Close(sourceErr: Option<Error>)
      modifies `done, `cause
      ensures done
      ensures cause == if old(done) then old(cause) else if sourceErr.Some? then sourceErr else Some(UnexpectedEOF)
    {
      Finish(if sourceErr.Some? then sourceErr.value else UnexpectedEOF);
    }
  }

  // ---- Capturing the start of a response --------------------------------

  /** An upstream body: the bytes it still holds and the error it ends with. */
  class Source {
    var content: seq<byte>
    const end: Error
    var closed: bool

    constructor (content: seq<byte>, end: Error)
      ensures this.content == content && this.end == end && !closed
    {
      this.content, this.end, closed := content, end, false;
    }

    /** Any number of bytes up to the limit; the error comes alone or with the last bytes. */
    method Read(limit: nat) returns (data: seq<byte>, err: Option<Error>)
      requires limit > 0
      modifies `content
      ensures |data| <= limit && old(content) == data + content
      ensures data == [] ==> err.Some?
      ensures err.Some? ==> err.value == end && content == []
    {
      if content == [] {
        return [], Some(end);
      }
      var n :| 1 <= n <= limit && n <= |content|;
      var withError :| withError ==> n == |content|;
      data := content[..n];
      content := content[n..];
      err := if withError then Some(end) else None;
    }
  }

  datatype Captured = Captured(body: seq<byte>, size: int, truncated: bool)

  /** A response whose body is the bytes already read, then the source if it was not used up. */
  class Response {
    const contentLength: int
    const source: Source
    var prefix: seq<byte>
    var joined: bool

    constructor (source: Source, contentLength: int)
      ensures this.source == source && this.contentLength == contentLength && joined && prefix == []
      ensures Body() == (source.content, source.end)
    {
      this.source, this.contentLength, prefix, joined := source, contentLength, [], true;
      new;
      TakeFirst([], source.content, 0);
    }

    /** What reading the body to its end yields. */
    ghost function Body(): (seq<byte>, Error)
      reads this, source
    {
      if joined then (prefix + source.content, source.end) else (prefix, EOF)
    }

    /** Reading the replaced body: the bytes read ahead first, then the source. */
    method Read(limit: nat) returns (data: seq<byte>, err: Option<Error>)
      requires limit > 0
      modifies this`prefix, source`content
      ensures |data| <= limit && (data == [] ==> err.Some?)
      ensures old(Body()) == (data + Body().0, Body().1)
      ensures err.Some? ==> Body() == ([], err.value)
    {
      if prefix != [] {
        var n :| 1 <= n <= limit && n <= |prefix|;
        data, err := prefix[..n], None;
        prefix := prefix[n..];
        assert old(prefix) == data + prefix;
        assert data + (prefix + source.content) == old(prefix) + source.content;
      } else if joined {
        data, err := source.Read(limit);
        TakeFirst([], source.content, 0);
        TakeFirst([], old(source.content), 0);
      } else {
        data, err := [], Some(EOF);
        TakeFirst(data, prefix, 0);
      }
    }

    /** io.ReadAll over an io.LimitReader. */
    method ReadUpTo(limit: nat) returns (read: seq<byte>, err: Option<Error>)
      modifies source`content
      ensures old(source.content) == read + source.content && |read| <= limit
      ensures err.None? ==> |read| == limit || (source.content == [] && source.end == EOF)
      ensures err.Some? ==> err.value == source.end != EOF && source.content == []
    {
      read := [];
      TakeFirst([], source.content, 0);
      while |read| < limit
        invariant |read| <= limit && old(source.content) == read + source.content
        decreases limit - |read|
      {
        ghost var left := source.content;
        var data, failed := source.Read(limit - |read|);
        assert read + (data + source.content) == (read + data) + source.content;
        read := read + data;
        if failed.Some? {
          return read, if failed == Some(EOF) then None else failed;
        }
      }
      err := None;
    }

    /** Capturing leaves the body as it was: whatever the controller was shown, the client still
        gets every byte and the same end. The captured part is the body's prefix up to the limit. */
    method Capture(limit: int) returns (r: Option<Captured>)
      requires joined && prefix == []
      modifies this`prefix, this`joined, source
      ensures r.Some? ==> Body() == old(Body())
      ensures r.Some? ==> limit > 0 && r.value.body == old(source.content)[..Min(limit, |old(source.content)|)]
      ensures r.Some? ==> (r.value.truncated <==> |old(source.content)| > limit)
      ensures r.Some? && contentLength >= 0 ==> r.value.size == contentLength
      ensures r.Some? && contentLength < 0 ==> r.value.size == Min(limit + 1, |old(source.content)|)
      ensures r.Some? && !r.value.truncated ==> source.closed
      ensures limit > 0 && (source.end == EOF || |old(source.content)| > limit + 1) ==> r.Some?
      ensures limit <= 0 || (source.end != EOF && |old(source.content)| <= limit) ==> r.None?
      ensures limit <= 0 ==> unchanged(this) && unchanged(source)
    {
      if limit <= 0 {
        return None;
      }
      var read, err := ReadUpTo(limit + 1);
      if err.Some? {
        return None;
      }
      var truncated := |read| > limit;
      var captured := if truncated then read[..limit] else read;
      prefix := read;
      if !truncated {
        source.closed := true;
        joined := false;
        TakeFirst(read, source.content, 0);
      }
      var size := if contentLength >= 0 then contentLength else |read|;
      TakeFirst([], old(source.content), 0);
      r := Some(Captured(captured, size, truncated));
    }
  }
}
