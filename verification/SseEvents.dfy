/** What the lines of a stream mean: blocks separated by empty lines, each block with
    data fields giving one event (section 9.2.6 of the WHATWG HTML Standard, with the
    parser's own size limit). */
module SseEvents {
  import opened Prelude
  import opened SseParser
  import opened SseChunks

  predicate IsField(line: Bytes, name: Bytes) { line != [] && line[0] != COLON && Field(line) == name }

  /** The values of all fields of that name, in order. */
  function Values(block: seq<Bytes>, name: Bytes): seq<Bytes>
    decreases |block|
  {
    if block == [] then []
    else
      var last := block[|block| - 1];
      Values(block[..|block| - 1], name) + if IsField(last, name) then [Value(last)] else []
  }

  function Comments(block: seq<Bytes>): seq<Callback>
    decreases |block|
  {
    if block == [] then []
    else
      var last := block[|block| - 1];
      Comments(block[..|block| - 1]) + if last != [] && last[0] == COLON then [OnComment(last[1..])] else []
  }

  function LastOr(values: seq<Bytes>, otherwise: Bytes): Bytes {
    if values == [] then otherwise else values[|values| - 1]
  }

  function LastId(values: seq<Bytes>, otherwise: Bytes): Bytes
    decreases |values|
  {
    if values == [] then otherwise
    else if NUL !in values[|values| - 1] then values[|values| - 1]
    else LastId(values[..|values| - 1], otherwise)
  }

  function LastRetry(values: seq<Bytes>): Option<int>
    decreases |values|
  {
    if values == [] then None
    else
      var n := ParseInt(values[|values| - 1]);
      if n.Some? && n.value >= 0 then n else LastRetry(values[..|values| - 1])
  }

  function Total(values: seq<Bytes>): nat
    decreases |values|
  {
    if values == [] then 0 else Total(values[..|values| - 1]) + |values[|values| - 1]|
  }

  /** Shorten from the end until the values fit. */
  function Kept(max: nat, values: seq<Bytes>): seq<Bytes>
    decreases |values|
  {
    if Total(values) <= max then values else Kept(max, values[..|values| - 1])
  }

  /** Kept is the longest prefix of the data values whose lengths sum to at most the maximum. */
  lemma {:induction false} KeptIsLongest(max: nat, values: seq<Bytes>)
    ensures Kept(max, values) <= values && Total(Kept(max, values)) <= max
    ensures forall k :: |Kept(max, values)| < k <= |values| ==> Total(values[..k]) > max
    decreases |values|
  {
    if Total(values) > max {
      var init := values[..|values| - 1];
      KeptIsLongest(max, init);
      forall k | |Kept(max, values)| < k <= |values| ensures Total(values[..k]) > max {
        if k < |values| { assert init[..k] == values[..k]; } else { assert values[..k] == values; }
      }
    }
  }

  function FirstBlank(lines: seq<Bytes>): (k: nat)
    ensures k <= |lines| && (k < |lines| ==> lines[k] == [])
    ensures forall i :: 0 <= i < k ==> lines[i] != []
  {
    if lines == [] || lines[0] == [] then 0 else 1 + FirstBlank(lines[1..])
  }

  /** The event, if any, of a block with these data, event, id and retry values. */
  function Fired(max: nat, number: nat, lastId: Bytes, data: seq<Bytes>, kinds: seq<Bytes>, ids: seq<Bytes>,
                 retries: seq<Bytes>): seq<Callback> {
    if data == [] then []
    else
      var kind := LastOr(kinds, []);
      [OnEvent(Event(number, if kind == [] then MESSAGE else kind, Join(Kept(max, data)), LastId(ids, lastId),
                     LastRetry(retries), Kept(max, data) != data))]
  }

  function BlockEvent(max: nat, block: seq<Bytes>, id: Bytes, number: nat): seq<Callback> {
    Fired(max, number + 1, id, Values(block, DATA), Values(block, EVENT), Values(block, ID), Values(block, RETRY))
  }

  /** The callbacks a sequence of lines stands for, when `number` events came before and `id` was last set:
      per block its comments and then its event. */
  function Render(max: nat, lines: seq<Bytes>, id: Bytes, number: nat): seq<Callback>
    decreases |lines|
  {
    var k := FirstBlank(lines);
    var block := lines[..k];
    if k == |lines| then Comments(block)
    else
      var event := BlockEvent(max, block, id, number);
      Comments(block) + event + Render(max, lines[k + 1..], LastId(Values(block, ID), id), number + |event|)
  }

  predicate Blank(a: Acc) { a == ResetEvent(a) && !a.firstLine }

  /** The accumulator after a block with these values and comments. */
  function Build(max: nat, a: Acc, data: seq<Bytes>, kinds: seq<Bytes>, ids: seq<Bytes>, retries: seq<Bytes>,
                 comments: seq<Callback>): Acc {
    a.(data := Kept(max, data), kind := LastOr(kinds, []), lastId := LastId(ids, a.lastId), retry := LastRetry(retries),
       eventBytes := Total(data), truncated := Kept(max, data) != data, out := a.out + comments)
  }

  function Gathered(max: nat, a: Acc, block: seq<Bytes>): Acc {
    Build(max, a, Values(block, DATA), Values(block, EVENT), Values(block, ID), Values(block, RETRY), Comments(block))
  }

  /** Adding one data value to a block. */
  lemma AppendKept(max: nat, a: Acc, values: seq<Bytes>, value: Bytes)
    requires a.data == Kept(max, values) && a.eventBytes == Total(values)
    requires a.truncated == (Kept(max, values) != values)
    ensures var b := AppendData(max, a, value);
      b == a.(data := Kept(max, values + [value]), eventBytes := Total(values + [value]),
              truncated := Kept(max, values + [value]) != values + [value])
  {
    assert (values + [value])[..|values|] == values;
    KeptIsLongest(max, values);
    if Total(values + [value]) <= max {
      assert Kept(max, values) == values;
    } else {
      assert |Kept(max, values)| < |values + [value]|;
    }
  }

  lemma SameValues(block: seq<Bytes>)
    requires block != [] && block[|block| - 1] != [] && block[|block| - 1][0] == COLON
    ensures forall name :: Values(block, name) == Values(block[..|block| - 1], name)
  {}

  lemma GatherComment(max: nat, a: Acc, block: seq<Bytes>)
    requires block != [] && block[|block| - 1] != [] && block[|block| - 1][0] == COLON
    ensures var (init, last) := (block[..|block| - 1], block[|block| - 1]);
      ProcessText(max, Gathered(max, a, init), last) == Gathered(max, a, block)
  {
    var (init, last) := (block[..|block| - 1], block[|block| - 1]);
    SameValues(block);
    assert (a.out + Comments(init)) + [OnComment(last[1..])] == a.out + (Comments(init) + [OnComment(last[1..])]);
  }

  lemma BuildField(max: nat, a: Acc, data: seq<Bytes>, kinds: seq<Bytes>, ids: seq<Bytes>, retries: seq<Bytes>,
                   comments: seq<Callback>,
                   field: Bytes, value: Bytes)
    ensures ApplyField(max, Build(max, a, data, kinds, ids, retries, comments), field, value) ==
      if field == DATA then Build(max, a, data + [value], kinds, ids, retries, comments)
      else if field == EVENT then Build(max, a, data, kinds + [value], ids, retries, comments)
      else if field == ID then Build(max, a, data, kinds, ids + [value], retries, comments)
      else if field == RETRY then Build(max, a, data, kinds, ids, retries + [value], comments)
      else Build(max, a, data, kinds, ids, retries, comments)
  {
    var g := Build(max, a, data, kinds, ids, retries, comments);
    if field == DATA {
      AppendKept(max, g, data, value);
    } else if field == ID {
      assert (ids + [value])[..|ids|] == ids;
    } else if field == RETRY {
      assert (retries + [value])[..|retries|] == retries;
    }
  }

  lemma FieldNamesDiffer()
    ensures DATA != EVENT && DATA != ID && DATA != RETRY && EVENT != ID && EVENT != RETRY && ID != RETRY
  {
    assert DATA[0] != EVENT[0] && DATA[0] != ID[0] && DATA[0] != RETRY[0];
    assert EVENT[0] != ID[0] && EVENT[0] != RETRY[0] && ID[0] != RETRY[0];
  }

  lemma GatherField(max: nat, a: Acc, block: seq<Bytes>, field: Bytes, value: Bytes)
    requires block != []
    requires var init := block[..|block| - 1];
      && Comments(block) == Comments(init)
      && Values(block, DATA) == (if field == DATA then Values(init, DATA) + [value] else Values(init, DATA))
      && Values(block, EVENT) == (if field == EVENT then Values(init, EVENT) + [value] else Values(init, EVENT))
      && Values(block, ID) == (if field == ID then Values(init, ID) + [value] else Values(init, ID))
      && Values(block, RETRY) == (if field == RETRY then Values(init, RETRY) + [value] else Values(init, RETRY))
    ensures ApplyField(max, Gathered(max, a, block[..|block| - 1]), field, value) == Gathered(max, a, block)
  {
    var init := block[..|block| - 1];
    FieldNamesDiffer();
    BuildField(max, a, Values(init, DATA), Values(init, EVENT), Values(init, ID),
        Values(init, RETRY), Comments(init), field, value);
  }

  lemma OtherValues(block: seq<Bytes>, name: Bytes)
    requires block != [] && block[|block| - 1] != [] && block[|block| - 1][0] != COLON
    ensures var (init, last) := (block[..|block| - 1], block[|block| - 1]);
      Values(block, name) == if Field(last) == name then Values(init, name) + [Value(last)] else Values(init, name)
  {}

  lemma GatherLine(max: nat, a: Acc, block: seq<Bytes>)
    requires Blank(a) && block != [] && block[|block| - 1] != []
    ensures var (init, last) := (block[..|block| - 1], block[|block| - 1]);
      ProcessText(max, Gathered(max, a, init), last) == Gathered(max, a, block)
  {
    var (init, last) := (block[..|block| - 1], block[|block| - 1]);
    var g := Gathered(max, a, init);
    if last[0] == COLON {
      GatherComment(max, a, block);
    } else {
      OtherValues(block, DATA);
      OtherValues(block, EVENT);
      OtherValues(block, ID);
      OtherValues(block, RETRY);
      GatherField(max, a, block, Field(last), Value(last));
    }
  }

  lemma {:induction false} BlockGathers(max: nat, a: Acc, block: seq<Bytes>)
    requires Blank(a) && forall i :: 0 <= i < |block| ==> block[i] != []
    ensures Run(max, a, block) == Gathered(max, a, block)
    decreases |block|
  {
    if block == [] {
      assert a.out + [] == a.out;
    } else {
      var (init, last) := (block[..|block| - 1], block[|block| - 1]);
      BlockGathers(max, a, init);
      var g := Gathered(max, a, init);
      assert init + [last] == block;
      RunConcat(max, a, init, [last]);
      assert Run(max, g, [last]) == ProcessLine(max, g, last);
      assert g.(firstLine := false) == g;
      GatherLine(max, a, block);
    }
  }

  /** Data values were seen exactly when something was kept or something was cut. */
  lemma KeptNothing(max: nat, values: seq<Bytes>)
    ensures values != [] <==> Kept(max, values) != [] || Kept(max, values) != values
  {}

  lemma BuildFires(max: nat, a: Acc, data: seq<Bytes>, kinds: seq<Bytes>, ids: seq<Bytes>, retries: seq<Bytes>,
                   comments: seq<Callback>)
    ensures var event := Fired(max, a.sequence + 1, a.lastId, data, kinds, ids, retries);
      var b := Dispatch(Build(max, a, data, kinds, ids, retries, comments));
      && b.out == a.out + comments + event && b.sequence == a.sequence + |event| && b.lastId == LastId(ids, a.lastId)
  {
    KeptNothing(max, data);
  }

  lemma GatheredDispatches(g: Acc)
    requires !g.firstLine
    ensures forall max :: ProcessLine(max, g, []) == Dispatch(g)
    ensures Blank(Dispatch(g))
  {
    assert g.(firstLine := false) == g;
  }

  /** The empty line after a block reports its event, if it has data, and starts afresh. */
  lemma BlankLineFires(max: nat, a: Acc, block: seq<Bytes>)
    requires Blank(a)
    ensures var b := ProcessLine(max, Gathered(max, a, block), []);
      var event := BlockEvent(max, block, a.lastId, a.sequence);
      && Blank(b) && b.lastId == LastId(Values(block, ID), a.lastId)
      && b.out == a.out + Comments(block) + event && b.sequence == a.sequence + |event|
  {
    GatheredDispatches(Gathered(max, a, block));
    BuildFires(max, a, Values(block, DATA), Values(block, EVENT), Values(block, ID),
        Values(block, RETRY), Comments(block));
  }

  lemma RunBlock(max: nat, a: Acc, lines: seq<Bytes>, block: seq<Bytes>, rest: seq<Bytes>)
    requires Blank(a) && lines == block + ([[]] + rest) && forall i :: 0 <= i < |block| ==> block[i] != []
    ensures Run(max, a, lines) == Run(max, ProcessLine(max, Gathered(max, a, block), []), rest)
  {
    BlockGathers(max, a, block);
    RunConcat(max, a, block, [[]] + rest);
    RunConcat(max, Gathered(max, a, block), [[]], rest);
    assert Run(max, Gathered(max, a, block), [[]]) == ProcessLine(max, Gathered(max, a, block), []);
  }

  /** The first block and the rest, with the parts named. */
  lemma {:induction false} RenderParts(max: nat, lines: seq<Bytes>, id: Bytes, number: nat, k: nat,
                                       event: seq<Callback>, nextId: Bytes, next: nat)
    requires k == FirstBlank(lines) < |lines| && event == BlockEvent(max, lines[..k], id, number)
    requires nextId == LastId(Values(lines[..k], ID), id) && next == number + |event|
    ensures Render(max, lines, id, number) == Comments(lines[..k]) + event + Render(max, lines[k + 1..], nextId, next)
  {}

  lemma Reassociate(a: seq<Callback>, b: seq<Callback>, c: seq<Callback>, d: seq<Callback>, x: seq<Callback>,
                    y: seq<Callback>)
    requires x == a + b + c + d && y == b + c + d
    ensures x == a + y
  {}

  lemma SplitAtBlank(lines: seq<Bytes>, k: nat)
    requires k < |lines| && lines[k] == []
    ensures lines == lines[..k] + ([[]] + lines[k + 1..])
  {}

  lemma LastBlockRenders(max: nat, a: Acc, lines: seq<Bytes>)
    requires Blank(a) && FirstBlank(lines) == |lines|
    ensures Run(max, a, lines).out == a.out + Render(max, lines, a.lastId, a.sequence)
  {
    assert lines[..|lines|] == lines;
    BlockGathers(max, a, lines);
  }

  lemma BlockHasNoBlank(lines: seq<Bytes>, k: nat)
    requires k == FirstBlank(lines)
    ensures forall i :: 0 <= i < |lines[..k]| ==> lines[..k][i] != []
  {}

  lemma RunReaches(max: nat, a: Acc, lines: seq<Bytes>, k: nat, b: Acc)
    requires Blank(a) && k == FirstBlank(lines) < |lines|
    requires b == ProcessLine(max, Gathered(max, a, lines[..k]), [])
    ensures Run(max, a, lines) == Run(max, b, lines[k + 1..])
  {
    SplitAtBlank(lines, k);
    BlockHasNoBlank(lines, k);
    RunBlock(max, a, lines, lines[..k], lines[k + 1..]);
  }

  lemma RenderReaches(max: nat, a: Acc, lines: seq<Bytes>, k: nat, b: Acc)
    requires Blank(a) && k == FirstBlank(lines) < |lines|
    requires b == ProcessLine(max, Gathered(max, a, lines[..k]), [])
    ensures b.out + Render(max, lines[k + 1..], b.lastId, b.sequence) ==
      a.out + Render(max, lines, a.lastId, a.sequence)
  {
    var block := lines[..k];
    var event := BlockEvent(max, block, a.lastId, a.sequence);
    var more := Render(max, lines[k + 1..], b.lastId, b.sequence);
    BlankLineFires(max, a, block);
    var whole := Render(max, lines, a.lastId, a.sequence);
    RenderParts(max, lines, a.lastId, a.sequence, k, event, b.lastId, b.sequence);
    Reassociate(a.out, Comments(block), event, more, b.out + more, whole);
  }

  /** One block and its empty line, given that the rest renders. */
  lemma BlockRenders(max: nat, a: Acc, lines: seq<Bytes>, k: nat, b: Acc)
    requires Blank(a) && k == FirstBlank(lines) < |lines|
    requires b == ProcessLine(max, Gathered(max, a, lines[..k]), [])
    requires Run(max, b, lines[k + 1..]).out == b.out + Render(max, lines[k + 1..], b.lastId, b.sequence)
    ensures Run(max, a, lines).out == a.out + Render(max, lines, a.lastId, a.sequence)
  {
    RunReaches(max, a, lines, k, b);
    RenderReaches(max, a, lines, k, b);
  }

  lemma {:induction false} RunRenders(max: nat, a: Acc, lines: seq<Bytes>)
    requires Blank(a)
    ensures Run(max, a, lines).out == a.out + Render(max, lines, a.lastId, a.sequence)
    decreases |lines|
  {
    var k := FirstBlank(lines);
    if k == |lines| {
      LastBlockRenders(max, a, lines);
    } else {
      var b := ProcessLine(max, Gathered(max, a, lines[..k]), []);
      BlankLineFires(max, a, lines[..k]);
      RunRenders(max, b, lines[k + 1..]);
      BlockRenders(max, a, lines, k, b);
    }
  }

  function WithoutBom(lines: seq<Bytes>): seq<Bytes> {
    if lines == [] then [] else [TrimPrefix(lines[0], BOM)] + lines[1..]
  }

  /** The callbacks of a stream are those of its blocks. */
  lemma ReferenceRenders(max: nat, stream: Bytes)
    ensures Reference(max, stream) == Render(max, WithoutBom(Lines(stream)), [], 0)
  {
    var lines := Lines(stream);
    var a := FRESH.(firstLine := false);
    if lines == [] {
      RunRenders(max, a, []);
    } else {
      var l := WithoutBom(lines);
      assert l[1..] == lines[1..] && l[0] == Text(true, lines[0]);
      assert ProcessLine(max, FRESH, lines[0]) == ProcessLine(max, a, l[0]);
      RunRenders(max, a, l);
    }
    assert [] + Render(max, WithoutBom(lines), [], 0) == Render(max, WithoutBom(lines), [], 0);
  }

  /** The incremental parser, fed in any pieces, reports exactly the blocks of the stream. */
  lemma ParserMeetsSpecification(max: nat, parts: seq<Bytes>)
    requires Safe(max, FRESH, Lines(Concat(parts)))
    ensures Output(max, parts) == Render(max, WithoutBom(Lines(Concat(parts))), [], 0)
  {
    ChunksDoNotMatter(max, parts);
    ReferenceRenders(max, Concat(parts));
  }

  function Events(out: seq<Callback>): seq<Event>
    decreases |out|
  {
    if out == [] then []
    else
      var last := out[|out| - 1];
      Events(out[..|out| - 1]) + if last.OnEvent? then [last.event] else []
  }

  lemma {:induction false} EventsConcat(a: seq<Callback>, b: seq<Callback>)
    ensures Events(a + b) == Events(a) + Events(b)
    decreases |b|
  {
    if b == [] {
      assert a + b == a;
    } else {
      EventsConcat(a, b[..|b| - 1]);
      assert (a + b)[..|a + b| - 1] == a + b[..|b| - 1];
    }
  }

  lemma {:induction false} CommentsAreNoEvents(block: seq<Bytes>)
    ensures Events(Comments(block)) == []
    decreases |block|
  {
    if block != [] {
      var last := block[|block| - 1];
      CommentsAreNoEvents(block[..|block| - 1]);
      EventsConcat(Comments(block[..|block| - 1]),
        if last != [] && last[0] == COLON then [OnComment(last[1..])] else []);
    }
  }

  predicate Numbered(events: seq<Event>, before: nat) {
    forall i :: 0 <= i < |events| ==> events[i].sequence == before + 1 + i
  }

  lemma OneEvent(fired: seq<Callback>)
    requires fired == [] || (|fired| == 1 && fired[0].OnEvent?)
    ensures Events(fired) == if fired == [] then [] else [fired[0].event]
  {
    if fired != [] { assert fired[..0] == []; }
  }

  lemma EventsOfThree(comments: seq<Callback>, fired: seq<Callback>, tail: seq<Callback>)
    requires Events(comments) == []
    ensures Events(comments + fired + tail) == Events(fired) + Events(tail)
  {
    EventsConcat(comments, fired);
    EventsConcat(comments + fired, tail);
    assert [] + Events(fired) == Events(fired);
  }

  /** At most one event, numbered next, in front of events numbered after it. */
  lemma NumberedFirst(fired: seq<Event>, tail: seq<Event>, number: nat)
    requires |fired| <= 1 && (fired != [] ==> fired[0].sequence == number + 1) && Numbered(tail, number + |fired|)
    ensures Numbered(fired + tail, number)
  {}

  /** A block's events: at most one, numbered next. */
  lemma BlockNumbers(max: nat, block: seq<Bytes>, id: Bytes, number: nat, fired: seq<Callback>, tail: seq<Callback>)
    requires fired == BlockEvent(max, block, id, number) && Numbered(Events(tail), number + |fired|)
    ensures Numbered(Events(Comments(block) + fired + tail), number)
  {
    CommentsAreNoEvents(block);
    OneEvent(fired);
    EventsOfThree(Comments(block), fired, tail);
    NumberedFirst(Events(fired), Events(tail), number);
  }

  lemma NumberedStep(max: nat, lines: seq<Bytes>, id: Bytes, number: nat, k: nat, nextId: Bytes, next: nat,
                     more: seq<Callback>)
    requires k == FirstBlank(lines) < |lines|
    requires nextId == LastId(Values(lines[..k], ID), id) && next == number + |BlockEvent(max, lines[..k], id, number)|
    requires more == Render(max, lines[k + 1..], nextId, next) && Numbered(Events(more), next)
    ensures Numbered(Events(Render(max, lines, id, number)), number)
  {
    var block := lines[..k];
    var event := BlockEvent(max, block, id, number);
    RenderParts(max, lines, id, number, k, event, nextId, next);
    BlockNumbers(max, block, id, number, event, more);
  }

  /** Events are numbered consecutively, across blocks that report none. */
  lemma {:induction false} NumberedInOrder(max: nat, lines: seq<Bytes>, id: Bytes, number: nat)
    ensures Numbered(Events(Render(max, lines, id, number)), number)
    decreases |lines|
  {
    var k := FirstBlank(lines);
    if k < |lines| {
      var (nextId, next) := (LastId(Values(lines[..k], ID), id), number + |BlockEvent(max, lines[..k], id, number)|);
      NumberedInOrder(max, lines[k + 1..], nextId, next);
      NumberedStep(max, lines, id, number, k, nextId, next, Render(max, lines[k + 1..], nextId, next));
    } else {
      CommentsAreNoEvents(lines[..k]);
    }
  }
}
