/** What lines and events say in terms of their bytes: where lines end, what a field line sets, which numbers are read,
    and that an event's data gives back the data lines of its block. */
module SseMeaning {
  import opened Prelude
  import opened SseParser
  import opened SseChunks
  import opened SseCutSensitivity
  import opened SseEvents

  // ---- Lines -------------------------------------------------------------

  /** The lines, each with its own terminator. */
  function Broken(lines: seq<Bytes>, ends: seq<Bytes>): Bytes
    requires |ends| == |lines|
    decreases |lines|
  {
    if lines == [] then [] else lines[0] + ends[0] + Broken(lines[1..], ends[1..])
  }

  /** Any of the three terminators, but none that would pair up with the next one. */
  predicate Separate(lines: seq<Bytes>, ends: seq<Bytes>) {
    && |ends| == |lines|
    && (forall i :: 0 <= i < |ends| ==> ends[i] in {[LF], [CR], [CR, LF]})
    && (forall i :: 0 <= i < |ends| - 1 && ends[i] == [CR] && lines[i + 1] == [] ==> ends[i + 1] != [LF])
  }

  lemma {:induction false} FirstBroken(line: Bytes, end: Bytes, rest: Bytes)
    requires EolPos(line) == |line| && end in {[LF], [CR], [CR, LF]}
    requires end == [CR] ==> rest == [] || rest[0] != LF
    ensures Lines(line + end + rest) == [line] + Lines(rest)
  {
    var s := line + end + rest;
    EolPosIs(s, |line|);
    assert s[..|line|] == line && s[|line| + |end|..] == rest;
    assert s[|line|] == end[0];
    if |line| + 1 < |s| { assert s[|line| + 1] == if |end| > 1 then end[1] else rest[0]; }
  }

  lemma TailIsSeparate(lines: seq<Bytes>, ends: seq<Bytes>, l: seq<Bytes>, e: seq<Bytes>)
    requires Unbroken(lines) && Separate(lines, ends) && lines != [] && l == lines[1..] && e == ends[1..]
    ensures Unbroken(l) && Separate(l, e)
  {
    assert forall k :: 0 <= k < |l| ==> l[k] == lines[k + 1] && e[k] == ends[k + 1];
  }

  /** What follows a line that ends in CR does not begin with LF. */
  lemma {:induction false} NoPairing(lines: seq<Bytes>, ends: seq<Bytes>, rest: Bytes)
    requires Unbroken(lines) && Separate(lines, ends) && |lines| > 1 && ends[0] == [CR]
    requires rest == Broken(lines[1..], ends[1..])
    ensures rest != [] && rest[0] != LF
  {
    var (line, end) := (lines[1], ends[1]);
    assert EolPos(line) == |line| && rest == line + end + Broken(lines[1..][1..], ends[1..][1..]);
    assert rest[0] == if line == [] then end[0] else line[0];
  }

  /** CR, LF and CRLF end lines alike, in any mixture. */
  lemma {:induction false} AnyTerminator(lines: seq<Bytes>, ends: seq<Bytes>)
    requires Unbroken(lines) && Separate(lines, ends)
    ensures Lines(Broken(lines, ends)) == lines
    decreases |lines|
  {
    if lines != [] {
      var rest := Broken(lines[1..], ends[1..]);
      TailIsSeparate(lines, ends, lines[1..], ends[1..]);
      AnyTerminator(lines[1..], ends[1..]);
      if |lines| > 1 && ends[0] == [CR] { NoPairing(lines, ends, rest); }
      FirstBroken(lines[0], ends[0], rest);
    }
  }

  lemma BomEol(stream: Bytes)
    ensures EolPos(BOM + stream) == |BOM| + EolPos(stream)
  {
    EolPosIs(BOM + stream, |BOM| + EolPos(stream));
  }

  lemma {:induction false} BomConsumed(stream: Bytes, i: nat)
    requires i < |stream|
    ensures Consumed(BOM + stream, |BOM| + i) == |BOM| + Consumed(stream, i)
    ensures (BOM + stream)[..|BOM| + i] == BOM + stream[..i]
    ensures (BOM + stream)[|BOM| + Consumed(stream, i)..] == stream[Consumed(stream, i)..]
  {}

  lemma {:induction false} FirstLine(s: Bytes, i: nat, line: Bytes, rest: Bytes)
    requires i == EolPos(s) < |s| && line == s[..i] && rest == s[Consumed(s, i)..]
    ensures Lines(s) == [line] + Lines(rest)
  {}

  lemma {:induction false} BomLines(stream: Bytes, i: nat, rest: Bytes)
    requires i == EolPos(stream) < |stream| && rest == stream[Consumed(stream, i)..]
    ensures Lines(stream) == [stream[..i]] + Lines(rest)
    ensures Lines(BOM + stream) == [BOM + stream[..i]] + Lines(rest)
  {
    BomEol(stream);
    BomConsumed(stream, i);
    FirstLine(stream, i, stream[..i], rest);
    FirstLine(BOM + stream, |BOM| + i, BOM + stream[..i], rest);
  }

  lemma BomText(line: Bytes)
    requires !(BOM <= line)
    ensures Text(true, BOM + line) == line && Text(true, line) == line
  {
    assert (BOM + line)[|BOM|..] == line;
  }

  /** A byte-order mark before the stream changes nothing. */
  lemma {:induction false} BomIsDropped(max: nat, stream: Bytes)
    requires !(BOM <= stream)
    ensures Reference(max, BOM + stream) == Reference(max, stream)
  {
    var i := EolPos(stream);
    if i == |stream| {
      BomEol(stream);
    } else {
      var (line, rest) := (stream[..i], stream[Consumed(stream, i)..]);
      BomLines(stream, i, rest);
      BomText(line);
      RunFirst(max, FRESH, BOM + line, Lines(rest));
      RunFirst(max, FRESH, line, Lines(rest));
    }
  }

  // ---- Fields ------------------------------------------------------------

  /** A field's name goes up to the first colon; its value is the rest, less one space. */
  lemma FieldOfLine(name: Bytes, value: Bytes)
    requires COLON !in name
    ensures Field(name + [COLON] + value) == name
    ensures Value(name + [COLON] + value) == if value != [] && value[0] == SPACE then value[1..] else value
    ensures Field(name) == name && Value(name) == []
  {
    var line := name + [COLON] + value;
    IndexIs(line, COLON, |name|);
    assert line[..|name|] == name && line[|name| + 1..] == value;
    assert IndexOf(name, COLON) == |name|;
    assert [SPACE] <= value <==> value != [] && value[0] == SPACE;
  }

  /** The two ways of writing a field. */
  predicate Writes(line: Bytes, name: Bytes, value: Bytes) {
    line == name + [COLON] + value || line == name + [COLON] + ([SPACE] + value)
  }

  lemma WritesField(line: Bytes, name: Bytes, value: Bytes)
    requires COLON !in name && name != [] && (value == [] || value[0] != SPACE) && Writes(line, name, value)
    ensures line != [] && line[0] != COLON && Field(line) == name && Value(line) == value
  {
    FieldOfLine(name, value);
    FieldOfLine(name, [SPACE] + value);
    assert ([SPACE] + value)[1..] == value && line[0] == name[0];
  }

  /** What a field line does to the event in progress: it sets or adds what its name says. */
  lemma FieldMeans(max: nat, a: Acc, name: Bytes, value: Bytes, line: Bytes)
    requires !a.firstLine && COLON !in name && name != [] && (value == [] || value[0] != SPACE)
    requires Writes(line, name, value)
    ensures ProcessLine(max, a, line) ==
      if name == DATA then
        (if a.eventBytes + |value| > max then a.(eventBytes := a.eventBytes + |value|, truncated := true)
         else a.(eventBytes := a.eventBytes + |value|, data := a.data + [value]))
      else if name == EVENT then a.(kind := value)
      else if name == ID then (if NUL in value then a else a.(lastId := value))
      else if name == RETRY && ParseInt(value).Some? && ParseInt(value).value >= 0 then a.(retry := ParseInt(value))
      else a
  {
    assert a.(firstLine := false) == a;
    WritesField(line, name, value);
  }

  /** A line that starts with a colon is a comment, and one without a colon is a field without a value. */
  lemma CommentMeans(max: nat, a: Acc, text: Bytes, name: Bytes)
    requires !a.firstLine && COLON !in name && name != []
    ensures ProcessLine(max, a, [COLON] + text) == a.(out := a.out + [OnComment(text)])
    ensures ProcessLine(max, a, name) == ProcessLine(max, a, name + [COLON] + [])
  {
    assert a.(firstLine := false) == a && ([COLON] + text)[1..] == text;
    FieldOfLine(name, []);
    assert (name + [COLON] + [])[0] == name[0];
  }

  lemma OneMoreLine(block: seq<Bytes>, line: Bytes)
    ensures (block + [line])[..|block|] == block && (block + [line])[|block|] == line
  {}

  /** The values and comments of a block, line by line. */
  lemma {:induction false} ValuesOfLine(block: seq<Bytes>, name: Bytes, other: Bytes, value: Bytes, line: Bytes)
    requires other != [] && COLON !in other && (value == [] || value[0] != SPACE) && Writes(line, other, value)
    ensures Values([], name) == [] && Values(block + [line], name) ==
      Values(block, name) + (if other == name then [value] else [])
    ensures Comments([]) == [] && Comments(block + [line]) == Comments(block)
  {
    WritesField(line, other, value);
    OneMoreLine(block, line);
    assert Comments(block) + [] == Comments(block);
  }

  lemma {:induction false} ValuesOfComment(block: seq<Bytes>, name: Bytes, text: Bytes)
    ensures Values(block + [[COLON] + text], name) == Values(block, name)
    ensures Comments(block + [[COLON] + text]) == Comments(block) + [OnComment(text)]
  {
    OneMoreLine(block, [COLON] + text);
    assert ([COLON] + text)[1..] == text && Values(block, name) + [] == Values(block, name);
  }

  // ---- Numbers -----------------------------------------------------------

  function Decimal(n: nat): (s: Bytes)
    ensures s != [] && forall k :: 0 <= k < |s| ==> 48 <= s[k] <= 57
  {
    if n < 10 then [(48 + n) as byte] else Decimal(n / 10) + [(48 + n % 10) as byte]
  }

  lemma {:induction false} DigitsOfDecimal(n: nat)
    ensures Digits(Decimal(n)) == Some(n)
    decreases n
  {
    if n < 10 {
      assert [(48 + n) as byte][..0] == [];
    } else {
      var s := Decimal(n);
      DigitsOfDecimal(n / 10);
      assert s[..|s| - 1] == Decimal(n / 10);
    }
  }

  lemma {:induction false} DigitsOnly(s: Bytes)
    ensures Digits(s).Some? <==> forall k :: 0 <= k < |s| ==> 48 <= s[k] <= 57
    decreases |s|
  {
    if s != [] {
      DigitsOnly(s[..|s| - 1]);
      assert forall k :: 0 <= k < |s| - 1 ==> s[..|s| - 1][k] == s[k];
    }
  }

  /** Digits whose number fits 64 bits are read, with or without a sign, and larger ones are not. */
  lemma ParseIntReads(s: Bytes, n: nat)
    requires s != [] && s[0] !in {43, 45} && Digits(s) == Some(n)
    ensures ParseInt(s) == if n < 0x8000_0000_0000_0000 then Some(n) else None
    ensures ParseInt([43] + s) == if n < 0x8000_0000_0000_0000 then Some(n) else None
    ensures ParseInt([45] + s) == if n <= 0x8000_0000_0000_0000 then Some(-(n as int)) else None
  {
    assert ([43] + s)[1..] == s && ([45] + s)[1..] == s;
  }

  /** Leading zeros do not matter. */
  lemma {:induction false} LeadingZero(s: Bytes)
    ensures Digits([48] + s) == Digits(s)
    decreases |s|
  {
    if s == [] {
      assert [48][..0] == [] && [48] + s == [48];
    } else {
      LeadingZero(s[..|s| - 1]);
      assert ([48] + s)[..|s|] == [48] + s[..|s| - 1];
    }
  }

  /** Nothing else than digits after at most one sign is read. */
  lemma ParseIntRejects(s: Bytes, k: nat)
    ensures k < |s| && !(48 <= s[k] <= 57) && (k > 0 || s[0] !in {43, 45}) ==> ParseInt(s).None?
    ensures s == [] || (|s| == 1 && s[0] in {43, 45}) ==> ParseInt(s).None?
  {
    DigitsOnly(s);
    if s != [] {
      DigitsOnly(s[1..]);
      if 0 < k < |s| { assert s[1..][k - 1] == s[k]; }
    }
  }

  // ---- Data --------------------------------------------------------------

  lemma {:induction false} JoinIsTerminated(parts: seq<Bytes>)
    requires parts != []
    ensures Join(parts) + [LF] == Terminated(parts)
    decreases |parts|
  {
    var (init, last) := (parts[..|parts| - 1], parts[|parts| - 1]);
    if init == [] {
      assert [] + (last + [LF]) == last + [LF];
    } else {
      JoinIsTerminated(init);
      Prelude.Regroup(Join(init) + [LF], last, [LF]);
    }
  }

  /** Joined lines come apart again. */
  lemma JoinComesApart(parts: seq<Bytes>)
    requires parts != [] && Unbroken(parts)
    ensures Lines(Join(parts) + [LF]) == parts
  {
    JoinIsTerminated(parts);
    assert parts[..|parts|] == parts;
    TerminatedLines(parts, |parts|);
    WholeLines(Terminated(parts));
  }

  lemma {:induction false} TotalIsLength(values: seq<Bytes>)
    ensures Total(values) == |Concat(values)|
    decreases |values|
  {
    if values != [] { TotalIsLength(values[..|values| - 1]); }
  }

  lemma {:induction false} ValuesAreUnbroken(block: seq<Bytes>, name: Bytes)
    requires Unbroken(block)
    ensures Unbroken(Values(block, name))
    decreases |block|
  {
    if block != [] {
      var last := block[|block| - 1];
      ValuesAreUnbroken(block[..|block| - 1], name);
      assert EolPos(last) == |last|;
      EolPosIs(Value(last), |Value(last)|);
    }
  }

  /** The id is the last of the values without a NUL, or else the one from before. */
  ghost predicate LatestId(ids: seq<Bytes>, before: Bytes, id: Bytes) {
    if exists i :: 0 <= i < |ids| && NUL !in ids[i] then
      exists i :: 0 <= i < |ids| && NUL !in ids[i] && id == ids[i] && forall j :: i < j < |ids| ==> NUL in ids[j]
    else id == before
  }

  predicate Delay(value: Bytes) { ParseInt(value).Some? && ParseInt(value).value >= 0 }

  /** The retry time is that of the last value that is one. */
  ghost predicate LatestRetry(values: seq<Bytes>, retry: Option<int>) {
    if exists i :: 0 <= i < |values| && Delay(values[i]) then
      exists i :: 0 <= i < |values| && Delay(values[i]) && retry == ParseInt(values[i]) &&
        forall j :: i < j < |values| ==> !Delay(values[j])
    else retry.None?
  }

  lemma {:induction false} IdIsLatest(ids: seq<Bytes>, before: Bytes)
    ensures LatestId(ids, before, LastId(ids, before))
    decreases |ids|
  {
    if ids != [] && NUL in ids[|ids| - 1] {
      var init := ids[..|ids| - 1];
      IdIsLatest(init, before);
      assert forall i :: 0 <= i < |init| ==> init[i] == ids[i];
    }
  }

  lemma {:induction false} RetryIsLatest(values: seq<Bytes>)
    ensures LatestRetry(values, LastRetry(values))
    decreases |values|
  {
    if values != [] && !Delay(values[|values| - 1]) {
      var init := values[..|values| - 1];
      RetryIsLatest(init);
      assert forall i :: 0 <= i < |init| ==> init[i] == values[i];
    }
  }

  /** The event of a block: there is one exactly if the block has data; it is numbered next; its data gives back the
      longest prefix of the block's data values that fits the maximum, and the flag says whether that is not all;
      its type is the last one named, its id the last one without a NUL, and its retry time the last valid one. */
  lemma {:induction false} EventSays(max: nat, block: seq<Bytes>, id: Bytes, number: nat) returns (k: nat)
    requires Unbroken(block)
    ensures BlockEvent(max, block, id, number) == [] <==> Values(block, DATA) == []
    ensures var (values, kinds, out) := (Values(block, DATA), Values(block, EVENT), BlockEvent(max, block, id, number));
      values != [] ==>
        && |out| == 1 && out[0].OnEvent? && out[0].event.sequence == number + 1
        && k <= |values| && |Concat(values[..k])| <= max && (k < |values| ==> |Concat(values[..k + 1])| > max)
        && (if k == 0 then out[0].event.data == [] else Lines(out[0].event.data + [LF]) == values[..k])
        && (out[0].event.truncated <==> k < |values|)
        && out[0].event.kind ==
             (if kinds == [] || kinds[|kinds| - 1] == [] then MESSAGE else kinds[|kinds| - 1])
        && LatestId(Values(block, ID), id, out[0].event.id) && LatestRetry(Values(block, RETRY), out[0].event.retry)
  {
    var values := Values(block, DATA);
    var kept := Kept(max, values);
    k := |kept|;
    KeptIsLongest(max, values);
    assert kept == values[..k];
    TotalIsLength(kept);
    if k < |values| { TotalIsLength(values[..k + 1]); }
    ValuesAreUnbroken(block, DATA);
    if kept != [] {
      assert Unbroken(kept);
      JoinComesApart(kept);
    }
    IdIsLatest(Values(block, ID), id);
    RetryIsLatest(Values(block, RETRY));
  }

  // ---- The events of a stream --------------------------------------------

  /** Lines j..k are a block: no empty line among them, and an empty one, or the start, on either side. */
  predicate IsBlock(lines: seq<Bytes>, j: nat, k: nat) {
    && j <= k < |lines| && lines[k] == [] && (j == 0 || lines[j - 1] == [])
    && forall m :: j <= m < k ==> lines[m] != []
  }

  lemma ShiftedBlock(lines: seq<Bytes>, b: nat, j: nat, k: nat)
    requires b < |lines| && lines[b] == [] && IsBlock(lines[b + 1..], j, k)
    ensures IsBlock(lines, b + 1 + j, b + 1 + k) && lines[b + 1..][j..k] == lines[b + 1 + j..b + 1 + k]
  {
    var rest := lines[b + 1..];
    assert forall m :: 0 <= m < |rest| ==> rest[m] == lines[b + 1 + m];
    forall m | b + 1 + j <= m < b + 1 + k ensures lines[m] != [] { assert rest[m - b - 1] != []; }
  }

  lemma {:induction false} CommentsOnly(block: seq<Bytes>)
    ensures forall i :: 0 <= i < |Comments(block)| ==> Comments(block)[i].OnComment?
    decreases |block|
  {
    if block != [] { CommentsOnly(block[..|block| - 1]); }
  }

  lemma WhichPart(x: seq<Callback>, y: seq<Callback>, z: seq<Callback>, i: nat)
    requires i < |x + y + z|
    ensures (x + y + z)[i] == if i < |x| then x[i] else if i < |x| + |y| then y[i - |x|] else z[i - |x| - |y|]
  {}

  lemma FirstIsBlock(lines: seq<Bytes>, b: nat)
    requires b == FirstBlank(lines) < |lines|
    ensures IsBlock(lines, 0, b) && lines[0..b] == lines[..b]
  {}

  /** What a place in the rendering of a block and the rest is. */
  lemma {:induction false} WhichEvent(block: seq<Bytes>, event: seq<Callback>, more: seq<Callback>,
                                      all: seq<Callback>, i: nat)
    requires all == Comments(block) + event + more && |event| <= 1 && i < |all| && all[i].OnEvent?
    ensures if i < |Comments(block)| + |event| then event == [all[i]]
            else i - |Comments(block)| - |event| < |more| && more[i - |Comments(block)| - |event|] == all[i]
  {
    CommentsOnly(block);
    WhichPart(Comments(block), event, more, i);
  }

  /** The callback is the event of the block, whatever id and numbering came before. */
  ghost predicate IsEventOf(max: nat, block: seq<Bytes>, c: Callback) {
    exists id, number :: BlockEvent(max, block, id, number) == [c]
  }

  /** What the lines stand for, whatever id and numbering came before. */
  ghost predicate IsRendering(max: nat, lines: seq<Bytes>, all: seq<Callback>) {
    exists id, number :: all == Render(max, lines, id, number)
  }

  lemma {:induction false} FirstEvent(max: nat, lines: seq<Bytes>, id: Bytes, number: nat, all: seq<Callback>, i: nat)
    returns (first: bool, b: nat, nextId: Bytes, next: nat, more: seq<Callback>, later: nat)
    requires all == Render(max, lines, id, number) && i < |all| && all[i].OnEvent?
    ensures b < |lines| && lines[b] == [] && more == Render(max, lines[b + 1..], nextId, next)
    ensures first ==> IsBlock(lines, 0, b) && BlockEvent(max, lines[0..b], id, number) == [all[i]]
    ensures !first ==> later < |more| && more[later] == all[i]
  {
    b := FirstBlank(lines);
    var block := lines[..b];
    CommentsOnly(block);
    assert b < |lines|;
    var event := BlockEvent(max, block, id, number);
    nextId, next := LastId(Values(block, ID), id), number + |event|;
    more := Render(max, lines[b + 1..], nextId, next);
    RenderParts(max, lines, id, number, b, event, nextId, next);
    WhichEvent(block, event, more, all, i);
    FirstIsBlock(lines, b);
    first := i < |Comments(block)| + |event|;
    later := if first then 0 else i - |Comments(block)| - |event|;
  }

  /** An event belongs to the first block or to what comes after it. */
  lemma {:induction false} FirstOrLater(max: nat, lines: seq<Bytes>, all: seq<Callback>, i: nat)
    returns (first: bool, b: nat, more: seq<Callback>, later: nat)
    requires IsRendering(max, lines, all) && i < |all| && all[i].OnEvent?
    ensures b < |lines| && lines[b] == []
    ensures first ==> IsBlock(lines, 0, b) && IsEventOf(max, lines[0..b], all[i])
    ensures !first ==> IsRendering(max, lines[b + 1..], more) && later < |more| && more[later] == all[i]
  {
    var id, number :| all == Render(max, lines, id, number);
    var nextId, next;
    first, b, nextId, next, more, later := FirstEvent(max, lines, id, number, all, i);
  }

  lemma {:induction false} ShiftedEvent(max: nat, lines: seq<Bytes>, b: nat, j: nat, k: nat, c: Callback)
    returns (from: nat, to: nat)
    requires b < |lines| && lines[b] == [] && IsBlock(lines[b + 1..], j, k) && IsEventOf(max, lines[b + 1..][j..k], c)
    ensures IsBlock(lines, from, to) && IsEventOf(max, lines[from..to], c)
  {
    ShiftedBlock(lines, b, j, k);
    from, to := b + 1 + j, b + 1 + k;
  }

  /** Every event that the lines stand for is the event of one of their blocks. */
  lemma {:induction false} EventsComeFromBlocks(max: nat, lines: seq<Bytes>, all: seq<Callback>, i: nat)
    returns (j: nat, k: nat)
    requires IsRendering(max, lines, all) && i < |all| && all[i].OnEvent?
    ensures IsBlock(lines, j, k) && IsEventOf(max, lines[j..k], all[i])
    decreases |lines|
  {
    var first, b, more, later := FirstOrLater(max, lines, all, i);
    if first { return 0, b; }
    j, k := EventsComeFromBlocks(max, lines[b + 1..], more, later);
    j, k := ShiftedEvent(max, lines, b, j, k, all[i]);
  }

  lemma StreamIsUnbroken(stream: Bytes)
    ensures Unbroken(WithoutBom(Lines(stream)))
  {
    var lines := Lines(stream);
    LinesAreUnbroken(stream);
    if lines != [] {
      var first := TrimPrefix(lines[0], BOM);
      assert EolPos(lines[0]) == |lines[0]|;
      EolPosIs(first, |first|);
    }
  }

  lemma BlockIsUnbroken(lines: seq<Bytes>, j: nat, k: nat)
    requires Unbroken(lines) && j <= k <= |lines|
    ensures Unbroken(lines[j..k])
  {
    assert forall m :: 0 <= m < k - j ==> lines[j..k][m] == lines[j + m];
  }

  /** Fed in any pieces, the parser reports only events of the stream's blocks, and their data gives back the data
      lines of the block, as many from the first as the maximum admits. */
  lemma {:induction false} ReportedData(max: nat, parts: seq<Bytes>, i: nat) returns (j: nat, k: nat, kept: nat)
    requires Safe(max, FRESH, Lines(Concat(parts))) && i < |Output(max, parts)| && Output(max, parts)[i].OnEvent?
    ensures var (lines, event) := (WithoutBom(Lines(Concat(parts))), Output(max, parts)[i].event);
      && IsBlock(lines, j, k)
      && var values := Values(lines[j..k], DATA);
      && values != [] && kept <= |values| && |Concat(values[..kept])| <= max
      && (kept < |values| ==> |Concat(values[..kept + 1])| > max)
      && (if kept == 0 then event.data == [] else Lines(event.data + [LF]) == values[..kept])
      && (event.truncated <==> kept < |values|)
  {
    var (lines, out) := (WithoutBom(Lines(Concat(parts))), Output(max, parts));
    ParserMeetsSpecification(max, parts);
    j, k := EventsComeFromBlocks(max, lines, out, i);
    var before, count :| BlockEvent(max, lines[j..k], before, count) == [out[i]];
    StreamIsUnbroken(Concat(parts));
    BlockIsUnbroken(lines, j, k);
    kept := EventSays(max, lines[j..k], before, count);
  }
}
