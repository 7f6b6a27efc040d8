/** Lines longer than the parser keeps: what is left of their field and value when they are clipped, and which of them
    do the same to the parser however they are clipped. */
module SseLongLines {
  import opened Prelude
  import opened SseParser
  import opened SseChunks

  predicate IsComment(first: bool, line: Bytes) {
    Text(first, line) != [] && Text(first, line)[0] == COLON
  }

  /** The part of an overlong line's value that is never lost. */
  function KeptValue(max: nat, first: bool, line: Bytes): Bytes
    requires |line| > max + SLACK
  {
    Value(Text(first, line[..max + SLACK]))
  }

  function Lost(max: nat, line: Bytes): Bytes
    requires |line| > max + SLACK
  {
    line[max + SLACK..]
  }

  /** The retry time that a value sets, if it sets one. */
  function Number(value: Bytes): Option<int> {
    match ParseInt(value)
    case Some(n) => if n >= 0 then Some(n) else None
    case None => None
  }

  /** The last id, and the retry time, after a line with this value. */
  function IdAfter(id: Bytes, value: Bytes): Bytes { if NUL in value then id else value }

  function RetryAfter(retry: Option<int>, value: Bytes): Option<int> {
    if Number(value).None? then retry else Number(value)
  }

  predicate Zeros(s: Bytes) { forall k :: 0 <= k < |s| ==> s[k] == 48 }

  /** Type, id and retry time of the event in progress. */
  function Shown(a: Acc): (Bytes, Bytes, Option<int>) { (if a.kind == [] then MESSAGE else a.kind, a.lastId, a.retry) }

  // ---- Fields of long lines ----------------------------------------------

  lemma FieldIs(text: Bytes, name: Bytes)
    requires |text| > |name| && COLON !in name
    ensures Field(text) == name <==> text[..|name| + 1] == name + [COLON]
  {
    var k := |name|;
    if text[..k + 1] == name + [COLON] {
      assert text[k] == text[..k + 1][k] == COLON;
      assert forall i :: 0 <= i < k ==> text[i] == text[..k + 1][i] == name[i];
      IndexIs(text, COLON, k);
      assert text[..k] == text[..k + 1][..k] == name;
    }
    if Field(text) == name {
      assert |Field(text)| == k;
      assert text[..k + 1] == Field(text) + [COLON];
    }
  }

  lemma TextStarts(first: bool, a: Bytes, b: Bytes)
    requires |a| >= SLACK && |b| >= SLACK && a[..SLACK] == b[..SLACK]
    ensures |Text(first, a)| > 60 && |Text(first, b)| > 60 && Text(first, a)[..61] == Text(first, b)[..61]
    ensures |a| - |Text(first, a)| == |b| - |Text(first, b)|
  {
    assert BOM <= a <==> BOM <= a[..SLACK];
    assert BOM <= b <==> BOM <= b[..SLACK];
    assert a[3..][..61] == a[..SLACK][3..] && b[3..][..61] == b[..SLACK][3..];
    assert a[..61] == a[..SLACK][..61] && b[..61] == b[..SLACK][..61];
  }

  lemma FieldStarts(s: Bytes, t: Bytes, name: Bytes)
    requires |s| > 60 && |t| > 60 && s[..61] == t[..61] && |name| <= 5 && COLON !in name
    ensures Field(s) == name <==> Field(t) == name
  {
    FieldIs(s, name);
    FieldIs(t, name);
    assert s[..|name| + 1] == s[..61][..|name| + 1] && t[..|name| + 1] == t[..61][..|name| + 1];
  }

  /** Lines with the same long beginning are comments, or have the same known field, together. */
  lemma SameKind(first: bool, a: Bytes, b: Bytes)
    requires |a| >= SLACK && |b| >= SLACK && a[..SLACK] == b[..SLACK]
    ensures IsComment(first, a) <==> IsComment(first, b)
    ensures Field(Text(first, a)) == DATA <==> Field(Text(first, b)) == DATA
    ensures Field(Text(first, a)) == EVENT <==> Field(Text(first, b)) == EVENT
    ensures Field(Text(first, a)) == ID <==> Field(Text(first, b)) == ID
    ensures Field(Text(first, a)) == RETRY <==> Field(Text(first, b)) == RETRY
  {
    var (s, t) := (Text(first, a), Text(first, b));
    TextStarts(first, a, b);
    assert s[0] == s[..61][0] && t[0] == t[..61][0];
    FieldStarts(s, t, DATA);
    FieldStarts(s, t, EVENT);
    FieldStarts(s, t, ID);
    FieldStarts(s, t, RETRY);
  }

  lemma NotDataField(first: bool, line: Bytes)
    requires |line| >= SLACK && !DataLine(first, line)
    ensures Text(first, line) != [] && Field(Text(first, line)) != DATA
  {
    var text := Text(first, line);
    TextStarts(first, line, line);
    FieldIs(text, DATA);
    assert DATA + [COLON] == DATA_FIELD;
    assert DATA_FIELD <= text <==> text[..5] == DATA_FIELD;
  }

  lemma OtherField(max: nat, a: Acc, field: Bytes, value: Bytes)
    requires field != DATA
    ensures var b := ApplyField(max, a, field, value);
      && b == a.(kind := b.kind, lastId := b.lastId, retry := b.retry) && (field != EVENT ==> b.kind == a.kind)
  {}

  /** A long line that is no data field changes at most type, id and retry time. */
  lemma NoData(max: nat, a: Acc, line: Bytes)
    requires |line| >= SLACK && !DataLine(a.firstLine, line) && !IsComment(a.firstLine, line)
    ensures var b := ProcessLine(max, a, line);
      && b == a.(firstLine := false, kind := b.kind, lastId := b.lastId, retry := b.retry)
      && (Field(Text(a.firstLine, line)) != EVENT ==> b.kind == a.kind)
  {
    var text := Text(a.firstLine, line);
    NotDataField(a.firstLine, line);
    OtherField(max, a.(firstLine := false), Field(text), Value(text));
  }

  /** Nor, if its field is unknown, anything else. */
  lemma NoField(max: nat, a: Acc, line: Bytes)
    requires |line| >= SLACK && !DataLine(a.firstLine, line) && !IsComment(a.firstLine, line)
    requires Field(Text(a.firstLine, line)) !in {EVENT, ID, RETRY}
    ensures ProcessLine(max, a, line) == a.(firstLine := false)
  {
    NotDataField(a.firstLine, line);
  }

  /** Clipping keeps the kind of a line. */
  lemma ClippedStarts(max: nat, first: bool, line: Bytes, c: nat)
    requires max + SLACK <= c <= |line|
    ensures var cut := Clipped(max, line, c);
      && |cut| >= SLACK && cut[..SLACK] == line[..SLACK] && |cut| == max + SLACK + |line| - c
      && (DataLine(first, cut) <==> DataLine(first, line)) && (IsComment(first, cut) <==> IsComment(first, line))
  {
    var cut := Clipped(max, line, c);
    ClippedPrefix(max, line, c);
    assert cut[..SLACK] == cut[..max + SLACK][..SLACK] && line[..SLACK] == line[..max + SLACK][..SLACK];
    SameKind(first, cut, line);
    DataLinePrefix(max, first, cut, line);
  }

  /** Where the value of a long line starts. */
  function ValueStart(text: Bytes, name: Bytes): nat
    requires |text| > 60 && |name| <= 5
  {
    |name| + if text[|name| + 1] == SPACE then 2 else 1
  }

  lemma ValueFrom(text: Bytes, name: Bytes)
    requires |text| > 60 && |name| <= 5 && Field(text) == name
    ensures Value(text) == text[ValueStart(text, name)..]
  {
    var k := |name|;
    assert IndexOf(text, COLON) == k;
    assert [SPACE] <= text[k + 1..] <==> text[k + 1] == SPACE;
  }

  lemma DropSlices(line: Bytes, limit: nat, c: nat, k: nat, cut: Bytes)
    requires k <= limit <= c <= |line| && cut == line[..limit] + line[c..]
    ensures cut[k..] == line[..limit][k..] + line[c..]
  {}

  lemma TextDrops(first: bool, line: Bytes, k: nat, o: nat)
    requires o == |line| - |Text(first, line)| && k <= |Text(first, line)|
    ensures Text(first, line)[k..] == line[o + k..]
  {}

  /** How much of a long line comes before its value. */
  function Skip(first: bool, line: Bytes, name: Bytes): (k: nat)
    requires |line| >= SLACK && |name| <= 5
    ensures k <= 10
  {
    |line| - |Text(first, line)| + ValueStart(Text(first, line), name)
  }

  lemma SameSkip(first: bool, a: Bytes, b: Bytes, name: Bytes)
    requires |a| >= SLACK && |b| >= SLACK && a[..SLACK] == b[..SLACK] && |name| <= 5
    ensures Skip(first, a, name) == Skip(first, b, name)
  {
    TextStarts(first, a, b);
    var (s, t, k) := (Text(first, a), Text(first, b), |name| + 1);
    assert s[k] == s[..61][k] && t[k] == t[..61][k];
  }

  lemma ValueBehind(first: bool, line: Bytes, name: Bytes)
    requires |line| >= SLACK && |name| <= 5 && Field(Text(first, line)) == name
    ensures Value(Text(first, line)) == line[Skip(first, line, name)..]
  {
    var text := Text(first, line);
    ValueFrom(text, name);
    TextDrops(first, line, ValueStart(text, name), |line| - |text|);
  }

  /** The same for another line with the same long beginning. */
  lemma ValueBehindToo(first: bool, a: Bytes, b: Bytes, name: Bytes, k: nat)
    requires |a| >= SLACK && |b| >= SLACK && a[..SLACK] == b[..SLACK] && name in {EVENT, ID, RETRY}
    requires Field(Text(first, a)) == name && k == Skip(first, a, name)
    ensures Field(Text(first, b)) == name && Value(Text(first, b)) == b[k..]
  {
    SameKind(first, a, b);
    SameSkip(first, a, b, name);
    ValueBehind(first, b, name);
  }

  /** Clipping takes bytes out of the value behind the kept part; for c at the limit the line is whole. */
  lemma ClippedValue(max: nat, first: bool, line: Bytes, c: nat, name: Bytes)
    requires max + SLACK <= c <= |line| && |line| > max + SLACK && name in {EVENT, ID, RETRY}
    requires Field(Text(first, line)) == name
    ensures Field(Text(first, Clipped(max, line, c))) == name
    ensures Value(Text(first, Clipped(max, line, c))) == KeptValue(max, first, line) + line[c..]
    ensures |KeptValue(max, first, line)| > |MESSAGE|
  {
    var (cut, kept, k) := (Clipped(max, line, c), line[..max + SLACK], Skip(first, line, name));
    ClippedStarts(max, first, line, c);
    assert kept[..SLACK] == line[..SLACK];
    ValueBehindToo(first, line, cut, name, k);
    ValueBehindToo(first, line, kept, name, k);
    DropSlices(line, max + SLACK, c, k, cut);
  }

  lemma WholeClipped(max: nat, line: Bytes)
    requires |line| > max + SLACK
    ensures Clipped(max, line, max + SLACK) == line && line[|line|..] == []
  {}

  lemma NoMoreBytes(s: Bytes)
    ensures s + [] == s && [] + s == s
  {}

  // ---- What overlong lines say -------------------------------------------

  /** A comment comes out shorter by what is lost. */
  lemma CommentsDiffer(max: nat, first: bool, line: Bytes, c: nat)
    requires max + SLACK < c <= |line| && IsComment(first, line)
    ensures var cut := Clipped(max, line, c);
      IsComment(first, cut) && OnComment(Text(first, cut)[1..]) != OnComment(Text(first, line)[1..])
  {
    var cut := Clipped(max, line, c);
    ClippedStarts(max, first, line, c);
    TextStarts(first, cut, line);
    assert |Text(first, cut)[1..]| != |Text(first, line)[1..]|;
  }

  lemma TypeSet(max: nat, a: Acc, line: Bytes)
    requires Text(a.firstLine, line) != [] && Field(Text(a.firstLine, line)) == EVENT && !IsComment(a.firstLine, line)
    ensures ProcessLine(max, a, line) == a.(firstLine := false, kind := Value(Text(a.firstLine, line)))
  {
    assert EVENT[0] != DATA[0];
  }

  lemma LongText(first: bool, line: Bytes)
    requires |line| >= SLACK
    ensures |Text(first, line)| > 60
  {}

  /** A type comes out shorter by what is lost. */
  lemma TypesDiffer(max: nat, a: Acc, line: Bytes, c: nat)
    requires max + SLACK < c <= |line| && Field(Text(a.firstLine, line)) == EVENT && !IsComment(a.firstLine, line)
    ensures Shown(ProcessLine(max, a, Clipped(max, line, c))) != Shown(ProcessLine(max, a, line))
    ensures ProcessLine(max, a, Clipped(max, line, c)).kind == KeptValue(max, a.firstLine, line) + line[c..]
    ensures ProcessLine(max, a, line).kind == KeptValue(max, a.firstLine, line) + Lost(max, line)
  {
    var (first, cut) := (a.firstLine, Clipped(max, line, c));
    ClippedStarts(max, first, line, c);
    LongText(first, line);
    LongText(first, cut);
    ClippedValue(max, first, line, c, EVENT);
    WholeClipped(max, line);
    ClippedValue(max, first, line, max + SLACK, EVENT);
    TypeSet(max, a, line);
    TypeSet(max, a, cut);
  }

  lemma IdSet(max: nat, a: Acc, line: Bytes, value: Bytes)
    requires Text(a.firstLine, line) != [] && Field(Text(a.firstLine, line)) == ID && !IsComment(a.firstLine, line)
    requires value == Value(Text(a.firstLine, line))
    ensures ProcessLine(max, a, line) == a.(firstLine := false, lastId := if NUL in value then a.lastId else value)
  {
    assert ID[0] != DATA[0] && ID[0] != EVENT[0];
  }

  lemma RetrySet(max: nat, a: Acc, line: Bytes, value: Bytes)
    requires Text(a.firstLine, line) != [] && Field(Text(a.firstLine, line)) == RETRY && !IsComment(a.firstLine, line)
    requires value == Value(Text(a.firstLine, line))
    ensures ProcessLine(max, a, line) ==
      a.(firstLine := false, retry := if Number(value).None? then a.retry else Number(value))
  {
    assert RETRY[0] != DATA[0] && RETRY[0] != EVENT[0] && RETRY[0] != ID[0];
  }

  lemma LostFrom(max: nat, line: Bytes, k: nat, c: nat)
    requires |line| > max + SLACK && c == max + SLACK + k <= |line|
    ensures line[c..] == Lost(max, line)[k..]
  {}

  /** An id line that goes on at c; with c at the limit it is whole. */
  lemma ClippedId(max: nat, a: Acc, line: Bytes, c: nat, kept: Bytes)
    requires |line| > max + SLACK && max + SLACK <= c <= |line| && kept == KeptValue(max, a.firstLine, line)
    requires Field(Text(a.firstLine, line)) == ID && !IsComment(a.firstLine, line)
    ensures ProcessLine(max, a, Clipped(max, line, c)) ==
      a.(firstLine := false, lastId := IdAfter(a.lastId, kept + line[c..]))
  {
    ClippedStarts(max, a.firstLine, line, c);
    LongText(a.firstLine, Clipped(max, line, c));
    ClippedValue(max, a.firstLine, line, c, ID);
    IdSet(max, a, Clipped(max, line, c), kept + line[c..]);
  }

  lemma ClippedRetry(max: nat, a: Acc, line: Bytes, c: nat, kept: Bytes)
    requires |line| > max + SLACK && max + SLACK <= c <= |line| && kept == KeptValue(max, a.firstLine, line)
    requires Field(Text(a.firstLine, line)) == RETRY && !IsComment(a.firstLine, line)
    ensures ProcessLine(max, a, Clipped(max, line, c)) ==
      a.(firstLine := false, retry := RetryAfter(a.retry, kept + line[c..]))
  {
    ClippedStarts(max, a.firstLine, line, c);
    LongText(a.firstLine, Clipped(max, line, c));
    ClippedValue(max, a.firstLine, line, c, RETRY);
    RetrySet(max, a, Clipped(max, line, c), kept + line[c..]);
  }

  lemma OneDiffers(max: nat, a: Acc, line: Bytes, c: nat)
    requires max + SLACK < c <= |line|
    requires ProcessLine(max, a, Clipped(max, line, c)) != ProcessLine(max, a, line)
    ensures !SaysTheSame(max, a, line)
  {}

  lemma TypesNeverSame(max: nat, a: Acc, line: Bytes)
    requires |line| > max + SLACK && Field(Text(a.firstLine, line)) == EVENT && !IsComment(a.firstLine, line)
    ensures !SaysTheSame(max, a, line)
  {
    TypesDiffer(max, a, line, |line|);
    assert ProcessLine(max, a, Clipped(max, line, |line|)) != ProcessLine(max, a, line);
  }

  lemma UnknownSame(max: nat, a: Acc, line: Bytes)
    requires |line| > max + SLACK && !DataLine(a.firstLine, line) && !IsComment(a.firstLine, line)
    requires Field(Text(a.firstLine, line)) !in {EVENT, ID, RETRY}
    ensures SaysTheSame(max, a, line)
  {
    NoField(max, a, line);
    forall c | max + SLACK < c <= |line|
      ensures ProcessLine(max, a, Clipped(max, line, c)) == ProcessLine(max, a, line) {
      ClippedStarts(max, a.firstLine, line, c);
      SameKind(a.firstLine, Clipped(max, line, c), line);
      NoField(max, a, Clipped(max, line, c));
    }
  }

  lemma CommentsNeverSame(max: nat, a: Acc, line: Bytes)
    requires |line| > max + SLACK && IsComment(a.firstLine, line)
    ensures !SaysTheSame(max, a, line)
  {
    var cut := Clipped(max, line, |line|);
    CommentsDiffer(max, a.firstLine, line, |line|);
    assert ProcessLine(max, a, cut).out[|a.out|] != ProcessLine(max, a, line).out[|a.out|];
  }

  /** The id is ignored for a NUL that is kept, or the kept part is the present id and the rest ends in a NUL. */
  predicate IdSame(id: Bytes, kept: Bytes, lost: Bytes)
    requires lost != []
  {
    NUL in kept || (id == kept && lost[|lost| - 1] == NUL)
  }

  lemma DropLast(s: Bytes, k: nat)
    requires k < |s|
    ensures s[k..][|s| - 1 - k] == s[|s| - 1] && s[|s| - 1..] == [s[|s| - 1]]
  {}

  lemma IdStays(id: Bytes, kept: Bytes, lost: Bytes, k: nat)
    requires lost != [] && k <= |lost| && IdSame(id, kept, lost)
    ensures IdAfter(id, kept + lost[k..]) == id
  {
    if k < |lost| {
      DropLast(lost, k);
    } else {
      NoMoreBytes(kept);
    }
  }

  lemma IdChanges(id: Bytes, kept: Bytes, lost: Bytes) returns (k: nat, tail: Bytes)
    requires lost != [] && !IdSame(id, kept, lost)
    ensures 0 < k <= |lost| && tail == lost[k..] && IdAfter(id, kept + tail) != IdAfter(id, kept + lost)
  {
    k, tail := |lost|, [];
    NoMoreBytes(kept);
    if IdAfter(id, kept + lost) == kept {
      k, tail := |lost| - 1, lost[|lost| - 1..];
      DropLast(lost, |lost| - 1);
    }
  }

  lemma IdClippedTo(max: nat, a: Acc, line: Bytes, c: nat, kept: Bytes, id: Bytes)
    requires |line| > max + SLACK && max + SLACK <= c <= |line| && kept == KeptValue(max, a.firstLine, line)
    requires Field(Text(a.firstLine, line)) == ID && !IsComment(a.firstLine, line)
    requires id == IdAfter(a.lastId, kept + line[c..])
    ensures ProcessLine(max, a, Clipped(max, line, c)) == a.(firstLine := false, lastId := id)
  {
    ClippedId(max, a, line, c, kept);
  }

  lemma IdsClipped(max: nat, a: Acc, line: Bytes, c: nat, kept: Bytes, k: nat)
    requires |line| > max + SLACK && c == max + SLACK + k <= |line| && kept == KeptValue(max, a.firstLine, line)
    requires Field(Text(a.firstLine, line)) == ID && !IsComment(a.firstLine, line)
    requires IdSame(a.lastId, kept, Lost(max, line))
    ensures ProcessLine(max, a, Clipped(max, line, c)) == a.(firstLine := false, lastId := a.lastId)
  {
    LostFrom(max, line, k, c);
    IdStays(a.lastId, kept, Lost(max, line), k);
    IdClippedTo(max, a, line, c, kept, a.lastId);
  }

  lemma IdDiffersAt(max: nat, a: Acc, line: Bytes, c: nat, kept: Bytes, tail: Bytes)
    requires |line| > max + SLACK && max + SLACK < c <= |line| && kept == KeptValue(max, a.firstLine, line)
    requires Field(Text(a.firstLine, line)) == ID && !IsComment(a.firstLine, line) && tail == line[c..]
    requires IdAfter(a.lastId, kept + tail) != IdAfter(a.lastId, kept + Lost(max, line))
    ensures !SaysTheSame(max, a, line)
  {
    WholeClipped(max, line);
    IdClippedTo(max, a, line, max + SLACK, kept, IdAfter(a.lastId, kept + Lost(max, line)));
    IdClippedTo(max, a, line, c, kept, IdAfter(a.lastId, kept + tail));
    OneDiffers(max, a, line, c);
  }

  lemma IdsDiffer(max: nat, a: Acc, line: Bytes, kept: Bytes, lost: Bytes)
    requires |line| > max + SLACK && kept == KeptValue(max, a.firstLine, line) && lost == Lost(max, line)
    requires Field(Text(a.firstLine, line)) == ID && !IsComment(a.firstLine, line) && !IdSame(a.lastId, kept, lost)
    ensures !SaysTheSame(max, a, line)
  {
    var k, tail := IdChanges(a.lastId, kept, lost);
    LostFrom(max, line, k, max + SLACK + k);
    IdDiffersAt(max, a, line, max + SLACK + k, kept, tail);
  }

  lemma IdsSame(max: nat, a: Acc, line: Bytes, kept: Bytes)
    requires |line| > max + SLACK && kept == KeptValue(max, a.firstLine, line)
    requires Field(Text(a.firstLine, line)) == ID && !IsComment(a.firstLine, line)
    ensures SaysTheSame(max, a, line) <==> IdSame(a.lastId, kept, Lost(max, line))
  {
    if IdSame(a.lastId, kept, Lost(max, line)) {
      WholeClipped(max, line);
      IdsClipped(max, a, line, max + SLACK, kept, 0);
      forall c | max + SLACK < c <= |line|
        ensures ProcessLine(max, a, Clipped(max, line, c)) == ProcessLine(max, a, line) {
        IdsClipped(max, a, line, c, kept, c - max - SLACK);
      }
    } else {
      IdsDiffer(max, a, line, kept, Lost(max, line));
    }
  }

  lemma DigitsNext(s: Bytes, b: byte)
    ensures Digits(s + [b]) ==
      match Digits(s)
      case Some(n) => if 48 <= b <= 57 then Some(10 * n + (b as int - 48)) else None
      case None => None
  {
    assert (s + [b])[..|s|] == s;
  }

  /** More digits never make a number smaller, and leave it alone only if all is zero. */
  lemma {:induction false} DigitsGrow(s: Bytes, t: Bytes)
    ensures Digits(s + t).Some? ==> Digits(s).Some? && Digits(s).value <= Digits(s + t).value
    ensures Digits(s).Some? && t != [] ==> (Digits(s + t) == Digits(s) <==> Digits(s).value == 0 && Zeros(t))
    decreases |t|
  {
    if t == [] {
      NoMoreBytes(s);
    } else {
      var (init, last) := (t[..|t| - 1], t[|t| - 1]);
      DigitsGrow(s, init);
      DigitsNext(s + init, last);
      assert t == init + [last] && s + t == (s + init) + [last];
      if init == [] { NoMoreBytes(s); }
    }
  }

  lemma ValueGrows(value: Bytes, t: Bytes)
    requires |value| >= 2
    ensures (value + t)[0] == value[0] && (value + t)[1..] == value[1..] + t
  {}

  /** More bytes turn no refused retry time into one, and another one into itself only if all is zero. */
  lemma NumberGrows(value: Bytes, t: Bytes)
    requires |value| >= 2
    ensures Number(value).None? ==> Number(value + t).None?
    ensures Number(value).Some? && t != [] ==>
      (Number(value + t) == Number(value) <==> Number(value) == Some(0) && Zeros(t))
  {
    ValueGrows(value, t);
    DigitsGrow(if value[0] == 43 || value[0] == 45 then value[1..] else value, t);
  }

  /** No time is set; or zero is, by zeros only; or the kept part sets the present time again and no ending of what
      is lost makes another one of it. */
  predicate RetrySame(retry: Option<int>, kept: Bytes, lost: Bytes) {
    || Number(kept).None?
    || (Number(kept) == Some(0) && Zeros(lost))
    || (retry == Number(kept) &&
        forall k :: 0 <= k < |lost| ==> Number(kept + lost[k..]) in {None, Number(kept)})
  }

  lemma RetryStays(retry: Option<int>, kept: Bytes, lost: Bytes, k: nat)
    requires |kept| >= 2 && k <= |lost| && RetrySame(retry, kept, lost)
    ensures RetryAfter(retry, kept + lost[k..]) == RetryAfter(retry, kept)
  {
    NumberGrows(kept, lost[k..]);
    if k == |lost| { NoMoreBytes(kept); }
  }

  lemma RetryChanges(retry: Option<int>, kept: Bytes, lost: Bytes) returns (k: nat, tail: Bytes)
    requires |kept| >= 2 && lost != [] && !RetrySame(retry, kept, lost)
    ensures 0 < k <= |lost| && tail == lost[k..] && RetryAfter(retry, kept + tail) != RetryAfter(retry, kept + lost)
  {
    k, tail := |lost|, [];
    assert lost[0..] == lost;
    NoMoreBytes(kept);
    NumberGrows(kept, lost);
    if RetryAfter(retry, kept + lost) == Number(kept) {
      k :| 0 <= k < |lost| && Number(kept + lost[k..]) !in {None, Number(kept)};
      tail := lost[k..];
    }
  }

  lemma LongKept(max: nat, first: bool, line: Bytes)
    requires |line| > max + SLACK && Field(Text(first, line)) == RETRY
    ensures |KeptValue(max, first, line)| >= 2
  {
    ClippedValue(max, first, line, |line|, RETRY);
  }

  lemma RetryClippedTo(max: nat, a: Acc, line: Bytes, c: nat, kept: Bytes, retry: Option<int>)
    requires |line| > max + SLACK && max + SLACK <= c <= |line| && kept == KeptValue(max, a.firstLine, line)
    requires Field(Text(a.firstLine, line)) == RETRY && !IsComment(a.firstLine, line)
    requires retry == RetryAfter(a.retry, kept + line[c..])
    ensures ProcessLine(max, a, Clipped(max, line, c)) == a.(firstLine := false, retry := retry)
  {
    ClippedRetry(max, a, line, c, kept);
  }

  lemma RetriesClipped(max: nat, a: Acc, line: Bytes, c: nat, kept: Bytes, k: nat, retry: Option<int>)
    requires |line| > max + SLACK && c == max + SLACK + k <= |line| && kept == KeptValue(max, a.firstLine, line)
    requires Field(Text(a.firstLine, line)) == RETRY && !IsComment(a.firstLine, line)
    requires RetrySame(a.retry, kept, Lost(max, line)) && retry == RetryAfter(a.retry, kept)
    ensures ProcessLine(max, a, Clipped(max, line, c)) == a.(firstLine := false, retry := retry)
  {
    LongKept(max, a.firstLine, line);
    LostFrom(max, line, k, c);
    RetryStays(a.retry, kept, Lost(max, line), k);
    RetryClippedTo(max, a, line, c, kept, retry);
  }

  lemma RetryDiffersAt(max: nat, a: Acc, line: Bytes, c: nat, kept: Bytes, tail: Bytes)
    requires |line| > max + SLACK && max + SLACK < c <= |line| && kept == KeptValue(max, a.firstLine, line)
    requires Field(Text(a.firstLine, line)) == RETRY && !IsComment(a.firstLine, line) && tail == line[c..]
    requires RetryAfter(a.retry, kept + tail) != RetryAfter(a.retry, kept + Lost(max, line))
    ensures !SaysTheSame(max, a, line)
  {
    WholeClipped(max, line);
    RetryClippedTo(max, a, line, max + SLACK, kept, RetryAfter(a.retry, kept + Lost(max, line)));
    RetryClippedTo(max, a, line, c, kept, RetryAfter(a.retry, kept + tail));
    OneDiffers(max, a, line, c);
  }

  lemma RetriesDiffer(max: nat, a: Acc, line: Bytes, kept: Bytes, lost: Bytes)
    requires |line| > max + SLACK && kept == KeptValue(max, a.firstLine, line) && lost == Lost(max, line)
    requires Field(Text(a.firstLine, line)) == RETRY && !IsComment(a.firstLine, line)
    requires !RetrySame(a.retry, kept, lost)
    ensures !SaysTheSame(max, a, line)
  {
    LongKept(max, a.firstLine, line);
    var k, tail := RetryChanges(a.retry, kept, lost);
    LostFrom(max, line, k, max + SLACK + k);
    RetryDiffersAt(max, a, line, max + SLACK + k, kept, tail);
  }

  lemma RetriesSame(max: nat, a: Acc, line: Bytes, kept: Bytes)
    requires |line| > max + SLACK && kept == KeptValue(max, a.firstLine, line)
    requires Field(Text(a.firstLine, line)) == RETRY && !IsComment(a.firstLine, line)
    ensures SaysTheSame(max, a, line) <==> RetrySame(a.retry, kept, Lost(max, line))
  {
    if RetrySame(a.retry, kept, Lost(max, line)) {
      WholeClipped(max, line);
      RetriesClipped(max, a, line, max + SLACK, kept, 0, RetryAfter(a.retry, kept));
      forall c | max + SLACK < c <= |line|
        ensures ProcessLine(max, a, Clipped(max, line, c)) == ProcessLine(max, a, line) {
        RetriesClipped(max, a, line, c, kept, c - max - SLACK, RetryAfter(a.retry, kept));
      }
    } else {
      RetriesDiffer(max, a, line, kept, Lost(max, line));
    }
  }

  /** Which overlong lines do the same however they are clipped: those with unknown fields always; comments and
      types never; ids and retry times when nothing is set, or what is set is there already. */
  lemma WhatLinesSay(max: nat, a: Acc, line: Bytes)
    requires |line| > max + SLACK && !DataLine(a.firstLine, line)
    ensures var field := Field(Text(a.firstLine, line));
      var (kept, lost) := (KeptValue(max, a.firstLine, line), Lost(max, line));
      SaysTheSame(max, a, line) <==>
        && !IsComment(a.firstLine, line) && field != EVENT
        && (field == ID ==> IdSame(a.lastId, kept, lost))
        && (field == RETRY ==> RetrySame(a.retry, kept, lost))
  {
    var field := Field(Text(a.firstLine, line));
    if IsComment(a.firstLine, line) {
      CommentsNeverSame(max, a, line);
    } else if field == EVENT {
      TypesNeverSame(max, a, line);
    } else if field == ID {
      IdsSame(max, a, line, KeptValue(max, a.firstLine, line));
    } else if field == RETRY {
      RetriesSame(max, a, line, KeptValue(max, a.firstLine, line));
    } else {
      UnknownSame(max, a, line);
    }
  }
}
