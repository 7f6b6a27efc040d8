/** The incremental Server-Sent Events parser (internal/core/sse/parser.go): the functions
    its methods compute, then the parser object that updates its buffers in place. */
module SseParser {
  import opened Prelude

  const LF: byte := 10
  const CR: byte := 13
  const COLON: byte := 58
  const SPACE: byte := 32
  const NUL: byte := 0
  const BOM: Bytes := [0xEF, 0xBB, 0xBF]
  const DATA: Bytes := [100, 97, 116, 97]          // "data"
  const EVENT: Bytes := [101, 118, 101, 110, 116]  // "event"
  const ID: Bytes := [105, 100]                    // "id"
  const RETRY: Bytes := [114, 101, 116, 114, 121]  // "retry"
  const MESSAGE: Bytes := [109, 101, 115, 115, 97, 103, 101] // "message"

  const DEFAULT_MAX: nat := 1048576
  const SLACK: nat := 64

  datatype Event = Event(sequence: nat, kind: Bytes, data: Bytes, id: Bytes, retry: Option<int>, truncated: bool)

  datatype Callback = OnEvent(event: Event) | OnComment(text: Bytes)

  /** The fields that processing a line touches; `out` lists the callbacks made so far. */
  datatype Acc = Acc(data: seq<Bytes>, kind: Bytes, lastId: Bytes, retry: Option<int>,
                     eventBytes: nat, truncated: bool, sequence: nat, firstLine: bool, out: seq<Callback>)

  datatype State = State(pending: Bytes, acc: Acc)

  const FRESH := Acc([], [], [], None, 0, false, 0, true, [])

  // ---- Lines ------------------------------------------------------------

  predicate IsEol(b: byte) { b == CR || b == LF }

  /** bytes.IndexAny(s, "\r\n"), with |s| for "none". */
  function EolPos(s: Bytes): (i: nat)
    ensures i <= |s| && (i < |s| ==> IsEol(s[i]))
    ensures forall k :: 0 <= k < i ==> !IsEol(s[k])
  {
    if s == [] || IsEol(s[0]) then 0 else 1 + EolPos(s[1..])
  }

  /** How many bytes the line that ends at i takes with its terminator. */
  function Consumed(s: Bytes, i: nat): (n: nat)
    requires i < |s|
    ensures i < n <= |s|
  {
    if s[i] == CR && i + 1 < |s| && s[i + 1] == LF then i + 2 else i + 1
  }

  function IndexOf(s: Bytes, b: byte): (i: nat)
    ensures i <= |s| && (i < |s| ==> s[i] == b)
    ensures forall k :: 0 <= k < i ==> s[k] != b
  {
    if s == [] || s[0] == b then 0 else 1 + IndexOf(s[1..], b)
  }

  function TrimPrefix(s: Bytes, prefix: Bytes): Bytes { if prefix <= s then s[|prefix|..] else s }

  /** strings.Cut at the first colon, and the value without its one leading space. */
  function Field(line: Bytes): Bytes { line[..IndexOf(line, COLON)] }

  function Value(line: Bytes): Bytes {
    var i := IndexOf(line, COLON);
    if i == |line| then [] else TrimPrefix(line[i + 1..], [SPACE])
  }

  function Digits(s: Bytes): Option<nat> {
    if s == [] then Some(0)
    else
      var last := s[|s| - 1];
      match Digits(s[..|s| - 1])
      case Some(n) => if 48 <= last <= 57 then Some(10 * n + (last as int - 48)) else None
      case None => None
  }

  /** strconv.ParseInt(s, 10, 64), None for any error. */
  function ParseInt(s: Bytes): Option<int> {
    if s == [] then None
    else
      var signed := s[0] == 43 || s[0] == 45;
      var digits := if signed then s[1..] else s;
      if digits == [] then None
      else
        match Digits(digits)
        case None => None
        case Some(n) =>
          var v: int := if s[0] == 45 then -(n as int) else n;
          if -0x8000_0000_0000_0000 <= v < 0x8000_0000_0000_0000 then Some(v) else None
  }

  // ---- Processing one line ----------------------------------------------

  function Join(parts: seq<Bytes>): Bytes {
    if parts == [] then []
    else if |parts| == 1 then parts[0]
    else Join(parts[..|parts| - 1]) + [LF] + parts[|parts| - 1]
  }

  function ResetEvent(s: Acc): Acc {
    s.(data := [], kind := [], retry := None, eventBytes := 0, truncated := false)
  }

  function Dispatch(s: Acc): Acc {
    if s.data == [] && !s.truncated then ResetEvent(s)
    else
      var event := Event(s.sequence + 1, if s.kind == [] then MESSAGE else s.kind,
          Join(s.data), s.lastId, s.retry, s.truncated);
      ResetEvent(s.(sequence := s.sequence + 1, out := s.out + [OnEvent(event)]))
  }

  function AppendData(max: nat, s: Acc, value: Bytes): Acc {
    var total := s.eventBytes + |value|;
    if total > max then s.(eventBytes := total, truncated := true)
    else s.(eventBytes := total, data := s.data + [value])
  }

  function SetRetry(s: Acc, value: Bytes): Acc {
    match ParseInt(value)
    case Some(n) => if n >= 0 then s.(retry := Some(n)) else s
    case None => s
  }

  function ApplyField(max: nat, s: Acc, field: Bytes, value: Bytes): Acc {
    if field == DATA then AppendData(max, s, value)
    else if field == EVENT then s.(kind := value)
    else if field == ID then (if NUL in value then s else s.(lastId := value))
    else if field == RETRY then SetRetry(s, value)
    else s
  }

  /** processLine behind the byte-order mark. */
  function ProcessText(max: nat, s: Acc, line: Bytes): Acc {
    if line == [] then Dispatch(s)
    else if line[0] == COLON then s.(out := s.out + [OnComment(line[1..])])
    else ApplyField(max, s, Field(line), Value(line))
  }

  function Text(first: bool, line: Bytes): Bytes { if first then TrimPrefix(line, BOM) else line }

  function ProcessLine(max: nat, s: Acc, line: Bytes): Acc {
    ProcessText(max, s.(firstLine := false), Text(s.firstLine, line))
  }

  // ---- Feeding ----------------------------------------------------------

  /** Bounds an unterminated line; data lines and open events are flagged at once. */
  function Clip(max: nat, pending: Bytes, s: Acc): State {
    if |pending| > max + SLACK then
      State(pending[..max + SLACK], s.(truncated := s.truncated || DATA <= pending || |s.data| > 0))
    else State(pending, s)
  }

  /** A CR at the very end may be half of a CRLF. */
  predicate Undecided(s: Bytes) { EolPos(s) < |s| && s[EolPos(s)] == CR && EolPos(s) + 1 == |s| }

  /** The first complete line and what follows it. */
  function NextLine(s: Bytes): (r: Option<(Bytes, Bytes)>)
    ensures r.Some? ==> |r.value.1| < |s|
  {
    var i := EolPos(s);
    if i == |s| || Undecided(s) then None else Some((s[..i], s[Consumed(s, i)..]))
  }

  /** The loop of Feed: process lines until the rest holds no complete one. */
  function Drain(max: nat, pending: Bytes, s: Acc): State
    decreases |pending|
  {
    match NextLine(pending)
    case Some((line, rest)) => Drain(max, rest, ProcessLine(max, s, line))
    case None => if Undecided(pending) then State(pending, s) else Clip(max, pending, s)
  }

  function Feed(max: nat, s: State, data: Bytes): State {
    if data == [] then s else Drain(max, s.pending + data, s.acc)
  }

  function Close(max: nat, s: State): State {
    var t := if |s.pending| > 0 && s.pending[|s.pending| - 1] == CR then Feed(max, s, [LF]) else s;
    State([], ResetEvent(t.acc))
  }

  function FeedAll(max: nat, s: State, parts: seq<Bytes>): State
    decreases |parts|
  {
    if parts == [] then s else Feed(max, FeedAll(max, s, parts[..|parts| - 1]), parts[|parts| - 1])
  }

  /** All callbacks of a parser that is fed the parts in turn and then closed. */
  function Output(max: nat, parts: seq<Bytes>): seq<Callback> {
    Close(max, FeedAll(max, State([], FRESH), parts)).acc.out
  }
}

/** The parser object: the same steps on fields updated in place. */
module SseParserImpl {
  import opened Prelude
  import opened SseParser

  class Parser {
    const maxEventBytes: nat
    var pending: Bytes
    var data: seq<Bytes>
    var eventType: Bytes
    var lastEventId: Bytes
    var retryMillis: Option<int>
    var eventBytes: nat
    var truncated: bool
    var sequence: nat
    var firstLine: bool
    var out: seq<Callback>

    function Fields(): Acc
      reads this
    {
      Acc(data, eventType, lastEventId, retryMillis, eventBytes, truncated, sequence, firstLine, out)
    }

    function State(): State
      reads this
    {
      SseParser.State(pending, Fields())
    }

    constructor (max: int)
      ensures maxEventBytes == (if max <= 0 then DEFAULT_MAX else max) && State() == SseParser.State([], FRESH)
    {
      maxEventBytes := if max <= 0 then DEFAULT_MAX else max;
      pending, data, eventType, lastEventId, retryMillis := [], [], [], [], None;
      eventBytes, truncated, sequence, firstLine, out := 0, false, 0, true, [];
    }

    method Feed(chunk: Bytes)
      modifies this
      ensures State() == SseParser.Feed(maxEventBytes, old(State()), chunk)
    {
      if |chunk| == 0 {
        return;
      }
      pending := pending + chunk;
      while true
        invariant Drain(maxEventBytes, pending, Fields()) == SseParser.Feed(maxEventBytes, old(State()), chunk)
        decreases |pending|
      {
        var index := EolPos(pending);
        if index == |pending| {
          ClipPending();
          return;
        }
        if pending[index] == CR && index + 1 == |pending| {
          return;
        }
        ghost var cut := NextLine(pending);
        var line := pending[..index];
        var consume := index + 1;
        if pending[index] == CR && consume < |pending| && pending[consume] == LF {
          consume := consume + 1;
        }
        pending := pending[consume..];
        assert cut == Some((line, pending));
        ProcessLine(line);
      }
    }

    method ClipPending()
      modifies this
      ensures State() == Clip(maxEventBytes, old(pending), old(Fields()))
    {
      var limit := maxEventBytes + SLACK;
      if |pending| > limit {
        if DATA <= pending || |data| > 0 {
          truncated := true;
        }
        pending := pending[..limit];
      }
    }

    method Close()
      modifies this
      ensures State() == SseParser.Close(maxEventBytes, old(State()))
    {
      if |pending| > 0 && pending[|pending| - 1] == CR {
        Feed([LF]);
      }
      pending := [];
      ResetEvent();
    }

    method ProcessLine(line: Bytes)
      modifies this
      ensures Fields() == SseParser.ProcessLine(maxEventBytes, old(Fields()), line) && pending == old(pending)
    {
      var text := line;
      if firstLine {
        text := TrimPrefix(text, BOM);
        firstLine := false;
      }
      if text == [] {
        Dispatch();
        return;
      }
      if text[0] == COLON {
        out := out + [OnComment(text[1..])];
        return;
      }
      ApplyField(Field(text), Value(text));
    }

    /** The switch of processLine. */
    method ApplyField(field: Bytes, value: Bytes)
      modifies this
      ensures Fields() == SseParser.ApplyField(maxEventBytes, old(Fields()), field, value) && pending == old(pending)
    {
      if field == DATA {
        AppendData(value);
      } else if field == EVENT {
        eventType := value;
      } else if field == ID {
        if NUL !in value {
          lastEventId := value;
        }
      } else if field == RETRY {
        if value == [] {
          return;
        }
        var parsed := ParseInt(value);
        if parsed.Some? && parsed.value >= 0 {
          retryMillis := parsed;
        }
      }
    }

    method AppendData(value: Bytes)
      modifies this
      ensures Fields() == SseParser.AppendData(maxEventBytes, old(Fields()), value) && pending == old(pending)
    {
      eventBytes := eventBytes + |value|;
      if eventBytes > maxEventBytes {
        truncated := true;
        return;
      }
      data := data + [value];
    }

    method Dispatch()
      modifies this
      ensures Fields() == SseParser.Dispatch(old(Fields())) && pending == old(pending)
    {
      if |data| == 0 && !truncated {
        ResetEvent();
        return;
      }
      sequence := sequence + 1;
      var kind := if eventType == [] then MESSAGE else eventType;
      out := out + [OnEvent(Event(sequence, kind, Join(data), lastEventId, retryMillis, truncated))];
      ResetEvent();
    }

    method ResetEvent()
      modifies this
      ensures Fields() == SseParser.ResetEvent(old(Fields())) && pending == old(pending)
    {
      data, eventType, retryMillis, eventBytes, truncated := [], [], None, 0, false;
    }
  }
}
