/** Readers that take a byte stream in whatever pieces it arrives: the broker's event stream
    (broker/runtime.py) and the secret provider's request line (sps/wire.py). Both are proved to read what one
    pass over the whole stream would. */
module Framing {
  import opened Wrappers
  import opened PythonText

  newtype byte = x: int | 0 <= x < 256

  type Bytes = seq<byte>

  const LF: byte := 10
  const CR: byte := 13
  const SPACE: byte := 32

  /** The bytes that strip and lstrip remove. */
  predicate White(b: byte) {
    b == SPACE || 9 <= b <= 13
  }

  function StripLeft(s: Bytes): Bytes {
    if s != [] && White(s[0]) then StripLeft(s[1..]) else s
  }

  predicate AllWhite(s: Bytes) {
    forall b | b in s :: White(b)
  }

  function StripReturns(s: Bytes): Bytes {
    if s != [] && s[|s| - 1] == CR then StripReturns(s[..|s| - 1]) else s
  }

  function Concat(chunks: seq<Bytes>): Bytes {
    if chunks == [] then [] else chunks[0] + Concat(chunks[1..])
  }

  // ---- the event stream, read whole ---------------------------------------------------------------

  /** A JSON value as a JSON-RPC reader looks at one; ids are compared together with their type. */
  datatype Id = IntId(n: int) | TextId(text: string) | OtherId

  datatype Message<+M> =
    | NotObject
    | Object(version: Option<string>, id: Option<Id>, hasResult: bool, hasError: bool, body: M)

  predicate Answers<M>(message: Message<M>, id: Id) {
    && message.Object? && message.version == Some("2.0") && message.id == Some(id)
    && (message.hasResult || message.hasError)
  }

  /** The lines of a stream that end in a line feed. */
  function Lines(stream: Bytes): seq<Bytes> {
    var pieces := Split(stream, LF);
    pieces[..|pieces| - 1]
  }

  const DATA: Bytes := [100, 97, 116, 97, 58]

  /** What a "data:" line carries. */
  function Payload(line: Bytes): Option<Bytes> {
    var line := StripReturns(line);
    if DATA <= line then Some(StripLeft(line[5..])) else None
  }

  predicate EndsEvent(line: Bytes) {
    StripReturns(line) == []
  }

  /** The events of a list of lines, each the payloads gathered up to an empty line; data holds the payloads
      of an event that has already begun. */
  function Events(lines: seq<Bytes>, data: seq<Bytes>): seq<seq<Bytes>> {
    if lines == [] then []
    else if Payload(lines[0]).Some? then Events(lines[1..], data + [Payload(lines[0]).value])
    else if EndsEvent(lines[0]) then (if data == [] then [] else [data]) + Events(lines[1..], [])
    else Events(lines[1..], data)
  }

  /** The reply an event is, if its payloads decode to a message that answers the request. */
  function Reply<M>(event: seq<Bytes>, decode: Bytes -> Option<Message<M>>, id: Id): Option<Message<M>> {
    var message := decode(Join(event, LF));
    if message.Some? && Answers(message.value, id) then message else None
  }

  function FirstReply<M>(events: seq<seq<Bytes>>, decode: Bytes -> Option<Message<M>>, id: Id): Option<Message<M>> {
    if events == [] then None
    else if Reply(events[0], decode, id).Some? then Reply(events[0], decode, id)
    else FirstReply(events[1..], decode, id)
  }

  function ReplyIn<M>(stream: Bytes, decode: Bytes -> Option<Message<M>>, id: Id): Option<Message<M>> {
    FirstReply(Events(Lines(stream), []), decode, id)
  }

  // ---- the event stream, read in pieces -----------------------------------------------------------

  /** What a reader holding an unfinished line and the payloads of an unfinished event will answer. */
  function Rest<M>(pending: Bytes, data: seq<Bytes>, decode: Bytes -> Option<Message<M>>, id: Id): Option<Message<M>> {
    FirstReply(Events(Lines(pending), data), decode, id)
  }

  lemma RestStep<M>(line: Bytes, tail: Bytes, data: seq<Bytes>, decode: Bytes -> Option<Message<M>>, id: Id)
    requires LF !in line
    ensures Rest(line + [LF] + tail, data, decode, id)
         == (if Payload(line).Some? then Rest(tail, data + [Payload(line).value], decode, id)
             else if !EndsEvent(line) then Rest(tail, data, decode, id)
             else if data != [] && Reply(data, decode, id).Some? then Reply(data, decode, id)
             else Rest(tail, [], decode, id))
  {
    SplitAt(line, LF, tail);
    hide Split, Payload, EndsEvent, Reply;
    var lines := Lines(line + [LF] + tail);
    assert lines == [line] + Lines(tail);
    assert lines[0] == line && lines[1..] == Lines(tail);
    hide Lines;
    if Payload(line).None? && EndsEvent(line) && data != [] {
      var rest := Events(Lines(tail), []);
      assert Events(lines, data) == [data] + rest;
      assert ([data] + rest)[1..] == rest;
    } else if Payload(line).None? && EndsEvent(line) {
      assert [] + Events(Lines(tail), []) == Events(Lines(tail), []);
    }
  }

  lemma RestNext<M>(pending: Bytes, more: Bytes, data: seq<Bytes>, decode: Bytes -> Option<Message<M>>, id: Id)
    requires LF in pending
    ensures Rest(pending + more, data, decode, id)
         == (if Payload(Before(pending, LF)).Some?
             then Rest(After(pending, LF) + more, data + [Payload(Before(pending, LF)).value], decode, id)
             else if !EndsEvent(Before(pending, LF)) then Rest(After(pending, LF) + more, data, decode, id)
             else if data != [] && Reply(data, decode, id).Some? then Reply(data, decode, id)
             else Rest(After(pending, LF) + more, [], decode, id))
  {
    hide *;
    SplitFirst(pending, LF);
    var line, tail := Before(pending, LF), After(pending, LF) + more;
    assert pending + more == line + [LF] + tail;
    RestStep(line, tail, data, decode, id);
  }

  /** Reads until the first matching event; None when the stream ends without one. */
  method ReadSse<M>(chunks: seq<Bytes>, decode: Bytes -> Option<Message<M>>, id: Id) returns (r: Option<Message<M>>)
    ensures r == ReplyIn(Concat(chunks), decode, id)
  {
    var pending: Bytes := [];
    var data: seq<Bytes> := [];
    ghost var goal := ReplyIn(Concat(chunks), decode, id);
    assert pending + Concat(chunks[0..]) == Concat(chunks);
    for k := 0 to |chunks|
      invariant Rest(pending + Concat(chunks[k..]), data, decode, id) == goal
      invariant LF !in pending
    {
      ghost var more := Concat(chunks[k + 1..]);
      assert pending + Concat(chunks[k..]) == pending + chunks[k] + more;
      pending := pending + chunks[k];
      while LF in pending
        invariant Rest(pending + more, data, decode, id) == goal
        decreases |pending|
      {
        RestNext(pending, more, data, decode, id);
        var line := Before(pending, LF);
        pending := After(pending, LF);
        var stripped := StripReturns(line);
        if DATA <= stripped {
          data := data + [StripLeft(stripped[5..])];
        } else if stripped == [] {
          if data != [] {
            var message := decode(Join(data, LF));
            if message.Some? && Answers(message.value, id) {
              return message;
            }
          }
          data := [];
        }
      }
    }
    assert Lines(pending + []) == [];
    return None;
  }

  // ---- what a stream says -------------------------------------------------------------------------

  /** A JSON-RPC 2.0 response to the request of that id. */
  predicate IsReply<M>(message: Message<M>, id: Id) {
    match message
    case NotObject => false
    case Object(version, about, hasResult, hasError, _) =>
      version.Some? && version.value == "2.0" && about.Some? && about.value == id && (hasResult || hasError)
  }

  predicate Says<M>(event: seq<Bytes>, decode: Bytes -> Option<Message<M>>, id: Id) {
    var message := decode(Join(event, LF));
    message.Some? && IsReply(message.value, id)
  }

  lemma {:induction false} FirstReplyExactly<M>(events: seq<seq<Bytes>>, decode: Bytes -> Option<Message<M>>, id: Id)
    ensures FirstReply(events, decode, id).None? <==> forall k | 0 <= k < |events| :: !Says(events[k], decode, id)
    ensures forall k | 0 <= k < |events| && Says(events[k], decode, id) && (forall j | 0 <= j < k ::
              !Says(events[j], decode, id)) :: FirstReply(events, decode, id) == decode(Join(events[k], LF))
  {
    hide Join;
    if events != [] {
      FirstReplyExactly(events[1..], decode, id);
      assert forall j | 0 < j < |events| :: events[1..][j - 1] == events[j];
    }
  }

  /** The reader's answer is the first event that is a response to its request; other ids, notifications and text
      that does not decode are passed over. Without such an event there is none. */
  lemma ReplyExactly<M>(stream: Bytes, decode: Bytes -> Option<Message<M>>, id: Id, events: seq<seq<Bytes>>)
    requires events == Events(Lines(stream), [])
    ensures ReplyIn(stream, decode, id).None? <==> forall k | 0 <= k < |events| :: !Says(events[k], decode, id)
    ensures forall k | 0 <= k < |events| && Says(events[k], decode, id) && (forall j | 0 <= j < k ::
              !Says(events[j], decode, id)) :: ReplyIn(stream, decode, id) == decode(Join(events[k], LF))
  {
    FirstReplyExactly(events, decode, id);
    hide Join, Lines, Events, Says;
  }

  /** A line of an event as servers send it: a payload, or a field or comment of another kind. */
  datatype Sent = Data(payload: Bytes) | Other(line: Bytes)

  /** How a server writes: with a space after "data:" or without, and ending lines in a carriage return or not. */
  datatype Style = Style(space: bool, crlf: bool)

  function Payloads(event: seq<Sent>): seq<Bytes> {
    if event == [] then []
    else (if event[0].Data? then [event[0].payload] else []) + Payloads(event[1..])
  }

  function Written(sent: Sent, style: Style): Bytes {
    (match sent
     case Data(payload) => [100, 97, 116, 97, 58] + (if style.space then [32] else []) + payload
     case Other(line) => line)
    + if style.crlf then [13] else []
  }

  function WrittenAll(event: seq<Sent>, style: Style): Bytes {
    if event == [] then [] else Written(event[0], style) + [10] + WrittenAll(event[1..], style)
  }

  /** An empty line ends every event. */
  function Encoded(events: seq<seq<Sent>>, style: Style): Bytes {
    if events == [] then []
    else WrittenAll(events[0], style) + ((if style.crlf then [13] else []) + [10] + Encoded(events[1..], style))
  }

  /** One line's worth of data that begins with no space and ends with no carriage return, or another line that is
      not empty and does not begin with "data:". */
  predicate Sendable(sent: Sent) {
    match sent
    case Data(data) => 10 !in data && (data != [] ==> data[0] !in {9, 10, 11, 12, 13, 32} && data[|data| - 1] != 13)
    case Other(line) => 10 !in line && line != [] && line[|line| - 1] != 13 && !([100, 97, 116, 97, 58] <= line)
  }

  lemma StripsReturn(line: Bytes, style: Style)
    requires line == [] || line[|line| - 1] != 13
    ensures StripReturns(line + if style.crlf then [13] else []) == line
  {
    assert (line + [13])[..|line|] == line && line + [] == line;
  }

  lemma StripsSpaces(style: Style, data: Bytes)
    requires Sendable(Data(data))
    ensures StripLeft((if style.space then [32] else []) + data) == data
  {
    assert ([32] + data)[1..] == data && [] + data == data;
  }

  lemma WrittenLine(sent: Sent, style: Style)
    requires Sendable(sent)
    ensures LF !in Written(sent, style)
    ensures sent.Data? ==> Payload(Written(sent, style)) == Some(sent.payload)
    ensures sent.Other? ==> Payload(Written(sent, style)).None? && !EndsEvent(Written(sent, style))
  {
    match sent
    case Data(data) =>
      var rest := (if style.space then [32] else []) + data;
      var line := [100, 97, 116, 97, 58] + rest;
      assert [100, 97, 116, 97, 58] + (if style.space then [32] else []) + data == line;
      assert line[|line| - 1] == if rest == [] then 58 else rest[|rest| - 1];
      StripsReturn(line, style);
      StripsSpaces(style, data);
      assert line[5..] == rest;
      hide StripReturns, StripLeft;
    case Other(line) =>
      StripsReturn(line, style);
      hide StripReturns, StripLeft;
  }

  lemma EventsLine(line: Bytes, tail: Bytes, data: seq<Bytes>)
    requires LF !in line
    ensures Events(Lines(line + [LF] + tail), data)
         == if Payload(line).Some? then Events(Lines(tail), data + [Payload(line).value])
            else if EndsEvent(line) then (if data == [] then [] else [data]) + Events(Lines(tail), [])
            else Events(Lines(tail), data)
  {
    SplitAt(line, LF, tail);
    hide Split, Payload, EndsEvent;
    var lines := Lines(line + [LF] + tail);
    assert lines == [line] + Lines(tail);
    assert lines[0] == line && lines[1..] == Lines(tail);
  }

  lemma {:induction false} WrittenReads(event: seq<Sent>, style: Style, tail: Bytes, data: seq<Bytes>)
    requires forall k | 0 <= k < |event| :: Sendable(event[k])
    ensures Events(Lines(WrittenAll(event, style) + tail), data) == Events(Lines(tail), data + Payloads(event))
  {
    hide Lines, Events, Payload, EndsEvent, Written, Sendable;
    if event == [] {
      assert WrittenAll(event, style) + tail == tail && data + [] == data;
    } else {
      var line, rest := Written(event[0], style), WrittenAll(event[1..], style) + tail;
      WrittenLine(event[0], style);
      assert WrittenAll(event, style) + tail == line + [LF] + rest;
      EventsLine(line, rest, data);
      var more := if event[0].Data? then [event[0].payload] else [];
      WrittenReads(event[1..], style, tail, data + more);
      Associative(data, more, Payloads(event[1..]));
      assert data + [] == data;
    }
  }

  /** The reader's events are those that were sent, each the payloads it carried: in either style, and whatever other
      lines stand between. */
  lemma {:induction false} EncodedReads(events: seq<seq<Sent>>, style: Style)
    requires forall k | 0 <= k < |events| ::
               Payloads(events[k]) != [] && forall i | 0 <= i < |events[k]| :: Sendable(events[k][i])
    ensures Events(Lines(Encoded(events, style)), [])
         == seq(|events|, k requires 0 <= k < |events| => Payloads(events[k]))
  {
    hide Payload, WrittenAll, Lines, Events, Payloads, Sendable;
    if events == [] {
      NoEvents();
    } else {
      EncodedReads(events[1..], style);
      EncodedFirst(events[0], style, Encoded(events[1..], style));
      var read := seq(|events|, k requires 0 <= k < |events| => Payloads(events[k]));
      assert read == [Payloads(events[0])]
                     + seq(|events| - 1, k requires 0 <= k < |events| - 1 => Payloads(events[1..][k]));
    }
  }

  lemma EncodedFirst(event: seq<Sent>, style: Style, tail: Bytes)
    requires Payloads(event) != [] && forall i | 0 <= i < |event| :: Sendable(event[i])
    ensures Events(Lines(WrittenAll(event, style) + ((if style.crlf then [13] else []) + [10] + tail)), [])
         == [Payloads(event)] + Events(Lines(tail), [])
  {
    hide Payload, WrittenAll, Lines, Events, Payloads, Sendable;
    var blank: Bytes := if style.crlf then [13] else [];
    WrittenReads(event, style, blank + [LF] + tail, []);
    assert [] + Payloads(event) == Payloads(event);
    Blank(blank);
    EventsLine(blank, tail, Payloads(event));
  }

  lemma NoEvents()
    ensures Events(Lines([]), []) == []
  {
  }

  lemma Blank(line: Bytes)
    requires line == [] || line == [13]
    ensures LF !in line && Payload(line).None? && EndsEvent(line)
  {
    assert [13][..0] == [];
  }

  /** Once the reply has arrived, nothing that follows can change it: the reader need not wait for the end. */
  lemma ReplyFinal<M>(stream: Bytes, more: Bytes, decode: Bytes -> Option<Message<M>>, id: Id)
    requires ReplyIn(stream, decode, id).Some?
    ensures ReplyIn(stream + more, decode, id) == ReplyIn(stream, decode, id)
  {
    RestFinal(stream, more, [], decode, id);
  }

  lemma {:induction false} RestFinal<M>(pending: Bytes, more: Bytes, data: seq<Bytes>,
                                        decode: Bytes -> Option<Message<M>>, id: Id)
    requires Rest(pending, data, decode, id).Some?
    ensures Rest(pending + more, data, decode, id) == Rest(pending, data, decode, id)
    decreases |pending|
  {
    assert LF in pending;
    var line, tail := Before(pending, LF), After(pending, LF);
    RestNext(pending, more, data, decode, id);
    RestNext(pending, [], data, decode, id);
    assert pending + [] == pending && tail + [] == tail;
    hide Rest;
    if Payload(line).Some? {
      RestFinal(tail, more, data + [Payload(line).value], decode, id);
    } else if !EndsEvent(line) {
      RestFinal(tail, more, data, decode, id);
    } else if !(data != [] && Reply(data, decode, id).Some?) {
      RestFinal(tail, more, [], decode, id);
    }
  }

  // ---- the request line ---------------------------------------------------------------------------

  const MAX_BODY := 1_048_576
  const LIMIT := MAX_BODY + 1

  datatype Body<+J> = Parsed(value: J) | Empty | Oversized | Unframed | Malformed | TimedOut

  /** file.readline(limit). */
  function ReadLine(file: Bytes, limit: nat): Bytes {
    var end := if LF in file then Find(file, LF) + 1 else |file|;
    file[..if end < limit then end else limit]
  }

  /** One JSON line from a file that holds everything the peer sends. */
  function ReadOneJson<J>(file: Bytes, decode: Bytes -> Option<J>): Body<J> {
    var raw := ReadLine(file, LIMIT);
    if raw == [] then Empty
    else if |raw| > MAX_BODY then Oversized
    else if raw[|raw| - 1] != LF then Unframed
    else if AllWhite(raw) then Empty
    else match decode(raw)
      case None => Malformed
      case Some(value) => Parsed(value)
  }

  lemma LineRead(stream: Bytes)
    ensures var end, raw := Find(stream, LF), ReadLine(stream, LIMIT);
            if end < |stream| && end < LIMIT then raw == stream[..end + 1] && raw[|raw| - 1] == LF
            else |raw| == (if |stream| < LIMIT then |stream| else LIMIT) && LF !in raw
  {
  }

  /** Exactly the first line is accepted, and only when it fits the cap with its line feed. */
  lemma AcceptsFirstLine<J>(stream: Bytes, decode: Bytes -> Option<J>, value: J)
    ensures ReadOneJson(stream, decode) == Parsed(value) <==>
              && LF in stream && Find(stream, LF) + 1 <= 1_048_576
              && !AllWhite(stream[..Find(stream, LF) + 1])
              && decode(stream[..Find(stream, LF) + 1]) == Some(value)
    ensures ReadOneJson(stream, decode) == Oversized <==> 1_048_576 <= Find(stream, LF) && 1_048_576 < |stream|
    ensures ReadOneJson(stream, decode) == Unframed <==> stream != [] && LF !in stream && |stream| <= 1_048_576
    ensures ReadOneJson(stream, decode) == Empty <==>
              stream == [] || (LF in stream && Find(stream, LF) < 1_048_576 && AllWhite(stream[..Find(stream, LF) + 1]))
  {
    LineRead(stream);
    hide AllWhite, ReadLine, Find;
  }

  lemma LineAgain(file: Bytes)
    ensures ReadLine(ReadLine(file, LIMIT), LIMIT) == ReadLine(file, LIMIT)
  {
  }

  /** The line alone reads as the whole file does. */
  lemma LineSuffices<J>(file: Bytes, decode: Bytes -> Option<J>)
    ensures ReadOneJson(ReadLine(file, LIMIT), decode) == ReadOneJson(file, decode)
    ensures |ReadLine(file, LIMIT)| > MAX_BODY ==> ReadOneJson(file, decode) == Oversized
  {
    LineAgain(file);
    hide AllWhite, ReadLine;
  }

  /** The first line feed, seen from a chunk of the stream that holds it. */
  lemma LineEnd(stream: Bytes, taken: nat, n: nat)
    requires taken + n <= |stream| && LF !in stream[..taken] && LF in stream[taken..taken + n]
    ensures var b := Before(stream[taken..taken + n], LF);
            && stream[..taken + |b| + 1] == stream[..taken] + b + [LF]
            && (taken + |b| < LIMIT ==> ReadLine(stream, LIMIT) == stream[..taken + |b| + 1])
  {
    var b := Before(stream[taken..taken + n], LF);
    var rest := stream[taken + |b| + 1..];
    assert stream == (stream[..taken] + b) + [LF] + rest;
    FindAt(stream[..taken] + b, LF, rest);
  }

  /** A prefix without a line feed that cannot grow any further is the line read. */
  lemma NoLineEnd(stream: Bytes, taken: nat)
    requires taken <= |stream| && LF !in stream[..taken] && taken <= LIMIT
    requires taken == |stream| || taken == LIMIT
    ensures ReadLine(stream, LIMIT) == stream[..taken]
  {
  }

  /** The same from a socket whose peer's bytes arrive a few at a time, unless the deadline has passed at some look at
      the clock. At most one byte beyond the cap is ever held. */
  method ReadSocketJson<J>(stream: Bytes, decode: Bytes -> Option<J>, late: nat -> bool)
    returns (r: Body<J>, ghost held: nat)
    ensures r == ReadOneJson(stream, decode) || (r == TimedOut && exists look :: late(look))
    ensures held <= LIMIT
  {
    hide ReadOneJson, ReadLine;
    var raw: Bytes := [];
    held := 0;
    var taken: nat, looks: nat := 0, 0;
    while |raw| <= MAX_BODY
      invariant taken <= |stream| && |raw| <= held <= LIMIT
      invariant raw == stream[..taken] && LF !in raw
      invariant |raw| > MAX_BODY ==> raw == ReadLine(stream, LIMIT)
      decreases LIMIT - |raw|
    {
      if late(looks) {
        return TimedOut, held;
      }
      looks := looks + 1;
      var most := if 65536 < LIMIT - |raw| then 65536 else LIMIT - |raw|;
      var left := |stream| - taken;
      assert 0 <= left && (left > 0 ==> 1 <= most);
      var n: nat :| n <= left && n <= most && (n == 0 <==> left == 0);
      var chunk := stream[taken..taken + n];
      if chunk == [] {
        NoLineEnd(stream, taken);
        break;
      }
      ghost var before := taken;
      taken := taken + n;
      raw := raw + Before(chunk, LF);
      if LF in chunk {
        LineEnd(stream, before, n);
        raw := raw + [LF];
        held := |raw|;
        break;
      }
      held := |raw|;
      if |raw| > MAX_BODY {
        NoLineEnd(stream, taken);
      }
    }
    LineSuffices(stream, decode);
    if |raw| > MAX_BODY {
      return Oversized, held;
    }
    return ReadOneJson(raw, decode), held;
  }
}
