/**
 The streaming client (clients/go/stream.go): lines become frames, frames become events,
 and one reply of every run is the last. Framing follows section 9.2.6 of the WHATWG HTML
 Standard as far as the client implements it.
 */
module SseStream {
  import opened Wrappers
  import Strings

  type Text = string    // one char per byte

  datatype Config = Config(maxLine: nat, maxEvent: nat, maxBody: nat, maxArguments: nat)

  // How the body ends: cleanly, with a line the scanner cannot hold, or broken.
  datatype End = Eof | TooLong | Broken

  datatype Failure = Malformed | StreamFailure | Transport | Upstream(category: Text)

  datatype Tool = Tool(index: int, id: Text, arguments: Text)

  // What a choice of a frame holds: whether it is null, has a delta and whether that is an
  // object, the fields of the delta, and the finish reason.
  datatype Choice = Choice(
    isNull: bool, index: int, hasDelta: bool, deltaIsObject: bool,
    content: Option<Text>, reasons: seq<Text>, tools: seq<Tool>, finish: Option<Text>)

  datatype Usage = NoUsage | BadUsage | Usage(tokens: nat)

  // choices is None for a missing or null list.
  datatype Wire = Garbage | Wire(error: Option<Text>, choices: Option<seq<Choice>>, usage: Usage)

  datatype Event =
    | Frame(raw: Text)
    | TextPart(choice: int, text: Text, raw: Text)
    | Reasoning(choice: int, text: Text, raw: Text)
    | ToolPart(choice: int, tool: Tool, raw: Text)
    | Finish(choice: int, text: Text, raw: Text)
    | UsagePart(tokens: nat, raw: Text)

  datatype Reply = Item(event: Event) | Completion | Failed(failure: Failure) | EndOfStream

  datatype Decoded = Good(events: seq<Event>, args: nat) | Bad(failure: Failure)

  /******* Lines *******/

  const CR := '\r'
  const DONE: Text := "[DONE]"

  // bufio.ScanLines drops one trailing carriage return.
  function Token(line: Text): Text {
    if line != "" && line[|line| - 1] == CR then line[..|line| - 1] else line
  }

  function ColonAt(line: Text): (i: nat)
    ensures i <= |line|
  {
    if line == "" || line[0] == ':' then 0 else 1 + ColonAt(line[1..])
  }

  function Trimmed(value: Text): Text {
    if value != "" && value[0] == ' ' then value[1..] else value
  }

  function Field(line: Text): Text {
    line[..ColonAt(line)]
  }

  function Value(line: Text): Text {
    if ColonAt(line) == |line| then "" else Trimmed(line[ColonAt(line) + 1..])
  }

  // A comment line begins with a colon; only the data field is kept.
  function Gather(data: seq<Text>, line: Text): seq<Text> {
    if line != "" && line[0] == ':' then data
    else if Field(line) == "data" then data + [Value(line)]
    else data
  }

  // The data of a frame; a newline goes between its lines.
  function Join(data: seq<Text>): Text {
    Strings.Join(data, "\n")
  }

  /******* One frame *******/

  predicate ShapeOk(c: Choice) {
    !c.isNull && (c.hasDelta || c.finish.Some?) && (c.hasDelta ==> c.deltaIsObject)
  }

  function ReasonEvents(index: int, reasons: seq<Text>, raw: Text): seq<Event> {
    if reasons == [] then []
    else
      (if reasons[0] != "" && reasons[0] != "null" && reasons[0] != "\"\"" then [Reasoning(index, reasons[0], raw)] else [])
      + ReasonEvents(index, reasons[1..], raw)
  }

  function ToolEvents(index: int, tools: seq<Tool>, raw: Text, args: nat, max: nat): Decoded {
    if tools == [] then Good([], args)
    else if tools[0].index < 0 then Bad(Malformed)
    else if args + |tools[0].arguments| > max then Bad(StreamFailure)
    else
      match ToolEvents(index, tools[1..], raw, args + |tools[0].arguments|, max)
      case Good(events, total) => Good([ToolPart(index, tools[0], raw)] + events, total)
      case Bad(f) => Bad(f)
  }

  function ChoiceEvents(c: Choice, raw: Text, args: nat, max: nat): Decoded {
    if c.index < 0 then Bad(Malformed)
    else if c.finish == Some("error") then Bad(StreamFailure)
    else
      match ToolEvents(c.index, c.tools, raw, args, max)
      case Bad(f) => Bad(f)
      case Good(tools, total) =>
        Good((if c.content.Some? && c.content.value != "" then [TextPart(c.index, c.content.value, raw)] else [])
             + ReasonEvents(c.index, c.reasons, raw)
             + tools
             + (if c.finish.Some? then [Finish(c.index, c.finish.value, raw)] else []),
             total)
  }

  function ChoicesEvents(cs: seq<Choice>, raw: Text, args: nat, max: nat): Decoded {
    if cs == [] then Good([], args)
    else
      match ChoiceEvents(cs[0], raw, args, max)
      case Bad(f) => Bad(f)
      case Good(first, total) =>
        match ChoicesEvents(cs[1..], raw, total, max)
        case Bad(f) => Bad(f)
        case Good(rest, all) => Good(first + rest, all)
  }

  function Decode(wire: Wire, raw: Text, args: nat, max: nat): Decoded {
    match wire
    case Garbage => Bad(Malformed)
    case Wire(error, choices, usage) =>
      if error.Some? then Bad(if error.value == "http" then StreamFailure else Upstream(error.value))
      else if choices.None? then Bad(Malformed)
      else if exists c :: c in choices.value && !ShapeOk(c) then Bad(Malformed)
      else
        match ChoicesEvents(choices.value, raw, args, max)
        case Bad(f) => Bad(f)
        case Good(events, total) =>
          match usage
          case BadUsage => Bad(Malformed)
          case NoUsage => Good([Frame(raw)] + events, total)
          case Usage(tokens) => Good([Frame(raw)] + events + [UsagePart(tokens, raw)], total)
  }

  /******* Whole runs *******/

  function Items(events: seq<Event>): seq<Reply> {
    seq(|events|, i requires 0 <= i < |events| => Item(events[i]))
  }

  type Parser = Text -> Wire

  predicate Over(cfg: Config, line: Text, size: nat, bytes: nat) {
    |line| > cfg.maxLine || size > cfg.maxEvent || bytes > cfg.maxBody
  }

  // Every reply a run still has to give; EndOfStream follows for ever. data and size
  // belong to the frame being read.
  function Expected(cfg: Config, parse: Parser, lines: seq<Text>, end: End, bytes: nat, args: nat,
                    data: seq<Text>, size: nat): seq<Reply>
    decreases |lines|, |data|, 1
  {
    if lines == [] then
      match end
      case TooLong => [Failed(StreamFailure)]
      case Broken => [Failed(Transport)]
      case Eof => if data == [] then [Failed(StreamFailure)] else Delivered(cfg, parse, Join(data), [], Eof, bytes, args, |data|)
    else
      var line := Token(lines[0]);
      var size', bytes' := size + |line| + 1, bytes + |line| + 1;
      if Over(cfg, line, size', bytes') then [Failed(StreamFailure)]
      else if line != "" then Expected(cfg, parse, lines[1..], end, bytes', args, Gather(data, line), size')
      else if data == [] then Expected(cfg, parse, lines[1..], end, bytes', args, [], 0)
      else Delivered(cfg, parse, Join(data), lines[1..], end, bytes', args, |lines|)
  }

  function Delivered(cfg: Config, parse: Parser, raw: Text, lines: seq<Text>, end: End, bytes: nat, args: nat, ghost fuel: nat): seq<Reply>
    requires 0 < fuel
    decreases |lines|, fuel, 0
  {
    if raw == DONE then [Completion]
    else
      match Decode(parse(raw), raw, args, cfg.maxArguments)
      case Bad(f) => [Failed(f)]
      case Good(events, total) => Items(events) + Expected(cfg, parse, lines, end, bytes, total, [], 0)
  }

  // What lines count towards the body budget: a terminator is counted for each.
  function Scanned(lines: seq<Text>): nat {
    if lines == [] then 0 else Scanned(lines[..|lines| - 1]) + |Token(lines[|lines| - 1])| + 1
  }

  // The first line over a budget; |lines| if there is none.
  function FirstOver(cfg: Config, lines: seq<Text>, bytes: nat, size: nat): (i: nat)
    ensures i <= |lines|
  {
    if lines == [] then 0
    else
      var line := Token(lines[0]);
      var size', bytes' := size + |line| + 1, bytes + |line| + 1;
      if Over(cfg, line, size', bytes') then 0
      else 1 + FirstOver(cfg, lines[1..], bytes', if line == "" then 0 else size')
  }

  /******* Frames, without budgets *******/

  function Payloads(lines: seq<Text>, data: seq<Text>): seq<Text> {
    if lines == [] then (if data == [] then [] else [Join(data)])
    else
      var line := Token(lines[0]);
      if line != "" then Payloads(lines[1..], Gather(data, line))
      else if data == [] then Payloads(lines[1..], [])
      else [Join(data)] + Payloads(lines[1..], [])
  }

  // The decode of each payload in turn, up to the first that ends the run.
  function Replay(cfg: Config, parse: Parser, payloads: seq<Text>, args: nat): seq<Reply> {
    if payloads == [] then [Failed(StreamFailure)]
    else if payloads[0] == DONE then [Completion]
    else
      match Decode(parse(payloads[0]), payloads[0], args, cfg.maxArguments)
      case Bad(f) => [Failed(f)]
      case Good(events, total) => Items(events) + Replay(cfg, parse, payloads[1..], total)
  }

  /******* Printing *******/

  function NewlineAt(s: Text): (i: nat)
    ensures i <= |s|
    ensures '\n' !in s[..i] && (i < |s| ==> s[i] == '\n')
  {
    if s == "" || s[0] == '\n' then 0 else 1 + NewlineAt(s[1..])
  }

  // The lines of a payload.
  function Split(s: Text): seq<Text>
    decreases |s|
  {
    var i := NewlineAt(s);
    if i == |s| then [s] else [s[..i]] + Split(s[i + 1..])
  }

  function DataLines(parts: seq<Text>): seq<Text> {
    seq(|parts|, i requires 0 <= i < |parts| => "data: " + parts[i])
  }

  function Printed(payloads: seq<Text>): seq<Text> {
    if payloads == [] then [] else DataLines(Split(payloads[0])) + [""] + Printed(payloads[1..])
  }
}
