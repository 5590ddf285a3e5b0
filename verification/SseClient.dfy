/**
 The stream object: Next, fail and decode over its fields.
 */
module SseClient {
  import opened Wrappers
  import opened SseStream
  import SseStreamProofs

  class Stream {
    const cfg: Config
    const parse: Parser
    const end: End
    var lines: seq<Text>        // what the scanner has not returned yet
    var pending: seq<Event>
    var terminal: bool
    var args: nat
    var bytes: nat
    ghost var read: seq<Text>   // what it has returned

    // Every reply still to come, before EndOfStream for ever.
    ghost function Remaining(): seq<Reply>
      reads this
    {
      if terminal then [] else Items(pending) + Expected(cfg, parse, lines, end, bytes, args, [], 0)
    }

    ghost predicate Valid()
      reads this
    {
      bytes == Scanned(read) && (!terminal ==> args <= cfg.maxArguments && bytes <= cfg.maxBody)
    }

    constructor (cfg: Config, parse: Parser, lines: seq<Text>, end: End)
      ensures Valid() && Remaining() == Expected(cfg, parse, lines, end, 0, 0, [], 0)
      ensures this.cfg == cfg && this.parse == parse && this.end == end && read + this.lines == lines
    {
      this.cfg, this.parse, this.end, this.lines, this.read := cfg, parse, end, lines, [];
      pending, terminal, args, bytes := [], false, 0, 0;
      new;
      assert Items([]) == [];
    }

    method Fail(f: Failure) returns (reply: Reply)
      modifies this`terminal, this`pending
      ensures terminal && reply == Failed(f)
    {
      terminal, pending := true, [];
      reply := Failed(f);
    }

    method DecodeTools(index: int, tools: seq<Tool>, raw: Text) returns (r: Decoded)
      modifies this`args
      ensures r == ToolEvents(index, tools, raw, old(args), cfg.maxArguments)
      ensures r.Good? ==> args == r.args
    {
      var out: seq<Event> := [];
      for i := 0 to |tools|
        invariant ToolEvents(index, tools, raw, old(args), cfg.maxArguments) ==
          Prefixed(out, ToolEvents(index, tools[i..], raw, args, cfg.maxArguments))
      {
        var tool := tools[i];
        assert tools[i..][1..] == tools[i + 1..];
        if tool.index < 0 {
          return Bad(Malformed);
        }
        args := args + |tool.arguments|;
        if args > cfg.maxArguments {
          return Bad(StreamFailure);
        }
        PrefixedTwice(out, [ToolPart(index, tool, raw)], ToolEvents(index, tools[i + 1..], raw, args, cfg.maxArguments));
        out := out + [ToolPart(index, tool, raw)];
      }
      assert out + [] == out;
      r := Good(out, args);
    }

    static method DecodeReasons(index: int, reasons: seq<Text>, raw: Text) returns (out: seq<Event>)
      ensures out == ReasonEvents(index, reasons, raw)
    {
      out := [];
      for i := 0 to |reasons|
        invariant ReasonEvents(index, reasons, raw) == out + ReasonEvents(index, reasons[i..], raw)
      {
        assert reasons[i..][1..] == reasons[i + 1..];
        var reason := reasons[i];
        if reason != "" && reason != "null" && reason != "\"\"" {
          out := out + [Reasoning(index, reason, raw)];
        }
      }
    }

    method DecodeChoice(c: Choice, raw: Text) returns (r: Decoded)
      modifies this`args
      ensures r == ChoiceEvents(c, raw, old(args), cfg.maxArguments)
      ensures r.Good? ==> args == r.args
    {
      if c.index < 0 {
        return Bad(Malformed);
      }
      if c.finish.Some? && c.finish.value == "error" {
        return Bad(StreamFailure);
      }
      var out: seq<Event> := [];
      if c.content.Some? && c.content.value != "" {
        out := [TextPart(c.index, c.content.value, raw)];
      }
      var reasons := DecodeReasons(c.index, c.reasons, raw);
      out := out + reasons;
      var tools := DecodeTools(c.index, c.tools, raw);
      if tools.Bad? {
        return tools;
      }
      out := out + tools.events;
      if c.finish.Some? {
        out := out + [Finish(c.index, c.finish.value, raw)];
      } else {
        assert out + [] == out;
      }
      r := Good(out, args);
    }

    /** decode: the events of one payload, counting tool arguments over the whole stream. */
    method DecodeFrame(raw: Text) returns (r: Decoded)
      requires args <= cfg.maxArguments
      modifies this`args
      ensures r == Decode(parse(raw), raw, old(args), cfg.maxArguments)
      ensures r.Good? ==> args == r.args <= cfg.maxArguments && r.events != []
    {
      SseStreamProofs.DecodeOk(parse(raw), raw, args, cfg.maxArguments);
      var wire := parse(raw);
      if wire.Garbage? {
        return Bad(Malformed);
      }
      if wire.error.Some? {
        return Bad(if wire.error.value == "http" then StreamFailure else Upstream(wire.error.value));
      }
      if wire.choices.None? {
        return Bad(Malformed);
      }
      var choices := wire.choices.value;
      for i := 0 to |choices|
        invariant forall j :: 0 <= j < i ==> ShapeOk(choices[j])
      {
        if choices[i].isNull || (!choices[i].hasDelta && choices[i].finish.None?) || (choices[i].hasDelta && !choices[i].deltaIsObject) {
          assert choices[i] in choices && !ShapeOk(choices[i]);
          return Bad(Malformed);
        }
      }
      var events := DecodeChoices(choices, raw);
      if events.Bad? {
        return events;
      }
      var out := [Frame(raw)] + events.events;
      if wire.usage.BadUsage? {
        return Bad(Malformed);
      }
      if wire.usage.Usage? {
        out := out + [UsagePart(wire.usage.tokens, raw)];
      }
      r := Good(out, args);
    }

    method DecodeChoices(choices: seq<Choice>, raw: Text) returns (r: Decoded)
      modifies this`args
      ensures r == ChoicesEvents(choices, raw, old(args), cfg.maxArguments)
      ensures r.Good? ==> args == r.args
    {
      hide ChoiceEvents;
      var out: seq<Event> := [];
      for i := 0 to |choices|
        invariant ChoicesEvents(choices, raw, old(args), cfg.maxArguments) ==
          Prefixed(out, ChoicesEvents(choices[i..], raw, args, cfg.maxArguments))
      {
        assert choices[i..][1..] == choices[i + 1..];
        var first := DecodeChoice(choices[i], raw);
        if first.Bad? {
          return first;
        }
        PrefixedTwice(out, first.events, ChoicesEvents(choices[i + 1..], raw, args, cfg.maxArguments));
        out := out + first.events;
      }
      assert out + [] == out;
      r := Good(out, args);
    }

    ghost function AfterFrame(data: seq<Text>, eof: bool): seq<Reply>
      reads this
    {
      if data != [] then Delivered(cfg, parse, Join(data), lines, end, bytes, args, 1)
      else if eof then [Failed(StreamFailure)]
      else Expected(cfg, parse, lines, end, bytes, args, [], 0)
    }

    /** One frame's data lines; None when the run fails while reading them. */
    method ReadFrame() returns (data: seq<Text>, eof: bool, failure: Option<Failure>)
      requires Valid() && !terminal
      modifies this`lines, this`bytes, this`read
      ensures read + lines == old(read + lines) && bytes == Scanned(read)
      ensures |lines| <= |old(lines)| && (!eof && failure.None? ==> |lines| < |old(lines)|)
      ensures failure.Some? ==> Expected(cfg, parse, old(lines), end, old(bytes), args, [], 0) == [Failed(failure.value)]
      ensures failure.None? ==> bytes <= cfg.maxBody && (eof ==> lines == [] && end == Eof)
      ensures failure.None? ==> Expected(cfg, parse, old(lines), end, old(bytes), args, [], 0) == AfterFrame(data, eof)
    {
      hide Decode;
      hide Gather;
      hide Scanned;
      data, eof, failure := [], false, None;
      var size: nat := 0;
      while true
        invariant |lines| <= |old(lines)| && bytes <= cfg.maxBody && !eof && failure.None?
        invariant read + lines == old(read + lines) && bytes == Scanned(read)
        invariant Expected(cfg, parse, old(lines), end, old(bytes), args, [], 0) ==
          Expected(cfg, parse, lines, end, bytes, args, data, size)
        decreases |lines|
      {
        if lines == [] {
          match end {
            case TooLong => failure := Some(StreamFailure);
            case Broken => failure := Some(Transport);
            case Eof => eof := true;
          }
          return;
        }
        var line := Token(lines[0]);
        OneMoreScanned(read, lines);
        read, lines := read + [lines[0]], lines[1..];
        bytes := bytes + |line| + 1;
        size := size + |line| + 1;
        if |line| > cfg.maxLine || size > cfg.maxEvent || bytes > cfg.maxBody {
          failure := Some(StreamFailure);
          return;
        }
        if line == "" {
          return;
        }
        data := Kept(data, line);
      }
    }

    // The field of a line and its value.
    static method Kept(data: seq<Text>, line: Text) returns (r: seq<Text>)
      ensures r == Gather(data, line)
    {
      r := data;
      if line != "" && line[0] == ':' {
        return;
      }
      var i := ColonAt(line);
      var field := line[..i];
      var value := if i < |line| then line[i + 1..] else "";
      if value != "" && value[0] == ' ' {
        value := value[1..];
      }
      if field == "data" {
        r := data + [value];
      }
    }

    /** Next gives exactly the replies the lines call for, one a call, and EndOfStream for
        ever after the last; a cancelled context fails the run at once. */
    method Next(cancelled: bool) returns (reply: Reply)
      requires Valid()
      modifies this
      ensures Valid() && read + lines == old(read + lines)
      ensures old(Remaining()) == [] ==> reply == EndOfStream && Remaining() == []
      ensures old(Remaining()) != [] && !cancelled ==> reply == old(Remaining())[0] && Remaining() == old(Remaining())[1..]
      ensures old(Remaining()) != [] && cancelled ==> reply == Failed(Transport) && Remaining() == []
    {
      hide Decode;
      hide Scanned;
      ghost var all := Remaining();
      SseStreamProofs.RunsEndOnce(cfg, parse, lines, end, bytes, args, [], 0);
      if terminal {
        return EndOfStream;
      }
      if cancelled {
        reply := Fail(Transport);
        return;
      }
      if |pending| > 0 {
        reply := TakePending(all);
        return;
      }
      assert Items(pending) == [];
      while true
        invariant !terminal && pending == [] && Valid() && read + lines == old(read + lines)
        invariant all == Expected(cfg, parse, lines, end, bytes, args, [], 0)
        decreases |lines|
      {
        var data, eof, failure := ReadFrame();
        if failure.Some? {
          reply := Fail(failure.value);
          return;
        }
        if data == [] {
          if eof {
            reply := Fail(StreamFailure);
            return;
          }
          continue;
        }
        reply := DeliverFrame(Join(data), all);
        return;
      }
    }

    method TakePending(ghost all: seq<Reply>) returns (reply: Reply)
      requires Valid() && !terminal && pending != [] && Remaining() == all
      modifies this`pending
      ensures Valid() && all != [] && reply == all[0] && Remaining() == all[1..]
    {
      hide Expected;
      hide Scanned;
      var e := pending[0];
      assert Items(pending) == [Item(e)] + Items(pending[1..]);
      pending := pending[1..];
      reply := Item(e);
    }

    // A complete frame: completion, failure, or its first event.
    method DeliverFrame(raw: Text, ghost all: seq<Reply>) returns (reply: Reply)
      requires Valid() && !terminal && pending == []
      requires all == Delivered(cfg, parse, raw, lines, end, bytes, args, 1)
      modifies this`terminal, this`pending, this`args
      ensures Valid() && all != [] && reply == all[0] && Remaining() == all[1..]
    {
      hide Decode;
      if raw == DONE {
        terminal := true;
        return Completion;
      }
      var d := DecodeFrame(raw);
      if d.Bad? {
        reply := Fail(d.failure);
        return;
      }
      pending := d.events;
      reply := TakePending(all);
    }
  }

  lemma OneMoreScanned(read: seq<Text>, lines: seq<Text>)
    requires lines != []
    ensures Scanned(read + [lines[0]]) == Scanned(read) + |Token(lines[0])| + 1
    ensures read + [lines[0]] + lines[1..] == read + lines
  {
    assert (read + [lines[0]])[..|read|] == read;
  }

  function Prefixed(out: seq<Event>, d: Decoded): Decoded {
    match d
    case Good(events, args) => Good(out + events, args)
    case Bad(f) => Bad(f)
  }

  lemma PrefixedTwice(out: seq<Event>, more: seq<Event>, d: Decoded)
    ensures Prefixed(out, Prefixed(more, d)) == Prefixed(out + more, d)
  {
    if d.Good? {
      assert out + (more + d.events) == (out + more) + d.events;
    }
  }
}
