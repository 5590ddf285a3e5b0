/**
 Runs of the streaming client: exact framing, one last reply, budgets, and printing.
 */
module SseStreamProofs {
  import opened Wrappers
  import opened SseStream

  // Events, then exactly one completion or failure.
  predicate WellEnded(replies: seq<Reply>) {
    && replies != []
    && (replies[|replies| - 1].Completion? || replies[|replies| - 1].Failed?)
    && forall i :: 0 <= i < |replies| - 1 ==> replies[i].Item?
  }

  lemma {:induction false} RunsEndOnce(cfg: Config, parse: Parser, lines: seq<Text>, end: End, bytes: nat, args: nat, data: seq<Text>, size: nat)
    ensures WellEnded(Expected(cfg, parse, lines, end, bytes, args, data, size))
    decreases |lines|, |data|
  {
    hide Decode;
    hide Join;
    hide Gather;
    if lines == [] {
      if end == Eof && data != [] {
        assert Expected(cfg, parse, lines, end, bytes, args, data, size) == Delivered(cfg, parse, Join(data), [], Eof, bytes, args, |data|);
        match Decode(parse(Join(data)), Join(data), args, cfg.maxArguments) {
          case Bad(_) =>
          case Good(_, total) => RunsEndOnce(cfg, parse, [], Eof, bytes, total, [], 0);
        }
      }
    } else {
      var line := Token(lines[0]);
      var b := bytes + |line| + 1;
      if line != "" {
        RunsEndOnce(cfg, parse, lines[1..], end, b, args, Gather(data, line), size + |line| + 1);
      } else if data == [] {
        RunsEndOnce(cfg, parse, lines[1..], end, b, args, [], 0);
      } else {
        match Decode(parse(Join(data)), Join(data), args, cfg.maxArguments) {
          case Bad(_) =>
          case Good(_, total) => RunsEndOnce(cfg, parse, lines[1..], end, b, total, [], 0);
        }
      }
    }
  }

  /******* Framing *******/

  // No budget is exceeded while the remaining lines are read.
  predicate Within(cfg: Config, lines: seq<Text>, bytes: nat, size: nat) {
    if lines == [] then true
    else
      var line := Token(lines[0]);
      var size', bytes' := size + |line| + 1, bytes + |line| + 1;
      !Over(cfg, line, size', bytes') && Within(cfg, lines[1..], bytes', if line == "" then 0 else size')
  }

  // The replies of a run that is cut short: events of the full run, then a failure.
  predicate CutShort(short: seq<Reply>, full: seq<Reply>) {
    short != [] && short[|short| - 1].Failed? && |short| <= |full| && short[..|short| - 1] == full[..|short| - 1]
  }

  lemma CutBehind(items: seq<Reply>, short: seq<Reply>, full: seq<Reply>)
    ensures CutShort(short, full) ==> CutShort(items + short, items + full)
  {
    if CutShort(short, full) {
      var n := |short| - 1;
      assert (items + short)[..|items| + n] == items + short[..n];
      assert (items + full)[..|items| + n] == items + full[..n];
    }
  }

  lemma {:induction false} ReplayNotEmpty(cfg: Config, parse: Parser, payloads: seq<Text>, args: nat)
    ensures Replay(cfg, parse, payloads, args) != []
    decreases |payloads|
  {
    if payloads != [] && payloads[0] != DONE {
      match Decode(parse(payloads[0]), payloads[0], args, cfg.maxArguments) {
        case Bad(_) =>
        case Good(_, total) => ReplayNotEmpty(cfg, parse, payloads[1..], total);
      }
    }
  }

  lemma Failing(short: seq<Reply>, full: seq<Reply>)
    requires |short| == 1 && short[0].Failed? && full != []
    ensures CutShort(short, full)
  {
    assert short[..0] == full[..0];
  }

  /** A run replays its payloads in order, decoded; it can stop sooner only by failing. */
  lemma {:induction false} RunReplaysFrames(cfg: Config, parse: Parser, lines: seq<Text>, end: End, bytes: nat, args: nat, data: seq<Text>, size: nat)
    ensures var run, all := Expected(cfg, parse, lines, end, bytes, args, data, size), Replay(cfg, parse, Payloads(lines, data), args);
      && (end == Eof && Within(cfg, lines, bytes, size) ==> run == all)
      && (run == all || CutShort(run, all))
    decreases |lines|, |data|
  {
    hide Decode;
    hide Join;
    hide Gather;
    var run, all := Expected(cfg, parse, lines, end, bytes, args, data, size), Replay(cfg, parse, Payloads(lines, data), args);
    ReplayNotEmpty(cfg, parse, Payloads(lines, data), args);
    if lines == [] {
      if end != Eof {
        Failing(run, all);
      } else if data != [] {
        FrameReplays(cfg, parse, Join(data), [], Eof, bytes, args, []);
      }
    } else {
      var line := Token(lines[0]);
      var b, z := bytes + |line| + 1, size + |line| + 1;
      if Over(cfg, line, z, b) {
        Failing(run, all);
      } else if line != "" {
        RunReplaysFrames(cfg, parse, lines[1..], end, b, args, Gather(data, line), z);
      } else if data == [] {
        RunReplaysFrames(cfg, parse, lines[1..], end, b, args, [], 0);
      } else {
        forall total: nat {
          RunReplaysFrames(cfg, parse, lines[1..], end, b, total, [], 0);
        }
        FrameReplays(cfg, parse, Join(data), lines[1..], end, b, args, Payloads(lines[1..], []));
      }
    }
  }

  // One frame, given that what follows it replays.
  lemma FrameReplays(cfg: Config, parse: Parser, raw: Text, lines: seq<Text>, end: End, bytes: nat, args: nat, rest: seq<Text>)
    requires forall total: nat :: var run, all := Expected(cfg, parse, lines, end, bytes, total, [], 0), Replay(cfg, parse, rest, total);
      && (end == Eof && Within(cfg, lines, bytes, 0) ==> run == all)
      && (run == all || CutShort(run, all))
    ensures var run, all := Delivered(cfg, parse, raw, lines, end, bytes, args, 1), Replay(cfg, parse, [raw] + rest, args);
      && (end == Eof && Within(cfg, lines, bytes, 0) ==> run == all)
      && (run == all || CutShort(run, all))
  {
    hide Decode;
    assert ([raw] + rest)[1..] == rest;
    if raw != DONE {
      match Decode(parse(raw), raw, args, cfg.maxArguments) {
        case Bad(_) =>
        case Good(events, total) =>
          CutBehind(Items(events), Expected(cfg, parse, lines, end, bytes, total, [], 0), Replay(cfg, parse, rest, total));
      }
    }
  }

  lemma {:induction false} ReplayEnds(cfg: Config, parse: Parser, payloads: seq<Text>, args: nat) returns (k: nat)
    requires var all := Replay(cfg, parse, payloads, args); all != [] && all[|all| - 1] == Completion
    ensures k < |payloads| && payloads[k] == DONE && DONE !in payloads[..k]
    decreases |payloads|
  {
    hide Decode;
    k := 0;
    if payloads[0] != DONE {
      var d := Decode(parse(payloads[0]), payloads[0], args, cfg.maxArguments);
      ReplayNotEmpty(cfg, parse, payloads[1..], d.args);
      k := ReplayEnds(cfg, parse, payloads[1..], d.args);
      k := k + 1;
      assert payloads[..k] == [payloads[0]] + payloads[1..][..k - 1];
    }
  }

  /** A run completes only at the first [DONE], after every earlier frame was delivered. */
  lemma CompletionMeansDone(cfg: Config, parse: Parser, lines: seq<Text>, end: End) returns (k: nat)
    requires var run := Expected(cfg, parse, lines, end, 0, 0, [], 0); run != [] && run[|run| - 1] == Completion
    ensures var payloads := Payloads(lines, []);
      && k < |payloads| && payloads[k] == DONE && DONE !in payloads[..k]
      && Expected(cfg, parse, lines, end, 0, 0, [], 0) == Replay(cfg, parse, payloads, 0)
  {
    hide *;
    RunReplaysFrames(cfg, parse, lines, end, 0, 0, [], 0);
    NotCutShort(Expected(cfg, parse, lines, end, 0, 0, [], 0), Replay(cfg, parse, Payloads(lines, []), 0));
    k := ReplayEnds(cfg, parse, Payloads(lines, []), 0);
  }

  lemma NotCutShort(run: seq<Reply>, all: seq<Reply>)
    requires run != [] && run[|run| - 1] == Completion
    ensures !CutShort(run, all)
  {
  }

  /******* Budgets *******/

  function ArgumentBytes(events: seq<Event>): nat {
    if events == [] then 0
    else (if events[0].ToolPart? then |events[0].tool.arguments| else 0) + ArgumentBytes(events[1..])
  }

  lemma {:induction false} ArgumentsAdd(xs: seq<Event>, ys: seq<Event>)
    ensures ArgumentBytes(xs + ys) == ArgumentBytes(xs) + ArgumentBytes(ys)
  {
    if xs == [] {
      assert xs + ys == ys;
    } else {
      assert (xs + ys)[1..] == xs[1..] + ys;
      ArgumentsAdd(xs[1..], ys);
    }
  }

  ghost predicate AllRaw(events: seq<Event>, raw: Text) {
    forall e :: e in events ==> e.raw == raw
  }

  ghost predicate NoFrames(events: seq<Event>) {
    forall e :: e in events ==> !e.Frame?
  }

  lemma {:induction false} ReasonsOk(index: int, reasons: seq<Text>, raw: Text)
    ensures ArgumentBytes(ReasonEvents(index, reasons, raw)) == 0 && AllRaw(ReasonEvents(index, reasons, raw), raw)
    ensures NoFrames(ReasonEvents(index, reasons, raw))
  {
    if reasons != [] {
      ReasonsOk(index, reasons[1..], raw);
      ArgumentsAdd(if reasons[0] != "" && reasons[0] != "null" && reasons[0] != "\"\"" then [Reasoning(index, reasons[0], raw)] else [],
                   ReasonEvents(index, reasons[1..], raw));
    }
  }

  // The count carried through a frame is what its tool events hold, within the budget.
  ghost predicate Accounted(d: Decoded, args: nat, max: nat, raw: Text) {
    d.Good? ==> d.args == args + ArgumentBytes(d.events) && (args <= max ==> d.args <= max) && AllRaw(d.events, raw)
  }

  // The same within a frame, whose native event is its first and only.
  ghost predicate Part(d: Decoded, args: nat, max: nat, raw: Text) {
    Accounted(d, args, max, raw) && (d.Good? ==> NoFrames(d.events))
  }

  lemma {:induction false} ToolsOk(index: int, tools: seq<Tool>, raw: Text, args: nat, max: nat)
    ensures Part(ToolEvents(index, tools, raw, args, max), args, max, raw)
  {
    if tools != [] {
      ToolsOk(index, tools[1..], raw, args + |tools[0].arguments|, max);
      var d := ToolEvents(index, tools[1..], raw, args + |tools[0].arguments|, max);
      if d.Good? {
        ArgumentsAdd([ToolPart(index, tools[0], raw)], d.events);
      }
    }
  }

  lemma ChoiceOk(c: Choice, raw: Text, args: nat, max: nat)
    ensures Part(ChoiceEvents(c, raw, args, max), args, max, raw)
  {
    hide ReasonEvents;
    hide ToolEvents;
    var d := ToolEvents(c.index, c.tools, raw, args, max);
    ToolsOk(c.index, c.tools, raw, args, max);
    ReasonsOk(c.index, c.reasons, raw);
    if c.index >= 0 && c.finish != Some("error") && d.Good? {
      var a := if c.content.Some? && c.content.value != "" then [TextPart(c.index, c.content.value, raw)] else [];
      var b := ReasonEvents(c.index, c.reasons, raw);
      var f := if c.finish.Some? then [Finish(c.index, c.finish.value, raw)] else [];
      ArgumentsAdd(a, b);
      ArgumentsAdd(a + b, d.events);
      ArgumentsAdd(a + b + d.events, f);
    }
  }

  lemma {:induction false} ChoicesOk(cs: seq<Choice>, raw: Text, args: nat, max: nat)
    ensures Part(ChoicesEvents(cs, raw, args, max), args, max, raw)
  {
    hide ChoiceEvents;
    if cs != [] {
      ChoiceOk(cs[0], raw, args, max);
      var first := ChoiceEvents(cs[0], raw, args, max);
      if first.Good? {
        ChoicesOk(cs[1..], raw, first.args, max);
        var rest := ChoicesEvents(cs[1..], raw, first.args, max);
        if rest.Good? {
          ArgumentsAdd(first.events, rest.events);
        }
      }
    }
  }

  /** A decoded frame starts with the native frame and accounts for its tool arguments. */
  lemma DecodeOk(wire: Wire, raw: Text, args: nat, max: nat)
    ensures var d := Decode(wire, raw, args, max);
      Accounted(d, args, max, raw) && (d.Good? ==> d.events != [] && d.events[0] == Frame(raw) && NoFrames(d.events[1..]))
  {
    hide ChoicesEvents;
    if wire.Wire? && wire.choices.Some? {
      ChoicesOk(wire.choices.value, raw, args, max);
      var d := ChoicesEvents(wire.choices.value, raw, args, max);
      if d.Good? {
        ArgumentsAdd([Frame(raw)], d.events);
        assert ([Frame(raw)] + d.events)[1..] == d.events;
        if wire.usage.Usage? {
          assert ([Frame(raw)] + d.events + [UsagePart(wire.usage.tokens, raw)])[1..] == d.events + [UsagePart(wire.usage.tokens, raw)];
          ArgumentsAdd([Frame(raw)] + d.events, [UsagePart(wire.usage.tokens, raw)]);
        }
      }
    }
  }

  function EventsOf(replies: seq<Reply>): seq<Event> {
    if replies == [] then []
    else (if replies[0].Item? then [replies[0].event] else []) + EventsOf(replies[1..])
  }

  lemma {:induction false} EventsOfItems(events: seq<Event>, rest: seq<Reply>)
    ensures EventsOf(Items(events) + rest) == events + EventsOf(rest)
  {
    if events == [] {
      assert Items(events) + rest == rest;
    } else {
      EventsOfItems(events[1..], rest);
      assert (Items(events) + rest)[1..] == Items(events[1..]) + rest;
    }
  }

  // The bytes of the frames delivered.
  function FrameBytes(events: seq<Event>): nat {
    if events == [] then 0
    else (if events[0].Frame? then |events[0].raw| else 0) + FrameBytes(events[1..])
  }

  lemma {:induction false} FramesAdd(xs: seq<Event>, ys: seq<Event>)
    ensures FrameBytes(xs + ys) == FrameBytes(xs) + FrameBytes(ys)
  {
    if xs == [] {
      assert xs + ys == ys;
    } else {
      assert (xs + ys)[1..] == xs[1..] + ys;
      FramesAdd(xs[1..], ys);
    }
  }

  lemma {:induction false} NoFrameBytes(events: seq<Event>)
    requires NoFrames(events)
    ensures FrameBytes(events) == 0
  {
    if events != [] {
      assert events[0] in events;
      NoFrameBytes(events[1..]);
    }
  }

  // What a run delivers stays within the budgets: tool arguments in all, each frame, and
  // all frames on top of the body bytes spent before.
  ghost predicate InBudget(cfg: Config, bytes: nat, args: nat, run: seq<Reply>) {
    var events := EventsOf(run);
    && args + ArgumentBytes(events) <= cfg.maxArguments
    && bytes + FrameBytes(events) <= cfg.maxBody
    && forall e :: e in events ==> |e.raw| <= cfg.maxEvent
  }

  lemma {:induction false} JoinLonger(data: seq<Text>, value: Text)
    ensures |Join(data + [value])| <= |Join(data)| + |value| + 1
  {
    if data == [] {
      assert data + [value] == [value];
    } else {
      assert (data + [value])[1..] == data[1..] + [value];
      JoinLonger(data[1..], value);
    }
  }

  lemma GatherFits(data: seq<Text>, line: Text, size: nat)
    requires |Join(data)| <= size
    ensures |Join(Gather(data, line))| <= size + |line| + 1
  {
    JoinLonger(data, Value(line));
  }

  lemma NoMore(cfg: Config, bytes: nat, args: nat, run: seq<Reply>)
    requires args <= cfg.maxArguments && bytes <= cfg.maxBody && |run| == 1 && !run[0].Item?
    ensures InBudget(cfg, bytes, args, run)
  {
    assert EventsOf(run) == EventsOf(run[1..]) == [];
  }

  // A body budget left over covers a smaller part of the body.
  lemma LessSpent(cfg: Config, less: nat, bytes: nat, args: nat, run: seq<Reply>)
    requires less <= bytes && InBudget(cfg, bytes, args, run)
    ensures InBudget(cfg, less, args, run)
  {
  }

  // spent: the body bytes before this frame.
  lemma FrameFits(cfg: Config, parse: Parser, raw: Text, lines: seq<Text>, end: End, spent: nat, bytes: nat, args: nat, fuel: nat)
    requires args <= cfg.maxArguments && |raw| <= cfg.maxEvent && spent + |raw| <= bytes <= cfg.maxBody && 0 < fuel
    requires forall total: nat :: total <= cfg.maxArguments ==> InBudget(cfg, bytes, total, Expected(cfg, parse, lines, end, bytes, total, [], 0))
    ensures InBudget(cfg, spent, args, Delivered(cfg, parse, raw, lines, end, bytes, args, fuel))
  {
    hide Decode;
    var d := Decode(parse(raw), raw, args, cfg.maxArguments);
    DecodeOk(parse(raw), raw, args, cfg.maxArguments);
    if raw == DONE {
      NoMore(cfg, spent, args, [Completion]);
    } else if d.Bad? {
      NoMore(cfg, spent, args, [Failed(d.failure)]);
    } else {
      var rest := Expected(cfg, parse, lines, end, bytes, d.args, [], 0);
      EventsOfItems(d.events, rest);
      ArgumentsAdd(d.events, EventsOf(rest));
      FramesAdd(d.events, EventsOf(rest));
      NoFrameBytes(d.events[1..]);
    }
  }

  /** The budgets hold over every run: the tool arguments delivered altogether, the length
      of every frame, and the length of all frames with the body bytes spent before. size
      of these are already in bytes. */
  lemma {:induction false} BudgetsHold(cfg: Config, parse: Parser, lines: seq<Text>, end: End, bytes: nat, args: nat, data: seq<Text>, size: nat)
    requires args <= cfg.maxArguments && |Join(data)| <= size <= cfg.maxEvent && size <= bytes <= cfg.maxBody
    ensures InBudget(cfg, bytes - size, args, Expected(cfg, parse, lines, end, bytes, args, data, size))
    decreases |lines|, |data|
  {
    hide Decode;
    hide Join;
    hide Gather;
    hide InBudget;
    var run := Expected(cfg, parse, lines, end, bytes, args, data, size);
    if lines == [] {
      if end == Eof && data != [] {
        forall total: nat | total <= cfg.maxArguments
          ensures InBudget(cfg, bytes, total, Expected(cfg, parse, [], Eof, bytes, total, [], 0))
        {
          NoMore(cfg, bytes, total, [Failed(StreamFailure)]);
        }
        FrameFits(cfg, parse, Join(data), [], Eof, bytes - size, bytes, args, |data|);
      } else {
        NoMore(cfg, bytes - size, args, run);
      }
    } else {
      var line := Token(lines[0]);
      var b, z := bytes + |line| + 1, size + |line| + 1;
      EmptyJoin();
      if Over(cfg, line, z, b) {
        NoMore(cfg, bytes - size, args, run);
      } else if line != "" {
        GatherFits(data, line, size);
        BudgetsHold(cfg, parse, lines[1..], end, b, args, Gather(data, line), z);
      } else if data == [] {
        BudgetsHold(cfg, parse, lines[1..], end, b, args, [], 0);
        LessSpent(cfg, bytes - size, b, args, run);
      } else {
        forall total: nat | total <= cfg.maxArguments
          ensures InBudget(cfg, b, total, Expected(cfg, parse, lines[1..], end, b, total, [], 0))
        {
          BudgetsHold(cfg, parse, lines[1..], end, b, total, [], 0);
        }
        FrameFits(cfg, parse, Join(data), lines[1..], end, bytes - size, b, args, |lines|);
      }
    }
  }

  lemma {:induction false} FirstOverIs(cfg: Config, lines: seq<Text>, bytes: nat, size: nat)
    ensures var i := FirstOver(cfg, lines, bytes, size);
      && (i == |lines| <==> Within(cfg, lines, bytes, size)) && Within(cfg, lines[..i], bytes, size)
      && (i < |lines| ==> !Within(cfg, lines[..i + 1], bytes, size))
  {
    hide Token;
    hide Over;
    if lines != [] {
      var line := Token(lines[0]);
      var b, z := bytes + |line| + 1, size + |line| + 1;
      if !Over(cfg, line, z, b) {
        var i := FirstOver(cfg, lines, bytes, size);
        FirstOverIs(cfg, lines[1..], b, if line == "" then 0 else z);
        assert lines[..i][1..] == lines[1..][..i - 1];
        assert i < |lines| ==> lines[..i + 1][1..] == lines[1..][..i];
      }
    }
  }

  /** A run with a line over a budget goes as if the body ended there, unreadable: what was
      complete before is delivered, and unless that ended the run, the line fails it. */
  lemma {:induction false} FirstOverFails(cfg: Config, parse: Parser, lines: seq<Text>, end: End, bytes: nat, args: nat, data: seq<Text>, size: nat)
    ensures var i := FirstOver(cfg, lines, bytes, size);
      i < |lines| ==> Expected(cfg, parse, lines, end, bytes, args, data, size)
                      == Expected(cfg, parse, lines[..i], TooLong, bytes, args, data, size)
    decreases |lines|
  {
    hide Decode;
    hide Join;
    hide Gather;
    var i := FirstOver(cfg, lines, bytes, size);
    if 0 < i < |lines| {
      var line := Token(lines[0]);
      var b, z := bytes + |line| + 1, size + |line| + 1;
      assert lines[..i][1..] == lines[1..][..i - 1] && lines[..i][0] == lines[0];
      if line != "" {
        FirstOverFails(cfg, parse, lines[1..], end, b, args, Gather(data, line), z);
      } else {
        forall total: nat
          ensures Expected(cfg, parse, lines[1..], end, b, total, [], 0) == Expected(cfg, parse, lines[..i][1..], TooLong, b, total, [], 0)
        {
          FirstOverFails(cfg, parse, lines[1..], end, b, total, [], 0);
        }
        if data != [] {
          SameDelivery(cfg, parse, Join(data), lines[1..], end, lines[..i][1..], TooLong, b, args, |lines|, i);
        }
      }
    }
  }

  lemma SameDelivery(cfg: Config, parse: Parser, raw: Text, lines: seq<Text>, end: End, lines': seq<Text>, end': End,
                     bytes: nat, args: nat, fuel: nat, fuel': nat)
    requires 0 < fuel && 0 < fuel'
    requires forall total: nat :: Expected(cfg, parse, lines, end, bytes, total, [], 0) == Expected(cfg, parse, lines', end', bytes, total, [], 0)
    ensures Delivered(cfg, parse, raw, lines, end, bytes, args, fuel) == Delivered(cfg, parse, raw, lines', end', bytes, args, fuel')
  {
    hide Decode;
  }

  lemma EmptyJoin()
    ensures Join([]) == ""
  {
  }

  /******* Printing and parsing *******/

  // A scanned line loses one trailing carriage return.
  function Tokens(parts: seq<Text>): seq<Text> {
    seq(|parts|, i requires 0 <= i < |parts| => Token(parts[i]))
  }

  function Stripped(payload: Text): Text {
    Join(Tokens(Split(payload)))
  }

  function AllStripped(payloads: seq<Text>): seq<Text> {
    seq(|payloads|, i requires 0 <= i < |payloads| => Stripped(payloads[i]))
  }

  lemma DataLineIs(part: Text, data: seq<Text>)
    ensures var line := Token("data: " + part); line != "" && Gather(data, line) == data + [Token(part)]
  {
    var text := Token(part);
    var line := "data: " + text;
    assert part != "" ==> ("data: " + part)[|part| + 5] == part[|part| - 1];
    assert Token("data: " + part) == line;
    assert ColonAt(line[4..]) == 0;
    assert ColonAt(line[3..]) == 1 && ColonAt(line[2..]) == 2 && ColonAt(line[1..]) == 3;
    assert line[..4] == "data" && line[5..] == " " + text;
    assert (" " + text)[1..] == text;
  }

  lemma {:induction false} DataLinesAreGathered(parts: seq<Text>, rest: seq<Text>, data: seq<Text>)
    ensures Payloads(DataLines(parts) + rest, data) == Payloads(rest, data + Tokens(parts))
    decreases |parts|
  {
    hide Gather;
    hide Token;
    var lines := DataLines(parts) + rest;
    if parts == [] {
      assert lines == rest && data + Tokens(parts) == data;
    } else {
      DataLineIs(parts[0], data);
      assert lines[0] == "data: " + parts[0];
      assert lines[1..] == DataLines(parts[1..]) + rest;
      assert data + [Token(parts[0])] + Tokens(parts[1..]) == data + Tokens(parts);
      DataLinesAreGathered(parts[1..], rest, data + [Token(parts[0])]);
    }
  }

  lemma {:induction false} SplitJoins(s: Text)
    ensures Split(s) != [] && Join(Split(s)) == s
    decreases |s|
  {
    var i := NewlineAt(s);
    if i < |s| {
      assert s == s[..i] + "\n" + s[i + 1..];
      SplitJoins(s[i + 1..]);
      assert Split(s)[1..] == Split(s[i + 1..]);
    }
  }

  // What framing makes of printed payloads.
  lemma {:induction false} PrintedReads(payloads: seq<Text>)
    ensures Payloads(Printed(payloads), []) == AllStripped(payloads)
    decreases |payloads|
  {
    hide Join;
    hide Split;
    if payloads != [] {
      var parts, rest := Split(payloads[0]), Printed(payloads[1..]);
      SplitJoins(payloads[0]);
      assert Printed(payloads) == DataLines(parts) + ([""] + rest);
      DataLinesAreGathered(parts, [""] + rest, []);
      assert [] + Tokens(parts) == Tokens(parts);
      assert ([""] + rest)[1..] == rest;
      PrintedReads(payloads[1..]);
      assert AllStripped(payloads) == [Stripped(payloads[0])] + AllStripped(payloads[1..]);
    }
  }

  // Stripping shortens a payload unless there is nothing to strip.
  lemma {:induction false} JoinedTokens(parts: seq<Text>)
    ensures |Join(Tokens(parts))| <= |Join(parts)|
    ensures Tokens(parts) != parts ==> |Join(Tokens(parts))| < |Join(parts)|
    decreases |parts|
  {
    if |parts| > 1 {
      JoinedTokens(parts[1..]);
      assert Tokens(parts)[1..] == Tokens(parts[1..]);
      assert parts == [parts[0]] + parts[1..] && Tokens(parts) == [Token(parts[0])] + Tokens(parts[1..]);
    } else if |parts| == 1 {
      assert parts == [parts[0]] && Tokens(parts) == [Token(parts[0])];
    }
  }

  lemma StrippedIff(payload: Text)
    ensures Stripped(payload) == payload <==> forall l :: l in Split(payload) ==> Token(l) == l
  {
    var parts := Split(payload);
    SplitJoins(payload);
    JoinedTokens(parts);
    if forall l :: l in parts ==> Token(l) == l {
      assert Tokens(parts) == parts;
    } else {
      var l :| l in parts && Token(l) != l;
      var i :| 0 <= i < |parts| && parts[i] == l;
      assert Tokens(parts)[i] != parts[i];
    }
  }

  /** Printing payloads as data lines and framing them again gives them back if and only if
      no line of theirs ends in a carriage return. */
  lemma PrintedIsParsedIff(payloads: seq<Text>)
    ensures Payloads(Printed(payloads), []) == payloads <==> forall p, l :: p in payloads && l in Split(p) ==> Token(l) == l
  {
    hide *;
    PrintedReads(payloads);
    AllStrippedIff(payloads);
    forall p | p in payloads
      ensures Stripped(p) == p <==> forall l :: l in Split(p) ==> Token(l) == l
    {
      StrippedIff(p);
    }
  }

  lemma AllStrippedIff(payloads: seq<Text>)
    ensures AllStripped(payloads) == payloads <==> forall p :: p in payloads ==> Stripped(p) == p
  {
    hide Stripped;
    if forall p :: p in payloads ==> Stripped(p) == p {
      forall i | 0 <= i < |payloads|
        ensures AllStripped(payloads)[i] == payloads[i]
      {
      }
    } else {
      var p :| p in payloads && Stripped(p) != p;
      var i :| 0 <= i < |payloads| && payloads[i] == p;
      assert AllStripped(payloads)[i] != payloads[i];
    }
  }

  /** A payload that does not come back. */
  lemma TrailingReturnIsLost()
    ensures Payloads(Printed(["a\r"]), []) == ["a"]
  {
    PrintedReads(["a\r"]);
    var payload := "a\r";
    assert payload[1..][1..] == "" && NewlineAt(payload[1..]) == 1;
    assert Split(payload) == [payload];
    assert Token(payload) == "a" && Tokens([payload]) == ["a"];
    assert AllStripped([payload]) == [Stripped(payload)];
  }
}
