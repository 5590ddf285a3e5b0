/**
 What a decoded frame delivers, which frames decode, how lines are read, and what the end of
 the body means.
 */
module SseStreamLaws {
  import opened Wrappers
  import opened SseStream
  import opened SseStreamProofs

  /******* The events of a choice *******/

  // Text comes before reasoning, reasoning before tools, tools before the finish.
  function Rank(e: Event): nat {
    match e
    case Frame(_) => 0
    case TextPart(_, _, _) => 1
    case Reasoning(_, _, _) => 2
    case ToolPart(_, _, _) => 3
    case Finish(_, _, _) => 4
    case UsagePart(_, _) => 5
  }

  function Only(events: seq<Event>, rank: nat): seq<Event> {
    if events == [] then []
    else (if Rank(events[0]) == rank then [events[0]] else []) + Only(events[1..], rank)
  }

  ghost predicate InOrder(events: seq<Event>) {
    forall i, j :: 0 <= i < j < |events| ==> Rank(events[i]) <= Rank(events[j])
  }

  // Reasons that hold something.
  function NonBlank(reasons: seq<Text>): seq<Text> {
    if reasons == [] then []
    else (if reasons[0] == "" || reasons[0] == "null" || reasons[0] == "\"\"" then [] else [reasons[0]]) + NonBlank(reasons[1..])
  }

  // A choice's events: its content unless empty, its reasons that hold something, all its
  // tools and its finish reason, each in order and under its index.
  ghost predicate Tells(block: seq<Event>, c: Choice, raw: Text) {
    && InOrder(block) && (forall e :: e in block ==> 1 <= Rank(e) <= 4)
    && Only(block, 1) == (if c.content.Some? && c.content.value != "" then [TextPart(c.index, c.content.value, raw)] else [])
    && Only(block, 2) == Reasonings(c.index, NonBlank(c.reasons), raw)
    && Only(block, 3) == seq(|c.tools|, i requires 0 <= i < |c.tools| => ToolPart(c.index, c.tools[i], raw))
    && Only(block, 4) == (if c.finish.Some? then [Finish(c.index, c.finish.value, raw)] else [])
  }

  lemma {:induction false} OnlySplits(xs: seq<Event>, ys: seq<Event>, rank: nat)
    ensures Only(xs + ys, rank) == Only(xs, rank) + Only(ys, rank)
  {
    hide Rank;
    if xs == [] {
      assert xs + ys == ys;
    } else {
      assert (xs + ys)[1..] == xs[1..] + ys && (xs + ys)[0] == xs[0];
      OnlySplits(xs[1..], ys, rank);
      var first := if Rank(xs[0]) == rank then [xs[0]] else [];
      assert Only(xs, rank) == first + Only(xs[1..], rank);
      assert Only(xs + ys, rank) == first + Only(xs[1..] + ys, rank);
    }
  }

  ghost predicate AllOf(events: seq<Event>, rank: nat) {
    forall i :: 0 <= i < |events| ==> Rank(events[i]) == rank
  }

  lemma {:induction false} OnlyOf(events: seq<Event>, rank: nat, other: nat)
    requires AllOf(events, rank)
    ensures Only(events, other) == if other == rank then events else []
  {
    if events != [] {
      OnlyOf(events[1..], rank, other);
      assert events == [events[0]] + events[1..];
    }
  }

  function Reasonings(index: int, reasons: seq<Text>, raw: Text): seq<Event> {
    seq(|reasons|, i requires 0 <= i < |reasons| => Reasoning(index, reasons[i], raw))
  }

  lemma {:induction false} ReasonsAre(index: int, reasons: seq<Text>, raw: Text)
    ensures AllOf(ReasonEvents(index, reasons, raw), 2)
    ensures ReasonEvents(index, reasons, raw) == Reasonings(index, NonBlank(reasons), raw)
  {
    if reasons != [] {
      ReasonsAre(index, reasons[1..], raw);
      var rest := NonBlank(reasons[1..]);
      assert Reasonings(index, [reasons[0]] + rest, raw) == [Reasoning(index, reasons[0], raw)] + Reasonings(index, rest, raw);
      assert [] + rest == rest;
      var first := if reasons[0] != "" && reasons[0] != "null" && reasons[0] != "\"\"" then [Reasoning(index, reasons[0], raw)] else [];
      assert AllOf(first, 2);
      AllOfBoth(first, ReasonEvents(index, reasons[1..], raw), 2);
    }
  }

  lemma AllOfBoth(xs: seq<Event>, ys: seq<Event>, rank: nat)
    requires AllOf(xs, rank) && AllOf(ys, rank)
    ensures AllOf(xs + ys, rank)
  {
    hide Rank;
  }

  lemma {:induction false} ToolsAre(index: int, tools: seq<Tool>, raw: Text, args: nat, max: nat)
    ensures var d := ToolEvents(index, tools, raw, args, max); d.Good? ==>
      && AllOf(d.events, 3)
      && d.events == seq(|tools|, i requires 0 <= i < |tools| => ToolPart(index, tools[i], raw))
  {
    if tools != [] {
      ToolsAre(index, tools[1..], raw, args + |tools[0].arguments|, max);
    }
  }

  // Four runs of events of rising rank.
  lemma FourRuns(a: seq<Event>, b: seq<Event>, c: seq<Event>, d: seq<Event>)
    requires AllOf(a, 1) && AllOf(b, 2) && AllOf(c, 3) && AllOf(d, 4)
    ensures InOrder(a + b + c + d) && forall e :: e in a + b + c + d ==> 1 <= Rank(e) <= 4
  {
    hide Rank;
    var all := a + b + c + d;
    forall i | 0 <= i < |all|
      ensures Rank(all[i]) == if i < |a| then 1 else if i < |a| + |b| then 2 else if i < |a| + |b| + |c| then 3 else 4
    {
      if i < |a| {
        assert all[i] == a[i];
      } else if i < |a| + |b| {
        assert all[i] == b[i - |a|];
      } else if i < |a| + |b| + |c| {
        assert all[i] == c[i - |a| - |b|];
      } else {
        assert all[i] == d[i - |a| - |b| - |c|];
      }
    }
  }

  lemma OneRun(a: seq<Event>, b: seq<Event>, c: seq<Event>, d: seq<Event>, rank: nat)
    requires AllOf(a, 1) && AllOf(b, 2) && AllOf(c, 3) && AllOf(d, 4) && 1 <= rank <= 4
    ensures Only(a + b + c + d, rank) == if rank == 1 then a else if rank == 2 then b else if rank == 3 then c else d
  {
    hide *;
    OnlySplits(a + b + c, d, rank);
    OnlySplits(a + b, c, rank);
    OnlySplits(a, b, rank);
    OnlyOf(a, 1, rank);
    OnlyOf(b, 2, rank);
    OnlyOf(c, 3, rank);
    OnlyOf(d, 4, rank);
    calc {
      Only(a + b + c + d, rank);
      Only(a + b + c, rank) + Only(d, rank);
      Only(a + b, rank) + Only(c, rank) + Only(d, rank);
      Only(a, rank) + Only(b, rank) + Only(c, rank) + Only(d, rank);
    }
  }

  lemma ChoiceTells(c: Choice, raw: Text, args: nat, max: nat)
    ensures var d := ChoiceEvents(c, raw, args, max); d.Good? ==> Tells(d.events, c, raw)
  {
    hide Only;
    hide InOrder;
    hide ReasonEvents;
    hide ToolEvents;
    var tools := ToolEvents(c.index, c.tools, raw, args, max);
    if ChoiceEvents(c, raw, args, max).Good? {
      var text := if c.content.Some? && c.content.value != "" then [TextPart(c.index, c.content.value, raw)] else [];
      var reasons := ReasonEvents(c.index, c.reasons, raw);
      var finish := if c.finish.Some? then [Finish(c.index, c.finish.value, raw)] else [];
      ReasonsAre(c.index, c.reasons, raw);
      ToolsAre(c.index, c.tools, raw, args, max);
      FourRuns(text, reasons, tools.events, finish);
      OneRun(text, reasons, tools.events, finish, 1);
      OneRun(text, reasons, tools.events, finish, 2);
      OneRun(text, reasons, tools.events, finish, 3);
      OneRun(text, reasons, tools.events, finish, 4);
      assert ChoiceEvents(c, raw, args, max).events == text + reasons + tools.events + finish;
    }
  }

  function Concat(blocks: seq<seq<Event>>): seq<Event> {
    if blocks == [] then [] else blocks[0] + Concat(blocks[1..])
  }

  lemma {:induction false} ChoicesTell(cs: seq<Choice>, raw: Text, args: nat, max: nat) returns (blocks: seq<seq<Event>>)
    requires ChoicesEvents(cs, raw, args, max).Good?
    ensures |blocks| == |cs| && ChoicesEvents(cs, raw, args, max).events == Concat(blocks)
    ensures forall i :: 0 <= i < |cs| ==> Tells(blocks[i], cs[i], raw)
  {
    hide ChoiceEvents;
    hide Tells;
    if cs == [] {
      blocks := [];
    } else {
      ChoiceTells(cs[0], raw, args, max);
      var first := ChoiceEvents(cs[0], raw, args, max);
      var rest := ChoicesTell(cs[1..], raw, first.args, max);
      blocks := [first.events] + rest;
      assert blocks[1..] == rest;
    }
  }

  /** A decoded frame delivers the native frame, then the events of each choice in turn, in the
      order text, reasoning, tools, finish, and the usage last exactly when it is given. */
  lemma FrameTellsAll(wire: Wire, raw: Text, args: nat, max: nat) returns (blocks: seq<seq<Event>>)
    requires Decode(wire, raw, args, max).Good?
    ensures wire.Wire? && wire.choices.Some? && |blocks| == |wire.choices.value|
    ensures forall i :: 0 <= i < |blocks| ==> Tells(blocks[i], wire.choices.value[i], raw)
    ensures Decode(wire, raw, args, max).events ==
      [Frame(raw)] + Concat(blocks) + if wire.usage.Usage? then [UsagePart(wire.usage.tokens, raw)] else []
  {
    hide ChoicesEvents;
    hide Tells;
    blocks := ChoicesTell(wire.choices.value, raw, args, max);
    assert [Frame(raw)] + Concat(blocks) + [] == [Frame(raw)] + Concat(blocks);
  }

  /******* Which frames decode *******/

  function ToolBytes(tools: seq<Tool>): nat {
    if tools == [] then 0 else |tools[0].arguments| + ToolBytes(tools[1..])
  }

  function AllToolBytes(cs: seq<Choice>): nat {
    if cs == [] then 0 else ToolBytes(cs[0].tools) + AllToolBytes(cs[1..])
  }

  ghost predicate Indexed(c: Choice) {
    c.index >= 0 && forall t :: t in c.tools ==> t.index >= 0
  }

  lemma {:induction false} ToolsDecodeIff(index: int, tools: seq<Tool>, raw: Text, args: nat, max: nat)
    requires args <= max
    ensures var d := ToolEvents(index, tools, raw, args, max);
      && (d.Good? <==> (forall t :: t in tools ==> t.index >= 0) && args + ToolBytes(tools) <= max)
      && (d.Good? ==> d.args == args + ToolBytes(tools))
      && ((forall t :: t in tools ==> t.index >= 0) && d.Bad? ==> d.failure == StreamFailure)
      && (args + ToolBytes(tools) <= max && d.Bad? ==> d.failure == Malformed)
  {
    if tools != [] && tools[0].index >= 0 && args + |tools[0].arguments| <= max {
      ToolsDecodeIff(index, tools[1..], raw, args + |tools[0].arguments|, max);
      assert forall t :: t in tools <==> t == tools[0] || t in tools[1..];
    }
  }

  lemma {:induction false} ChoicesDecodeIff(cs: seq<Choice>, raw: Text, args: nat, max: nat)
    requires args <= max
    ensures var d := ChoicesEvents(cs, raw, args, max);
      && (d.Good? <==> (forall c :: c in cs ==> Indexed(c) && c.finish != Some("error")) && args + AllToolBytes(cs) <= max)
      && (d.Good? ==> d.args == args + AllToolBytes(cs))
      && ((forall c :: c in cs ==> Indexed(c)) && d.Bad? ==> d.failure == StreamFailure)
      && ((forall c :: c in cs ==> c.finish != Some("error")) && args + AllToolBytes(cs) <= max && d.Bad? ==> d.failure == Malformed)
  {
    if cs != [] {
      assert forall c :: c in cs <==> c == cs[0] || c in cs[1..];
      assert cs[0] in cs;
      ToolsDecodeIff(cs[0].index, cs[0].tools, raw, args, max);
      var first := ChoiceEvents(cs[0], raw, args, max);
      if first.Good? {
        ChoicesDecodeIff(cs[1..], raw, first.args, max);
      }
    }
  }

  // The shape a choice must have: not null, with an object for a delta or a finish reason.
  predicate Shaped(c: Choice) {
    !c.isNull && (c.hasDelta ==> c.deltaIsObject) && (!c.hasDelta ==> c.finish.Some?)
  }

  /** A frame decodes exactly when it is an object without error and with choices, each of
      them shaped and indexed and none finished by an error, its usage readable, and the tool
      arguments within what is left of their budget. */
  lemma DecodesIff(wire: Wire, raw: Text, args: nat, max: nat)
    requires args <= max
    ensures Decode(wire, raw, args, max).Good? <==>
      && wire.Wire? && wire.error.None? && wire.choices.Some? && !wire.usage.BadUsage?
      && (forall c :: c in wire.choices.value ==> Shaped(c) && Indexed(c) && c.finish != Some("error"))
      && args + AllToolBytes(wire.choices.value) <= max
  {
    hide ChoicesEvents;
    hide Indexed;
    if wire.Wire? && wire.choices.Some? {
      ChoicesDecodeIff(wire.choices.value, raw, args, max);
      assert forall c: Choice :: ShapeOk(c) == Shaped(c);
    }
  }

  /** What is malformed and what is the stream's failure: a reported error is passed on by its
      category, unless it is HTTP's; a frame that does not parse, without choices, or with a
      misshapen or misnumbered one is malformed; an error finish or an overdrawn budget is not. */
  lemma FailuresAreNamed(wire: Wire, raw: Text, args: nat, max: nat)
    requires args <= max && Decode(wire, raw, args, max).Bad?
    ensures var f := Decode(wire, raw, args, max).failure;
      && (wire.Garbage? ==> f == Malformed)
      && (wire.Wire? && wire.error.Some? ==> f == if wire.error.value == "http" then StreamFailure else Upstream(wire.error.value))
      && (wire.Wire? && wire.error.None? ==>
            if wire.choices.None? || exists c :: c in wire.choices.value && !Shaped(c) then f == Malformed
            else
              && ((forall c :: c in wire.choices.value ==> Indexed(c)) && !wire.usage.BadUsage? ==> f == StreamFailure)
              && (args + AllToolBytes(wire.choices.value) <= max && (forall c :: c in wire.choices.value ==> c.finish != Some("error")) ==>
                    f == Malformed))
  {
    hide ChoicesEvents;
    hide Indexed;
    if wire.Wire? && wire.choices.Some? {
      ChoicesDecodeIff(wire.choices.value, raw, args, max);
      assert forall c: Choice :: ShapeOk(c) == Shaped(c);
    }
  }

  /******* Lines *******/

  lemma {:induction false} ColonAfter(name: Text, rest: Text)
    requires ':' !in name
    ensures ColonAt(name + rest) == |name| + ColonAt(rest)
  {
    if name == "" {
      assert name + rest == rest;
    } else {
      assert (name + rest)[1..] == name[1..] + rest;
      ColonAfter(name[1..], rest);
    }
  }

  /** A line is a name and, after its first colon, a value less one leading space. Only data
      lines are kept; a line that begins with a colon is a comment, and a name alone has the
      empty value. */
  lemma LinesAreFields(data: seq<Text>, name: Text, value: Text)
    requires ':' !in name
    ensures Gather(data, name + ":" + value) ==
      if name == "data" then data + [if value != "" && value[0] == ' ' then value[1..] else value] else data
    ensures Gather(data, name) == if name == "data" then data + [""] else data
  {
    var line := name + ":" + value;
    assert line == name + (":" + value) && ColonAt(":" + value) == 0;
    ColonAfter(name, ":" + value);
    assert line[..|name|] == name && line[|name| + 1..] == value;
    assert name + "" == name && ColonAt("") == 0;
    ColonAfter(name, "");
    assert name[..|name|] == name;
    if name == "" {
      assert line[0] == ':';
    } else {
      assert line[0] == name[0] && name[0] in name;
    }
  }

  /******* The end of the body *******/

  // The payloads the lines complete.
  function Complete(lines: seq<Text>, data: seq<Text>): seq<Text> {
    if lines == [] then []
    else
      var line := Token(lines[0]);
      if line != "" then Complete(lines[1..], Gather(data, line))
      else if data == [] then Complete(lines[1..], [])
      else [Join(data)] + Complete(lines[1..], [])
  }

  // None of the payloads ends a run.
  predicate AllGood(cfg: Config, parse: Parser, payloads: seq<Text>, args: nat) {
    payloads == [] ||
    (payloads[0] != DONE
     && var d := Decode(parse(payloads[0]), payloads[0], args, cfg.maxArguments);
       d.Good? && AllGood(cfg, parse, payloads[1..], d.args))
  }

  /** A body that breaks off, or has a line that cannot be held, fails a run that nothing ended
      before: as a transport failure, or as the stream's. */
  lemma {:induction false} EndFailsTheRun(cfg: Config, parse: Parser, lines: seq<Text>, end: End, bytes: nat, args: nat, data: seq<Text>, size: nat)
    requires !end.Eof? && Within(cfg, lines, bytes, size) && AllGood(cfg, parse, Complete(lines, data), args)
    ensures var run := Expected(cfg, parse, lines, end, bytes, args, data, size);
      run != [] && run[|run| - 1] == Failed(if end.Broken? then Transport else StreamFailure)
    decreases |lines|
  {
    hide Decode;
    hide Join;
    hide Gather;
    if lines != [] {
      var line := Token(lines[0]);
      var b, z := bytes + |line| + 1, size + |line| + 1;
      if line != "" {
        EndFailsTheRun(cfg, parse, lines[1..], end, b, args, Gather(data, line), z);
      } else if data == [] {
        EndFailsTheRun(cfg, parse, lines[1..], end, b, args, [], 0);
      } else {
        var payloads := Complete(lines, data);
        assert payloads[1..] == Complete(lines[1..], []);
        var d := Decode(parse(Join(data)), Join(data), args, cfg.maxArguments);
        EndFailsTheRun(cfg, parse, lines[1..], end, b, d.args, [], 0);
        FrameThenEnd(cfg, parse, Join(data), lines[1..], end, b, args, |lines|);
      }
    }
  }

  lemma FrameThenEnd(cfg: Config, parse: Parser, raw: Text, lines: seq<Text>, end: End, bytes: nat, args: nat, fuel: nat)
    requires 0 < fuel && raw != DONE && Decode(parse(raw), raw, args, cfg.maxArguments).Good?
    requires Expected(cfg, parse, lines, end, bytes, Decode(parse(raw), raw, args, cfg.maxArguments).args, [], 0) != []
    ensures var run := Delivered(cfg, parse, raw, lines, end, bytes, args, fuel);
      var rest := Expected(cfg, parse, lines, end, bytes, Decode(parse(raw), raw, args, cfg.maxArguments).args, [], 0);
      run != [] && run[|run| - 1] == rest[|rest| - 1]
  {
    hide Decode;
  }

  /******* The three budgets *******/

  // The bytes of some lines, a newline behind each.
  function Cost(lines: seq<Text>): nat {
    if lines == [] then 0 else |Token(lines[0])| + 1 + Cost(lines[1..])
  }

  ghost predicate NoBlank(lines: seq<Text>) {
    forall i :: 0 <= i < |lines| ==> Token(lines[i]) != ""
  }

  // The lines from i up to j are of one frame, and no more than a frame may cost.
  ghost predicate Holds(cfg: Config, lines: seq<Text>, size: nat, i: nat, j: nat)
    requires i < j <= |lines|
  {
    NoBlank(lines[i..j - 1]) ==> (if i == 0 then size else 0) + Cost(lines[i..j]) <= cfg.maxEvent
  }

  // bytes and size were spent before.
  ghost predicate Affordable(cfg: Config, lines: seq<Text>, bytes: nat, size: nat) {
    && (forall i :: 0 <= i < |lines| ==> |Token(lines[i])| <= cfg.maxLine)
    && (lines != [] ==> bytes + Cost(lines) <= cfg.maxBody)
    && (forall i: nat, j: nat :: i < j <= |lines| ==> Holds(cfg, lines, size, i, j))
  }

  lemma NoBlankFirst(line: Text, rest: seq<Text>)
    ensures NoBlank([line] + rest) <==> Token(line) != "" && NoBlank(rest)
  {
    hide Token;
    var all := [line] + rest;
    assert all[0] == line;
    if NoBlank(all) {
      forall i | 0 <= i < |rest|
        ensures Token(rest[i]) != ""
      {
        assert all[i + 1] == rest[i];
      }
    }
  }

  lemma FirstHolds(cfg: Config, lines: seq<Text>, size: nat, j: nat)
    requires 1 < j <= |lines|
    ensures var line := Token(lines[0]);
      Holds(cfg, lines, size, 0, j) <==> (line != "" ==> Holds(cfg, lines[1..], size + |line| + 1, 0, j - 1))
  {
    hide Token;
    var rest := lines[1..];
    assert lines[0..j][0] == lines[0] && lines[0..j][1..] == rest[0..j - 1];
    NoBlankFirst(lines[0], rest[0..j - 2]);
    assert lines[0..j - 1] == [lines[0]] + rest[0..j - 2];
  }

  lemma Shifted(lines: seq<Text>, i: nat, j: nat)
    requires 0 < i <= j <= |lines|
    ensures lines[i..j] == lines[1..][i - 1..j - 1]
  {
    var a, b := lines[i..j], lines[1..][i - 1..j - 1];
    assert |a| == |b|;
    forall k | 0 <= k < |a|
      ensures a[k] == b[k]
    {
      assert lines[1..][i - 1 + k] == lines[i + k];
    }
  }

  lemma LaterHolds(cfg: Config, lines: seq<Text>, size: nat, i: nat, j: nat)
    requires 0 < i < j <= |lines|
    ensures Holds(cfg, lines, size, i, j) <==> Holds(cfg, lines[1..], 0, i - 1, j - 1)
  {
    hide NoBlank;
    hide Cost;
    Shifted(lines, i, j);
    Shifted(lines, i, j - 1);
  }

  lemma OneHolds(cfg: Config, lines: seq<Text>, size: nat)
    requires lines != []
    ensures Holds(cfg, lines, size, 0, 1) <==> size + |Token(lines[0])| + 1 <= cfg.maxEvent
  {
    assert lines[0..1] == [lines[0]] && lines[0..0] == [];
    assert Cost([lines[0]]) == |Token(lines[0])| + 1 + Cost([]);
  }

  lemma HoldsMore(cfg: Config, lines: seq<Text>, size: nat, i: nat, j: nat)
    requires i < j <= |lines| && Holds(cfg, lines, size, i, j)
    ensures Holds(cfg, lines, 0, i, j)
  {
  }

  lemma FramesAfford(cfg: Config, lines: seq<Text>, size: nat)
    requires lines != []
    ensures var line := Token(lines[0]); var next := if line == "" then 0 else size + |line| + 1;
      (forall i: nat, j: nat :: i < j <= |lines| ==> Holds(cfg, lines, size, i, j)) <==>
        (size + |line| + 1 <= cfg.maxEvent && forall i: nat, j: nat :: i < j <= |lines[1..]| ==> Holds(cfg, lines[1..], next, i, j))
  {
    hide Holds;
    var line, rest := Token(lines[0]), lines[1..];
    var next := if line == "" then 0 else size + |line| + 1;
    OneHolds(cfg, lines, size);
    if forall i: nat, j: nat :: i < j <= |lines| ==> Holds(cfg, lines, size, i, j) {
      assert Holds(cfg, lines, size, 0, 1);
      forall i: nat, j: nat | i < j <= |rest|
        ensures Holds(cfg, rest, next, i, j)
      {
        assert Holds(cfg, lines, size, i + 1, j + 1) && Holds(cfg, lines, size, 0, j + 1);
        LaterHolds(cfg, lines, size, i + 1, j + 1);
        FirstHolds(cfg, lines, size, j + 1);
        LaterIsSizeless(cfg, rest, next, i, j);
      }
    }
    if size + |line| + 1 <= cfg.maxEvent && forall i: nat, j: nat :: i < j <= |rest| ==> Holds(cfg, rest, next, i, j) {
      forall i: nat, j: nat | i < j <= |lines|
        ensures Holds(cfg, lines, size, i, j)
      {
        if i > 0 {
          HoldsMore(cfg, rest, next, i - 1, j - 1);
          LaterHolds(cfg, lines, size, i, j);
        } else if j > 1 {
          assert Holds(cfg, rest, next, 0, j - 1);
          FirstHolds(cfg, lines, size, j);
        }
      }
    }
  }

  lemma LaterIsSizeless(cfg: Config, lines: seq<Text>, size: nat, i: nat, j: nat)
    requires i < j <= |lines|
    ensures i > 0 ==> (Holds(cfg, lines, size, i, j) <==> Holds(cfg, lines, 0, i, j))
  {
  }

  /** The budgets are kept exactly when no line is longer than a line may be, no frame's lines
      up to its blank one cost more than a frame may, and all lines together no more than the
      body may. */
  lemma {:induction false} WithinIff(cfg: Config, lines: seq<Text>, bytes: nat, size: nat)
    ensures Within(cfg, lines, bytes, size) <==> Affordable(cfg, lines, bytes, size)
  {
    hide Token;
    if lines != [] {
      var line, rest := Token(lines[0]), lines[1..];
      var b, z := bytes + |line| + 1, size + |line| + 1;
      WithinIff(cfg, rest, b, if line == "" then 0 else z);
      FramesAfford(cfg, lines, size);
      assert Cost(lines) == |line| + 1 + Cost(rest) && (rest == [] ==> Cost(rest) == 0);
      assert (forall i :: 0 <= i < |lines| ==> |Token(lines[i])| <= cfg.maxLine) <==>
        (|line| <= cfg.maxLine && forall i :: 0 <= i < |rest| ==> |Token(rest[i])| <= cfg.maxLine) by {
        LinesAfford(cfg, lines);
      }
    }
  }

  lemma LinesAfford(cfg: Config, lines: seq<Text>)
    requires lines != []
    ensures (forall i :: 0 <= i < |lines| ==> |Token(lines[i])| <= cfg.maxLine) <==>
      (|Token(lines[0])| <= cfg.maxLine && forall i :: 0 <= i < |lines[1..]| ==> |Token(lines[1..][i])| <= cfg.maxLine)
  {
    hide Token;
    if |Token(lines[0])| <= cfg.maxLine && forall i :: 0 <= i < |lines[1..]| ==> |Token(lines[1..][i])| <= cfg.maxLine {
      forall i | 0 <= i < |lines|
        ensures |Token(lines[i])| <= cfg.maxLine
      {
        assert i > 0 ==> lines[1..][i - 1] == lines[i];
      }
    }
  }
}
