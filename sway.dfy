/** The compositor side both Wayland backends talk to (the `swayipc` crate),
    and the helpers the two backend files share text for: `format_refresh`,
    `filter_outputs` and `preprocess_outputs` appear in both
    src/bin/daemon/screen/wayland.rs and src/screen/wayland.rs. */
module Sway {
  import opened Wrappers
  import opened Text

  /** A sway mode: `i32` width and height, refresh in mHz. */
  datatype SwayMode = SwayMode(width: I32, height: I32, refresh: I32)

  /** The parts of a sway output the backends read. */
  datatype SwayOutput = SwayOutput(
    name: string,
    modes: seq<SwayMode>,
    currentMode: Option<SwayMode>,
    focused: bool,
    transform: Option<string>)

  /** An input device: its type ("touch", "keyboard", ...) and identifier. */
  datatype SwayInput = SwayInput(inputType: string, identifier: string)

  /** What `run_command` gives back for one command: every reply succeeded,
      a reply carried an error, or the request itself failed. */
  datatype CommandReply = Applied | Refused(error: string) | Broken(error: string)

  /** One IPC connection: the outputs and inputs it reports, and the commands
      sent over it so far.  How the compositor answers a command is fixed
      by `reply`. */
  class SwayConnection {
    const outputs: seq<SwayOutput>
    const inputs: seq<SwayInput>
    const reply: string -> CommandReply
    var sent: seq<string>

    constructor(outputs: seq<SwayOutput>, inputs: seq<SwayInput>, reply: string -> CommandReply)
      ensures this.outputs == outputs && this.inputs == inputs && this.reply == reply
      ensures sent == []
    {
      this.outputs := outputs;
      this.inputs := inputs;
      this.reply := reply;
      sent := [];
    }

    /** `run_command`: the command is sent and its replies returned. */
    method RunCommand(command: string) returns (r: CommandReply)
      modifies this
      ensures sent == old(sent) + [command]
      ensures r == reply(command)
    {
      sent := sent + [command];
      r := reply(command);
    }
  }

  /** `format_refresh`: a value of at least 1000 is taken as mHz and shown
      in whole Hz; a smaller one is shown as it is.  No unit is added. */
  function FormatRefresh(refresh: int): (r: string)
    ensures refresh >= 1000 ==> AllDigits(r) && DigitsValue(r, 0) == refresh / 1000
    ensures 0 <= refresh < 1000 ==> AllDigits(r) && DigitsValue(r, 0) == refresh
    ensures refresh < 0 ==> r == "-" + NatToString(-refresh)
  {
    if refresh >= 1000 then
      NatToStringValue(refresh / 1000);
      IntToString(refresh / 1000)
    else
      if refresh >= 0 then NatToStringValue(refresh); IntToString(refresh)
      else IntToString(refresh)
  }

  /** Refresh rates in mHz lose their fraction of a hertz. */
  lemma FormatRefreshTruncates()
    ensures FormatRefresh(59940) == FormatRefresh(59000)
    ensures FormatRefresh(60) == FormatRefresh(60000)
  {
    assert NatToString(59) == "59";
    assert NatToString(60) == "60";
  }

  /** An output passes the filter when no screen is named or its name is the
      screen named. */
  predicate Passes(o: SwayOutput, screen: Option<string>) {
    screen.None? || o.name == screen.value
  }

  /** `filter_outputs`: the outputs that pass, in their order. */
  function FilterOutputs(outputs: seq<SwayOutput>, screen: Option<string>): (r: seq<SwayOutput>)
    ensures |r| <= |outputs|
    ensures forall o :: o in r ==> o in outputs && Passes(o, screen)
    ensures forall o :: o in outputs && Passes(o, screen) ==> o in r
  {
    if outputs == [] then []
    else
      var rest := FilterOutputs(outputs[1..], screen);
      assert forall o :: o in outputs[1..] ==> o in outputs;
      assert forall o :: o in outputs ==> o == outputs[0] || o in outputs[1..];
      if Passes(outputs[0], screen) then [outputs[0]] + rest else rest
  }

  /** Without a screen name nothing is filtered out. */
  lemma {:induction false} FilterNone(outputs: seq<SwayOutput>)
    ensures FilterOutputs(outputs, None) == outputs
  {
    if outputs != [] {
      FilterNone(outputs[1..]);
    }
  }

  /** Filtering keeps the order: filtering a concatenation is the
      concatenation of the filtered parts. */
  lemma {:induction false} FilterAppend(a: seq<SwayOutput>, b: seq<SwayOutput>, screen: Option<string>)
    ensures FilterOutputs(a + b, screen) == FilterOutputs(a, screen) + FilterOutputs(b, screen)
  {
    if a != [] {
      var ab := a + b;
      assert ab[0] == a[0] && ab[1..] == a[1..] + b;
      FilterHead(a, screen);
      FilterHead(ab, screen);
      FilterAppend(a[1..], b, screen);
      SeqAssoc(Kept(a[0], screen), FilterOutputs(a[1..], screen), FilterOutputs(b, screen));
    } else {
      assert a + b == b;
    }
  }

  /** The first output is kept or dropped on its own. */
  function Kept(o: SwayOutput, screen: Option<string>): seq<SwayOutput> {
    if Passes(o, screen) then [o] else []
  }

  lemma FilterHead(s: seq<SwayOutput>, screen: Option<string>)
    requires s != []
    ensures FilterOutputs(s, screen) == Kept(s[0], screen) + FilterOutputs(s[1..], screen)
  {
  }

  /** The set of names of some outputs. */
  function Names(outputs: seq<SwayOutput>): set<string> {
    set o | o in outputs :: o.name
  }

  /** `preprocess_outputs`: the outputs keyed by name; collecting into the
      map lets a later output replace an earlier one of the same name. */
  function PreprocessOutputs(outputs: seq<SwayOutput>): (m: map<string, SwayOutput>)
    ensures m.Keys == Names(outputs)
    ensures forall n :: n in m ==> m[n] in outputs && m[n].name == n
    decreases |outputs|
  {
    if outputs == [] then map[]
    else
      var init := outputs[..|outputs| - 1];
      var last := outputs[|outputs| - 1];
      assert outputs == init + [last];
      assert forall o :: o in init ==> o in outputs;
      PreprocessOutputs(init)[last.name := last]
  }

  /** The output the map keeps for a name is the last one with that name. */
  lemma {:induction false} PreprocessKeepsLast(outputs: seq<SwayOutput>, i: nat)
    requires i < |outputs|
    requires forall j :: i < j < |outputs| ==> outputs[j].name != outputs[i].name
    ensures PreprocessOutputs(outputs)[outputs[i].name] == outputs[i]
    decreases |outputs|
  {
    if i < |outputs| - 1 {
      var init := outputs[..|outputs| - 1];
      PreprocessKeepsLast(init, i);
    }
  }

  /** An order in which a hash map keyed by output name visits its values:
      each name once.  The map fixes no order; every such order is
      allowed. */
  predicate IsKeyOrder(order: seq<string>, outputs: seq<SwayOutput>) {
    (forall i, j :: 0 <= i < j < |order| ==> order[i] != order[j])
    && (set n | n in order) == Names(outputs)
  }

  /** The outputs a `set_mode` goes through: for a named screen the output
      the name map keeps for it (None when there is none), otherwise every
      value of the name map, in `order`. */
  function Targets(outputs: seq<SwayOutput>, screen: Option<string>, order: seq<string>): (r: Option<seq<SwayOutput>>)
    requires screen.None? ==> IsKeyOrder(order, outputs)
    ensures r.None? <==> screen.Some? && screen.value !in Names(outputs)
    ensures screen.Some? && r.Some? ==> r.value == [PreprocessOutputs(outputs)[screen.value]]
    ensures screen.None? ==> r.Some? && |r.value| == |order|
    ensures r.Some? ==> forall o :: o in r.value ==> o in outputs
  {
    var byName := PreprocessOutputs(outputs);
    match screen
    case Some(n) =>
      if n in byName then Some([byName[n]]) else None
    case None =>
      assert forall i :: 0 <= i < |order| ==> order[i] in byName;
      Some(seq(|order|, i requires 0 <= i < |order| => byName[order[i]]))
  }

  /** With no screen named, every output name is visited exactly once. */
  lemma TargetsCoverNames(outputs: seq<SwayOutput>, order: seq<string>)
    requires IsKeyOrder(order, outputs)
    ensures var t := Targets(outputs, None, order).value;
      |t| == |Names(outputs)| && (forall n :: n in Names(outputs) ==> exists o :: o in t && o.name == n)
  {
    var t := Targets(outputs, None, order).value;
    DistinctCard(order);
    forall n | n in Names(outputs)
      ensures exists o :: o in t && o.name == n
    {
      assert n in (set m | m in order);
      var i :| 0 <= i < |order| && order[i] == n;
      assert t[i] in t;
    }
  }

  /** A sequence without repeats has as many elements as its set. */
  lemma {:induction false} DistinctCard(xs: seq<string>)
    requires forall i, j :: 0 <= i < j < |xs| ==> xs[i] != xs[j]
    ensures |(set x | x in xs)| == |xs|
  {
    if xs != [] {
      var init := xs[..|xs| - 1];
      DistinctCard(init);
      assert (set x | x in xs) == (set x | x in init) + {xs[|xs| - 1]};
      assert xs[|xs| - 1] !in (set x | x in init);
    }
  }

  /** The first focused output. */
  function FirstFocused(outputs: seq<SwayOutput>): (r: Option<SwayOutput>)
    ensures r.Some? ==> r.value in outputs && r.value.focused
    ensures r.None? <==> forall o :: o in outputs ==> !o.focused
  {
    if outputs == [] then None
    else if outputs[0].focused then Some(outputs[0])
    else
      assert forall o :: o in outputs ==> o == outputs[0] || o in outputs[1..];
      FirstFocused(outputs[1..])
  }

  /** The output the max-resolution routines of both backends work on: the first one with the
      screen's name, or the first focused one when no screen is named. */
  function MaxTarget(outputs: seq<SwayOutput>, screen: Option<string>): (r: Option<SwayOutput>)
    ensures screen.Some? ==> (r.Some? <==> FilterOutputs(outputs, screen) != [])
    ensures screen.Some? && r.Some? ==> r.value == FilterOutputs(outputs, screen)[0]
    ensures screen.None? ==> r == FirstFocused(outputs)
  {
    if screen.Some? then
      var passing := FilterOutputs(outputs, screen);
      if passing == [] then None else Some(passing[0])
    else FirstFocused(outputs)
  }

  /** The identifier of the first input of type "touch". */
  function FirstTouch(inputs: seq<SwayInput>): (r: Option<string>)
    ensures r.Some? ==> exists d :: d in inputs && d.inputType == "touch" && d.identifier == r.value
    ensures r.None? <==> forall d :: d in inputs ==> d.inputType != "touch"
  {
    if inputs == [] then None
    else if inputs[0].inputType == "touch" then Some(inputs[0].identifier)
    else
      assert forall d :: d in inputs ==> d == inputs[0] || d in inputs[1..];
      FirstTouch(inputs[1..])
  }

  /** The command that maps a touchscreen to an output. */
  function TouchCommand(touch: string, output: string): string {
    "input " + touch + " map_to_output " + output
  }

  // ---------------------------------------------------------------------
  // A loop that sends one command per output and stops at the first
  // failure (the mode and rotation loops of both backends)
  // ---------------------------------------------------------------------

  /** A command that did not go through: the output it was for and the
      reply. */
  datatype Failure = Failure(output: string, reply: CommandReply)

  /** How far such a loop got: the commands sent, whether one of them went
      through, and the failure that stopped it. */
  datatype Progress = Progress(sent: seq<string>, applied: bool, failure: Option<Failure>)

  /** The loop over `targets`: `step(o)` is the command for output `o`, or
      None when `o` is skipped; the loop stops at the first command that
      does not go through. */
  function Run(targets: seq<SwayOutput>, step: SwayOutput -> Option<string>, reply: string -> CommandReply): (p: Progress)
    ensures p.failure.Some? ==> !p.failure.value.reply.Applied?
    decreases |targets|
  {
    if targets == [] then Progress([], false, None)
    else
      var p := Run(targets[..|targets| - 1], step, reply);
      var o := targets[|targets| - 1];
      if p.failure.Some? || step(o).None? then p
      else
        var c := step(o).value;
        if reply(c).Applied? then Progress(p.sent + [c], true, None)
        else Progress(p.sent + [c], p.applied, Some(Failure(o.name, reply(c))))
  }

  /** Once a command has failed, no later output is looked at. */
  lemma {:induction false} RunStops(targets: seq<SwayOutput>, k: nat, step: SwayOutput -> Option<string>, reply: string -> CommandReply)
    requires k <= |targets|
    requires Run(targets[..k], step, reply).failure.Some?
    ensures Run(targets, step, reply) == Run(targets[..k], step, reply)
    decreases |targets| - k
  {
    if k < |targets| {
      assert targets[..k + 1][..k] == targets[..k];
      RunStops(targets, k + 1, step, reply);
    } else {
      assert targets[..k] == targets;
    }
  }

  /** Only outputs with a command cause a send, one command each, in
      order. */
  lemma {:induction false} RunSendsSteps(targets: seq<SwayOutput>, step: SwayOutput -> Option<string>, reply: string -> CommandReply)
    ensures var p := Run(targets, step, reply);
      forall c :: c in p.sent ==> exists o :: o in targets && step(o) == Some(c)
    ensures |Run(targets, step, reply).sent| <= |targets|
    decreases |targets|
  {
    if targets != [] {
      var init := targets[..|targets| - 1];
      RunSendsSteps(init, step, reply);
      assert forall o :: o in init ==> o in targets;
    }
  }

  /** When no output has a command, nothing is sent and nothing applied. */
  lemma {:induction false} RunNothing(targets: seq<SwayOutput>, step: SwayOutput -> Option<string>, reply: string -> CommandReply)
    requires forall o :: o in targets ==> step(o).None?
    ensures Run(targets, step, reply) == Progress([], false, None)
    decreases |targets|
  {
    if targets != [] {
      var init := targets[..|targets| - 1];
      assert forall o :: o in init ==> o in targets;
      assert targets[|targets| - 1] in targets;
      RunNothing(init, step, reply);
    }
  }

  /** When every command goes through, something is applied exactly when
      some output has a command. */
  lemma {:induction false} RunAllApplied(targets: seq<SwayOutput>, step: SwayOutput -> Option<string>, reply: string -> CommandReply)
    requires forall o :: o in targets && step(o).Some? ==> reply(step(o).value).Applied?
    ensures Run(targets, step, reply).failure.None?
    ensures Run(targets, step, reply).applied <==> exists o :: o in targets && step(o).Some?
    decreases |targets|
  {
    if targets != [] {
      var init := targets[..|targets| - 1];
      var last := targets[|targets| - 1];
      assert forall o :: o in init ==> o in targets;
      assert last in targets;
      RunAllApplied(init, step, reply);
      assert forall o :: o in targets ==> o in init || o == last;
    }
  }

  /** Two step functions that agree on the targets give the same loop. */
  lemma {:induction false} RunSameSteps(targets: seq<SwayOutput>, s1: SwayOutput -> Option<string>, s2: SwayOutput -> Option<string>, reply: string -> CommandReply)
    requires forall o :: o in targets ==> s1(o) == s2(o)
    ensures Run(targets, s1, reply) == Run(targets, s2, reply)
    decreases |targets|
  {
    if targets != [] {
      var init := targets[..|targets| - 1];
      assert forall o :: o in init ==> o in targets;
      assert targets[|targets| - 1] in targets;
      RunSameSteps(init, s1, s2, reply);
    }
  }

  /** When every target has a command and every command goes through,
      each target gets its command, in order. */
  lemma {:induction false} RunEverySent(targets: seq<SwayOutput>, step: SwayOutput -> Option<string>, reply: string -> CommandReply)
    requires forall o :: o in targets ==> step(o).Some? && reply(step(o).value).Applied?
    ensures Run(targets, step, reply).failure.None?
    ensures Run(targets, step, reply).sent == seq(|targets|, i requires 0 <= i < |targets| => step(targets[i]).value)
    decreases |targets|
  {
    if targets != [] {
      var init := targets[..|targets| - 1];
      assert forall o :: o in init ==> o in targets;
      assert targets[|targets| - 1] in targets;
      RunEverySent(init, step, reply);
    }
  }

  /** The loop itself. */
  method RunAll(conn: SwayConnection, targets: seq<SwayOutput>, step: SwayOutput -> Option<string>) returns (p: Progress)
    modifies conn
    ensures p == Run(targets, step, conn.reply)
    ensures conn.sent == old(conn.sent) + p.sent
  {
    p := Progress([], false, None);
    var i := 0;
    while i < |targets|
      invariant 0 <= i <= |targets|
      invariant p == Run(targets[..i], step, conn.reply)
      invariant p.failure.None?
      invariant conn.sent == old(conn.sent) + p.sent
    {
      assert targets[..i + 1][..i] == targets[..i];
      var o := targets[i];
      match step(o) {
        case None =>
        case Some(c) =>
          var answer := conn.RunCommand(c);
          if !answer.Applied? {
            p := Progress(p.sent + [c], p.applied, Some(Failure(o.name, answer)));
            RunStops(targets, i + 1, step, conn.reply);
            return;
          }
          p := Progress(p.sent + [c], true, None);
      }
      i := i + 1;
    }
    assert targets[..i] == targets;
  }
}
