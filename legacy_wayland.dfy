/** The Wayland functions of the first screen layer (src/screen/wayland.rs):
    the texts the listing functions build with `push_str` and the commands
    the setters send over a sway connection.  Their errors are boxed
    messages, modelled as the message text. */
module LegacyWayland {
  import opened Wrappers
  import opened Text
  import opened Sway
  import DaemonWayland
  import Backend

  // ---------------------------------------------------------------------
  // wayland_list_modes and wayland_list_outputs
  // ---------------------------------------------------------------------

  /** A mode as `{w}x{h}@{r}`, the refresh through `format_refresh`. */
  function ModeText(m: SwayMode): string {
    IntToString(m.width) + "x" + IntToString(m.height) + "@" + FormatRefresh(m.refresh)
  }

  /** One line of the mode listing: `{w}x{h}@{r}:{name} {w}x{h}@{r}Hz`. */
  function ModeLine(output: string, m: SwayMode): string {
    ModeText(m) + ":" + output + " " + ModeText(m) + "Hz"
  }

  /** The lines of one output, one per mode. */
  function ModeLines(o: SwayOutput): (r: seq<string>)
    ensures |r| == |o.modes|
    ensures forall i :: 0 <= i < |r| ==> r[i] == ModeLine(o.name, o.modes[i])
  {
    seq(|o.modes|, i requires 0 <= i < |o.modes| => ModeLine(o.name, o.modes[i]))
  }

  /** The lines of each output. */
  function LinesPerOutput(outputs: seq<SwayOutput>): (r: seq<seq<string>>)
    ensures |r| == |outputs|
    ensures forall i :: 0 <= i < |r| ==> r[i] == ModeLines(outputs[i])
  {
    seq(|outputs|, i requires 0 <= i < |outputs| => ModeLines(outputs[i]))
  }

  /** Each output's lines joined into a block. */
  function Blocks(groups: seq<seq<string>>): (r: seq<string>)
    ensures |r| == |groups|
    ensures forall i :: 0 <= i < |r| ==> r[i] == Join(groups[i], "\n")
  {
    seq(|groups|, i requires 0 <= i < |groups| => Join(groups[i], "\n"))
  }

  /** The listing: a newline between the modes of an output and between
      outputs, none at the end. */
  function ModeListing(outputs: seq<SwayOutput>): string {
    Join(Blocks(LinesPerOutput(outputs)), "\n")
  }

  /** All the lines, one group after another. */
  function Flatten(groups: seq<seq<string>>): seq<string> {
    if groups == [] then [] else groups[0] + Flatten(groups[1..])
  }

  /** Joining the joined blocks is joining all the lines, when no block is
      empty. */
  lemma {:induction false} JoinFlatten(groups: seq<seq<string>>)
    requires forall i :: 0 <= i < |groups| ==> groups[i] != []
    ensures Join(Blocks(groups), "\n") == Join(Flatten(groups), "\n")
    ensures groups != [] ==> Flatten(groups) != []
    decreases |groups|
  {
    if groups != [] {
      var rest := groups[1..];
      JoinFlatten(rest);
      assert Blocks(groups)[1..] == Blocks(rest);
      if rest != [] {
        JoinAppend(groups[0], Flatten(rest), "\n");
      } else {
        assert Flatten(groups) == groups[0];
      }
    }
  }

  /** The inner loop of `wayland_list_modes`: an output's mode lines, a
      newline after each but the last. */
  method PushModeLines(text: string, output: SwayOutput) returns (t: string)
    ensures t == text + Join(ModeLines(output), "\n")
  {
    ghost var lines := ModeLines(output);
    t := text;
    var mi := 0;
    while mi < |output.modes|
      invariant 0 <= mi <= |output.modes|
      invariant mi < |output.modes| ==> t == text + Lead(lines[..mi], "\n")
      invariant mi == |output.modes| ==> t == text + Join(lines, "\n")
    {
      var line := ModeLine(output.name, output.modes[mi]);
      assert line == lines[mi];
      LeadStep(text, lines, mi, "\n");
      t := t + line;
      if mi < |output.modes| - 1 {
        t := t + "\n";
      }
      mi := mi + 1;
    }
  }

  /** `wayland_list_modes`: the loop over the filtered outputs, with a
      newline after every output but the last. */
  method ListModes(conn: SwayConnection, screen: Option<string>) returns (text: string)
    ensures text == ModeListing(FilterOutputs(conn.outputs, screen))
  {
    var filtered := FilterOutputs(conn.outputs, screen);
    ghost var blocks := Blocks(LinesPerOutput(filtered));
    text := "";
    var oi := 0;
    while oi < |filtered|
      invariant 0 <= oi <= |filtered|
      invariant oi < |filtered| ==> text == Lead(blocks[..oi], "\n")
      invariant oi == |filtered| ==> text == Join(blocks, "\n")
    {
      text := PushModeLines(text, filtered[oi]);
      JoinPrefix(blocks, oi, "\n");
      if oi < |filtered| - 1 {
        text := text + "\n";
      } else {
        assert blocks[..oi + 1] == blocks;
      }
      oi := oi + 1;
    }
  }

  /** When every output listed has at least one mode and no output name
      holds a newline, the listing splits back, line by line, into the
      mode lines of the outputs in order. */
  lemma ListModesLines(outputs: seq<SwayOutput>)
    requires outputs != []
    requires forall o :: o in outputs ==> o.modes != [] && Avoids(o.name, {'\n'})
    ensures Split(ModeListing(outputs), {'\n'}) == Flatten(LinesPerOutput(outputs))
  {
    var groups := LinesPerOutput(outputs);
    forall i | 0 <= i < |groups|
      ensures groups[i] != []
    {
      assert outputs[i] in outputs;
    }
    JoinFlatten(groups);
    FlattenAvoids(groups, outputs);
    SplitJoin(Flatten(groups), '\n');
  }

  /** No mode line holds a newline. */
  lemma FlattenAvoids(groups: seq<seq<string>>, outputs: seq<SwayOutput>)
    requires groups == LinesPerOutput(outputs)
    requires forall o :: o in outputs ==> Avoids(o.name, {'\n'})
    ensures forall p :: p in Flatten(groups) ==> Avoids(p, {'\n'})
    decreases |groups|
  {
    if groups != [] {
      assert outputs[0] in outputs;
      forall m | m in outputs[0].modes
        ensures Avoids(ModeLine(outputs[0].name, m), {'\n'})
      {
        ModeLineAvoids(outputs[0].name, m);
      }
      assert groups[1..] == LinesPerOutput(outputs[1..]);
      assert forall o :: o in outputs[1..] ==> o in outputs;
      FlattenAvoids(groups[1..], outputs[1..]);
    }
  }

  lemma IntTextAvoids(i: int)
    ensures Avoids(IntToString(i), {'\n'})
  {
    assert AllDigits(NatToString(if i < 0 then -i else i));
  }

  lemma ModeTextAvoids(m: SwayMode)
    ensures Avoids(ModeText(m), {'\n'})
  {
    IntTextAvoids(m.width);
    IntTextAvoids(m.height);
    IntTextAvoids(m.refresh);
    if m.refresh >= 1000 {
      IntTextAvoids(m.refresh / 1000);
    }
  }

  lemma ModeLineAvoids(name: string, m: SwayMode)
    requires Avoids(name, {'\n'})
    ensures Avoids(ModeLine(name, m), {'\n'})
  {
    ModeTextAvoids(m);
  }

  /** The output names, in order. */
  function OutputNames(outputs: seq<SwayOutput>): (r: seq<string>)
    ensures |r| == |outputs|
    ensures forall i :: 0 <= i < |r| ==> r[i] == outputs[i].name
  {
    seq(|outputs|, i requires 0 <= i < |outputs| => outputs[i].name)
  }

  /** `wayland_list_outputs`: the names with a newline after every name but
      the last. */
  method ListOutputs(conn: SwayConnection) returns (text: string)
    ensures text == Join(OutputNames(conn.outputs), "\n")
  {
    ghost var names := OutputNames(conn.outputs);
    text := "";
    var i := 0;
    while i < |conn.outputs|
      invariant 0 <= i <= |conn.outputs|
      invariant i < |conn.outputs| ==> text == Lead(names[..i], "\n")
      invariant i == |conn.outputs| ==> text == Join(names, "\n")
    {
      JoinPrefix(names, i, "\n");
      text := text + conn.outputs[i].name;
      if i < |conn.outputs| - 1 {
        text := text + "\n";
      } else {
        assert names[..i + 1] == names;
      }
      i := i + 1;
    }
  }

  /** With names free of newlines, the listing splits back into the names. */
  lemma ListOutputsLines(outputs: seq<SwayOutput>)
    requires outputs != []
    requires forall o :: o in outputs ==> Avoids(o.name, {'\n'})
    ensures Split(Join(OutputNames(outputs), "\n"), {'\n'}) == OutputNames(outputs)
  {
    forall p | p in OutputNames(outputs)
      ensures Avoids(p, {'\n'})
    {
      var i :| 0 <= i < |outputs| && OutputNames(outputs)[i] == p;
      assert outputs[i] in outputs;
    }
    SplitJoin(OutputNames(outputs), '\n');
  }

  // ---------------------------------------------------------------------
  // wayland_current_mode and wayland_current_output
  // ---------------------------------------------------------------------

  const NO_CURRENT_MODE: string := "No current mode found."
  const NO_CURRENT_OUTPUT: string := "No current output found."

  /** What one output adds to the current-mode text. */
  function ModePieces(outputs: seq<SwayOutput>): (r: seq<string>)
    ensures |r| == |outputs|
    ensures forall i :: 0 <= i < |r| ==>
      r[i] == if outputs[i].currentMode.Some? then ModeText(outputs[i].currentMode.value) else ""
  {
    seq(|outputs|, i requires 0 <= i < |outputs| =>
      if outputs[i].currentMode.Some? then ModeText(outputs[i].currentMode.value) else "")
  }

  /** The text shown when `gathered` is what the loop pushed. */
  function OrFallback(gathered: string, fallback: string): string {
    if gathered == [] then fallback else gathered
  }

  /** `wayland_current_mode`: the current modes of the filtered outputs run
      together with no separator; the fallback text when there are none. */
  method CurrentMode(conn: SwayConnection, screen: Option<string>) returns (text: string)
    ensures text == OrFallback(Concat(ModePieces(FilterOutputs(conn.outputs, screen))), NO_CURRENT_MODE)
  {
    var filtered := FilterOutputs(conn.outputs, screen);
    ghost var pieces := ModePieces(filtered);
    text := "";
    var i := 0;
    while i < |filtered|
      invariant 0 <= i <= |filtered|
      invariant text == Concat(pieces[..i])
    {
      assert pieces[..i + 1][..i] == pieces[..i];
      var output := filtered[i];
      if output.currentMode.Some? {
        text := text + ModeText(output.currentMode.value);
      }
      i := i + 1;
    }
    assert pieces[..i] == pieces;
    if text == [] {
      text := NO_CURRENT_MODE;
    }
  }

  /** The fallback appears exactly when no filtered output has a current
      mode, since a mode text is never empty. */
  lemma CurrentModeFallback(outputs: seq<SwayOutput>)
    ensures Concat(ModePieces(outputs)) == [] <==> forall o :: o in outputs ==> o.currentMode.None?
  {
    var pieces := ModePieces(outputs);
    ConcatEmpty(pieces);
    if Concat(pieces) == [] {
      forall o | o in outputs
        ensures o.currentMode.None?
      {
        var i :| 0 <= i < |outputs| && outputs[i] == o;
        assert pieces[i] == [];
      }
    }
  }

  /** Two outputs with current modes run their modes together:
      "1920x1080@601280x720@60" rather than two lines. */
  lemma CurrentModesRunTogether(a: SwayOutput, b: SwayOutput)
    requires a.currentMode.Some? && b.currentMode.Some?
    ensures Concat(ModePieces([a, b])) == ModeText(a.currentMode.value) + ModeText(b.currentMode.value)
  {
    var pieces := ModePieces([a, b]);
    assert pieces[..1][..0] == [];
    assert Concat(pieces[..1]) == pieces[0];
    assert pieces[..|pieces| - 1] == pieces[..1];
  }

  /** What one output adds to the current-output text. */
  function NamePieces(outputs: seq<SwayOutput>): (r: seq<string>)
    ensures |r| == |outputs|
    ensures forall i :: 0 <= i < |r| ==> r[i] == if outputs[i].currentMode.Some? then outputs[i].name else ""
  {
    seq(|outputs|, i requires 0 <= i < |outputs| => if outputs[i].currentMode.Some? then outputs[i].name else "")
  }

  /** `wayland_current_output`: the names of every output with a current
      mode, run together; the fallback text when that is empty. */
  method CurrentOutput(conn: SwayConnection) returns (text: string)
    ensures text == OrFallback(Concat(NamePieces(conn.outputs)), NO_CURRENT_OUTPUT)
  {
    ghost var pieces := NamePieces(conn.outputs);
    text := "";
    var i := 0;
    while i < |conn.outputs|
      invariant 0 <= i <= |conn.outputs|
      invariant text == Concat(pieces[..i])
    {
      assert pieces[..i + 1][..i] == pieces[..i];
      var output := conn.outputs[i];
      if output.currentMode.Some? {
        text := text + output.name;
      }
      i := i + 1;
    }
    assert pieces[..i] == pieces;
    if text == [] {
      text := NO_CURRENT_OUTPUT;
    }
  }

  /** With non-empty names, the fallback appears exactly when no output has
      a current mode. */
  lemma CurrentOutputFallback(outputs: seq<SwayOutput>)
    requires forall o :: o in outputs ==> o.name != []
    ensures Concat(NamePieces(outputs)) == [] <==> forall o :: o in outputs ==> o.currentMode.None?
  {
    var pieces := NamePieces(outputs);
    ConcatEmpty(pieces);
    if Concat(pieces) == [] {
      forall o | o in outputs
        ensures o.currentMode.None?
      {
        var i :| 0 <= i < |outputs| && outputs[i] == o;
        assert pieces[i] == [];
      }
    } else {
      var i :| 0 <= i < |pieces| && pieces[i] != [];
      assert outputs[i] in outputs;
    }
  }

  // ---------------------------------------------------------------------
  // wayland_current_resolution and wayland_current_refresh
  // ---------------------------------------------------------------------

  const NO_CURRENT_RESOLUTION: string := "No current resolution found."
  const NO_CURRENT_REFRESH: string := "No current refresh rate found."

  /** A resolution as `{w}x{h}`. */
  function ResolutionText(m: SwayMode): string {
    IntToString(m.width) + "x" + IntToString(m.height)
  }

  /** A refresh rate through `format_refresh`. */
  function RefreshText(m: SwayMode): string {
    FormatRefresh(m.refresh)
  }

  /** What the loop pushes for each output as written: the rendered current
      mode, followed by a newline unless the output is the last one
      filtered, whether or not the last one has a current mode. */
  function LinePieces(outputs: seq<SwayOutput>, render: SwayMode -> string): (r: seq<string>)
    ensures |r| == |outputs|
  {
    seq(|outputs|, i requires 0 <= i < |outputs| =>
      if outputs[i].currentMode.None? then ""
      else render(outputs[i].currentMode.value) + (if i < |outputs| - 1 then "\n" else ""))
  }

  /** The loop both functions share. */
  method GatherLines(filtered: seq<SwayOutput>, render: SwayMode -> string, fallback: string) returns (text: string)
    ensures text == OrFallback(Concat(LinePieces(filtered, render)), fallback)
  {
    ghost var pieces := LinePieces(filtered, render);
    text := "";
    var i := 0;
    while i < |filtered|
      invariant 0 <= i <= |filtered|
      invariant text == Concat(pieces[..i])
    {
      assert pieces[..i + 1][..i] == pieces[..i];
      var output := filtered[i];
      if output.currentMode.Some? {
        text := text + render(output.currentMode.value);
        if i < |filtered| - 1 {
          text := text + "\n";
        }
      }
      i := i + 1;
    }
    assert pieces[..i] == pieces;
    if text == [] {
      text := fallback;
    }
  }

  /** `wayland_current_resolution`, as written. */
  method CurrentResolution(conn: SwayConnection, screen: Option<string>) returns (text: string)
    ensures text == OrFallback(Concat(LinePieces(FilterOutputs(conn.outputs, screen), ResolutionText)), NO_CURRENT_RESOLUTION)
  {
    text := GatherLines(FilterOutputs(conn.outputs, screen), ResolutionText, NO_CURRENT_RESOLUTION);
  }

  /** `wayland_current_refresh`, as written. */
  method CurrentRefresh(conn: SwayConnection, screen: Option<string>) returns (text: string)
    ensures text == OrFallback(Concat(LinePieces(FilterOutputs(conn.outputs, screen), RefreshText)), NO_CURRENT_REFRESH)
  {
    text := GatherLines(FilterOutputs(conn.outputs, screen), RefreshText, NO_CURRENT_REFRESH);
  }

  /** The lines evidently intended: one per output with a current mode,
      in order. */
  function Lines(outputs: seq<SwayOutput>, render: SwayMode -> string): (r: seq<string>)
    ensures |r| <= |outputs|
    decreases |outputs|
  {
    if outputs == [] then []
    else
      var k := |outputs| - 1;
      var init := Lines(outputs[..k], render);
      if outputs[k].currentMode.Some? then init + [render(outputs[k].currentMode.value)] else init
  }

  /** Every line is the rendering of some output's current mode. */
  lemma {:induction false} LinesFrom(outputs: seq<SwayOutput>, render: SwayMode -> string)
    ensures forall p :: p in Lines(outputs, render) ==>
      exists o :: o in outputs && o.currentMode.Some? && p == render(o.currentMode.value)
    decreases |outputs|
  {
    if outputs != [] {
      var k := |outputs| - 1;
      LinesFrom(outputs[..k], render);
      assert forall o :: o in outputs[..k] ==> o in outputs;
      assert outputs[k] in outputs;
    }
  }

  /** Corrected `current_resolution`/`current_refresh` text: the lines
      joined by newlines, so no newline is left at the end. */
  function LinesText(outputs: seq<SwayOutput>, render: SwayMode -> string): string {
    Join(Lines(outputs, render), "\n")
  }

  /** The corrected text splits back into exactly one resolution per output
      with a current mode. */
  lemma ResolutionLinesSplit(outputs: seq<SwayOutput>)
    requires Lines(outputs, ResolutionText) != []
    ensures Split(LinesText(outputs, ResolutionText), {'\n'}) == Lines(outputs, ResolutionText)
  {
    forall m ensures Avoids(ResolutionText(m), {'\n'}) {
      IntTextAvoids(m.width);
      IntTextAvoids(m.height);
    }
    LinesAvoid(outputs, ResolutionText);
    SplitJoin(Lines(outputs, ResolutionText), '\n');
  }

  lemma {:induction false} LinesAvoid(outputs: seq<SwayOutput>, render: SwayMode -> string)
    requires forall m :: Avoids(render(m), {'\n'})
    ensures forall p | p in Lines(outputs, render) :: Avoids(p, {'\n'})
    decreases |outputs|
  {
    if outputs != [] {
      LinesAvoid(outputs[..|outputs| - 1], render);
    }
  }

  /** The loop as written agrees with the corrected text exactly when it
      does not end on an output without a current mode: here, whenever the
      last filtered output has one. */
  lemma {:induction false} AsWrittenAgreesWhenLastHasMode(outputs: seq<SwayOutput>, render: SwayMode -> string)
    requires outputs != [] && outputs[|outputs| - 1].currentMode.Some?
    ensures Concat(LinePieces(outputs, render)) == LinesText(outputs, render)
  {
    var k := |outputs| - 1;
    var pieces := LinePieces(outputs, render);
    var before := Lines(outputs[..k], render);
    var x := render(outputs[k].currentMode.value);
    PiecesBeforeLast(outputs, render, k);
    assert pieces[..k] == pieces[..|pieces| - 1];
    assert Concat(pieces) == Lead(before, "\n") + x;
    assert Lines(outputs, render) == before + [x];
    if before == [] {
      assert Lines(outputs, render) == [x];
    } else {
      JoinSnoc(before, x, "\n");
    }
  }

  /** Before the last output every line the loop pushes ends in a newline. */
  lemma {:induction false} PiecesBeforeLast(outputs: seq<SwayOutput>, render: SwayMode -> string, j: nat)
    requires j < |outputs|
    ensures Concat(LinePieces(outputs, render)[..j]) == Lead(Lines(outputs[..j], render), "\n")
    decreases j
  {
    var pieces := LinePieces(outputs, render);
    if j > 0 {
      PiecesBeforeLast(outputs, render, j - 1);
      ConcatPrefix(pieces, j);
      LeadStepBeforeLast(outputs, render, j);
    } else {
      NoPieces(outputs, render);
    }
  }

  lemma NoPieces(outputs: seq<SwayOutput>, render: SwayMode -> string)
    ensures Concat(LinePieces(outputs, render)[..0]) == Lead(Lines(outputs[..0], render), "\n")
  {
    assert outputs[..0] == [];
    assert LinePieces(outputs, render)[..0] == [];
  }

  /** One output before the last adds its piece to the lead of the lines
      before it. */
  lemma LeadStepBeforeLast(outputs: seq<SwayOutput>, render: SwayMode -> string, j: nat)
    requires 0 < j < |outputs|
    ensures Lead(Lines(outputs[..j], render), "\n") ==
      Lead(Lines(outputs[..j - 1], render), "\n") + LinePieces(outputs, render)[j - 1]
  {
    var prefix := outputs[..j];
    assert prefix[..j - 1] == outputs[..j - 1];
    var before := Lines(outputs[..j - 1], render);
    if outputs[j - 1].currentMode.Some? {
      var x := render(outputs[j - 1].currentMode.value);
      assert Lines(prefix, render) == before + [x];
      LeadSnoc(before, x, "\n");
    } else {
      assert Lines(prefix, render) == before;
    }
  }

  /** The trailing newline: a screen with a current mode followed by one
      without leaves "1920x1080\n" where the corrected text is
      "1920x1080". */
  lemma TrailingNewline(a: SwayOutput, b: SwayOutput)
    requires a.currentMode == Some(SwayMode(1920, 1080, 60000)) && b.currentMode.None?
    ensures Concat(LinePieces([a, b], ResolutionText)) == "1920x1080\n"
    ensures LinesText([a, b], ResolutionText) == "1920x1080"
  {
    var r := ResolutionText(SwayMode(1920, 1080, 60000));
    assert NatToString(1920) == "1920";
    assert NatToString(1080) == "1080";
    assert r == "1920x1080";
    var pieces := LinePieces([a, b], ResolutionText);
    assert pieces[0] == r + "\n" && pieces[1] == "";
    assert pieces[..1][..0] == [];
    assert Concat(pieces[..1]) == pieces[0];
    assert pieces[..|pieces| - 1] == pieces[..1];
    var ab := [a, b];
    assert ab[..1][..0] == [];
    assert Lines(ab[..1], ResolutionText) == [r];
    assert ab[..|ab| - 1] == ab[..1];
    assert Lines(ab, ResolutionText) == [r];
  }

  // ---------------------------------------------------------------------
  // wayland_set_mode
  // ---------------------------------------------------------------------

  /** The error a failing command loop returns: a refused command is
      reported with the output's name after `what`; a request that could not
      be made is returned as it is. */
  function LoopError(f: Failure, what: string): string
    requires !f.reply.Applied?
  {
    match f.reply
    case Refused(e) => what + " '" + f.output + "': " + e
    case Broken(e) => e
  }

  /** `{w}x{h}@{r}Hz`. */
  function ModeSpec(width: I32, height: I32, vrefresh: I32): string {
    IntToString(width) + "x" + IntToString(height) + "@" + IntToString(vrefresh) + "Hz"
  }

  function ModeCommand(output: string, width: I32, height: I32, vrefresh: I32): string {
    "output " + output + " mode " + ModeSpec(width, height, vrefresh)
  }

  /** An output offers the mode when one of its modes has that width and
      height; the refresh is not compared. */
  predicate Offers(o: SwayOutput, width: I32, height: I32) {
    exists m :: m in o.modes && m.width == width && m.height == height
  }

  function ModeStep(width: I32, height: I32, vrefresh: I32): SwayOutput -> Option<string> {
    (o: SwayOutput) => if Offers(o, width, height) then Some(ModeCommand(o.name, width, height, vrefresh)) else None
  }

  const SET_MODE_FAILED: string := "Failed to set mode for output"

  function ScreenMissing(n: string): string {
    "Screen '" + n + "' not found"
  }

  function NothingApplied(width: I32, height: I32, vrefresh: I32): string {
    "Failed to set mode " + ModeSpec(width, height, vrefresh) + " for specified screen"
  }

  /** What `wayland_set_mode` returns. */
  function SetModeOutcome(outputs: seq<SwayOutput>, reply: string -> CommandReply, screen: Option<string>,
                          width: I32, height: I32, vrefresh: I32, order: seq<string>): Result<Unit, string>
    requires screen.None? ==> IsKeyOrder(order, outputs)
  {
    match Targets(outputs, screen, order)
    case None => Err(ScreenMissing(screen.value))
    case Some(targets) =>
      var p := Run(targets, ModeStep(width, height, vrefresh), reply);
      if p.failure.Some? then Err(LoopError(p.failure.value, SET_MODE_FAILED))
      else if !p.applied && screen.Some? then Err(NothingApplied(width, height, vrefresh))
      else Ok(Unit)
  }

  /** The commands `wayland_set_mode` sends. */
  function SetModeSent(outputs: seq<SwayOutput>, reply: string -> CommandReply, screen: Option<string>,
                       width: I32, height: I32, vrefresh: I32, order: seq<string>): seq<string>
    requires screen.None? ==> IsKeyOrder(order, outputs)
  {
    match Targets(outputs, screen, order)
    case None => []
    case Some(targets) => Run(targets, ModeStep(width, height, vrefresh), reply).sent
  }

  /** `wayland_set_mode`: `order` is the order the output map yields its
      values in. */
  method SetMode(conn: SwayConnection, screen: Option<string>, width: I32, height: I32, vrefresh: I32, order: seq<string>)
    returns (r: Result<Unit, string>)
    requires screen.None? ==> IsKeyOrder(order, conn.outputs)
    modifies conn
    ensures conn.sent == old(conn.sent) + SetModeSent(conn.outputs, conn.reply, screen, width, height, vrefresh, order)
    ensures r == SetModeOutcome(conn.outputs, conn.reply, screen, width, height, vrefresh, order)
  {
    var targets := Targets(conn.outputs, screen, order);
    if targets.None? {
      return Err(ScreenMissing(screen.value));
    }
    var p := RunAll(conn, targets.value, ModeStep(width, height, vrefresh));
    if p.failure.Some? {
      return Err(LoopError(p.failure.value, SET_MODE_FAILED));
    }
    if !p.applied && screen.Some? {
      return Err(NothingApplied(width, height, vrefresh));
    }
    r := Ok(Unit);
  }

  /** A named screen that is not there: refused, nothing sent. */
  lemma MissingScreen(outputs: seq<SwayOutput>, reply: string -> CommandReply, n: string,
                      width: I32, height: I32, vrefresh: I32, order: seq<string>)
    requires n !in Names(outputs)
    ensures SetModeOutcome(outputs, reply, Some(n), width, height, vrefresh, order) == Err(ScreenMissing(n))
    ensures SetModeSent(outputs, reply, Some(n), width, height, vrefresh, order) == []
  {
  }

  /** A named screen that does not offer the width and height: the
      "for specified screen" error, nothing sent. */
  lemma NamedScreenWithoutMode(outputs: seq<SwayOutput>, reply: string -> CommandReply, n: string,
                               width: I32, height: I32, vrefresh: I32, order: seq<string>)
    requires n in Names(outputs) && !Offers(PreprocessOutputs(outputs)[n], width, height)
    ensures SetModeOutcome(outputs, reply, Some(n), width, height, vrefresh, order) == Err(NothingApplied(width, height, vrefresh))
    ensures SetModeSent(outputs, reply, Some(n), width, height, vrefresh, order) == []
  {
    var t := [PreprocessOutputs(outputs)[n]];
    assert ModeStep(width, height, vrefresh)(t[0]).None?;
    RunNothing(t, ModeStep(width, height, vrefresh), reply);
  }

  /** For a mode whose values fit in `i32`, this function and the daemon's
      `set_mode` send the same commands, and succeed together. */
  lemma SameAsDaemon(outputs: seq<SwayOutput>, reply: string -> CommandReply, screen: Option<string>,
                     mode: Backend.ModeParams, order: seq<string>)
    requires screen.None? ==> IsKeyOrder(order, outputs)
    requires mode.width <= I32_MAX && mode.height <= I32_MAX && mode.refreshRate <= I32_MAX
    ensures SetModeSent(outputs, reply, screen, mode.width, mode.height, mode.refreshRate, order)
         == DaemonWayland.SetModeSent(outputs, reply, screen, mode, order)
    ensures SetModeOutcome(outputs, reply, screen, mode.width, mode.height, mode.refreshRate, order).Ok?
        <==> DaemonWayland.SetModeOutcome(outputs, reply, screen, mode, order).Ok?
  {
    var legacy := ModeStep(mode.width, mode.height, mode.refreshRate);
    var daemon := DaemonWayland.ModeStep(mode);
    assert AsI32(mode.width) == mode.width && AsI32(mode.height) == mode.height;
    forall o: SwayOutput
      ensures legacy(o) == daemon(o)
    {
      SameStep(o, mode);
    }
    var targets := Targets(outputs, screen, order);
    if targets.Some? {
      RunSameSteps(targets.value, legacy, daemon, reply);
    }
  }

  /** For one output, the step of both functions is the same. */
  lemma SameStep(o: SwayOutput, mode: Backend.ModeParams)
    requires mode.width <= I32_MAX && mode.height <= I32_MAX && mode.refreshRate <= I32_MAX
    ensures ModeStep(mode.width, mode.height, mode.refreshRate)(o) == DaemonWayland.ModeStep(mode)(o)
  {
    SameOffer(o, mode);
    SameCommand(o.name, mode);
  }

  lemma SameOffer(o: SwayOutput, mode: Backend.ModeParams)
    requires mode.width <= I32_MAX && mode.height <= I32_MAX
    ensures Offers(o, mode.width, mode.height) == DaemonWayland.HasMode(o, mode)
  {
    assert AsI32(mode.width) == mode.width && AsI32(mode.height) == mode.height;
  }

  lemma SameCommand(name: string, mode: Backend.ModeParams)
    requires mode.width <= I32_MAX && mode.height <= I32_MAX && mode.refreshRate <= I32_MAX
    ensures ModeCommand(name, mode.width, mode.height, mode.refreshRate) == DaemonWayland.ModeCommand(name, mode)
  {
    var w, h, r := NatToString(mode.width), NatToString(mode.height), NatToString(mode.refreshRate);
    assert ModeSpec(mode.width, mode.height, mode.refreshRate) == w + "x" + h + "@" + r + "Hz";
  }

  // ---------------------------------------------------------------------
  // wayland_set_output
  // ---------------------------------------------------------------------

  function OutputMissing(output: string): string {
    "Output '" + output + "' not found"
  }

  function EnableCommand(output: string): string {
    "output " + output + " enable"
  }

  /** `wayland_set_output`: an unknown output is refused before anything is
      sent; otherwise one enable command. */
  method SetOutput(conn: SwayConnection, output: string) returns (r: Result<Unit, string>)
    modifies conn
    ensures output !in Names(conn.outputs) ==> r == Err(OutputMissing(output)) && conn.sent == old(conn.sent)
    ensures output in Names(conn.outputs) ==>
      conn.sent == old(conn.sent) + [EnableCommand(output)]
      && r == match conn.reply(EnableCommand(output))
              case Applied => Ok(Unit)
              case Refused(e) => Err("Failed to set output: " + e)
              case Broken(e) => Err(e)
  {
    var found := false;
    var i := 0;
    while i < |conn.outputs|
      invariant 0 <= i <= |conn.outputs|
      invariant found <==> output in Names(conn.outputs[..i])
    {
      assert conn.outputs[..i + 1] == conn.outputs[..i] + [conn.outputs[i]];
      found := found || conn.outputs[i].name == output;
      i := i + 1;
    }
    assert conn.outputs[..i] == conn.outputs;
    if !found {
      return Err(OutputMissing(output));
    }
    var answer := conn.RunCommand(EnableCommand(output));
    match answer {
      case Applied => r := Ok(Unit);
      case Refused(e) => r := Err("Failed to set output: " + e);
      case Broken(e) => r := Err(e);
    }
  }

  // ---------------------------------------------------------------------
  // wayland_set_rotation
  // ---------------------------------------------------------------------

  const VALID_ROTATIONS: seq<string> := ["0", "90", "180", "270"]

  /** Rust's `{:?}` rendering of a list of strings free of quotes and
      backslashes: each one quoted, separated by ", ", in brackets. */
  function DebugList(items: seq<string>): string {
    "[" + DebugItems(items) + "]"
  }

  function DebugItems(items: seq<string>): string {
    if items == [] then ""
    else if |items| == 1 then "\"" + items[0] + "\""
    else "\"" + items[0] + "\", " + DebugItems(items[1..])
  }

  /** The refusal, which quotes the rotation and lists the valid strings
      in debug form. */
  function InvalidRotation(rotation: string): (msg: string)
    ensures msg == "Invalid rotation: '" + rotation + "'. Valid options are: " + DebugList(VALID_ROTATIONS)
  {
    var v := VALID_ROTATIONS;
    assert v[1..] == ["90", "180", "270"] && v[1..][1..] == ["180", "270"] && v[1..][1..][1..] == ["270"];
    assert DebugItems(v[1..][1..][1..]) == "\"270\"";
    assert DebugItems(v[1..][1..]) == "\"180\", \"270\"";
    assert DebugItems(v[1..]) == "\"90\", \"180\", \"270\"";
    "Invalid rotation: '" + rotation + "'. Valid options are: [\"0\", \"90\", \"180\", \"270\"]"
  }

  function RotationCommand(output: string, rotation: string): string {
    "output " + output + " transform " + rotation
  }

  function RotationStep(rotation: string): SwayOutput -> Option<string> {
    (o: SwayOutput) => Some(RotationCommand(o.name, rotation))
  }

  const SET_ROTATION_FAILED: string := "Failed to set rotation for output"

  /** `wayland_set_rotation`: a string other than the four valid ones is
      refused before anything is sent; otherwise every filtered output gets
      a transform command with the string as given, and the first failure
      ends it. */
  method SetRotation(conn: SwayConnection, screen: Option<string>, rotation: string) returns (r: Result<Unit, string>)
    modifies conn
    ensures rotation !in VALID_ROTATIONS ==> r == Err(InvalidRotation(rotation)) && conn.sent == old(conn.sent)
    ensures rotation in VALID_ROTATIONS ==>
      var p := Run(FilterOutputs(conn.outputs, screen), RotationStep(rotation), conn.reply);
      conn.sent == old(conn.sent) + p.sent
      && r == if p.failure.Some? then Err(LoopError(p.failure.value, SET_ROTATION_FAILED)) else Ok(Unit)
  {
    if rotation !in VALID_ROTATIONS {
      return Err(InvalidRotation(rotation));
    }
    var p := RunAll(conn, FilterOutputs(conn.outputs, screen), RotationStep(rotation));
    if p.failure.Some? {
      return Err(LoopError(p.failure.value, SET_ROTATION_FAILED));
    }
    r := Ok(Unit);
  }

  /** When every command goes through, each filtered output gets its
      transform command, in order. */
  lemma RotationSentToEach(outputs: seq<SwayOutput>, reply: string -> CommandReply, screen: Option<string>, rotation: string)
    requires forall o :: o in outputs && Passes(o, screen) ==> reply(RotationCommand(o.name, rotation)).Applied?
    ensures var filtered := FilterOutputs(outputs, screen);
      Run(filtered, RotationStep(rotation), reply)
        == Progress(seq(|filtered|, i requires 0 <= i < |filtered| => RotationCommand(filtered[i].name, rotation)),
                    filtered != [], None)
  {
    var filtered := FilterOutputs(outputs, screen);
    RunEverySent(filtered, RotationStep(rotation), reply);
    RunAllApplied(filtered, RotationStep(rotation), reply);
    if filtered != [] {
      assert filtered[0] in filtered;
    }
  }

  // ---------------------------------------------------------------------
  // wayland_min_to_max_resolution
  // ---------------------------------------------------------------------

  const DEFAULT_LIMIT: (I32, I32) := (1920, 1080)

  function LimitFormatError(res: string): string {
    "Invalid resolution format: '" + res + "'. Expected 'WxH'"
  }

  function NotPositive(w: int, h: int): string {
    "Resolution dimensions must be positive: " + IntToString(w) + "x" + IntToString(h)
  }

  /** The limit: 1920x1080 when none is given; otherwise exactly two
      'x'-separated `i32` values, both positive. */
  function ParseLimit(limit: Option<string>): (r: Result<(I32, I32), string>)
    ensures limit.None? ==> r == Ok(DEFAULT_LIMIT)
    ensures limit.Some? && |Split(limit.value, {'x'})| != 2 ==> r == Err(LimitFormatError(limit.value))
    ensures r.Ok? ==> r.value.0 > 0 && r.value.1 > 0
    ensures limit.Some? && r.Ok? ==>
      var parts := Split(limit.value, {'x'});
      |parts| == 2 && ParseI32(parts[0]) == Ok(r.value.0) && ParseI32(parts[1]) == Ok(r.value.1)
    ensures limit.Some? && |Split(limit.value, {'x'})| == 2 ==>
      var w, h := ParseI32(Split(limit.value, {'x'})[0]), ParseI32(Split(limit.value, {'x'})[1]);
      && (w.Err? ==> r == Err(SizeError("width", w.error)))
      && (w.Ok? && h.Err? ==> r == Err(SizeError("height", h.error)))
      && (w.Ok? && h.Ok? && (w.value <= 0 || h.value <= 0) ==> r == Err(NotPositive(w.value, h.value)))
      && (w.Ok? && h.Ok? && !(w.value <= 0 || h.value <= 0) ==> r == Ok((w.value, h.value)))
  {
    match limit
    case None => Ok(DEFAULT_LIMIT)
    case Some(res) =>
      var parts := Split(res, {'x'});
      if |parts| != 2 then Err(LimitFormatError(res))
      else ParseSize(parts[0], parts[1])
  }

  /** The error for a half of a limit that is not an integer. */
  function SizeError(what: string, k: IntErrorKind): string {
    "Failed to parse " + what + ": " + IntErrorMessage(k)
  }

  /** The two halves of a limit: the width, then the height, each parsed
      and both required to be positive. */
  function ParseSize(width: string, height: string): (r: Result<(I32, I32), string>)
    ensures r.Ok? ==> r.value.0 > 0 && r.value.1 > 0
    ensures r.Ok? ==> ParseI32(width) == Ok(r.value.0) && ParseI32(height) == Ok(r.value.1)
  {
    match ParseI32(width)
    case Err(k) => Err(SizeError("width", k))
    case Ok(w) =>
      match ParseI32(height)
      case Err(k) => Err(SizeError("height", k))
      case Ok(h) =>
        if w <= 0 || h <= 0 then Err(NotPositive(w, h)) else Ok((w, h))
  }

  /** A limit written `{w}x{h}` with both values positive is read back. */
  lemma ParseLimitText(w: nat, h: nat)
    requires 0 < w <= I32_MAX && 0 < h <= I32_MAX
    ensures ParseLimit(Some(NatToString(w) + "x" + NatToString(h))) == Ok((w, h))
  {
    var sw, sh := NatToString(w), NatToString(h);
    assert Avoids(sw, {'x'}) && Avoids(sh, {'x'});
    ParseNatToString(w, true, I32_MIN, I32_MAX);
    ParseNatToString(h, true, I32_MIN, I32_MAX);
    LimitOfPieces(sw, sh, w, h);
  }

  /** Two 'x'-free pieces that read as positive `i32` values make that
      limit. */
  lemma LimitOfPieces(a: string, b: string, w: int, h: int)
    requires Avoids(a, {'x'}) && Avoids(b, {'x'})
    requires ParseI32(a) == Ok(w) && ParseI32(b) == Ok(h) && w > 0 && h > 0
    ensures ParseLimit(Some(a + "x" + b)) == Ok((w, h))
  {
    assert a + "x" + b == a + ['x'] + b;
    SplitAvoiding(b, {'x'});
    SplitConcat(a, 'x', b, {'x'});
  }

  /** A negative width parses as an `i32` and is then refused as not
      positive. */
  lemma NegativeLimitRefused()
    ensures ParseLimit(Some("-5x10")) == Err(NotPositive(-5, 10))
  {
    var s := "-5x10";
    assert s == "-5" + ['x'] + "10";
    assert Avoids("-5", {'x'});
    SplitConcat("-5", 'x', "10", {'x'});
    SplitAvoiding("10", {'x'});
    assert Split(s, {'x'}) == ["-5", "10"];
    NegativeWidth();
  }

  lemma NegativeWidth()
    ensures ParseSize("-5", "10") == Err(NotPositive(-5, 10))
  {
    assert ParseDigits("5", 0, false, I32_MIN, I32_MAX) == ParseDigits("", -5, false, I32_MIN, I32_MAX);
    assert ParseI32("-5") == Ok(-5);
    assert ParseDigits("10", 0, true, I32_MIN, I32_MAX) == ParseDigits("0", 1, true, I32_MIN, I32_MAX);
    assert ParseI32("10") == Ok(10);
  }

  predicate Fits(m: SwayMode, limit: (I32, I32)) {
    m.width <= limit.0 && m.height <= limit.1
  }

  /** `width * height` in `i32`, wrapping as release builds do. */
  function Area(m: SwayMode): I32 {
    AsI32((m.width * m.height) % (U32_MAX + 1))
  }

  /** The best-mode loop: the index of a fitting mode of largest area,
      replaced only by a strictly larger one, so the first such mode on
      ties. */
  function BestMode(modes: seq<SwayMode>, limit: (I32, I32)): (r: Option<nat>)
    ensures r.None? <==> forall i :: 0 <= i < |modes| ==> !Fits(modes[i], limit)
    ensures r.Some? ==> r.value < |modes| && Fits(modes[r.value], limit)
    ensures r.Some? ==> forall i :: 0 <= i < |modes| && Fits(modes[i], limit) ==> Area(modes[i]) <= Area(modes[r.value])
    ensures r.Some? ==> forall i :: 0 <= i < r.value && Fits(modes[i], limit) ==> Area(modes[i]) < Area(modes[r.value])
    decreases |modes|
  {
    if modes == [] then None
    else
      var k := |modes| - 1;
      var b := BestMode(modes[..k], limit);
      assert forall i :: 0 <= i < k ==> modes[..k][i] == modes[i];
      if Fits(modes[k], limit) && (b.None? || Area(modes[k]) > Area(modes[b.value])) then Some(k)
      else b
  }

  /** When two fitting modes have the same largest area, the first is kept. */
  lemma TieGoesToFirst(a: SwayMode, b: SwayMode, limit: (I32, I32))
    requires Fits(a, limit) && Fits(b, limit) && Area(a) == Area(b)
    ensures BestMode([a, b], limit) == Some(0)
  {
    assert [a, b][..1] == [a];
    assert [a][..0] == [];
  }

  /** On the same two equal-area modes, within a limit both functions
      accept, this function keeps the first and the daemon's keeps the
      last. */
  lemma TieBreaksDiffer(a: SwayMode, b: SwayMode)
    requires 0 < a.width <= 1920 && 0 < a.height <= 1080
    requires b.width == a.height && b.height == a.width && a.width <= 1080
    ensures BestMode([a, b], DEFAULT_LIMIT) == Some(0)
    ensures DaemonWayland.BestMode([a, b], DaemonWayland.DEFAULT_LIMIT) == Some(1)
  {
    assert a.width * a.height == b.width * b.height;
    TieGoesToFirst(a, b, DEFAULT_LIMIT);
    DaemonWayland.TieGoesToLast(a, b, DaemonWayland.DEFAULT_LIMIT);
  }

  /** The command that sets the best mode: the refresh through
      `format_refresh`, and no unit. */
  function MaxCommand(output: string, m: SwayMode): string {
    "output " + output + " mode " + IntToString(m.width) + "x" + IntToString(m.height) + "@" + FormatRefresh(m.refresh)
  }

  /** The command sent, if any: none without a target, without a current
      mode, when the current mode already fits, or when no mode fits. */
  function MaxResolutionCommand(outputs: seq<SwayOutput>, screen: Option<string>, limit: (I32, I32)): Option<string> {
    match MaxTarget(outputs, screen)
    case None => None
    case Some(o) =>
      if o.currentMode.None? || Fits(o.currentMode.value, limit) then None
      else
        match BestMode(o.modes, limit)
        case None => None
        case Some(i) => Some(MaxCommand(o.name, o.modes[i]))
  }

  const SET_RESOLUTION_FAILED: string := "Failed to set resolution for output"

  /** What `wayland_min_to_max_resolution` returns: the limit's error, or
      the refusal of the one command it sent, or success. */
  function MinToMaxOutcome(outputs: seq<SwayOutput>, reply: string -> CommandReply, screen: Option<string>,
                           limit: Option<string>): (r: Result<Unit, string>)
    ensures ParseLimit(limit).Err? ==> r == Err(ParseLimit(limit).error)
    ensures r.Ok? <==>
              ParseLimit(limit).Ok? &&
              (MaxResolutionCommand(outputs, screen, ParseLimit(limit).value).None?
               || reply(MaxResolutionCommand(outputs, screen, ParseLimit(limit).value).value).Applied?)
    ensures ParseLimit(limit).Ok? && MaxResolutionCommand(outputs, screen, ParseLimit(limit).value).Some? ==>
      var c := MaxResolutionCommand(outputs, screen, ParseLimit(limit).value).value;
      reply(c).Refused? ==>
        MaxTarget(outputs, screen).Some? &&
        r == Err(SET_RESOLUTION_FAILED + " '" + MaxTarget(outputs, screen).value.name + "': " + reply(c).error)
  {
    match ParseLimit(limit)
    case Err(e) => Err(e)
    case Ok(l) =>
      match MaxResolutionCommand(outputs, screen, l)
      case None => Ok(Unit)
      case Some(c) =>
        if reply(c).Applied? then Ok(Unit)
        else Err(LoopError(Failure(MaxTarget(outputs, screen).value.name, reply(c)), SET_RESOLUTION_FAILED))
  }

  /** The commands it sends: at most one, and none when the limit is
      refused. */
  function MinToMaxSent(outputs: seq<SwayOutput>, screen: Option<string>, limit: Option<string>): (sent: seq<string>)
    ensures |sent| <= 1
    ensures ParseLimit(limit).Err? ==> sent == []
  {
    match ParseLimit(limit)
    case Err(_) => []
    case Ok(l) =>
      match MaxResolutionCommand(outputs, screen, l)
      case None => []
      case Some(c) => [c]
  }

  /** `wayland_min_to_max_resolution`: the limit is checked first; then at
      most one command is sent. */
  method MinToMaxResolution(conn: SwayConnection, screen: Option<string>, limit: Option<string>)
    returns (r: Result<Unit, string>)
    modifies conn
    ensures conn.sent == old(conn.sent) + MinToMaxSent(conn.outputs, screen, limit)
    ensures r == MinToMaxOutcome(conn.outputs, conn.reply, screen, limit)
  {
    var parsed := ParseLimit(limit);
    if parsed.Err? {
      return Err(parsed.error);
    }
    var command := MaxResolutionCommand(conn.outputs, screen, parsed.value);
    if command.None? {
      return Ok(Unit);
    }
    var answer := conn.RunCommand(command.value);
    if !answer.Applied? {
      var target := MaxTarget(conn.outputs, screen).value;
      return Err(LoopError(Failure(target.name, answer), SET_RESOLUTION_FAILED));
    }
    r := Ok(Unit);
  }

  /** A target already within the limit is left alone. */
  lemma FittingModeKept(outputs: seq<SwayOutput>, screen: Option<string>, limit: (I32, I32))
    requires MaxTarget(outputs, screen).Some?
    requires var o := MaxTarget(outputs, screen).value; o.currentMode.Some? && Fits(o.currentMode.value, limit)
    ensures MaxResolutionCommand(outputs, screen, limit).None?
  {
  }

  // ---------------------------------------------------------------------
  // wayland_map_touch_screen
  // ---------------------------------------------------------------------

  const MAP_FAILED: string := "Failed to map touchscreen to output"

  const NO_TOUCHSCREEN: string := "No touchscreen device found"
  const NO_FOCUSED_OUTPUT: string := "No focused output found"

  /** What `wayland_map_touch_screen` returns: the first touch device is
      mapped to the first focused output; a missing device or output is
      refused, checked in that order. */
  function TouchOutcome(inputs: seq<SwayInput>, outputs: seq<SwayOutput>, reply: string -> CommandReply): (r: Result<Unit, string>)
    ensures FirstTouch(inputs).None? ==> r == Err(NO_TOUCHSCREEN)
    ensures FirstTouch(inputs).Some? && FirstFocused(outputs).None? ==> r == Err(NO_FOCUSED_OUTPUT)
    ensures r.Ok? <==>
              FirstTouch(inputs).Some? && FirstFocused(outputs).Some?
              && reply(TouchCommand(FirstTouch(inputs).value, FirstFocused(outputs).value.name)).Applied?
    ensures FirstTouch(inputs).Some? && FirstFocused(outputs).Some? ==>
      var name := FirstFocused(outputs).value.name;
      var c := TouchCommand(FirstTouch(inputs).value, name);
      reply(c).Refused? ==> r == Err(MAP_FAILED + " '" + name + "': " + reply(c).error)
  {
    match FirstTouch(inputs)
    case None => Err(NO_TOUCHSCREEN)
    case Some(touch) =>
      match FirstFocused(outputs)
      case None => Err(NO_FOCUSED_OUTPUT)
      case Some(o) =>
        var c := TouchCommand(touch, o.name);
        if reply(c).Applied? then Ok(Unit) else Err(LoopError(Failure(o.name, reply(c)), MAP_FAILED))
  }

  /** The commands it sends: the one mapping command, when both a touch
      device and a focused output exist. */
  function TouchSent(inputs: seq<SwayInput>, outputs: seq<SwayOutput>): (sent: seq<string>)
    ensures sent != [] <==> FirstTouch(inputs).Some? && FirstFocused(outputs).Some?
    ensures sent != [] ==> sent == [TouchCommand(FirstTouch(inputs).value, FirstFocused(outputs).value.name)]
  {
    if FirstTouch(inputs).Some? && FirstFocused(outputs).Some? then
      [TouchCommand(FirstTouch(inputs).value, FirstFocused(outputs).value.name)]
    else []
  }

  /** `wayland_map_touch_screen`. */
  method MapTouchScreen(conn: SwayConnection) returns (r: Result<Unit, string>)
    modifies conn
    ensures conn.sent == old(conn.sent) + TouchSent(conn.inputs, conn.outputs)
    ensures r == TouchOutcome(conn.inputs, conn.outputs, conn.reply)
  {
    var touch := FirstTouch(conn.inputs);
    if touch.None? {
      return Err(NO_TOUCHSCREEN);
    }
    var focused := FirstFocused(conn.outputs);
    if focused.None? {
      return Err(NO_FOCUSED_OUTPUT);
    }
    var answer := conn.RunCommand(TouchCommand(touch.value, focused.value.name));
    if !answer.Applied? {
      return Err(LoopError(Failure(focused.value.name, answer), MAP_FAILED));
    }
    r := Ok(Unit);
  }

  /** Without a touch device nothing is sent, whatever the outputs. */
  lemma NoTouchDevice(inputs: seq<SwayInput>, outputs: seq<SwayOutput>, reply: string -> CommandReply)
    requires forall d :: d in inputs ==> d.inputType != "touch"
    ensures TouchOutcome(inputs, outputs, reply) == Err(NO_TOUCHSCREEN)
    ensures TouchSent(inputs, outputs) == []
  {
  }
}
