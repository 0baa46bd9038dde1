/** The amplifier plans that work on several scalers at once
    (src/usaxs/plans/amplifiers_plan.py): `autoscale_amplifiers`, which
    autoscales each scaler's group in turn and logs, rather than raises, what
    a group raises, and `measure_background`, which sweeps every group
    through the gain ranges from the highest down. */
module AmplifierPlans {
  import opened Wrappers
  import opened OrderedDicts
  import opened Amplifiers

  // ------------------------------------------------------------ autoscale_amplifiers

  /** A group's exception as `autoscale_amplifiers` logs it: the nickname of
      the group's first control, the exception, and whether it went to the
      warning log (an AutoscaleError) rather than the error log. */
  datatype Report = Report(nickname: string, err: Error, warning: bool)

  /** The station state after some groups, and the log so far. */
  datatype Run = Run(state: StationState, log: seq<Report>)

  /** Every non-empty group's first control is on a known scaler. */
  predicate FirstScalersKnown(scalers: set<string>, groups: seq<seq<Control>>)
  {
    forall i :: 0 <= i < |groups| && groups[i] != [] ==> groups[i][0].scaler in scalers
  }

  /** Every amplifier in the argument is on a known scaler. */
  predicate ItemsKnown(scalers: set<string>, controls: Option<seq<Item>>)
  {
    controls.Some? ==>
      forall i :: 0 <= i < |controls.value| && controls.value[i].Amplifier? ==> controls.value[i].control.scaler in scalers
  }

  /** One group's turn: an empty group is skipped; otherwise the group is
      autoscaled and anything it raises is logged and swallowed. */
  function AutoscaleGroup(run: Run, g: seq<Control>, countTime: real, maxIterations: int,
                          re: RunEngine, inUserOperations: bool, r: Readings): (next: Run)
    requires g != [] ==> g[0].scaler in run.state.scalers
    ensures next.state.scalers.Keys == run.state.scalers.Keys
  {
    if g == [] then run
    else
      var o := ScalerAutoscaleSpec(run.state, g, countTime, maxIterations, Some(re), inUserOperations, r);
      Run(o.state, run.log + if o.err.Some? then [Report(g[0].nickname, o.err.value, o.err.value.AutoscaleError?)] else [])
  }

  /** The first `n` groups in turn, group `i` seeing readings `rs(i)`. */
  function AutoscaleGroups(h: StationState, groups: seq<seq<Control>>, n: nat, countTime: real, maxIterations: int,
                           re: RunEngine, inUserOperations: bool, rs: nat -> Readings): (run: Run)
    requires n <= |groups| && FirstScalersKnown(h.scalers.Keys, groups)
    ensures run.state.scalers.Keys == h.scalers.Keys
  {
    if n == 0 then Run(h, [])
    else AutoscaleGroup(AutoscaleGroups(h, groups, n - 1, countTime, maxIterations, re, inUserOperations, rs),
                        groups[n - 1], countTime, maxIterations, re, inUserOperations, rs(n - 1))
  }

  /** The groups of a grouped argument all start on known scalers. */
  lemma GroupsKnown(scalers: set<string>, controls: Option<seq<Item>>)
    requires ItemsKnown(scalers, controls) && GroupingOutcome(controls).Ok?
    ensures FirstScalersKnown(scalers, Values(GroupingOutcome(controls).value))
  {
    var cs := ControlsOf(controls.value).value;
    var d: Dict<string, seq<Control>> := Grouped(cs);
    var vs: seq<seq<Control>> := Values(d);
    GroupedMembers(cs);
    forall i | 0 <= i < |vs| && vs[i] != []
      ensures vs[i][0].scaler in scalers
    {
      var x := d[i].1[0];
      assert x in d[i].1;
      assert x in cs;
      var j :| 0 <= j < |cs| && cs[j] == x;
      assert controls.value[j].Amplifier? && controls.value[j].control == x;
    }
  }

  /** The outcome of `autoscale_amplifiers`: the final state and log, and
      the exception that escaped. */
  datatype AmplifiersOutcome = AmplifiersOutcome(run: Run, err: Option<Error>)

  /** `autoscale_amplifiers(controls, shutter, count_time, max_iterations,
      RE)` from state `h`; `shutter` says whether a shutter was given, and
      the `i`-th group sees readings `rs(i)`. */
  function AutoscaleAmplifiersSpec(h: StationState, controls: Option<seq<Item>>, shutter: bool, countTime: real,
                                   maxIterations: int, re: Option<RunEngine>, inUserOperations: bool,
                                   rs: nat -> Readings): (o: AmplifiersOutcome)
    requires ItemsKnown(h.scalers.Keys, controls)
    ensures o.run.state.scalers.Keys == h.scalers.Keys
  {
    if re.None? then AmplifiersOutcome(Run(h, []), Some(MissingRunEngine))
    else
      var grouping := GroupingOutcome(controls);
      if grouping.Err? then AmplifiersOutcome(Run(h, []), Some(grouping.error))
      else
        var groups := Values(grouping.value);
        var h' := if shutter then h.(shutterMoves := h.shutterMoves + ["open"]) else h;
        GroupsKnown(h.scalers.Keys, controls);
        AmplifiersOutcome(AutoscaleGroups(h', groups, |groups|, countTime, maxIterations, re.value, inUserOperations, rs), None)
  }

  /** The log of the first `n` groups has one entry per group that raised,
      at most one per group, a warning exactly for an AutoscaleError; the
      shutter and the backgrounds are untouched, and each group triggers its
      scaler at most `max_iterations` times. */
  predicate LogAndFrame(h: StationState, run: Run, n: nat, maxIterations: int)
  {
    && |run.log| <= n
    && (forall i :: 0 <= i < |run.log| ==> (run.log[i].warning <==> run.log[i].err.AutoscaleError?))
    && run.state.shutterMoves == h.shutterMoves && run.state.backgrounds == h.backgrounds
    && h.triggers <= run.state.triggers <= h.triggers + n * (if maxIterations > 0 then maxIterations else 0)
  }

  /** One group's turn keeps `LogAndFrame`, with one group more. */
  lemma AutoscaleGroupLog(h: StationState, run: Run, n: nat, g: seq<Control>, countTime: real, maxIterations: int,
                          re: RunEngine, inUserOperations: bool, r: Readings)
    requires g != [] ==> g[0].scaler in run.state.scalers
    requires LogAndFrame(h, run, n, maxIterations)
    ensures LogAndFrame(h, AutoscaleGroup(run, g, countTime, maxIterations, re, inUserOperations, r), n + 1, maxIterations)
  {
    if g != [] {
      ScalerAutoscaleFrame(run.state, g, countTime, maxIterations, Some(re), inUserOperations, r);
      var bound := if maxIterations > 0 then maxIterations else 0;
      assert n * bound + bound == (n + 1) * bound;
    }
  }

  lemma {:induction false} AutoscaleGroupsLog(h: StationState, groups: seq<seq<Control>>, n: nat, countTime: real,
                                              maxIterations: int, re: RunEngine, inUserOperations: bool, rs: nat -> Readings)
    requires n <= |groups| && FirstScalersKnown(h.scalers.Keys, groups)
    ensures LogAndFrame(h, AutoscaleGroups(h, groups, n, countTime, maxIterations, re, inUserOperations, rs), n, maxIterations)
  {
    if n > 0 {
      AutoscaleGroupsLog(h, groups, n - 1, countTime, maxIterations, re, inUserOperations, rs);
      AutoscaleGroupLog(h, AutoscaleGroups(h, groups, n - 1, countTime, maxIterations, re, inUserOperations, rs), n - 1,
                        groups[n - 1], countTime, maxIterations, re, inUserOperations, rs(n - 1));
    }
  }

  /** No group's exception escapes: `autoscale_amplifiers` raises only for a
      missing RunEngine or an argument that does not group.  Otherwise the
      shutter is opened once when given, the log has at most one entry per
      group, a warning exactly for an AutoscaleError, and the scalers are
      triggered at most `max_iterations` times per group. */
  lemma AutoscaleAmplifiersCatches(h: StationState, controls: Option<seq<Item>>, shutter: bool, countTime: real,
                                   maxIterations: int, re: Option<RunEngine>, inUserOperations: bool,
                                   rs: nat -> Readings)
    requires ItemsKnown(h.scalers.Keys, controls)
    ensures var o := AutoscaleAmplifiersSpec(h, controls, shutter, countTime, maxIterations, re, inUserOperations, rs);
      && (o.err.Some? <==> re.None? || GroupingOutcome(controls).Err?)
      && (re.None? ==> o.err == Some(MissingRunEngine) && o.run == Run(h, []))
      && (re.Some? && GroupingOutcome(controls).Err? ==> o.err == Some(AssertionError) && o.run == Run(h, []))
      && (o.err.None? ==>
            var groups := Values(GroupingOutcome(controls).value);
            && o.run.state.shutterMoves == h.shutterMoves + (if shutter then ["open"] else [])
            && |o.run.log| <= |groups|
            && (forall i :: 0 <= i < |o.run.log| ==> (o.run.log[i].warning <==> o.run.log[i].err.AutoscaleError?))
            && o.run.state.backgrounds == h.backgrounds
            && h.triggers <= o.run.state.triggers <= h.triggers + |groups| * (if maxIterations > 0 then maxIterations else 0))
  {
    if re.Some? && GroupingOutcome(controls).Ok? {
      var groups := Values(GroupingOutcome(controls).value);
      var h' := if shutter then h.(shutterMoves := h.shutterMoves + ["open"]) else h;
      GroupsKnown(h.scalers.Keys, controls);
      AutoscaleGroupsLog(h', groups, |groups|, countTime, maxIterations, re.value, inUserOperations, rs);
    }
  }

  /** Every report in the log is a warning. */
  predicate OnlyWarnings(log: seq<Report>)
  {
    forall i :: 0 <= i < |log| ==> log[i].warning
  }

  /** One group's turn, logging only warnings, leaves the scaler settings as
      they were. */
  lemma AutoscaleGroupRestore(run: Run, g: seq<Control>, countTime: real, maxIterations: int,
                              re: RunEngine, inUserOperations: bool, r: Readings)
    requires g != [] ==> g[0].scaler in run.state.scalers
    ensures var next := AutoscaleGroup(run, g, countTime, maxIterations, re, inUserOperations, r);
      OnlyWarnings(next.log) ==> OnlyWarnings(run.log) && next.state.scalers == run.state.scalers
  {
    if g != [] {
      ScalerAutoscaleRestores(run.state, g, countTime, maxIterations, Some(re), inUserOperations, r);
      var o := ScalerAutoscaleSpec(run.state, g, countTime, maxIterations, Some(re), inUserOperations, r);
      var next := AutoscaleGroup(run, g, countTime, maxIterations, re, inUserOperations, r);
      if OnlyWarnings(next.log) {
        assert forall i :: 0 <= i < |run.log| ==> next.log[i] == run.log[i];
        if o.err.Some? {
          assert next.log[|run.log|] == Report(g[0].nickname, o.err.value, o.err.value.AutoscaleError?);
        }
      }
    }
  }

  /** Every scaler's settings are back as they were after the first `n`
      groups unless some group raised something other than AutoscaleError
      (which leaves its scaler set for autoscaling). */
  lemma {:induction false} AutoscaleGroupsRestore(h: StationState, groups: seq<seq<Control>>, n: nat, countTime: real,
                                                  maxIterations: int, re: RunEngine, inUserOperations: bool, rs: nat -> Readings)
    requires n <= |groups| && FirstScalersKnown(h.scalers.Keys, groups)
    ensures var run := AutoscaleGroups(h, groups, n, countTime, maxIterations, re, inUserOperations, rs);
      OnlyWarnings(run.log) ==> run.state.scalers == h.scalers
  {
    if n > 0 {
      AutoscaleGroupsRestore(h, groups, n - 1, countTime, maxIterations, re, inUserOperations, rs);
      AutoscaleGroupRestore(AutoscaleGroups(h, groups, n - 1, countTime, maxIterations, re, inUserOperations, rs),
                            groups[n - 1], countTime, maxIterations, re, inUserOperations, rs(n - 1));
    }
  }

  /** Hence `autoscale_amplifiers` leaves every scaler's settings as they were
      whenever it logged only warnings. */
  lemma AutoscaleAmplifiersRestores(h: StationState, controls: Option<seq<Item>>, shutter: bool, countTime: real,
                                    maxIterations: int, re: Option<RunEngine>, inUserOperations: bool,
                                    rs: nat -> Readings)
    requires ItemsKnown(h.scalers.Keys, controls)
    ensures var o := AutoscaleAmplifiersSpec(h, controls, shutter, countTime, maxIterations, re, inUserOperations, rs);
      OnlyWarnings(o.run.log) ==> o.run.state.scalers == h.scalers
  {
    if re.Some? && GroupingOutcome(controls).Ok? {
      var groups := Values(GroupingOutcome(controls).value);
      var h' := if shutter then h.(shutterMoves := h.shutterMoves + ["open"]) else h;
      GroupsKnown(h.scalers.Keys, controls);
      AutoscaleGroupsRestore(h', groups, |groups|, countTime, maxIterations, re.value, inUserOperations, rs);
    }
  }

  // ------------------------------------------------------------ measure_background

  /** Gain range `g` set on every control, in order. */
  function Block(cs: seq<Control>, g: int): (b: seq<(Control, int)>)
    ensures |b| == |cs| && forall j :: 0 <= j < |cs| ==> b[j] == (cs[j], g)
  {
    if cs == [] then [] else Block(cs[..|cs| - 1], g) + [(cs[|cs| - 1], g)]
  }

  /** The gain ranges `hi - 1` down to `lo`, each set on every control. */
  function Sweep(cs: seq<Control>, hi: int, lo: int): seq<(Control, int)>
    decreases hi - lo
  {
    if lo >= hi then [] else Sweep(cs, hi, lo + 1) + Block(cs, lo)
  }

  /** Every entry is a control of the group with a range in `[lo, hi)`. */
  predicate WithinRanges(sw: seq<(Control, int)>, cs: seq<Control>, hi: int, lo: int)
  {
    forall a :: 0 <= a < |sw| ==> sw[a].0 in cs && lo <= sw[a].1 < hi
  }

  /** The ranges never go up. */
  predicate Descending(sw: seq<(Control, int)>)
  {
    forall a, b :: 0 <= a < b < |sw| ==> sw[a].1 >= sw[b].1
  }

  /** Every control with every range in `[lo, hi)` is there. */
  predicate CoversRanges(sw: seq<(Control, int)>, cs: seq<Control>, hi: int, lo: int)
  {
    forall j, g :: 0 <= j < |cs| && lo <= g < hi ==> (cs[j], g) in sw
  }

  lemma {:induction false} SweepLength(cs: seq<Control>, hi: int, lo: int)
    requires lo <= hi
    ensures |Sweep(cs, hi, lo)| == (hi - lo) * |cs|
    decreases hi - lo
  {
    if lo < hi {
      SweepLength(cs, hi, lo + 1);
      assert |Sweep(cs, hi, lo)| == (hi - (lo + 1)) * |cs| + |cs|;
    }
  }

  /** The sweep holds only the group's controls, with ranges in `[lo, hi)`. */
  lemma {:induction false} SweepWithin(cs: seq<Control>, hi: int, lo: int)
    ensures WithinRanges(Sweep(cs, hi, lo), cs, hi, lo)
    decreases hi - lo
  {
    if lo < hi {
      SweepWithin(cs, hi, lo + 1);
      var rest: seq<(Control, int)>, b: seq<(Control, int)> := Sweep(cs, hi, lo + 1), Block(cs, lo);
      forall a | 0 <= a < |rest + b|
        ensures (rest + b)[a].0 in cs && lo <= (rest + b)[a].1 < hi
      {
        if a >= |rest| {
          assert (rest + b)[a] == b[a - |rest|];
        }
      }
    }
  }

  /** Following a descending run by a block of a range no higher than any
      of it gives a descending run. */
  lemma DescendingAppend(rest: seq<(Control, int)>, b: seq<(Control, int)>, g: int)
    requires Descending(rest)
    requires forall a :: 0 <= a < |rest| ==> rest[a].1 > g
    requires forall a :: 0 <= a < |b| ==> b[a].1 == g
    ensures Descending(rest + b)
  {
    forall a, c | 0 <= a < c < |rest + b|
      ensures (rest + b)[a].1 >= (rest + b)[c].1
    {
      if c >= |rest| {
        assert (rest + b)[c] == b[c - |rest|];
        if a >= |rest| {
          assert (rest + b)[a] == b[a - |rest|];
        }
      }
    }
  }

  /** The sweep visits the ranges from the highest down. */
  lemma {:induction false} SweepDescending(cs: seq<Control>, hi: int, lo: int)
    ensures Descending(Sweep(cs, hi, lo))
    decreases hi - lo
  {
    if lo < hi {
      SweepDescending(cs, hi, lo + 1);
      SweepWithin(cs, hi, lo + 1);
      DescendingAppend(Sweep(cs, hi, lo + 1), Block(cs, lo), lo);
    }
  }

  /** The sweep sets every control to every range in `[lo, hi)`. */
  lemma {:induction false} SweepCovers(cs: seq<Control>, hi: int, lo: int)
    ensures CoversRanges(Sweep(cs, hi, lo), cs, hi, lo)
    decreases hi - lo
  {
    if lo < hi {
      SweepCovers(cs, hi, lo + 1);
      var rest: seq<(Control, int)>, b: seq<(Control, int)> := Sweep(cs, hi, lo + 1), Block(cs, lo);
      forall j, g | 0 <= j < |cs| && lo <= g < hi
        ensures (cs[j], g) in rest + b
      {
        if g == lo {
          assert (rest + b)[|rest| + j] == (cs[j], g);
        } else {
          assert (cs[j], g) in rest;
        }
      }
    }
  }

  /** `_scaler_background_measurement_(control_list, count_time,
      num_readings)`: the scaler counts for `count_time` with no automatic
      count delay; every amplifier goes manual; for each gain range from the
      highest down every control is set to it, the scaler is triggered
      `num_readings` times, and each control's background is written for that
      range; the two scaler settings are then restored. */
  function ScalerBackgroundSpec(h: StationState, cs: seq<Control>, countTime: real, numReadings: int): (o: Outcome)
    requires cs != [] ==> cs[0].scaler in h.scalers
    ensures o.state.scalers.Keys == h.scalers.Keys
  {
    if cs == [] then Outcome(h, Some(IndexError))
    else
      var k := cs[0].scaler;
      var saved := h.scalers[k];
      var counting := h.scalers[k := saved.(presetTime := countTime, autoCountDelay := 0.0)];
      var sweep := Sweep(cs, NumAutorangeGains, 0);
      Outcome(StationState(
        counting[k := counting[k].(presetTime := saved.presetTime, autoCountDelay := saved.autoCountDelay)],
        WithModes(h.modes, cs, Manual),
        h.lastAutorangeGain,
        h.triggers + NumAutorangeGains * (if numReadings > 0 then numReadings else 0),
        h.gainWrites + sweep,
        h.shutterMoves,
        h.backgrounds + sweep), None)
  }

  /** The scaler settings come back as they were and every amplifier of the
      group is left manual. */
  lemma ScalerBackgroundRestores(h: StationState, cs: seq<Control>, countTime: real, numReadings: int)
    requires cs != [] && cs[0].scaler in h.scalers
    ensures var o := ScalerBackgroundSpec(h, cs, countTime, numReadings);
      o.err.None? && o.state.scalers == h.scalers && AllInMode(o.state.modes, cs, Manual)
  {
    var o := ScalerBackgroundSpec(h, cs, countTime, numReadings);
    WithModeSets(h.modes, cs, Manual);
    var k := cs[0].scaler;
    assert o.state.scalers == h.scalers[k := h.scalers[k]];
  }

  /** The backgrounds are written range by range from the highest down, for
      every control and every range, after the earlier ones. */
  lemma ScalerBackgroundWrites(h: StationState, cs: seq<Control>, countTime: real, numReadings: int)
    requires cs != [] && cs[0].scaler in h.scalers
    ensures var o := ScalerBackgroundSpec(h, cs, countTime, numReadings);
      && |o.state.backgrounds| == |h.backgrounds| + NumAutorangeGains * |cs|
      && o.state.backgrounds[..|h.backgrounds|] == h.backgrounds
      && var written := o.state.backgrounds[|h.backgrounds|..];
         Descending(written) && WithinRanges(written, cs, NumAutorangeGains, 0) && CoversRanges(written, cs, NumAutorangeGains, 0)
  {
    var sweep := Sweep(cs, NumAutorangeGains, 0);
    SweepLength(cs, NumAutorangeGains, 0);
    SweepWithin(cs, NumAutorangeGains, 0);
    SweepDescending(cs, NumAutorangeGains, 0);
    SweepCovers(cs, NumAutorangeGains, 0);
    assert ScalerBackgroundSpec(h, cs, countTime, numReadings).state.backgrounds == h.backgrounds + sweep;
    assert (h.backgrounds + sweep)[|h.backgrounds|..] == sweep;
    assert (h.backgrounds + sweep)[..|h.backgrounds|] == h.backgrounds;
  }

  /** The range loop of `_scaler_background_measurement_`: for each range
      from the highest down, the gain is set on every control in turn and
      the scaler is triggered `num_readings` times. */
  method BackgroundSweep(cs: seq<Control>, numReadings: int) returns (writes: seq<(Control, int)>, triggers: nat)
    ensures writes == Sweep(cs, NumAutorangeGains, 0)
    ensures triggers == NumAutorangeGains * (if numReadings > 0 then numReadings else 0)
  {
    writes := [];
    triggers := 0;
    var perRange := if numReadings > 0 then numReadings else 0;
    var n: int := NumAutorangeGains;
    while n > 0
      invariant 0 <= n <= NumAutorangeGains
      invariant writes == Sweep(cs, NumAutorangeGains, n)
      invariant triggers == (NumAutorangeGains - n) * perRange
    {
      n := n - 1;
      writes := SetGainOnAll(writes, cs, n);
      triggers := TriggerReadings(triggers, numReadings);
      assert (NumAutorangeGains - n - 1) * perRange + perRange == (NumAutorangeGains - n) * perRange;
    }
  }

  /** One range of the sweep: the gain is set on every control in turn. */
  method SetGainOnAll(writes: seq<(Control, int)>, cs: seq<Control>, gain: int) returns (w: seq<(Control, int)>)
    ensures w == writes + Block(cs, gain)
  {
    w := writes;
    var j := 0;
    while j < |cs|
      invariant 0 <= j <= |cs|
      invariant w == writes + Block(cs, gain)[..j]
    {
      assert Block(cs, gain)[..j + 1] == Block(cs, gain)[..j] + [(cs[j], gain)];
      w := w + [(cs[j], gain)];
      j := j + 1;
    }
    assert Block(cs, gain)[..|cs|] == Block(cs, gain);
  }

  /** The scaler is triggered `num_readings` times (none when that is not
      positive). */
  method TriggerReadings(triggers: nat, numReadings: int) returns (t: nat)
    ensures t == triggers + (if numReadings > 0 then numReadings else 0)
  {
    t := triggers;
    var k := 0;
    while k < numReadings
      invariant 0 <= k <= (if numReadings > 0 then numReadings else 0)
      invariant t == triggers + k
    {
      t := t + 1;
      k := k + 1;
    }
  }

  /** One group's turn: an empty group is skipped. */
  function BackgroundGroup(s: StationState, g: seq<Control>, countTime: real, numReadings: int): (next: StationState)
    requires g != [] ==> g[0].scaler in s.scalers
    ensures next.scalers.Keys == s.scalers.Keys
  {
    if g == [] then s else ScalerBackgroundSpec(s, g, countTime, numReadings).state
  }

  /** The first `n` groups, each measured in turn. */
  function BackgroundGroups(h: StationState, groups: seq<seq<Control>>, n: nat, countTime: real, numReadings: int): (s: StationState)
    requires n <= |groups| && FirstScalersKnown(h.scalers.Keys, groups)
    ensures s.scalers.Keys == h.scalers.Keys
  {
    if n == 0 then h
    else BackgroundGroup(BackgroundGroups(h, groups, n - 1, countTime, numReadings), groups[n - 1], countTime, numReadings)
  }

  /** `measure_background(controls, shutter, count_time, num_readings)`:
      after grouping, the shutter (when given) is closed, then every group is
      measured; nothing is caught. */
  function MeasureBackgroundSpec(h: StationState, controls: Option<seq<Item>>, shutter: bool,
                                 countTime: real, numReadings: int): (o: Outcome)
    requires ItemsKnown(h.scalers.Keys, controls)
    ensures o.state.scalers.Keys == h.scalers.Keys
  {
    var grouping := GroupingOutcome(controls);
    if grouping.Err? then Outcome(h, Some(grouping.error))
    else
      var groups := Values(grouping.value);
      var h' := if shutter then h.(shutterMoves := h.shutterMoves + ["close"]) else h;
      GroupsKnown(h.scalers.Keys, controls);
      Outcome(BackgroundGroups(h', groups, |groups|, countTime, numReadings), None)
  }

  /** After the first `n` groups the scaler settings are as they were. */
  lemma {:induction false} BackgroundGroupsRestore(h: StationState, groups: seq<seq<Control>>, n: nat, countTime: real, numReadings: int)
    requires n <= |groups| && FirstScalersKnown(h.scalers.Keys, groups)
    ensures var s := BackgroundGroups(h, groups, n, countTime, numReadings);
      s.scalers == h.scalers && s.shutterMoves == h.shutterMoves
  {
    if n > 0 {
      BackgroundGroupsRestore(h, groups, n - 1, countTime, numReadings);
      var prev := BackgroundGroups(h, groups, n - 1, countTime, numReadings);
      var g := groups[n - 1];
      if g != [] {
        ScalerBackgroundRestores(prev, g, countTime, numReadings);
      }
    }
  }

  /** The amplifier modes after the first `n` groups: each group's amplifiers
      switched to manual in turn. */
  function ManualAfter(modes: map<string, AutoMode>, groups: seq<seq<Control>>, n: nat): map<string, AutoMode>
    requires n <= |groups|
  {
    if n == 0 then modes else WithModes(ManualAfter(modes, groups, n - 1), groups[n - 1], Manual)
  }

  /** The fold over the groups changes the modes exactly as `ManualAfter`. */
  lemma {:induction false} BackgroundGroupsModes(h: StationState, groups: seq<seq<Control>>, n: nat, countTime: real, numReadings: int)
    requires n <= |groups| && FirstScalersKnown(h.scalers.Keys, groups)
    ensures BackgroundGroups(h, groups, n, countTime, numReadings).modes == ManualAfter(h.modes, groups, n)
  {
    if n > 0 {
      BackgroundGroupsModes(h, groups, n - 1, countTime, numReadings);
    }
  }

  /** After the first `n` groups every amplifier of those groups is manual. */
  lemma {:induction false} ManualAfterGroups(modes: map<string, AutoMode>, groups: seq<seq<Control>>, n: nat)
    requires n <= |groups|
    ensures GroupsManual(ManualAfter(modes, groups, n), groups, n)
  {
    if n > 0 {
      ManualAfterGroups(modes, groups, n - 1);
      ModesStayManual(ManualAfter(modes, groups, n - 1), groups, n - 1, groups[n - 1]);
    }
  }

  /** Every amplifier of the first `n` groups is manual. */
  predicate GroupsManual(modes: map<string, AutoMode>, groups: seq<seq<Control>>, n: nat)
  {
    forall i :: 0 <= i < n && i < |groups| ==> AllInMode(modes, groups[i], Manual)
  }

  /** Switching more amplifiers to manual keeps the manual ones manual. */
  lemma ModesStayManual(modes: map<string, AutoMode>, groups: seq<seq<Control>>, n: nat, g: seq<Control>)
    requires n < |groups| && g == groups[n] && GroupsManual(modes, groups, n)
    ensures GroupsManual(WithModes(modes, g, Manual), groups, n + 1)
  {
    WithModeSets(modes, g, Manual);
    forall i, j | 0 <= i < n && 0 <= j < |groups[i]|
      ensures var after := WithModes(modes, g, Manual);
        groups[i][j].gainName in after && after[groups[i][j].gainName] == Manual
    {
      WithModesKeeps(modes, g, Manual, groups[i][j].gainName);
    }
  }

  /** `measure_background` raises only when the argument does not group;
      otherwise the shutter is closed once when given, the scaler settings
      are as they were, and every amplifier is left manual. */
  lemma MeasureBackgroundRestores(h: StationState, controls: Option<seq<Item>>, shutter: bool, countTime: real, numReadings: int)
    requires ItemsKnown(h.scalers.Keys, controls)
    ensures var o := MeasureBackgroundSpec(h, controls, shutter, countTime, numReadings);
      && (o.err.Some? <==> GroupingOutcome(controls).Err?)
      && (o.err.Some? ==> o.state == h)
      && (o.err.None? ==>
            var groups := Values(GroupingOutcome(controls).value);
            && o.state.scalers == h.scalers
            && o.state.shutterMoves == h.shutterMoves + (if shutter then ["close"] else [])
            && GroupsManual(o.state.modes, groups, |groups|))
  {
    if GroupingOutcome(controls).Ok? {
      var groups := Values(GroupingOutcome(controls).value);
      var h' := if shutter then h.(shutterMoves := h.shutterMoves + ["close"]) else h;
      GroupsKnown(h.scalers.Keys, controls);
      BackgroundGroupsRestore(h', groups, |groups|, countTime, numReadings);
      BackgroundGroupsModes(h', groups, |groups|, countTime, numReadings);
      ManualAfterGroups(h'.modes, groups, |groups|);
    }
  }
}
