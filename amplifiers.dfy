/** Amplifier autoscaling (src/usaxs/plans/amplifiers_plan.py): controls are
    grouped by the scaler they share, and each group's gains are settled by a
    bounded loop that stops once no gain changed and no count rate is above
    its maximum.  EPICS readings (gains, rates) are parameters indexed by
    iteration and control; the EPICS writes are fields of a class. */
module Amplifiers {
  import opened Wrappers
  import opened Text
  import opened OrderedDicts

  /** `NUM_AUTORANGE_GAINS`, common to all autorange sequence programs. */
  const NumAutorangeGains: nat := 5

  /** What kind of object a control's `signal` is. */
  datatype SignalKind = ScalerChannelSignal | EpicsSignalROSignal | OtherSignal

  /** A `DetectorAmplifierAutorangeDevice`: its nickname, the name of its
      scaler, the name of its gain signal, and its signal's kind. */
  datatype Control = Control(nickname: string, scaler: string, gainName: string, signal: SignalKind)

  /** An element of the list handed to the plans. */
  datatype Item = Amplifier(control: Control) | NotAnAmplifier

  datatype AutoMode = Automatic | Manual

  /** `_gain_to_str_`: the gain as a power of ten, whose exponent reads
      back as the gain. */
  function GainToStr(gain: int): (s: string)
    ensures |s| > 3 && s[..3] == "10^" && ParseInt(s[3..]) == Ok(gain)
  {
    var s := "10^" + IntToString(gain);
    ParseIntOfIntToString(gain);
    assert s[3..] == IntToString(gain);
    s
  }

  // ------------------------------------------------------------ OrderedDefaultDict

  /** `OrderedDefaultDict`: an insertion-ordered dictionary whose missing keys
      are filled by the default factory.  The factory is the value it makes
      (`list` makes `[]`, `dict` makes `{}`); `None` means no factory. */
  class OrderedDefaultDict<V> {
    var items: Dict<string, V>
    const defaultFactory: Option<V>

    constructor (factory: Option<V>)
      ensures items == [] && defaultFactory == factory
    {
      items := [];
      defaultFactory := factory;
    }

    /** `d[key]`: the stored value; for a missing key, `__missing__` stores and
        returns the factory's value, or raises KeyError without a factory. */
    method Lookup(key: string) returns (r: Result<V>)
      modifies this
      ensures key in Keys(old(items)) ==> items == old(items) && r.Ok? && Get(items, key) == Some(r.value)
      ensures key !in Keys(old(items)) && defaultFactory.None? ==> items == old(items) && r == Err(KeyError(key))
      ensures key !in Keys(old(items)) && defaultFactory.Some? ==>
        r == Ok(defaultFactory.value) && items == old(items) + [(key, defaultFactory.value)]
    {
      var found := Get(items, key);
      if found.Some? {
        return Ok(found.value);
      }
      if defaultFactory.None? {
        return Err(KeyError(key));
      }
      PutAbsent(items, key, defaultFactory.value);
      items := Put(items, key, defaultFactory.value);
      r := Ok(defaultFactory.value);
    }

    /** `d[key] = value`. */
    method Assign(key: string, value: V)
      modifies this
      ensures items == Put(old(items), key, value)
    {
      items := Put(items, key, value);
    }
  }

  // ------------------------------------------------------------ grouping

  /** The group stored under `k`, or the empty group. */
  function GroupOf(d: Dict<string, seq<Control>>, k: string): seq<Control>
  {
    match Get(d, k)
    case None => []
    case Some(g) => g
  }

  /** The grouping of `group_controls_by_scaler`: each control appended to the
      group of its scaler. */
  function Grouped(cs: seq<Control>): Dict<string, seq<Control>>
  {
    if cs == [] then []
    else
      var d := Grouped(cs[..|cs| - 1]);
      var c := cs[|cs| - 1];
      Put(d, c.scaler, GroupOf(d, c.scaler) + [c])
  }

  /** The controls on scaler `k`, in input order. */
  function OnScaler(cs: seq<Control>, k: string): (r: seq<Control>)
    ensures forall i :: 0 <= i < |r| ==> r[i].scaler == k && r[i] in cs
  {
    if cs == [] then []
    else OnScaler(cs[..|cs| - 1], k) + (if cs[|cs| - 1].scaler == k then [cs[|cs| - 1]] else [])
  }

  function ScalerNames(cs: seq<Control>): (ns: seq<string>)
    ensures |ns| == |cs| && forall i :: 0 <= i < |cs| ==> ns[i] == cs[i].scaler
  {
    if cs == [] then [] else ScalerNames(cs[..|cs| - 1]) + [cs[|cs| - 1].scaler]
  }

  /** Grouping partitions the controls: the groups are keyed by scaler names
      in order of first appearance, and the group of each scaler holds exactly
      the controls on it, in input order. */
  lemma {:induction false} GroupedPartitions(cs: seq<Control>, k: string)
    ensures GroupOf(Grouped(cs), k) == OnScaler(cs, k)
    ensures Keys(Grouped(cs)) == FirstAppearances(ScalerNames(cs))
  {
    if cs != [] {
      var init := cs[..|cs| - 1];
      var c := cs[|cs| - 1];
      var d := Grouped(init);
      GroupedPartitions(init, k);
      GroupedPartitions(init, c.scaler);
      GetPut(d, c.scaler, GroupOf(d, c.scaler) + [c], k);
      assert ScalerNames(cs)[..|cs| - 1] == ScalerNames(init);
    }
  }

  lemma GroupedStep(cs: seq<Control>, c: Control)
    ensures Grouped(cs + [c]) == Put(Grouped(cs), c.scaler, GroupOf(Grouped(cs), c.scaler) + [c])
  {
    assert (cs + [c])[..|cs|] == cs;
  }

  /** Each control is in the group of its own scaler, and in no other. */
  lemma ControlInOwnGroupOnly(cs: seq<Control>, i: nat, k: string)
    requires i < |cs|
    ensures cs[i] in GroupOf(Grouped(cs), cs[i].scaler)
    ensures k != cs[i].scaler ==> cs[i] !in GroupOf(Grouped(cs), k)
  {
    GroupedPartitions(cs, cs[i].scaler);
    GroupedPartitions(cs, k);
    OnScalerHas(cs, i);
  }

  lemma {:induction false} OnScalerHas(cs: seq<Control>, i: nat)
    requires i < |cs|
    ensures cs[i] in OnScaler(cs, cs[i].scaler)
  {
    if i < |cs| - 1 {
      OnScalerHas(cs[..|cs| - 1], i);
    }
  }

  /** Every control in a group of `d` is one of `cs`. */
  predicate GroupsFrom(d: Dict<string, seq<Control>>, cs: seq<Control>)
  {
    forall i, x :: 0 <= i < |d| && x in d[i].1 ==> x in cs
  }

  /** Grouping invents no control. */
  lemma {:induction false} GroupedMembers(cs: seq<Control>)
    ensures GroupsFrom(Grouped(cs), cs)
  {
    if cs != [] {
      var init, c := cs[..|cs| - 1], cs[|cs| - 1];
      var d := Grouped(init);
      var g := GroupOf(d, c.scaler) + [c];
      GroupedMembers(init);
      PutEntries(d, c.scaler, g);
      assert forall x :: x in init ==> x in cs;
      forall x | x in g
        ensures x in cs
      {
        if x != c {
          var j :| 0 <= j < |d| && d[j] == (c.scaler, GroupOf(d, c.scaler));
          assert x in d[j].1;
        }
      }
      forall i, x | 0 <= i < |Grouped(cs)| && x in Grouped(cs)[i].1
        ensures x in cs
      {
        var e := Grouped(cs)[i];
        assert e in Put(d, c.scaler, g);
        if e != (c.scaler, g) {
          var j :| 0 <= j < |d| && d[j] == e;
          assert x in d[j].1;
        }
      }
    }
  }

  /** The controls of a list made only of amplifiers, or None when some
      element is not an amplifier. */
  function ControlsOf(items: seq<Item>): (cs: Option<seq<Control>>)
    ensures cs.Some? <==> forall i :: 0 <= i < |items| ==> items[i].Amplifier?
    ensures cs.Some? ==> |cs.value| == |items| && forall i :: 0 <= i < |items| ==> cs.value[i] == items[i].control
  {
    if items == [] then Some([])
    else
      var init := ControlsOf(items[..|items| - 1]);
      var last := items[|items| - 1];
      if init.None? || last.NotAnAmplifier? then None
      else Some(init.value + [last.control])
  }

  /** The outcome of `group_controls_by_scaler`: AssertionError unless the
      argument is a list whose every element is an amplifier. */
  function GroupingOutcome(controls: Option<seq<Item>>): Result<Dict<string, seq<Control>>>
  {
    if controls.None? then Err(AssertionError)
    else
      var cs := ControlsOf(controls.value);
      if cs.None? then Err(AssertionError) else Ok(Grouped(cs.value))
  }

  /** `group_controls_by_scaler(controls)`; `None` stands for an argument
      that is not a list or tuple. */
  method GroupControlsByScaler(controls: Option<seq<Item>>) returns (r: Result<Dict<string, seq<Control>>>)
    ensures r == GroupingOutcome(controls)
  {
    if controls.None? {
      return Err(AssertionError);
    }
    var items := controls.value;
    var groups := new OrderedDefaultDict<seq<Control>>(Some([]));
    var i := 0;
    ghost var cs: seq<Control> := [];
    while i < |items|
      invariant 0 <= i <= |items|
      invariant ControlsOf(items[..i]) == Some(cs)
      invariant groups.items == Grouped(cs)
      invariant groups.defaultFactory == Some([])
    {
      ControlsOfStep(items, i);
      if items[i].NotAnAmplifier? {
        NoneExtends(items, i + 1);
        return Err(AssertionError);
      }
      var c := items[i].control;
      ghost var before := cs;
      cs := cs + [c];
      AppendToGroup(groups, c, before, cs);
      i := i + 1;
    }
    WholePrefix(items, i);
    r := Ok(groups.items);
  }

  lemma ControlsOfStep(items: seq<Item>, i: nat)
    requires i < |items|
    ensures var init := ControlsOf(items[..i]);
      ControlsOf(items[..i + 1]) == if init.None? || items[i].NotAnAmplifier? then None else Some(init.value + [items[i].control])
  {
    assert items[..i + 1][..i] == items[..i];
  }

  lemma WholePrefix(items: seq<Item>, i: nat)
    requires i == |items|
    ensures items[..i] == items
  {
  }

  /** Once a prefix holds an element that is not an amplifier, so does every
      longer list. */
  lemma {:induction false} NoneExtends(items: seq<Item>, n: nat)
    requires n <= |items| && ControlsOf(items[..n]).None?
    ensures ControlsOf(items).None?
    decreases |items| - n
  {
    if n < |items| {
      ControlsOfStep(items, n);
      NoneExtends(items, n + 1);
    } else {
      WholePrefix(items, n);
    }
  }

  /** `scaler_dict[control.scaler.name].append(control)`. */
  method AppendToGroup(groups: OrderedDefaultDict<seq<Control>>, c: Control, ghost cs: seq<Control>, ghost after: seq<Control>)
    requires groups.items == Grouped(cs) && groups.defaultFactory == Some([]) && after == cs + [c]
    modifies groups
    ensures groups.items == Grouped(after) && groups.defaultFactory == Some([])
  {
    ghost var d := groups.items;
    var group := groups.Lookup(c.scaler);
    assert group.value == GroupOf(d, c.scaler);
    groups.Assign(c.scaler, group.value + [c]);
    LookupThenAssign(d, c.scaler, group.value + [c]);
    GroupedStep(cs, c);
  }

  /** Reading a missing key (which inserts the empty group) and then
      assigning to it is assigning to it directly. */
  lemma LookupThenAssign(d: Dict<string, seq<Control>>, k: string, w: seq<Control>)
    ensures Put(if k in Keys(d) then d else d + [(k, [])], k, w) == Put(d, k, w)
  {
    if k !in Keys(d) {
      PutAbsent(d, k, []);
      PutPut(d, k, [], w);
    }
  }

  // ------------------------------------------------------------ autoscale loop

  /** The EPICS readings the loop makes: the gain each control reads before
      the loop (after any restart from the last known gain), and per
      iteration and control the gain, the count rate and the maximum rate. */
  datatype Readings = Readings(
    start: nat -> int,
    gain: (nat, nat) -> int,
    rate: (nat, nat) -> real,
    maxRate: (nat, nat) -> real)

  /** One pass over the controls: whether every check held so far, the last
      gain seen per gain name, and the exception that stopped the pass. */
  datatype Pass = Pass(ok: bool, last: map<string, int>, err: Option<Error>)

  const NeedsTime: Error := RuntimeError("This scaler needs to divide by time")
  const UnexpectedSignal: Error := ValueError("unexpected control.signal")

  /** One control's turn in the inner loop of `_scaler_autoscale_`: after a
      raise nothing more happens; an unknown gain name raises `KeyError`;
      otherwise the gain `g` is compared with the last one seen and then
      recorded, and the count rate is checked only for a `ScalerChannel`
      signal, any other signal raising. */
  function CheckOne(prev: Pass, c: Control, g: int, rate: real, maxRate: real): (p: Pass)
    ensures prev.err.Some? ==> p == prev
    ensures prev.err.None? && c.gainName in prev.last ==> p.last == prev.last[c.gainName := g]
  {
    if prev.err.Some? then prev
    else if c.gainName !in prev.last then Pass(prev.ok, prev.last, Some(KeyError(c.gainName)))
    else
      var ok := prev.ok && g == prev.last[c.gainName];
      var last' := prev.last[c.gainName := g];
      match c.signal
      case ScalerChannelSignal => Pass(ok && rate <= maxRate, last', None)
      case EpicsSignalROSignal => Pass(ok, last', Some(NeedsTime))
      case OtherSignal => Pass(ok, last', Some(UnexpectedSignal))
  }

  /** The inner loop over the first `n` controls in iteration `it`. */
  function CheckControls(cs: seq<Control>, n: nat, last: map<string, int>, it: nat, r: Readings): (p: Pass)
    requires n <= |cs|
  {
    if n == 0 then Pass(true, last, None)
    else CheckOne(CheckControls(cs, n - 1, last, it, r), cs[n - 1], r.gain(it, n - 1), r.rate(it, n - 1), r.maxRate(it, n - 1))
  }

  predicate DistinctGainNames(cs: seq<Control>) {
    forall i, j :: 0 <= i < j < |cs| ==> cs[i].gainName != cs[j].gainName
  }

  /** Controls with distinct gain names, all known, all read through a
      `ScalerChannel`. */
  predicate PassReady(cs: seq<Control>, last: map<string, int>)
  {
    DistinctGainNames(cs) && forall j :: 0 <= j < |cs| ==> cs[j].gainName in last && cs[j].signal == ScalerChannelSignal
  }

  /** The memory after recording the first `n` gains of iteration `it`. */
  function Recorded(cs: seq<Control>, n: nat, last: map<string, int>, it: nat, r: Readings): (m: map<string, int>)
    requires n <= |cs|
  {
    if n == 0 then last else Recorded(cs, n - 1, last, it, r)[cs[n - 1].gainName := r.gain(it, n - 1)]
  }

  /** Whether the first `n` controls are steady against `last`. */
  function SteadyUpTo(cs: seq<Control>, n: nat, last: map<string, int>, it: nat, r: Readings): bool
    requires n <= |cs| && forall j :: 0 <= j < |cs| ==> cs[j].gainName in last
  {
    n == 0 || (SteadyUpTo(cs, n - 1, last, it, r)
               && r.gain(it, n - 1) == last[cs[n - 1].gainName] && r.rate(it, n - 1) <= r.maxRate(it, n - 1))
  }

  /** For distinct gain names, recording the first `n` gains leaves the
      remaining names as they were. */
  lemma {:induction false} RecordedKeeps(cs: seq<Control>, n: nat, last: map<string, int>, it: nat, r: Readings, j: nat)
    requires n <= j < |cs| && DistinctGainNames(cs) && cs[j].gainName in last
    ensures var m := Recorded(cs, n, last, it, r);
      cs[j].gainName in m && m[cs[j].gainName] == last[cs[j].gainName]
  {
    if n > 0 {
      RecordedKeeps(cs, n - 1, last, it, r, j);
    }
  }

  lemma CheckOneReady(ok: bool, m: map<string, int>, c: Control, g: int, rate: real, maxRate: real)
    requires c.gainName in m && c.signal == ScalerChannelSignal
    ensures CheckOne(Pass(ok, m, None), c, g, rate, maxRate) == Pass(ok && g == m[c.gainName] && rate <= maxRate, m[c.gainName := g], None)
  {
  }

  /** For such controls a pass raises nothing, records each gain it reads,
      and succeeds exactly when every gain is unchanged and every rate is at
      most its maximum. */
  lemma {:induction false} CheckControlsReady(cs: seq<Control>, n: nat, last: map<string, int>, it: nat, r: Readings)
    requires n <= |cs| && PassReady(cs, last)
    ensures CheckControls(cs, n, last, it, r) == Pass(SteadyUpTo(cs, n, last, it, r), Recorded(cs, n, last, it, r), None)
  {
    if n > 0 {
      CheckControlsReady(cs, n - 1, last, it, r);
      RecordedKeeps(cs, n - 1, last, it, r, n - 1);
      CheckOneReady(SteadyUpTo(cs, n - 1, last, it, r), Recorded(cs, n - 1, last, it, r), cs[n - 1], r.gain(it, n - 1), r.rate(it, n - 1), r.maxRate(it, n - 1));
    }
  }

  /** After a full pass every control's gain name holds the gain just read. */
  lemma {:induction false} RecordedHolds(cs: seq<Control>, n: nat, last: map<string, int>, it: nat, r: Readings, j: nat)
    requires j < n <= |cs| && DistinctGainNames(cs)
    ensures var m := Recorded(cs, n, last, it, r);
      cs[j].gainName in m && m[cs[j].gainName] == r.gain(it, j)
  {
    if j < n - 1 {
      RecordedHolds(cs, n - 1, last, it, r, j);
    }
  }

  /** The first `n` controls are steady exactly when each gain equals the
      remembered one and each rate is at most its maximum. */
  lemma {:induction false} SteadyUpToMeaning(cs: seq<Control>, n: nat, last: map<string, int>, it: nat, r: Readings)
    requires n <= |cs| && forall j :: 0 <= j < |cs| ==> cs[j].gainName in last
    ensures SteadyUpTo(cs, n, last, it, r) <==>
      forall j :: 0 <= j < n ==> r.gain(it, j) == last[cs[j].gainName] && r.rate(it, j) <= r.maxRate(it, j)
  {
    if n > 0 {
      SteadyUpToMeaning(cs, n - 1, last, it, r);
    }
  }

  /** How the loop ended: iterations run (scaler triggers), whether it
      converged, the last gains, and the exception that stopped it. */
  datatype LoopEnd = LoopEnd(iterations: nat, complete: bool, last: map<string, int>, err: Option<Error>)

  /** The outer loop from iteration `it`: at most `maxIterations` passes,
      stopping at the first pass that succeeds or raises. */
  function AutoscaleLoop(cs: seq<Control>, last: map<string, int>, it: nat, maxIterations: int, r: Readings): (e: LoopEnd)
    ensures it <= e.iterations
    ensures e.iterations == it <==> it >= maxIterations
    ensures e.iterations == it ==> e.last == last && !e.complete && e.err.None?
    decreases maxIterations - it
  {
    if it >= maxIterations then LoopEnd(it, false, last, None)
    else
      var p := CheckControls(cs, |cs|, last, it, r);
      if p.err.Some? then LoopEnd(it + 1, false, p.last, p.err)
      else if p.ok then LoopEnd(it + 1, true, p.last, None)
      else AutoscaleLoop(cs, p.last, it + 1, maxIterations, r)
  }

  /** A pass raises only `KeyError`, `RuntimeError` or `ValueError`, never
      `AutoscaleError`. */
  lemma {:induction false} CheckControlsErrors(cs: seq<Control>, n: nat, last: map<string, int>, it: nat, r: Readings)
    requires n <= |cs|
    ensures var p := CheckControls(cs, n, last, it, r);
      p.err.Some? ==> p.err.value.KeyError? || p.err.value.RuntimeError? || p.err.value.ValueError?
  {
    if n > 0 {
      CheckControlsErrors(cs, n - 1, last, it, r);
    }
  }

  /** Neither does the loop. */
  lemma {:induction false} AutoscaleLoopErrors(cs: seq<Control>, last: map<string, int>, it: nat, maxIterations: int, r: Readings)
    ensures var e := AutoscaleLoop(cs, last, it, maxIterations, r);
      e.err.Some? ==> e.err.value.KeyError? || e.err.value.RuntimeError? || e.err.value.ValueError?
    decreases maxIterations - it
  {
    if it < maxIterations {
      CheckControlsErrors(cs, |cs|, last, it, r);
      var p := CheckControls(cs, |cs|, last, it, r);
      if p.err.None? && !p.ok {
        AutoscaleLoopErrors(cs, p.last, it + 1, maxIterations, r);
      }
    }
  }

  /** The loop triggers the scaler at most `max_iterations` times (never for
      a non-positive count); when it neither converged nor raised it ran every
      iteration; when it converged, the last pass succeeded. */
  lemma {:induction false} AutoscaleLoopBounds(cs: seq<Control>, last: map<string, int>, it: nat, maxIterations: int, r: Readings)
    ensures var e := AutoscaleLoop(cs, last, it, maxIterations, r);
      && it <= e.iterations
      && (maxIterations <= it ==> e.iterations == it && !e.complete)
      && (it < maxIterations ==> e.iterations <= maxIterations)
      && (!e.complete && e.err.None? && it < maxIterations ==> e.iterations == maxIterations)
      && (e.complete ==> e.err.None? && e.iterations > it)
    decreases maxIterations - it
  {
    if it < maxIterations {
      var p := CheckControls(cs, |cs|, last, it, r);
      if p.err.None? && !p.ok {
        AutoscaleLoopBounds(cs, p.last, it + 1, maxIterations, r);
      }
    }
  }

  /** One iteration's pass over the controls, as the inner loop computes it. */
  method CheckIteration(cs: seq<Control>, last: map<string, int>, it: nat, r: Readings) returns (p: Pass)
    ensures p == CheckControls(cs, |cs|, last, it, r)
  {
    p := Pass(true, last, None);
    var j := 0;
    while j < |cs|
      invariant 0 <= j <= |cs|
      invariant p == CheckControls(cs, j, last, it, r)
    {
      var c := cs[j];
      if p.err.None? {
        if c.gainName !in p.last {
          p := Pass(p.ok, p.last, Some(KeyError(c.gainName)));
        } else {
          var gainNow := r.gain(it, j);
          var converged := p.ok && gainNow == p.last[c.gainName];
          var last' := p.last[c.gainName := gainNow];
          match c.signal {
            case ScalerChannelSignal =>
              p := Pass(converged && r.rate(it, j) <= r.maxRate(it, j), last', None);
            case EpicsSignalROSignal =>
              p := Pass(converged, last', Some(NeedsTime));
            case OtherSignal =>
              p := Pass(converged, last', Some(UnexpectedSignal));
          }
        }
      }
      j := j + 1;
    }
  }

  /** The outer retry loop as the plan runs it: `last_gain_dict` and
      `converged` are updated pass by pass until a pass converges, raises, or
      `max_iterations` passes have run. */
  method RunAutoscaleLoop(cs: seq<Control>, last: map<string, int>, maxIterations: int, r: Readings) returns (e: LoopEnd)
    ensures e == AutoscaleLoop(cs, last, 0, maxIterations, r)
  {
    var lastGains := last;
    var it: nat := 0;
    var complete := false;
    var err: Option<Error> := None;
    var done := false;
    while !done && it < maxIterations
      invariant !done ==> !complete && err.None? && AutoscaleLoop(cs, lastGains, it, maxIterations, r) == AutoscaleLoop(cs, last, 0, maxIterations, r)
      invariant done ==> LoopEnd(it, complete, lastGains, err) == AutoscaleLoop(cs, last, 0, maxIterations, r)
      decreases maxIterations - it
    {
      var p := CheckIteration(cs, lastGains, it, r);
      it := it + 1;
      lastGains := p.last;
      if p.err.Some? {
        err := p.err;
        done := true;
      } else if p.ok {
        complete := true;
        done := true;
      }
    }
    e := LoopEnd(it, complete, lastGains, err);
  }

  /** The failure report after the loop, with `converged` bound before the
      loop: AutoscaleError exactly when the loop did not converge, the APS is
      in user operations and the RunEngine is not idle. */
  function AutoscaleVerdict(complete: bool, inUserOperations: bool, runEngineIdle: bool, maxIterations: int): (err: Option<Error>)
    ensures err.Some? <==> !complete && inUserOperations && !runEngineIdle
    ensures err.Some? ==> err.value.AutoscaleError?
  {
    if !complete && inUserOperations && !runEngineIdle then
      Some(AutoscaleError("FAILED TO FIND CORRECT GAIN IN " + IntToString(maxIterations) + " AUTOSCALE ITERATIONS"))
    else None
  }

  /** The same report as written: the warning logs `converged`, which is
      unbound when the loop never ran, so that case raises UnboundLocalError
      before the RunEngine state is looked at. */
  function AutoscaleVerdictAsWritten(complete: bool, inUserOperations: bool, runEngineIdle: bool, maxIterations: int): Option<Error>
  {
    if !complete && inUserOperations then
      if maxIterations <= 0 then Some(UnboundLocalError("converged"))
      else if !runEngineIdle then
        Some(AutoscaleError("FAILED TO FIND CORRECT GAIN IN " + IntToString(maxIterations) + " AUTOSCALE ITERATIONS"))
      else None
    else None
  }

  /** With `max_iterations=0` during user operations and an idle RunEngine
      (as in `summarize_plan`), the code as written raises, where the report
      is meant to stay silent; with a busy RunEngine it raises
      UnboundLocalError in place of AutoscaleError; with a positive count the
      two agree. */
  lemma AutoscaleVerdictAsWrittenRaisesWhenIdle(maxIterations: int, complete: bool, inUserOperations: bool, runEngineIdle: bool)
    ensures AutoscaleVerdictAsWritten(false, true, true, 0) == Some(UnboundLocalError("converged"))
    ensures AutoscaleVerdict(false, true, true, 0) == None
    ensures AutoscaleVerdictAsWritten(false, true, false, 0) == Some(UnboundLocalError("converged"))
    ensures AutoscaleVerdict(false, true, false, 0).Some? && AutoscaleVerdict(false, true, false, 0).value.AutoscaleError?
    ensures maxIterations > 0 ==>
      AutoscaleVerdictAsWritten(complete, inUserOperations, runEngineIdle, maxIterations)
        == AutoscaleVerdict(complete, inUserOperations, runEngineIdle, maxIterations)
  {
  }

  // ------------------------------------------------------------ the loop, gain by gain

  /** The gain control `j` is compared with in iteration `t`: the gain read
      before the loop for the first iteration, the previous iteration's
      reading afterwards. */
  function PreviousGain(r: Readings, t: nat, j: nat): int
  {
    if t == 0 then r.start(j) else r.gain(t - 1, j)
  }

  /** Iteration `t` finds every gain unchanged and every rate at most its
      maximum. */
  predicate Steady(cs: seq<Control>, r: Readings, t: nat)
  {
    forall j :: 0 <= j < |cs| ==> r.gain(t, j) == PreviousGain(r, t, j) && r.rate(t, j) <= r.maxRate(t, j)
  }

  /** Amplifiers with distinct gain names, all read through a `ScalerChannel`. */
  predicate WellFormedGroup(cs: seq<Control>)
  {
    DistinctGainNames(cs) && forall j :: 0 <= j < |cs| ==> cs[j].signal == ScalerChannelSignal
  }

  /** Gain memory holding, for each control, the gain it is compared with in
      iteration `t`. */
  predicate Remembers(cs: seq<Control>, last: map<string, int>, r: Readings, t: nat)
  {
    forall j :: 0 <= j < |cs| ==> cs[j].gainName in last && last[cs[j].gainName] == PreviousGain(r, t, j)
  }

  /** The first steady iteration from `t` on, before `max_iterations`. */
  function FirstSteady(cs: seq<Control>, r: Readings, t: nat, maxIterations: int): (u: Option<nat>)
    decreases maxIterations - t
  {
    if t >= maxIterations then None
    else if Steady(cs, r, t) then Some(t)
    else FirstSteady(cs, r, t + 1, maxIterations)
  }

  /** `FirstSteady` finds the least steady iteration in range, or there is none. */
  lemma {:induction false} FirstSteadyLeast(cs: seq<Control>, r: Readings, t: nat, maxIterations: int)
    ensures var u := FirstSteady(cs, r, t, maxIterations);
      && (u.Some? ==> t <= u.value < maxIterations && Steady(cs, r, u.value))
      && (forall v :: t <= v < maxIterations && (u.None? || v < u.value) ==> !Steady(cs, r, v))
    decreases maxIterations - t
  {
    if t < maxIterations && !Steady(cs, r, t) {
      FirstSteadyLeast(cs, r, t + 1, maxIterations);
    }
  }

  /** For a well-formed group, the loop from iteration `t` raises nothing,
      converges exactly at the first steady iteration (running one trigger
      per iteration up to it), runs to `max_iterations` when there is none,
      and leaves the gains of the last iteration in the memory. */
  lemma {:induction false} AutoscaleLoopSteady(cs: seq<Control>, last: map<string, int>, t: nat, maxIterations: int, r: Readings)
    requires WellFormedGroup(cs) && Remembers(cs, last, r, t)
    ensures var e := AutoscaleLoop(cs, last, t, maxIterations, r);
      var u := FirstSteady(cs, r, t, maxIterations);
      && e.err.None?
      && e.complete == u.Some?
      && e.iterations == (if u.Some? then u.value + 1 else if t < maxIterations then maxIterations else t)
    decreases maxIterations - t
  {
    if t < maxIterations {
      var p := CheckControls(cs, |cs|, last, t, r);
      PassSteady(cs, last, t, r);
      if !p.ok {
        AutoscaleLoopSteady(cs, p.last, t + 1, maxIterations, r);
      }
    }
  }

  /** After each iteration the gain memory holds the gains just read, so at
      the end it holds the gains of the last iteration run. */
  lemma {:induction false} AutoscaleLoopLastGains(cs: seq<Control>, last: map<string, int>, t: nat, maxIterations: int, r: Readings)
    requires WellFormedGroup(cs) && Remembers(cs, last, r, t)
    ensures var e := AutoscaleLoop(cs, last, t, maxIterations, r);
      Remembers(cs, e.last, r, e.iterations)
    decreases maxIterations - t
  {
    if t < maxIterations {
      var p := CheckControls(cs, |cs|, last, t, r);
      PassRecords(cs, last, t, r);
      if p.ok {
        assert AutoscaleLoop(cs, last, t, maxIterations, r) == LoopEnd(t + 1, true, p.last, None);
      } else {
        AutoscaleLoopLastGains(cs, p.last, t + 1, maxIterations, r);
        assert AutoscaleLoop(cs, last, t, maxIterations, r) == AutoscaleLoop(cs, p.last, t + 1, maxIterations, r);
      }
    }
  }

  /** One pass of a well-formed group raises nothing and leaves in the memory
      the gains just read, ready for the next iteration. */
  lemma PassRecords(cs: seq<Control>, last: map<string, int>, t: nat, r: Readings)
    requires WellFormedGroup(cs) && Remembers(cs, last, r, t)
    ensures var p := CheckControls(cs, |cs|, last, t, r);
      p.err.None? && Remembers(cs, p.last, r, t + 1)
  {
    assert PassReady(cs, last);
    CheckControlsReady(cs, |cs|, last, t, r);
    forall j | 0 <= j < |cs|
      ensures var m := Recorded(cs, |cs|, last, t, r);
        cs[j].gainName in m && m[cs[j].gainName] == PreviousGain(r, t + 1, j)
    {
      RecordedHolds(cs, |cs|, last, t, r, j);
    }
  }

  /** One pass of a well-formed group succeeds exactly when the iteration is
      steady. */
  lemma PassSteady(cs: seq<Control>, last: map<string, int>, t: nat, r: Readings)
    requires WellFormedGroup(cs) && Remembers(cs, last, r, t)
    ensures var p := CheckControls(cs, |cs|, last, t, r);
      p.err.None? && (p.ok <==> Steady(cs, r, t)) && Remembers(cs, p.last, r, t + 1)
  {
    PassRecords(cs, last, t, r);
    assert PassReady(cs, last);
    CheckControlsReady(cs, |cs|, last, t, r);
    SteadyUpToMeaning(cs, |cs|, last, t, r);
  }

  /** Hence the loop converges exactly when some iteration before
      `max_iterations` is steady, and it stops at the first one. */
  lemma AutoscaleLoopFirstSteady(cs: seq<Control>, last: map<string, int>, t: nat, maxIterations: int, r: Readings)
    requires WellFormedGroup(cs) && Remembers(cs, last, r, t)
    ensures var e := AutoscaleLoop(cs, last, t, maxIterations, r);
      && (e.complete <==> exists u :: t <= u < maxIterations && Steady(cs, r, u))
      && (e.complete ==> Steady(cs, r, e.iterations - 1) && forall u :: t <= u < e.iterations - 1 ==> !Steady(cs, r, u))
  {
    AutoscaleLoopSteady(cs, last, t, maxIterations, r);
    FirstSteadyLeast(cs, r, t, maxIterations);
  }

  // ------------------------------------------------------------ station state

  /** The scaler PVs the plans save, set and restore. */
  datatype ScalerSettings = ScalerSettings(presetTime: real, delay: real, countMode: string, autoCountDelay: real)

  /** The RunEngine handed to the autoscale plans: only whether it is idle
      matters. */
  datatype RunEngine = RunEngine(idle: bool)

  /** What the amplifier plans change: each scaler's settings, each
      amplifier's autorange mode (keyed by its gain name), the module-global
      `_last_autorange_gain_` (scaler name, then gain name, to gain), the
      number of scaler triggers, the `setGain` calls, the shutter moves and
      the background writes (control and gain range). */
  datatype StationState = StationState(
    scalers: map<string, ScalerSettings>,
    modes: map<string, AutoMode>,
    lastAutorangeGain: map<string, map<string, int>>,
    triggers: nat,
    gainWrites: seq<(Control, int)>,
    shutterMoves: seq<string>,
    backgrounds: seq<(Control, int)>)

  /** A plan's final state and the exception it raised, if any. */
  datatype Outcome = Outcome(state: StationState, err: Option<Error>)

  const AutoscaleDelay: real := 0.02
  const OneShot: string := "OneShot"
  const MissingRunEngine: Error := ValueError("RunEngine instance must be provided")

  function GainNames(cs: seq<Control>): set<string>
  {
    set c | c in cs :: c.gainName
  }

  /** `bps.mv(control.auto.mode, m)` for each control in turn. */
  function WithModes(modes: map<string, AutoMode>, cs: seq<Control>, m: AutoMode): map<string, AutoMode>
  {
    if cs == [] then modes else WithModes(modes, cs[..|cs| - 1], m)[cs[|cs| - 1].gainName := m]
  }

  /** `_last_autorange_gain_[name]`: a scaler seen for the first time gets an
      empty dict. */
  function GainMemory(g: map<string, map<string, int>>, k: string): map<string, int>
  {
    if k in g then g[k] else map[]
  }

  /** What the loop before the iterations did: the `setGain` calls made and
      the gain memory left behind. */
  datatype Start = Start(writes: seq<(Control, int)>, last: map<string, int>)

  /** One control's turn before the iterations: a gain remembered for its
      gain name is written back, and the gain `g` then read is remembered. */
  function StartOne(prev: Start, c: Control, g: int): (s: Start)
    ensures c.gainName in s.last && s.last[c.gainName] == g
  {
    Start(prev.writes + (if c.gainName in prev.last then [(c, prev.last[c.gainName])] else []),
          prev.last[c.gainName := g])
  }

  /** The loop before the iterations, over the first `n` controls. */
  function StartGains(cs: seq<Control>, n: nat, last: map<string, int>, r: Readings): (s: Start)
    requires n <= |cs|
  {
    if n == 0 then Start([], last)
    else StartOne(StartGains(cs, n - 1, last, r), cs[n - 1], r.start(n - 1))
  }

  /** The memory holds each of the first `n` controls' starting reading. */
  predicate RemembersStart(cs: seq<Control>, n: nat, m: map<string, int>, r: Readings)
    requires n <= |cs|
  {
    forall j :: 0 <= j < n ==> cs[j].gainName in m && m[cs[j].gainName] == r.start(j)
  }

  /** The memory agrees with `last` on every name other than the first `n`
      controls' gain names. */
  predicate KeepsOthers(cs: seq<Control>, n: nat, m: map<string, int>, last: map<string, int>)
    requires n <= |cs|
  {
    && m.Keys == last.Keys + GainNames(cs[..n])
    && forall k :: k in last && k !in GainNames(cs[..n]) ==> m[k] == last[k]
  }

  /** The loop before the iterations changes only the controls' gain names. */
  lemma {:induction false} StartGainsKeepOthers(cs: seq<Control>, n: nat, last: map<string, int>, r: Readings)
    requires n <= |cs|
    ensures KeepsOthers(cs, n, StartGains(cs, n, last, r).last, last)
  {
    if n > 0 {
      StartGainsKeepOthers(cs, n - 1, last, r);
      assert cs[..n] == cs[..n - 1] + [cs[n - 1]];
      assert GainNames(cs[..n]) == GainNames(cs[..n - 1]) + {cs[n - 1].gainName};
    }
  }

  /** For distinct gain names, it leaves each control's starting reading in
      the memory, which is what the first iteration compares with. */
  lemma {:induction false} StartGainsRemember(cs: seq<Control>, n: nat, last: map<string, int>, r: Readings)
    requires n <= |cs| && DistinctGainNames(cs)
    ensures RemembersStart(cs, n, StartGains(cs, n, last, r).last, r)
  {
    if n > 0 {
      StartGainsRemember(cs, n - 1, last, r);
      assert forall j :: 0 <= j < n - 1 ==> cs[j].gainName != cs[n - 1].gainName;
    }
  }

  /** Every write is to one of the first `n` controls, with the gain
      remembered for it in `last`. */
  predicate WritesRemembered(writes: seq<(Control, int)>, cs: seq<Control>, n: nat, last: map<string, int>)
    requires n <= |cs|
  {
    forall w :: w in writes ==> w.0 in cs[..n] && w.0.gainName in last && w.1 == last[w.0.gainName]
  }

  /** Writes to the first `n` controls are writes to the first `n + 1`. */
  lemma WritesRememberedGrow(writes: seq<(Control, int)>, cs: seq<Control>, n: nat, last: map<string, int>)
    requires n < |cs| && WritesRemembered(writes, cs, n, last)
    ensures WritesRemembered(writes, cs, n + 1, last)
  {
    forall w | w in writes
      ensures w.0 in cs[..n + 1]
    {
      var i :| 0 <= i < n && cs[..n][i] == w.0;
      assert cs[..n + 1][i] == w.0;
    }
  }

  /** For distinct gain names, the gains written back are exactly the ones
      remembered from an earlier run, each for its own control. */
  lemma {:induction false} StartGainsWrites(cs: seq<Control>, n: nat, last: map<string, int>, r: Readings)
    requires n <= |cs| && DistinctGainNames(cs)
    ensures WritesRemembered(StartGains(cs, n, last, r).writes, cs, n, last)
  {
    if n > 0 {
      StartGainsWrites(cs, n - 1, last, r);
      WritesRememberedGrow(StartGains(cs, n - 1, last, r).writes, cs, n - 1, last);
      StartGainsUnseen(cs, n - 1, last, r);
      StartOneWrites(StartGains(cs, n - 1, last, r), cs, n - 1, last, r.start(n - 1));
    }
  }

  /** Before control `n` is reached, its gain name (distinct from the earlier
      ones) still maps to what `last` held. */
  lemma StartGainsUnseen(cs: seq<Control>, n: nat, last: map<string, int>, r: Readings)
    requires n < |cs| && DistinctGainNames(cs)
    ensures var m := StartGains(cs, n, last, r).last;
      cs[n].gainName in m ==> cs[n].gainName in last && m[cs[n].gainName] == last[cs[n].gainName]
  {
    StartGainsKeepOthers(cs, n, last, r);
    assert cs[n].gainName !in GainNames(cs[..n]) by {
      assert forall j :: 0 <= j < n ==> cs[j].gainName != cs[n].gainName;
    }
  }

  /** Control `n`'s turn adds at most a write of the gain remembered for it. */
  lemma StartOneWrites(prev: Start, cs: seq<Control>, n: nat, last: map<string, int>, g: int)
    requires n < |cs| && WritesRemembered(prev.writes, cs, n + 1, last)
    requires cs[n].gainName in prev.last ==> cs[n].gainName in last && prev.last[cs[n].gainName] == last[cs[n].gainName]
    ensures WritesRemembered(StartOne(prev, cs[n], g).writes, cs, n + 1, last)
  {
    assert cs[n] == cs[..n + 1][n];
  }

  /** `_scaler_autoscale_` on a group, from station state `h`.  The loop
      raising leaves the scaler with the autoscale settings; otherwise they
      are restored and, on convergence, the amplifiers are set to manual. */
  function ScalerAutoscaleSpec(h: StationState, cs: seq<Control>, countTime: real, maxIterations: int,
                               re: Option<RunEngine>, inUserOperations: bool, r: Readings): (o: Outcome)
    requires cs != [] ==> cs[0].scaler in h.scalers
    ensures o.state.scalers.Keys == h.scalers.Keys
  {
    if re.None? then Outcome(h, Some(MissingRunEngine))
    else if cs == [] then Outcome(h, Some(IndexError))
    else
      var k := cs[0].scaler;
      var saved := h.scalers[k];
      var s := StartGains(cs, |cs|, GainMemory(h.lastAutorangeGain, k), r);
      var e := AutoscaleLoop(cs, s.last, 0, maxIterations, r);
      var running := StationState(
        h.scalers[k := ScalerSettings(countTime, AutoscaleDelay, OneShot, saved.autoCountDelay)],
        WithModes(h.modes, cs, Automatic),
        h.lastAutorangeGain[k := e.last],
        h.triggers + e.iterations,
        h.gainWrites + s.writes,
        h.shutterMoves,
        h.backgrounds);
      if e.err.Some? then Outcome(running, e.err)
      else
        Outcome(running.(scalers := running.scalers[k := saved],
                         modes := if e.complete then WithModes(running.modes, cs, Manual) else running.modes),
                AutoscaleVerdict(e.complete, inUserOperations, re.value.idle, maxIterations))
  }

  /** The scaler settings are restored whenever the plan returns normally or
      raises its own AutoscaleError; when the loop raises, the scaler keeps
      the one-shot autoscale settings.  Other scalers are never touched. */
  lemma ScalerAutoscaleRestores(h: StationState, cs: seq<Control>, countTime: real, maxIterations: int,
                                re: Option<RunEngine>, inUserOperations: bool, r: Readings)
    requires cs != [] ==> cs[0].scaler in h.scalers
    ensures var o := ScalerAutoscaleSpec(h, cs, countTime, maxIterations, re, inUserOperations, r);
      && (o.err.None? || o.err.value.AutoscaleError? ==> o.state.scalers == h.scalers)
      && (o.err.Some? && o.err.value.RuntimeError? ==> cs != [] && o.state.scalers[cs[0].scaler].countMode == OneShot)
      && (forall k :: k in h.scalers && (cs == [] || k != cs[0].scaler) ==> o.state.scalers[k] == h.scalers[k])
  {
    if re.Some? && cs != [] {
      var k := cs[0].scaler;
      var s := StartGains(cs, |cs|, GainMemory(h.lastAutorangeGain, k), r);
      var e := AutoscaleLoop(cs, s.last, 0, maxIterations, r);
      var o := ScalerAutoscaleSpec(h, cs, countTime, maxIterations, re, inUserOperations, r);
      AutoscaleLoopErrors(cs, s.last, 0, maxIterations, r);
      if e.err.None? {
        assert o.state.scalers == h.scalers[k := ScalerSettings(countTime, AutoscaleDelay, OneShot, h.scalers[k].autoCountDelay)][k := h.scalers[k]];
      }
    }
  }

  /** Nothing but the group's own scaler and gain memory, the modes, the
      trigger count and the `setGain` calls changes, and the scaler is
      triggered at most `max_iterations` times. */
  lemma ScalerAutoscaleFrame(h: StationState, cs: seq<Control>, countTime: real, maxIterations: int,
                             re: Option<RunEngine>, inUserOperations: bool, r: Readings)
    requires cs != [] ==> cs[0].scaler in h.scalers
    ensures var o := ScalerAutoscaleSpec(h, cs, countTime, maxIterations, re, inUserOperations, r);
      && (forall k :: k in h.lastAutorangeGain && (cs == [] || k != cs[0].scaler) ==>
            k in o.state.lastAutorangeGain && o.state.lastAutorangeGain[k] == h.lastAutorangeGain[k])
      && h.triggers <= o.state.triggers <= h.triggers + (if maxIterations > 0 then maxIterations else 0)
      && o.state.shutterMoves == h.shutterMoves && o.state.backgrounds == h.backgrounds
  {
    if re.Some? && cs != [] {
      var k := cs[0].scaler;
      var s := StartGains(cs, |cs|, GainMemory(h.lastAutorangeGain, k), r);
      var e := AutoscaleLoop(cs, s.last, 0, maxIterations, r);
      AutoscaleLoopBounds(cs, s.last, 0, maxIterations, r);
      var o := ScalerAutoscaleSpec(h, cs, countTime, maxIterations, re, inUserOperations, r);
      assert o.state.lastAutorangeGain == h.lastAutorangeGain[k := e.last];
      assert o.state.triggers == h.triggers + e.iterations;
    }
  }

  /** Every control of the group is in mode `m`. */
  predicate AllInMode(modes: map<string, AutoMode>, cs: seq<Control>, m: AutoMode)
  {
    forall j :: 0 <= j < |cs| ==> cs[j].gainName in modes && modes[cs[j].gainName] == m
  }

  /** Setting the controls' mode to `m` leaves an amplifier already in mode
      `m` in it. */
  lemma {:induction false} WithModesKeeps(modes: map<string, AutoMode>, cs: seq<Control>, m: AutoMode, k: string)
    requires k in modes && modes[k] == m
    ensures k in WithModes(modes, cs, m) && WithModes(modes, cs, m)[k] == m
  {
    if cs != [] {
      WithModesKeeps(modes, cs[..|cs| - 1], m, k);
    }
  }

  /** Setting the controls' mode leaves every one of them in that mode. */
  lemma {:induction false} WithModeSets(modes: map<string, AutoMode>, cs: seq<Control>, m: AutoMode)
    ensures AllInMode(WithModes(modes, cs, m), cs, m)
  {
    if cs != [] {
      var init := cs[..|cs| - 1];
      WithModeSets(modes, init, m);
      assert forall j :: 0 <= j < |init| ==> cs[j] == init[j];
    }
  }

  /** For a well-formed group with a RunEngine, when some iteration before
      `max_iterations` is steady the plan triggers once per iteration up to
      the first such one, sets every amplifier to manual and raises nothing. */
  lemma ScalerAutoscaleConverges(h: StationState, cs: seq<Control>, countTime: real, maxIterations: int,
                                 re: Option<RunEngine>, inUserOperations: bool, r: Readings)
    requires cs != [] && cs[0].scaler in h.scalers && re.Some? && WellFormedGroup(cs)
    requires FirstSteady(cs, r, 0, maxIterations).Some?
    ensures var o := ScalerAutoscaleSpec(h, cs, countTime, maxIterations, re, inUserOperations, r);
      && o.err.None?
      && o.state.triggers == h.triggers + FirstSteady(cs, r, 0, maxIterations).value + 1
      && AllInMode(o.state.modes, cs, Manual)
  {
    var s := StartGains(cs, |cs|, GainMemory(h.lastAutorangeGain, cs[0].scaler), r);
    StartGainsRemember(cs, |cs|, GainMemory(h.lastAutorangeGain, cs[0].scaler), r);
    AutoscaleLoopSteady(cs, s.last, 0, maxIterations, r);
    WithModeSets(WithModes(h.modes, cs, Automatic), cs, Manual);
  }

  /** Otherwise it triggers `max_iterations` times, leaves the amplifiers
      automatic, and raises AutoscaleError exactly in user operations with a
      busy RunEngine. */
  lemma ScalerAutoscaleGivesUp(h: StationState, cs: seq<Control>, countTime: real, maxIterations: int,
                               re: Option<RunEngine>, inUserOperations: bool, r: Readings)
    requires cs != [] && cs[0].scaler in h.scalers && re.Some? && WellFormedGroup(cs)
    requires FirstSteady(cs, r, 0, maxIterations).None?
    ensures var o := ScalerAutoscaleSpec(h, cs, countTime, maxIterations, re, inUserOperations, r);
      && o.state.triggers == h.triggers + (if maxIterations > 0 then maxIterations else 0)
      && AllInMode(o.state.modes, cs, Automatic)
      && (o.err.Some? <==> inUserOperations && !re.value.idle)
      && (o.err.Some? ==> o.err.value.AutoscaleError?)
  {
    var s := StartGains(cs, |cs|, GainMemory(h.lastAutorangeGain, cs[0].scaler), r);
    StartGainsRemember(cs, |cs|, GainMemory(h.lastAutorangeGain, cs[0].scaler), r);
    AutoscaleLoopSteady(cs, s.last, 0, maxIterations, r);
    WithModeSets(h.modes, cs, Automatic);
  }

  /** For a well-formed group with a RunEngine, the gain memory of the group's
      scaler ends with the gains read in the last iteration run (the starting
      readings when no iteration ran). */
  lemma ScalerAutoscaleRemembers(h: StationState, cs: seq<Control>, countTime: real, maxIterations: int,
                                 re: Option<RunEngine>, inUserOperations: bool, r: Readings)
    requires cs != [] && cs[0].scaler in h.scalers && re.Some? && WellFormedGroup(cs)
    ensures var o := ScalerAutoscaleSpec(h, cs, countTime, maxIterations, re, inUserOperations, r);
      && h.triggers <= o.state.triggers
      && cs[0].scaler in o.state.lastAutorangeGain
      && Remembers(cs, o.state.lastAutorangeGain[cs[0].scaler], r, o.state.triggers - h.triggers)
  {
    var s := StartGains(cs, |cs|, GainMemory(h.lastAutorangeGain, cs[0].scaler), r);
    StartGainsRemember(cs, |cs|, GainMemory(h.lastAutorangeGain, cs[0].scaler), r);
    AutoscaleLoopLastGains(cs, s.last, 0, maxIterations, r);
    var e := AutoscaleLoop(cs, s.last, 0, maxIterations, r);
    var o := ScalerAutoscaleSpec(h, cs, countTime, maxIterations, re, inUserOperations, r);
    assert o.state.lastAutorangeGain[cs[0].scaler] == e.last && o.state.triggers == h.triggers + e.iterations;
  }
}
