/** The instrument-mode plans of src/usaxs/plans/mode_changes.py.

    Each `mode_*` plan announces itself, closes the USAXS shutter, runs the
    `move_*` plans of src/usaxs/plans (the `Current` variant) unless the
    instrument already reports the target mode, and then puts the remaining
    stages in place.  A plan is modelled as the list of steps it issues; the
    methods issue those steps on an `Instrument` and the lemmas state what
    the lists do to the mode record. */
module ModeChanges {
  import opened Wrappers
  import opened InstrumentModes

  /** What `terms.SAXS.UsaxsSaxsMode.get()` returns: the integer code, or
      (for a record read as text) the mode's name. */
  datatype ModeReading = Code(code: int) | Label(name: string)

  /** `confirm_instrument_mode(mode_name)`: KeyError for a name not in the
      table, otherwise whether the reading is the name's code or the name. */
  function ConfirmInstrumentMode(reading: ModeReading, modeName: string): (r: Result<bool>)
    ensures r.Err? <==> forall i :: 0 <= i < |ModeTable| ==> ModeTable[i].0 != modeName
    ensures r.Err? ==> r.error == KeyError(modeName)
  {
    match ModeCode(modeName)
    case None => Err(KeyError(modeName))
    case Some(expected) => Ok(reading == Code(expected) || reading == Label(modeName))
  }

  /** For every mode of the table, the check holds for exactly the mode's own
      code and exactly the mode's own name. */
  lemma ConfirmAcceptsCodeOrName(i: nat, c: int, n: string)
    requires i < |ModeTable|
    ensures ConfirmInstrumentMode(Code(c), ModeTable[i].0) == Ok(c == ModeTable[i].1)
    ensures ConfirmInstrumentMode(Label(n), ModeTable[i].0) == Ok(n == ModeTable[i].0)
  {
    ModeTableIsBijective();
  }

  /** An unknown mode name is a KeyError whatever the reading. */
  lemma ConfirmRejectsUnknownName(reading: ModeReading)
    ensures ConfirmInstrumentMode(reading, "USAXS mode") == Err(KeyError("USAXS mode"))
  {
    assert forall i :: 0 <= i < |ModeTable| ==> ModeTable[i].0 != "USAXS mode";
  }

  /** Splicing steps that write no mode around `moves` leaves the mode to `moves`. */
  lemma ComposedMode(lead: seq<Step>, moves: seq<Step>, tail: seq<Step>, start: int)
    requires WritesNoMode(lead) && WritesNoMode(tail)
    ensures ModeAfter(lead + moves + tail, start) == ModeAfter(moves, start)
  {
    ModeAfterConcat(lead + moves, tail, start);
    ModeAfterConcat(lead, moves, start);
    ModeAfterNoWrites(lead, start);
    ModeAfterNoWrites(tail, ModeAfter(moves, start));
  }

  /** Three move plans in a row leave the third one's final mode. */
  lemma ThreeMovesMode(v: Variant, a: Transition, b: Transition, c: Transition, start: int)
    ensures ModeAfter(MovePlan(v, a) + MovePlan(v, b) + MovePlan(v, c), start) == FinalMode(c)
  {
    ModeAfterConcat(MovePlan(v, a) + MovePlan(v, b), MovePlan(v, c), start);
    MovePlanEndsInFinalMode(v, c, ModeAfter(MovePlan(v, a) + MovePlan(v, b), start));
  }

  /** The plans that change the mode the same way: announce, close, move
      unless already there, finish. */
  datatype Change = ToUSAXS | ToSAXS | ToWAXS | ToOpenBeamPath

  /** The mode each plan is meant to reach. */
  function TargetMode(c: Change): int
  {
    match c
    case ToUSAXS => USAXS_IN_BEAM
    case ToSAXS => SAXS_IN_BEAM
    case ToWAXS => WAXS_IN_BEAM
    case ToOpenBeamPath => OUT_OF_BEAM
  }

  /** The mode-table name `confirm_instrument_mode` is asked about. */
  function TargetName(c: Change): string
  {
    match c
    case ToUSAXS => "USAXS in beam"
    case ToSAXS => "SAXS in beam"
    case ToWAXS => "WAXS in beam"
    case ToOpenBeamPath => "out of beam"
  }

  /** `user_data.time_stamp` and `macro_file_time` set to now, `scanning` to 0. */
  const StampTime: Step := Other("time_stamp, macro_file_time := now; scanning := 0")

  /** The steps before the mode check. */
  function Lead(c: Change): seq<Step>
  {
    match c
    case ToUSAXS =>
      [SetState("Moving USAXS to USAXS mode"), CloseShutters([UsaxsShutter]), Other("MONO_FEEDBACK_ON")]
    case ToSAXS =>
      [SetState("Moving USAXS to SAXS mode"), CloseShutters([UsaxsShutter]),
       MoveAxes([Target(MStageX, "0"), Target(GSlitStageX, "terms.USAXS.AX0")])]
    case ToWAXS =>
      [SetState("Moving USAXS to WAXS mode"), CloseShutters([UsaxsShutter]),
       MoveAxes([Target(MStageX, "0"), Target(GSlitStageX, "terms.USAXS.AX0")])]
    case ToOpenBeamPath =>
      [SetState("Moving USAXS to OpenBeamPath mode"), CloseShutters([UsaxsShutter])]
  }

  /** The three move plans run when the instrument is not in the target mode. */
  function Moves(c: Change): (ts: seq<Transition>)
    ensures |ts| == 3
  {
    match c
    case ToUSAXS => [WAXSOut, SAXSOut, USAXSIn]
    case ToSAXS => [WAXSOut, USAXSOut, SAXSIn]
    case ToWAXS => [SAXSOut, USAXSOut, WAXSIn]
    case ToOpenBeamPath => [SAXSOut, WAXSOut, USAXSOut]
  }

  /** The steps of the moves, plus the state message `mode_OpenBeamPath`
      sets only after moving. */
  function MoveSteps(v: Variant, c: Change): seq<Step>
  {
    var ts := Moves(c);
    MovePlan(v, ts[0]) + MovePlan(v, ts[1]) + MovePlan(v, ts[2])
    + (if c == ToOpenBeamPath then [SetState("USAXS moved to OpenBeamPath mode")] else [])
  }

  /** The steps after the moves. */
  function Tail(c: Change): seq<Step>
  {
    match c
    case ToUSAXS =>
      [Other("insertScanFilters"),
       MoveAxes([
         Target(ScalerCountMode, "SCALER_AUTOCOUNT_MODE"), Target(AStageX, "terms.USAXS.AX0"),
         Target(MStageX, "0"), Target(GSlitStageX, "terms.USAXS.AX0"),
         Target(DStageX, "terms.USAXS.DX0"), Target(DStageY, "terms.USAXS.dy_in"),
         Target(GuardSlitH, "terms.USAXS.guard_h_size"), Target(GuardSlitV, "terms.USAXS.guard_v_size"),
         Target(UsaxsSlitH, "terms.USAXS.usaxs_h_size"), Target(UsaxsSlitV, "terms.USAXS.usaxs_v_size"),
         Target(BlackflyAcquire, "0")]),
       SetState("USAXS Mode"), StampTime]
    case ToSAXS => [SetState("SAXS Mode"), StampTime]
    case ToWAXS => [SetState("WAXS Mode"), StampTime]
    case ToOpenBeamPath => []
  }

  /** Every step `mode_USAXS`, `mode_SAXS`, `mode_WAXS` or `mode_OpenBeamPath`
      issues when started in mode `start`. */
  function Plan(c: Change, start: int): seq<Step>
  {
    Lead(c) + (if start != TargetMode(c) then MoveSteps(Current, c) else []) + Tail(c)
  }

  /** The three moves of a plan, in any variant, end in the plan's target mode. */
  lemma MoveStepsReachTarget(v: Variant, c: Change, start: int)
    ensures ModeAfter(MoveSteps(v, c), start) == TargetMode(c)
  {
    var ts := Moves(c);
    var extra := if c == ToOpenBeamPath then [SetState("USAXS moved to OpenBeamPath mode")] else [];
    var three := MovePlan(v, ts[0]) + MovePlan(v, ts[1]) + MovePlan(v, ts[2]);
    ModeAfterConcat(three, extra, start);
    ThreeMovesMode(v, ts[0], ts[1], ts[2], start);
    ModeAfterNoWrites(extra, FinalMode(ts[2]));
  }

  /** Each plan ends in its target mode, whatever mode it started in. */
  lemma PlanReachesTarget(c: Change, start: int)
    ensures ModeAfter(Plan(c, start), start) == TargetMode(c)
  {
    var moves := if start != TargetMode(c) then MoveSteps(Current, c) else [];
    ComposedMode(Lead(c), moves, Tail(c), start);
    if start != TargetMode(c) {
      MoveStepsReachTarget(Current, c, start);
    }
  }

  /** A plan writes the mode record (runs any move plan) exactly when the
      instrument did not already report the target mode. */
  lemma PlanMovesIffNotInTarget(c: Change, start: int)
    ensures WritesNoMode(Plan(c, start)) <==> start == TargetMode(c)
  {
    var p := Plan(c, start);
    if start != TargetMode(c) {
      assert p[|Lead(c)| + 1] == WriteMode(DIRTY);
    }
  }

  /** When not already there, the plan runs its three move plans right after
      the lead steps, each in full and in the listed order. */
  lemma PlanRunsMovesInOrder(c: Change, start: int)
    requires start != TargetMode(c)
    ensures Plan(c, start)[|Lead(c)|..|Lead(c)| + |MoveSteps(Current, c)|] == MoveSteps(Current, c)
  {
    var p := Plan(c, start);
    assert p == Lead(c) + MoveSteps(Current, c) + Tail(c);
  }

  /** Every path through the plans starts by announcing the change and
      commanding the USAXS shutter closed.  In the SAXS and WAXS changes the
      close is issued in the same move as the first stage motion, so the
      shutter is not closed before that motion starts, only commanded in
      the same first move. */
  lemma PlanClosesShutterFirst(c: Change, start: int)
    ensures Plan(c, start)[0].SetState? && Plan(c, start)[1] == CloseShutters([UsaxsShutter])
  {
  }

  /** The state message `mode_Imaging` sets first. */
  const ImagingNote: Step := SetState("Moving USAXS to Imaging mode (same as USAXS mode now)")

  /** `mode_Imaging`: a state message, then all of `mode_USAXS`. */
  function ImagingPlan(start: int): seq<Step>
  {
    [ImagingNote] + Plan(ToUSAXS, start)
  }

  /** What `mode_DirectBeam` does after `mode_USAXS`: the BlackFly set-up. */
  function DirectBeamTail(): seq<Step>
  {
    [Other("MONO_FEEDBACK_ON"),
     SetState("Preparing for BlackFly imaging mode"),
     MoveAxes([
       Target(DStageX, "terms.USAXS.blackfly.dx"), Target(DStageY, "terms.USAXS.blackfly.dy"),
       Target(MStageX, "-200"), Target(AStageX, "-200"), Target(GSlitStageX, "0")]),
     Other("insertBlackflyFilters"),
     OpenShutters([UsaxsShutter]),
     SetState("Ready for BlackFly direct beam visualization mode"),
     StampTime,
     MoveAxes([Target(CollectionInProgress, "0"), Target(BlackflyAcquire, "1")])]
  }

  /** `mode_DirectBeam`. */
  function DirectBeamPlan(start: int): seq<Step>
  {
    Plan(ToUSAXS, start) + DirectBeamTail()
  }

  /** What `mode_Radiography` does after `mode_USAXS`; the mono shutter is
      opened only when the beam is ready. */
  function RadiographyTail(beamReady: bool): seq<Step>
  {
    [Other("MONO_FEEDBACK_ON"),
     MoveAxes([
       Target(CollectionInProgress, "1"),
       Target(DStageX, "terms.USAXS.ccd.dx"), Target(DStageY, "terms.USAXS.ccd.dy"),
       Target(UsaxsSlitV, "terms.SAXS.usaxs_v_size"), Target(UsaxsSlitH, "terms.SAXS.usaxs_h_size"),
       Target(GuardSlitV, "terms.SAXS.usaxs_guard_v_size"), Target(GuardSlitH, "terms.SAXS.usaxs_guard_h_size")]),
     Other("insertRadiographyFilters"),
     OpenShutters([UsaxsShutter]),
     StampTime,
     MoveAxes([Target(CollectionInProgress, "0"), Target(BlackflyAcquire, "1")]),
     SetState("Radiography Mode")]
    + (if beamReady then [OpenShutters([MonoShutter])] else [])
  }

  /** `mode_Radiography`. */
  function RadiographyPlan(start: int, beamReady: bool): seq<Step>
  {
    Plan(ToUSAXS, start) + RadiographyTail(beamReady)
  }

  /** `mode_USAXS` followed by steps that write no mode ends "USAXS in beam". */
  lemma UsaxsThen(lead: seq<Step>, tail: seq<Step>, start: int)
    requires WritesNoMode(lead) && WritesNoMode(tail)
    ensures ModeAfter(lead + Plan(ToUSAXS, start) + tail, start) == USAXS_IN_BEAM
  {
    PlanReachesTarget(ToUSAXS, start);
    ComposedMode(lead, Plan(ToUSAXS, start), tail, start);
  }

  /** Imaging mode ends "USAXS in beam", whatever mode it started in. */
  lemma ImagingEndsInUsaxsMode(start: int)
    ensures ModeAfter(ImagingPlan(start), start) == USAXS_IN_BEAM
  {
    UsaxsThen([ImagingNote], [], start);
    assert ImagingPlan(start) == [ImagingNote] + Plan(ToUSAXS, start) + [];
  }

  /** Direct-beam mode ends "USAXS in beam", whatever mode it started in. */
  lemma DirectBeamEndsInUsaxsMode(start: int)
    ensures ModeAfter(DirectBeamPlan(start), start) == USAXS_IN_BEAM
  {
    UsaxsThen([], DirectBeamTail(), start);
    assert DirectBeamPlan(start) == [] + Plan(ToUSAXS, start) + DirectBeamTail();
  }

  /** Radiography mode ends "USAXS in beam", whatever mode it started in. */
  lemma RadiographyEndsInUsaxsMode(start: int, beamReady: bool)
    ensures ModeAfter(RadiographyPlan(start, beamReady), start) == USAXS_IN_BEAM
  {
    UsaxsThen([], RadiographyTail(beamReady), start);
    assert RadiographyPlan(start, beamReady) == [] + Plan(ToUSAXS, start) + RadiographyTail(beamReady);
  }

  /** The radiography set-up opens the mono shutter only as its last step,
      and only when the beam is ready. */
  lemma RadiographyTailOpensMonoIffReady(beamReady: bool)
    ensures OpenShutters([MonoShutter]) in RadiographyTail(beamReady) <==> beamReady
  {
    var t := RadiographyTail(beamReady);
    if !beamReady {
      forall k | 0 <= k < |t|
        ensures t[k] != OpenShutters([MonoShutter])
      {
      }
    }
  }

  /** Radiography opens the mono shutter exactly when the beam is ready. */
  lemma RadiographyOpensMonoShutterIffReady(start: int, beamReady: bool)
    ensures OpenShutters([MonoShutter]) in RadiographyPlan(start, beamReady) <==> beamReady
  {
    MonoShutterNotInUsaxsPlan(start);
    RadiographyTailOpensMonoIffReady(beamReady);
  }

  /** Move plans only close shutters, write the mode and move motors. */
  lemma MovePlanKinds(v: Variant, t: Transition)
    ensures forall x :: x in MovePlan(v, t) ==> x.CloseShutters? || x.WriteMode? || x.MoveAxes?
  {
  }

  /** The steps of the three moves are steps of the three move plans, and
      the OpenBeamPath state message. */
  lemma MoveStepsKinds(v: Variant, c: Change)
    ensures forall x :: x in MoveSteps(v, c) ==>
      x.CloseShutters? || x.WriteMode? || x.MoveAxes? || x == SetState("USAXS moved to OpenBeamPath mode")
  {
    var ts := Moves(c);
    MovePlanKinds(v, ts[0]);
    MovePlanKinds(v, ts[1]);
    MovePlanKinds(v, ts[2]);
  }

  /** `mode_USAXS` never opens the mono shutter. */
  lemma MonoShutterNotInUsaxsPlan(start: int)
    ensures OpenShutters([MonoShutter]) !in Plan(ToUSAXS, start)
  {
    MoveStepsKinds(Current, ToUSAXS);
  }

  /** Check the mode, as the plans do, for one of the four target modes. */
  method InTargetMode(inst: Instrument, c: Change) returns (inTarget: bool)
    ensures inTarget <==> inst.mode == TargetMode(c)
  {
    var i: nat := match c
      case ToUSAXS => 2
      case ToSAXS => 3
      case ToWAXS => 4
      case ToOpenBeamPath => 1;
    ConfirmAcceptsCodeOrName(i, inst.mode, "");
    assert ModeTable[i] == (TargetName(c), TargetMode(c));
    var confirmed := ConfirmInstrumentMode(Code(inst.mode), TargetName(c));
    inTarget := confirmed == Ok(true);
  }

  /** One `move_*` plan; an in-move only where the model has just moved
      everything out, so its out-of-beam check passes. */
  method RunMove(inst: Instrument, t: Transition)
    requires inst.Valid() && (IsIn(t) ==> inst.mode == OUT_OF_BEAM)
    modifies inst
    ensures inst.Valid()
    ensures inst.trace == old(inst.trace) + MovePlan(inst.variant, t)
    ensures inst.mode == FinalMode(t)
  {
    match t
    case WAXSOut => inst.MoveWAXSOut();
    case SAXSOut => inst.MoveSAXSOut();
    case USAXSOut => inst.MoveUSAXSOut();
    case WAXSIn => var err := inst.MoveWAXSIn();
    case SAXSIn => var err := inst.MoveSAXSIn();
    case USAXSIn => var err := inst.MoveUSAXSIn();
  }

  lemma Append2<T>(t: seq<T>, a: seq<T>, b: seq<T>)
    ensures t + a + b == t + (a + b)
  {
  }

  lemma Append3<T>(t: seq<T>, a: seq<T>, b: seq<T>, c: seq<T>)
    ensures t + a + b + c == t + (a + b + c)
  {
  }

  /** The first two moves of every plan are out-moves, and the last one
      writes the plan's target mode. */
  lemma FirstMovesAreOut(c: Change)
    ensures !IsIn(Moves(c)[0]) && !IsIn(Moves(c)[1])
    ensures FinalMode(Moves(c)[2]) == TargetMode(c)
  {
  }

  /** The moves of a plan: three `move_*` plans in order, then the
      OpenBeamPath state message where it applies. */
  method RunMoves(inst: Instrument, c: Change)
    requires inst.Valid()
    modifies inst
    ensures inst.Valid()
    ensures inst.trace == old(inst.trace) + MoveSteps(inst.variant, c)
    ensures inst.mode == TargetMode(c)
  {
    ghost var t0 := inst.trace;
    var ts := Moves(c);
    FirstMovesAreOut(c);
    RunMove(inst, ts[0]);
    RunMove(inst, ts[1]);
    RunMove(inst, ts[2]);
    ghost var extra: seq<Step> := [];
    if c == ToOpenBeamPath {
      extra := [SetState("USAXS moved to OpenBeamPath mode")];
      inst.Issue(SetState("USAXS moved to OpenBeamPath mode"));
    }
    Append4(t0, MovePlan(inst.variant, ts[0]), MovePlan(inst.variant, ts[1]), MovePlan(inst.variant, ts[2]), extra);
  }

  lemma Append4<T>(t: seq<T>, a: seq<T>, b: seq<T>, c: seq<T>, d: seq<T>)
    ensures t + a + b + c + d == t + (a + b + c + d)
  {
  }

  /** The body `mode_USAXS`, `mode_SAXS`, `mode_WAXS` and `mode_OpenBeamPath`
      share: lead steps, the mode check, the moves if needed, tail steps. */
  method ChangeMode(inst: Instrument, c: Change)
    requires inst.Valid() && inst.variant == Current
    modifies inst
    ensures inst.Valid() && inst.variant == Current
    ensures inst.trace == old(inst.trace) + Plan(c, old(inst.mode))
    ensures inst.mode == TargetMode(c)
  {
    var start := inst.mode;
    ghost var t0 := inst.trace;
    var lead := Lead(c);
    inst.IssueAll(lead);
    ModeAfterNoWrites(lead, start);
    var there := InTargetMode(inst, c);
    ghost var mid: seq<Step> := [];
    if !there {
      RunMoves(inst, c);
      mid := MoveSteps(Current, c);
    }
    ghost var t1 := inst.trace;
    assert t1 == t0 + lead + mid;
    ModeAfterNoWrites(Tail(c), inst.mode);
    inst.IssueAll(Tail(c));
    Append3(t0, lead, mid, Tail(c));
  }

  /** `mode_USAXS`. */
  method ModeUSAXS(inst: Instrument)
    requires inst.Valid() && inst.variant == Current
    modifies inst
    ensures inst.Valid() && inst.variant == Current
    ensures inst.trace == old(inst.trace) + Plan(ToUSAXS, old(inst.mode))
    ensures inst.mode == USAXS_IN_BEAM
  {
    ChangeMode(inst, ToUSAXS);
  }

  /** `mode_SBUSAXS` is `mode_USAXS` under another name. */
  method ModeSBUSAXS(inst: Instrument)
    requires inst.Valid() && inst.variant == Current
    modifies inst
    ensures inst.Valid() && inst.variant == Current
    ensures inst.trace == old(inst.trace) + Plan(ToUSAXS, old(inst.mode))
    ensures inst.mode == USAXS_IN_BEAM
  {
    ModeUSAXS(inst);
  }

  /** `mode_SAXS`. */
  method ModeSAXS(inst: Instrument)
    requires inst.Valid() && inst.variant == Current
    modifies inst
    ensures inst.Valid() && inst.variant == Current
    ensures inst.trace == old(inst.trace) + Plan(ToSAXS, old(inst.mode))
    ensures inst.mode == SAXS_IN_BEAM
  {
    ChangeMode(inst, ToSAXS);
  }

  /** `mode_WAXS`. */
  method ModeWAXS(inst: Instrument)
    requires inst.Valid() && inst.variant == Current
    modifies inst
    ensures inst.Valid() && inst.variant == Current
    ensures inst.trace == old(inst.trace) + Plan(ToWAXS, old(inst.mode))
    ensures inst.mode == WAXS_IN_BEAM
  {
    ChangeMode(inst, ToWAXS);
  }

  /** `mode_OpenBeamPath`. */
  method ModeOpenBeamPath(inst: Instrument)
    requires inst.Valid() && inst.variant == Current
    modifies inst
    ensures inst.Valid() && inst.variant == Current
    ensures inst.trace == old(inst.trace) + Plan(ToOpenBeamPath, old(inst.mode))
    ensures inst.mode == OUT_OF_BEAM
  {
    ChangeMode(inst, ToOpenBeamPath);
  }

  /** `mode_Imaging`. */
  method ModeImaging(inst: Instrument)
    requires inst.Valid() && inst.variant == Current
    modifies inst
    ensures inst.Valid() && inst.variant == Current
    ensures inst.trace == old(inst.trace) + ImagingPlan(old(inst.mode))
    ensures inst.mode == USAXS_IN_BEAM
  {
    ghost var t0 := inst.trace;
    var start := inst.mode;
    inst.Issue(ImagingNote);
    ModeUSAXS(inst);
    Append2(t0, [ImagingNote], Plan(ToUSAXS, start));
  }

  /** `mode_DirectBeam`. */
  method ModeDirectBeam(inst: Instrument)
    requires inst.Valid() && inst.variant == Current
    modifies inst
    ensures inst.Valid() && inst.variant == Current
    ensures inst.trace == old(inst.trace) + DirectBeamPlan(old(inst.mode))
    ensures inst.mode == USAXS_IN_BEAM
  {
    ghost var t0 := inst.trace;
    var start := inst.mode;
    ModeUSAXS(inst);
    ModeAfterNoWrites(DirectBeamTail(), inst.mode);
    inst.IssueAll(DirectBeamTail());
    Append2(t0, Plan(ToUSAXS, start), DirectBeamTail());
  }

  /** `mode_Radiography`; `beamReady` is the PSS e-beam-ready reading. */
  method ModeRadiography(inst: Instrument, beamReady: bool)
    requires inst.Valid() && inst.variant == Current
    modifies inst
    ensures inst.Valid() && inst.variant == Current
    ensures inst.trace == old(inst.trace) + RadiographyPlan(old(inst.mode), beamReady)
    ensures inst.mode == USAXS_IN_BEAM
  {
    ghost var t0 := inst.trace;
    var start := inst.mode;
    ModeUSAXS(inst);
    ModeAfterNoWrites(RadiographyTail(beamReady), inst.mode);
    inst.IssueAll(RadiographyTail(beamReady));
    Append2(t0, Plan(ToUSAXS, start), RadiographyTail(beamReady));
  }
}
