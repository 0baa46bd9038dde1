/** The instrument-mode plans of instrument/plans/mode_changes.py.

    The same compositions as src/usaxs/plans/mode_changes.py, run on the
    instrument/plans move plans (the `Legacy` variant), with three
    differences: both the CCD and the Ti-filter shutter are closed first,
    `mode_USAXS` raises `terms.USAXS.retune_needed` after moving and skips
    its closing steps when the CCD shutter did not close, and `mode_WAXS`
    resizes the slits only when they are off by more than a threshold.
    Readings taken while a plan runs are parameters. */
module LegacyModeChanges {
  import opened Wrappers
  import opened InstrumentModes
  import opened ModeChanges

  /** The readings the plans act on: `ccd_shutter.isClosed` and, for
      `mode_WAXS`, the slit sizes and their `terms` settings. */
  datatype Readings = Readings(
    ccdClosed: bool,
    guardV: real, guardH: real, guardVSetting: real, guardHSetting: real,
    usaxsV: real, usaxsH: real, vSetting: real, hSetting: real)

  function Abs(x: real): (r: real)
    ensures r >= 0.0 && (r == x || r == -x)
  {
    if x < 0.0 then -x else x
  }

  function Max(a: real, b: real): (r: real)
    ensures r >= a && r >= b && (r == a || r == b)
  {
    if a < b then b else a
  }

  /** The largest guard-slit discrepancy, `max(v_diff, h_diff)`. */
  function GuardOffset(r: Readings): real
  {
    Max(Abs(r.guardV - r.guardVSetting), Abs(r.guardH - r.guardHSetting))
  }

  /** The largest USAXS-slit discrepancy. */
  function UsaxsSlitOffset(r: Readings): real
  {
    Max(Abs(r.usaxsV - r.vSetting), Abs(r.usaxsH - r.hSetting))
  }

  const GuardResize: Step :=
    MoveAxes([Target(GuardSlitH, "terms.SAXS.guard_h_size"), Target(GuardSlitV, "terms.SAXS.guard_v_size")])

  const UsaxsSlitResize: Step :=
    MoveAxes([Target(UsaxsSlitH, "terms.SAXS.h_size"), Target(UsaxsSlitV, "terms.SAXS.v_size")])

  /** The steps before the mode check. */
  function Lead(c: Change): seq<Step>
  {
    var close := CloseShutters([CcdShutter, TiFilterShutter]);
    match c
    case ToUSAXS => [SetState("Moving USAXS to USAXS mode"), close, Other("DCMfeedbackON")]
    case ToSAXS => [SetState("Moving USAXS to SAXS mode"), close]
    case ToWAXS => [SetState("Moving USAXS to WAXS mode"), close]
    case ToOpenBeamPath => [SetState("Moving USAXS to OpenBeamPath mode"), close]
  }

  /** `mode_USAXS` after the moves: positions, then the closing steps only
      when the CCD shutter is closed, then the retune flag only if it moved. */
  function UsaxsTail(moved: bool, r: Readings): seq<Step>
  {
    [MoveAxes([
       Target(ScalerCountMode, "SCALER_AUTOCOUNT_MODE"),
       Target(DStageX, "terms.USAXS.diode.dx"), Target(DStageY, "terms.USAXS.diode.dy"),
       Target(GuardSlitH, "terms.SAXS.usaxs_guard_h_size"), Target(GuardSlitV, "terms.SAXS.usaxs_guard_v_size"),
       Target(UsaxsSlitH, "terms.SAXS.usaxs_h_size"), Target(UsaxsSlitV, "terms.SAXS.usaxs_v_size")])]
    + (if r.ccdClosed then [Other("insertScanFilters"), CloseShutters([CcdShutter]), SetState("USAXS Mode"), StampTime] else [])
    + (if moved then [RetuneNeeded] else [])
  }

  /** `mode_WAXS` after the moves: each slit pair is resized only when off
      by more than its threshold (0.03 for the guard slits, 0.02 for the
      USAXS slits). */
  function WaxsTail(r: Readings): seq<Step>
  {
    (if GuardOffset(r) > 0.03 then [GuardResize, Other("sleep 0.5")] else [])
    + (if UsaxsSlitOffset(r) > 0.02 then [UsaxsSlitResize, Other("sleep 2")] else [])
    + [SetState("WAXS Mode"), StampTime]
  }

  /** The steps after the moves. */
  function Tail(c: Change, moved: bool, r: Readings): seq<Step>
  {
    match c
    case ToUSAXS => UsaxsTail(moved, r)
    case ToSAXS => [SetState("SAXS Mode"), StampTime]
    case ToWAXS => WaxsTail(r)
    case ToOpenBeamPath => []
  }

  /** Every step `mode_USAXS`, `mode_SAXS`, `mode_WAXS` or `mode_OpenBeamPath`
      issues when started in mode `start`. */
  function Plan(c: Change, start: int, r: Readings): seq<Step>
  {
    var moved := start != TargetMode(c);
    Lead(c) + (if moved then MoveSteps(Legacy, c) else []) + Tail(c, moved, r)
  }

  /** Each plan ends in its target mode, whatever mode it started in. */
  lemma PlanReachesTarget(c: Change, start: int, r: Readings)
    ensures ModeAfter(Plan(c, start, r), start) == TargetMode(c)
  {
    var moved := start != TargetMode(c);
    var moves := if moved then MoveSteps(Legacy, c) else [];
    ComposedMode(Lead(c), moves, Tail(c, moved, r), start);
    if moved {
      MoveStepsReachTarget(Legacy, c, start);
    }
  }

  /** A plan writes the mode record exactly when the instrument did not
      already report the target mode. */
  lemma PlanMovesIffNotInTarget(c: Change, start: int, r: Readings)
    ensures WritesNoMode(Plan(c, start, r)) <==> start == TargetMode(c)
  {
    var p := Plan(c, start, r);
    var moved := start != TargetMode(c);
    var lead, tail := Lead(c), Tail(c, moved, r);
    if moved {
      var ms := MoveSteps(Legacy, c);
      assert p == lead + ms + tail;
      assert ms[1] == WriteMode(DIRTY);
      assert p[|lead| + 1] == ms[1];
    } else {
      assert p == lead + tail;
      LeadAndTailWriteNoMode(c, false, r);
    }
  }

  /** The steps around the moves never write the mode record. */
  lemma LeadAndTailWriteNoMode(c: Change, moved: bool, r: Readings)
    ensures WritesNoMode(Lead(c)) && WritesNoMode(Tail(c, moved, r))
  {
  }

  /** Both shutters are closed before anything moves or the mode is dirtied. */
  lemma PlanClosesBothShuttersFirst(c: Change, start: int, r: Readings)
    ensures Plan(c, start, r)[1] == CloseShutters([CcdShutter, TiFilterShutter])
    ensures forall i :: 0 <= i < 2 ==> !Plan(c, start, r)[i].WriteMode? && !Plan(c, start, r)[i].MoveAxes?
  {
  }

  /** `mode_USAXS` raises `retune_needed` exactly when it ran the moves. */
  lemma RetuneNeededIffMoved(start: int, r: Readings)
    ensures RetuneNeeded in Plan(ToUSAXS, start, r) <==> start != USAXS_IN_BEAM
  {
    MoveStepsKinds(Legacy, ToUSAXS);
    var moved := start != USAXS_IN_BEAM;
    assert Plan(ToUSAXS, start, r) == Lead(ToUSAXS) + (if moved then MoveSteps(Legacy, ToUSAXS) else []) + UsaxsTail(moved, r);
  }

  /** `mode_USAXS` inserts the scan filters and reports "USAXS Mode" exactly
      when the CCD shutter reads closed. */
  lemma UsaxsModeStateIffCcdClosed(start: int, r: Readings)
    ensures SetState("USAXS Mode") in Plan(ToUSAXS, start, r) <==> r.ccdClosed
    ensures Other("insertScanFilters") in Plan(ToUSAXS, start, r) <==> r.ccdClosed
  {
    MoveStepsKinds(Legacy, ToUSAXS);
    var moved := start != USAXS_IN_BEAM;
    assert Plan(ToUSAXS, start, r) == Lead(ToUSAXS) + (if moved then MoveSteps(Legacy, ToUSAXS) else []) + UsaxsTail(moved, r);
  }

  /** The moves of `mode_WAXS` contain neither slit resize step. */
  lemma WaxsMovesDoNotResize(x: Step)
    requires x == GuardResize || x == UsaxsSlitResize
    ensures x !in MoveSteps(Legacy, ToWAXS)
  {
    var a := MovePlan(Legacy, SAXSOut);
    var b := MovePlan(Legacy, USAXSOut);
    var c := MovePlan(Legacy, WAXSIn);
    assert MoveSteps(Legacy, ToWAXS) == a + b + c + [];
    ResizeNotInMovePlan(x, SAXSOut);
    ResizeNotInMovePlan(x, USAXSOut);
    ResizeNotInMovePlan(x, WAXSIn);
  }

  /** No step of these move plans is a slit resize: each moving step starts
      with an axis other than the one a resize starts with. */
  lemma ResizeNotInMovePlan(x: Step, t: Transition)
    requires x == GuardResize || x == UsaxsSlitResize
    requires t == SAXSOut || t == USAXSOut || t == WAXSIn
    ensures x !in MovePlan(Legacy, t)
  {
    var p := MovePlan(Legacy, t);
    forall i | 0 <= i < |p|
      ensures p[i] != x
    {
      if p[i].MoveAxes? {
        assert p[i].targets[0].axis != x.targets[0].axis;
      }
    }
  }

  /** The closing steps of `mode_WAXS` resize each slit pair exactly when
      it is off by more than its threshold. */
  lemma WaxsTailResizes(r: Readings)
    ensures GuardResize in WaxsTail(r) <==> GuardOffset(r) > 0.03
    ensures UsaxsSlitResize in WaxsTail(r) <==> UsaxsSlitOffset(r) > 0.02
  {
    assert GuardResize != UsaxsSlitResize by {
      assert GuardResize.targets[0].axis != UsaxsSlitResize.targets[0].axis;
    }
  }

  /** `mode_WAXS` resizes the guard slits exactly when `max(v_diff, h_diff)`
      exceeds 0.03, and the USAXS slits exactly when theirs exceeds 0.02. */
  lemma WaxsSlitThresholds(start: int, r: Readings)
    ensures GuardResize in Plan(ToWAXS, start, r) <==> GuardOffset(r) > 0.03
    ensures UsaxsSlitResize in Plan(ToWAXS, start, r) <==> UsaxsSlitOffset(r) > 0.02
  {
    WaxsMovesDoNotResize(GuardResize);
    WaxsMovesDoNotResize(UsaxsSlitResize);
    WaxsTailResizes(r);
  }

  /** `mode_Imaging`: a state message, then all of `mode_USAXS`. */
  function ImagingPlan(start: int, r: Readings): seq<Step>
  {
    [ImagingNote] + Plan(ToUSAXS, start, r)
  }

  /** What `mode_BlackFly` does after `mode_USAXS`. */
  function BlackFlyTail(): seq<Step>
  {
    [Other("DCMfeedbackOFF"),
     SetState("Preparing for BlackFly imaging mode"),
     CloseShutters([CcdShutter]),
     MoveAxes([Target(DStageX, "terms.USAXS.blackfly.dx"), Target(DStageY, "terms.USAXS.blackfly.dy")]),
     Other("insertBlackflyFilters"),
     OpenShutters([TiFilterShutter]),
     SetState("Ready for BlackFly imaging mode"),
     StampTime,
     MoveAxes([Target(BlackflyAcquire, "1")])]
  }

  /** `mode_BlackFly`. */
  function BlackFlyPlan(start: int, r: Readings): seq<Step>
  {
    Plan(ToUSAXS, start, r) + BlackFlyTail()
  }

  /** What `mode_Radiography` does after `mode_USAXS`; the mono shutter is
      opened only when the beam is ready. */
  function RadiographyTail(beamReady: bool): seq<Step>
  {
    [MoveAxes([Target(MonoFeedback, "MONO_FEEDBACK_ON")]),
     CloseShutters([CcdShutter]),
     MoveAxes([Target(CollectionInProgress, "1")]),
     MoveAxes([
       Target(DStageX, "terms.USAXS.ccd.dx"), Target(DStageY, "terms.USAXS.ccd.dy"),
       Target(UsaxsSlitV, "terms.SAXS.usaxs_v_size"), Target(UsaxsSlitH, "terms.SAXS.usaxs_h_size"),
       Target(GuardSlitV, "terms.SAXS.usaxs_guard_v_size"), Target(GuardSlitH, "terms.SAXS.usaxs_guard_h_size")]),
     Other("insertRadiographyFilters"),
     OpenShutters([TiFilterShutter, CcdShutter]),
     StampTime,
     MoveAxes([Target(CollectionInProgress, "0")]),
     SetState("Radiography Mode")]
    + (if beamReady then [OpenShutters([MonoShutter])] else [])
  }

  /** `mode_Radiography`. */
  function RadiographyPlan(start: int, r: Readings, beamReady: bool): seq<Step>
  {
    Plan(ToUSAXS, start, r) + RadiographyTail(beamReady)
  }

  /** `mode_USAXS` followed by steps that write no mode ends "USAXS in beam". */
  lemma UsaxsThen(tail: seq<Step>, start: int, r: Readings)
    requires WritesNoMode(tail)
    ensures ModeAfter(Plan(ToUSAXS, start, r) + tail, start) == USAXS_IN_BEAM
  {
    PlanReachesTarget(ToUSAXS, start, r);
    ModeAfterConcat(Plan(ToUSAXS, start, r), tail, start);
    ModeAfterNoWrites(tail, USAXS_IN_BEAM);
  }

  /** Imaging mode ends "USAXS in beam", whatever mode it started in. */
  lemma ImagingEndsInUsaxsMode(start: int, r: Readings)
    ensures ModeAfter(ImagingPlan(start, r), start) == USAXS_IN_BEAM
  {
    PlanReachesTarget(ToUSAXS, start, r);
    ModeAfterConcat([ImagingNote], Plan(ToUSAXS, start, r), start);
  }

  /** BlackFly mode ends "USAXS in beam", whatever mode it started in. */
  lemma BlackFlyEndsInUsaxsMode(start: int, r: Readings)
    ensures ModeAfter(BlackFlyPlan(start, r), start) == USAXS_IN_BEAM
  {
    UsaxsThen(BlackFlyTail(), start, r);
  }

  /** Radiography mode ends "USAXS in beam", whatever mode it started in. */
  lemma RadiographyEndsInUsaxsMode(start: int, r: Readings, beamReady: bool)
    ensures ModeAfter(RadiographyPlan(start, r, beamReady), start) == USAXS_IN_BEAM
  {
    UsaxsThen(RadiographyTail(beamReady), start, r);
  }

  /** The shared body of the four legacy mode plans. */
  method ChangeMode(inst: Instrument, c: Change, r: Readings)
    requires inst.Valid() && inst.variant == Legacy
    modifies inst
    ensures inst.Valid() && inst.variant == Legacy
    ensures inst.trace == old(inst.trace) + Plan(c, old(inst.mode), r)
    ensures inst.mode == TargetMode(c)
  {
    var start := inst.mode;
    ghost var t0 := inst.trace;
    var lead := Lead(c);
    LeadAndTailWriteNoMode(c, true, r);
    LeadAndTailWriteNoMode(c, false, r);
    inst.IssueAll(lead);
    ModeAfterNoWrites(lead, start);
    var there := InTargetMode(inst, c);
    ghost var mid: seq<Step> := [];
    if !there {
      RunMoves(inst, c);
      mid := MoveSteps(Legacy, c);
    }
    ghost var t1 := inst.trace;
    assert t1 == t0 + lead + mid;
    var tail := Tail(c, !there, r);
    ModeAfterNoWrites(tail, inst.mode);
    inst.IssueAll(tail);
    Append3(t0, lead, mid, tail);
  }

  /** `mode_USAXS`. */
  method ModeUSAXS(inst: Instrument, r: Readings)
    requires inst.Valid() && inst.variant == Legacy
    modifies inst
    ensures inst.Valid() && inst.variant == Legacy
    ensures inst.trace == old(inst.trace) + Plan(ToUSAXS, old(inst.mode), r)
    ensures inst.mode == USAXS_IN_BEAM
  {
    ChangeMode(inst, ToUSAXS, r);
  }

  /** `mode_SBUSAXS` is `mode_USAXS` under another name. */
  method ModeSBUSAXS(inst: Instrument, r: Readings)
    requires inst.Valid() && inst.variant == Legacy
    modifies inst
    ensures inst.Valid() && inst.variant == Legacy
    ensures inst.trace == old(inst.trace) + Plan(ToUSAXS, old(inst.mode), r)
    ensures inst.mode == USAXS_IN_BEAM
  {
    ModeUSAXS(inst, r);
  }

  /** `mode_SAXS`. */
  method ModeSAXS(inst: Instrument, r: Readings)
    requires inst.Valid() && inst.variant == Legacy
    modifies inst
    ensures inst.Valid() && inst.variant == Legacy
    ensures inst.trace == old(inst.trace) + Plan(ToSAXS, old(inst.mode), r)
    ensures inst.mode == SAXS_IN_BEAM
  {
    ChangeMode(inst, ToSAXS, r);
  }

  /** `mode_WAXS`. */
  method ModeWAXS(inst: Instrument, r: Readings)
    requires inst.Valid() && inst.variant == Legacy
    modifies inst
    ensures inst.Valid() && inst.variant == Legacy
    ensures inst.trace == old(inst.trace) + Plan(ToWAXS, old(inst.mode), r)
    ensures inst.mode == WAXS_IN_BEAM
  {
    ChangeMode(inst, ToWAXS, r);
  }

  /** `mode_OpenBeamPath`. */
  method ModeOpenBeamPath(inst: Instrument, r: Readings)
    requires inst.Valid() && inst.variant == Legacy
    modifies inst
    ensures inst.Valid() && inst.variant == Legacy
    ensures inst.trace == old(inst.trace) + Plan(ToOpenBeamPath, old(inst.mode), r)
    ensures inst.mode == OUT_OF_BEAM
  {
    ChangeMode(inst, ToOpenBeamPath, r);
  }

  /** `mode_Imaging`. */
  method ModeImaging(inst: Instrument, r: Readings)
    requires inst.Valid() && inst.variant == Legacy
    modifies inst
    ensures inst.Valid() && inst.variant == Legacy
    ensures inst.trace == old(inst.trace) + ImagingPlan(old(inst.mode), r)
    ensures inst.mode == USAXS_IN_BEAM
  {
    ghost var t0 := inst.trace;
    var start := inst.mode;
    inst.Issue(ImagingNote);
    ModeUSAXS(inst, r);
    Append2(t0, [ImagingNote], Plan(ToUSAXS, start, r));
  }

  /** `mode_BlackFly`. */
  method ModeBlackFly(inst: Instrument, r: Readings)
    requires inst.Valid() && inst.variant == Legacy
    modifies inst
    ensures inst.Valid() && inst.variant == Legacy
    ensures inst.trace == old(inst.trace) + BlackFlyPlan(old(inst.mode), r)
    ensures inst.mode == USAXS_IN_BEAM
  {
    ghost var t0 := inst.trace;
    var start := inst.mode;
    ModeUSAXS(inst, r);
    ModeAfterNoWrites(BlackFlyTail(), inst.mode);
    inst.IssueAll(BlackFlyTail());
    Append2(t0, Plan(ToUSAXS, start, r), BlackFlyTail());
  }

  /** `mode_Radiography`; `beamReady` is the PSS b-beam-ready reading. */
  method ModeRadiography(inst: Instrument, r: Readings, beamReady: bool)
    requires inst.Valid() && inst.variant == Legacy
    modifies inst
    ensures inst.Valid() && inst.variant == Legacy
    ensures inst.trace == old(inst.trace) + RadiographyPlan(old(inst.mode), r, beamReady)
    ensures inst.mode == USAXS_IN_BEAM
  {
    ghost var t0 := inst.trace;
    var start := inst.mode;
    ModeUSAXS(inst, r);
    ModeAfterNoWrites(RadiographyTail(beamReady), inst.mode);
    inst.IssueAll(RadiographyTail(beamReady));
    Append2(t0, Plan(ToUSAXS, start, r), RadiographyTail(beamReady));
  }
}
