/** The USAXS/SAXS/WAXS instrument-mode state machine of move_instrument.py.

    The EPICS record `terms.SAXS.UsaxsSaxsMode` holds an integer mode code.
    Each `move_*Out`/`move_*In` plan closes shutters, marks the mode "dirty",
    moves motors, then writes the final mode.  Three copies of the plans exist
    (src/usaxs/plans, instrument/plans and src/usaxs/original_plans); they
    share the mode table and differ in which shutters they close and which
    motors they move, captured here by `Variant`. */
module InstrumentModes {
  import opened Wrappers
  import Text

  // The `UsaxsSaxsModes` codes.
  const DIRTY: int := -1
  const OUT_OF_BEAM: int := 1
  const USAXS_IN_BEAM: int := 2
  const SAXS_IN_BEAM: int := 3
  const WAXS_IN_BEAM: int := 4
  const IMAGING_IN: int := 5
  const IMAGING_TUNING: int := 6

  /** The `UsaxsSaxsModes` dictionary, in declaration order. */
  const ModeTable: seq<(string, int)> := [
    ("dirty", DIRTY),
    ("out of beam", OUT_OF_BEAM),
    ("USAXS in beam", USAXS_IN_BEAM),
    ("SAXS in beam", SAXS_IN_BEAM),
    ("WAXS in beam", WAXS_IN_BEAM),
    ("Imaging in", IMAGING_IN),
    ("Imaging tuning", IMAGING_TUNING)
  ]

  function LookupName(table: seq<(string, int)>, name: string): (r: Option<int>)
    ensures r.Some? <==> exists i :: 0 <= i < |table| && table[i].0 == name
  {
    if table == [] then None
    else if table[0].0 == name then Some(table[0].1)
    else LookupName(table[1..], name)
  }

  function LookupCode(table: seq<(string, int)>, code: int): (r: Option<string>)
    ensures r.Some? <==> exists i :: 0 <= i < |table| && table[i].1 == code
    ensures r.Some? ==> exists i :: 0 <= i < |table| && table[i] == (r.value, code)
  {
    if table == [] then None
    else if table[0].1 == code then Some(table[0].0)
    else LookupCode(table[1..], code)
  }

  /** `UsaxsSaxsModes[name]`; `None` where Python raises KeyError. */
  function ModeCode(name: string): (r: Option<int>)
    ensures r.Some? <==> exists i :: 0 <= i < |ModeTable| && ModeTable[i].0 == name
  {
    LookupName(ModeTable, name)
  }

  /** `{v: k for k, v in UsaxsSaxsModes.items()}.get(code, "undefined")`. */
  function ModeLabel(code: int): (r: string)
    ensures (r == "undefined") <==> forall i :: 0 <= i < |ModeTable| ==> ModeTable[i].1 != code
  {
    match LookupCode(ModeTable, code)
    case Some(name) => name
    case None => "undefined"
  }

  /** No two entries of the mode table share a name or a code. */
  predicate DistinctEntries(table: seq<(string, int)>) {
    forall a, b :: 0 <= a < b < |table| ==> table[a].1 != table[b].1 && table[a].0 != table[b].0
  }

  /** The seven codes are pairwise distinct, so the reverse table loses nothing:
      every name maps to its code and back. */
  lemma ModeTableIsBijective()
    ensures DistinctEntries(ModeTable)
    ensures forall i :: 0 <= i < |ModeTable| ==>
      ModeCode(ModeTable[i].0) == Some(ModeTable[i].1) && ModeLabel(ModeTable[i].1) == ModeTable[i].0
  {
    assert DistinctEntries(ModeTable) by {
      forall a, b | 0 <= a < b < |ModeTable|
        ensures ModeTable[a].1 != ModeTable[b].1 && ModeTable[a].0 != ModeTable[b].0
      {
        assert ModeTable[a].1 == [-1, 1, 2, 3, 4, 5, 6][a];
        assert ModeTable[b].1 == [-1, 1, 2, 3, 4, 5, 6][b];
        assert |ModeTable[a].0| != |ModeTable[b].0| || ModeTable[a].0[0] != ModeTable[b].0[0];
      }
    }
    forall i | 0 <= i < |ModeTable|
      ensures ModeCode(ModeTable[i].0) == Some(ModeTable[i].1) && ModeLabel(ModeTable[i].1) == ModeTable[i].0
    {
      LookupDistinct(ModeTable, i);
    }
  }

  /** In a table whose names and codes are distinct, each entry is found by
      its name and by its code. */
  lemma {:induction false} LookupDistinct(table: seq<(string, int)>, i: nat)
    requires i < |table|
    requires DistinctEntries(table)
    ensures LookupName(table, table[i].0) == Some(table[i].1)
    ensures LookupCode(table, table[i].1) == Some(table[i].0)
  {
    if i > 0 {
      assert table[0].0 != table[i].0 && table[0].1 != table[i].1;
      assert table[1..][i - 1] == table[i];
      LookupDistinct(table[1..], i - 1);
    }
  }

  /** The ValueError text of `confirmUsaxsSaxsOutOfBeam`, given the code as
      text and its label. */
  function NotOutOfBeamText(codeText: string, modeLabel: string): string
  {
    "Incorrect UsaxsSaxsMode mode found (" + codeText + ", " + modeLabel + ")."
    + "  If SAXS, WAXS, and USAXS really are out of beam, type: "
    + " terms.SAXS.UsaxsSaxsMode.put(" + Text.IntToString(OUT_OF_BEAM) + ")"
  }

  /** `confirmUsaxsSaxsOutOfBeam()`: the ValueError it raises, if any. */
  function ConfirmOutOfBeam(actual: int): (r: Option<Error>)
    ensures r.None? <==> actual == OUT_OF_BEAM
    ensures r.Some? ==> r.value == ValueError(NotOutOfBeamText(Text.IntToString(actual), ModeLabel(actual)))
  {
    if actual != OUT_OF_BEAM then Some(ValueError(NotOutOfBeamText(Text.IntToString(actual), ModeLabel(actual)))) else None
  }

  /** An unknown code is reported with the label "undefined", and the hint
      names code 1. */
  lemma UnknownCodeReportedUndefined(actual: int)
    requires actual !in {-1, 1, 2, 3, 4, 5, 6}
    ensures ConfirmOutOfBeam(actual) == Some(ValueError(NotOutOfBeamText(Text.IntToString(actual), "undefined")))
    ensures Text.IntToString(OUT_OF_BEAM) == "1"
  {
    assert Text.NatToString(1) == [Text.DigitChar(1)] == "1";
    assert forall i :: 0 <= i < |ModeTable| ==> ModeTable[i].1 in {-1, 1, 2, 3, 4, 5, 6};
  }

  /** Which copy of the plans: src/usaxs/plans (Current), instrument/plans
      (Legacy) or src/usaxs/original_plans (Original). */
  datatype Variant = Current | Legacy | Original

  datatype Shutter = TiFilterShutter | CcdShutter | UsaxsShutter | MonoShutter

  /** The motors, and the few other signals, that mode plans drive. */
  datatype Axis =
    | WaxsX | GuardSlitV | GuardSlitH | UsaxsSlitV | UsaxsSlitH | UsaxsSlitX
    | SaxsZ | SaxsY | AStageX | AStageY | DStageX | DStageY | MStageX | GSlitStageX
    | ScalerCountMode | BlackflyAcquire | CollectionInProgress | MonoFeedback

  /** A motor or signal and the setting (a `terms` entry or a literal) it is driven to. */
  datatype Target = Target(axis: Axis, setting: string)

  /** One step of a bluesky plan as the model records it. */
  datatype Step =
    | CloseShutters(shutters: seq<Shutter>)   // one `bps.mv(shutter, "close", ...)`
    | OpenShutters(shutters: seq<Shutter>)    // one `bps.mv(shutter, "open", ...)`
    | RetuneNeeded                            // `bps.mv(terms.USAXS.retune_needed, True)`
    | WriteMode(code: int)                    // `bps.mv(terms.SAXS.UsaxsSaxsMode, code)`
    | MoveAxes(targets: seq<Target>)          // one `bps.mv` of several motors together
    | SetState(msg: string)                   // `user_data.set_state_plan(msg)`
    | Other(what: string)                     // any other plan step, by name

  datatype Transition = WAXSOut | WAXSIn | SAXSOut | SAXSIn | USAXSOut | USAXSIn

  predicate IsIn(t: Transition) { t == WAXSIn || t == SAXSIn || t == USAXSIn }

  /** The mode a transition writes last. */
  function FinalMode(t: Transition): (code: int)
    ensures IsIn(t) <==> code != OUT_OF_BEAM
  {
    match t
    case WAXSOut => OUT_OF_BEAM
    case SAXSOut => OUT_OF_BEAM
    case USAXSOut => OUT_OF_BEAM
    case WAXSIn => WAXS_IN_BEAM
    case SAXSIn => SAXS_IN_BEAM
    case USAXSIn => USAXS_IN_BEAM
  }

  /** The shutters every move plan of a variant closes first. */
  function Shutters(v: Variant): seq<Shutter>
  {
    match v
    case Current => [TiFilterShutter]
    case Legacy => [CcdShutter, TiFilterShutter]
    case Original => [UsaxsShutter]
  }

  /** The motor steps between the "dirty" write and the final mode write. */
  function Motions(v: Variant, t: Transition): seq<Step>
  {
    match t
    case WAXSOut => [MoveAxes([Target(WaxsX, "terms.WAXS.x_out")])]
    case WAXSIn => [MoveAxes([
        Target(GuardSlitV, "terms.SAXS.guard_v_size"), Target(GuardSlitH, "terms.SAXS.guard_h_size"),
        Target(WaxsX, "terms.WAXS.x_in"),
        Target(UsaxsSlitV, "terms.SAXS.v_size"), Target(UsaxsSlitH, "terms.SAXS.h_size")])]
    case SAXSOut => [MoveAxes([Target(SaxsZ, "terms.SAXS.z_out")]), MoveAxes([Target(SaxsY, "terms.SAXS.y_out")])]
    case SAXSIn =>
      if v == Current then
        [MoveAxes([
          Target(GuardSlitV, "terms.SAXS.guard_v_size"), Target(GuardSlitH, "terms.SAXS.guard_h_size"),
          Target(SaxsZ, "terms.SAXS.z_in"), Target(SaxsY, "terms.SAXS.y_in"),
          Target(UsaxsSlitV, "terms.SAXS.v_size"), Target(UsaxsSlitH, "terms.SAXS.h_size")])]
      else
        [MoveAxes([
          Target(GuardSlitV, "terms.SAXS.guard_v_size"), Target(GuardSlitH, "terms.SAXS.guard_h_size"),
          Target(SaxsY, "terms.SAXS.y_in"),
          Target(UsaxsSlitV, "terms.SAXS.v_size"), Target(UsaxsSlitH, "terms.SAXS.h_size")]),
         MoveAxes([Target(SaxsZ, "terms.SAXS.z_in")])]
    case USAXSOut =>
      if v == Current then [MoveAxes([Target(UsaxsSlitX, "terms.USAXS.x_out")])]
      else [MoveAxes([Target(AStageX, "terms.SAXS.ax_out"), Target(DStageX, "terms.SAXS.dx_out")])]
    case USAXSIn =>
      match v
      case Current => [MoveAxes([
          Target(GuardSlitV, "terms.USAXS.guard_v_size"), Target(GuardSlitH, "terms.USAXS.guard_h_size"),
          Target(UsaxsSlitX, "terms.USAXS.x_in"),
          Target(UsaxsSlitV, "terms.USAXS.v_size"), Target(UsaxsSlitH, "terms.USAXS.h_size")])]
      case Legacy => [MoveAxes([
          Target(GuardSlitH, "terms.SAXS.usaxs_guard_h_size"), Target(GuardSlitV, "terms.SAXS.usaxs_guard_v_size"),
          Target(UsaxsSlitH, "terms.SAXS.usaxs_h_size"), Target(UsaxsSlitV, "terms.SAXS.usaxs_v_size"),
          Target(AStageY, "terms.SAXS.ay_in"), Target(AStageX, "terms.SAXS.ax_in"),
          Target(DStageX, "terms.SAXS.dx_in"), Target(DStageY, "terms.SAXS.dy_in")])]
      case Original => [MoveAxes([
          Target(GuardSlitH, "terms.SAXS.usaxs_guard_h_size"), Target(GuardSlitV, "terms.SAXS.usaxs_guard_v_size"),
          Target(UsaxsSlitH, "terms.SAXS.usaxs_h_size"), Target(UsaxsSlitV, "terms.SAXS.usaxs_v_size"),
          Target(AStageY, "terms.SAXS.ay_in"), Target(AStageX, "terms.SAXS.ax_in"),
          Target(DStageY, "terms.SAXS.dy_in"), Target(DStageX, "terms.USAXS.DX0")])]
  }

  /** Every step of a successful move plan, in order. */
  function MovePlan(v: Variant, t: Transition): seq<Step>
  {
    [CloseShutters(Shutters(v)), WriteMode(DIRTY)] + Motions(v, t) + [WriteMode(FinalMode(t))]
  }

  /** The mode the record holds after `steps`, starting from `start`:
      the code of the last mode write, if any. */
  function ModeAfter(steps: seq<Step>, start: int): int
  {
    if steps == [] then start
    else ModeAfter(steps[1..], if steps[0].WriteMode? then steps[0].code else start)
  }

  predicate WritesNoMode(steps: seq<Step>) {
    forall i :: 0 <= i < |steps| ==> !steps[i].WriteMode?
  }

  lemma {:induction false} ModeAfterConcat(a: seq<Step>, b: seq<Step>, start: int)
    ensures ModeAfter(a + b, start) == ModeAfter(b, ModeAfter(a, start))
  {
    if a == [] {
      assert a + b == b;
    } else {
      assert (a + b)[0] == a[0];
      assert (a + b)[1..] == a[1..] + b;
      ModeAfterConcat(a[1..], b, if a[0].WriteMode? then a[0].code else start);
    }
  }

  lemma {:induction false} ModeAfterNoWrites(steps: seq<Step>, start: int)
    requires WritesNoMode(steps)
    ensures ModeAfter(steps, start) == start
  {
    if steps != [] { ModeAfterNoWrites(steps[1..], start); }
  }

  /** Motor steps never write the mode. */
  lemma MotionsWriteNoMode(v: Variant, t: Transition)
    ensures WritesNoMode(Motions(v, t))
  {
  }

  /** A completed move plan leaves its final mode, from any starting mode. */
  lemma MovePlanEndsInFinalMode(v: Variant, t: Transition, start: int)
    ensures ModeAfter(MovePlan(v, t), start) == FinalMode(t)
  {
    var p := MovePlan(v, t);
    assert p == ([CloseShutters(Shutters(v)), WriteMode(DIRTY)] + Motions(v, t)) + [WriteMode(FinalMode(t))];
    ModeAfterConcat([CloseShutters(Shutters(v)), WriteMode(DIRTY)] + Motions(v, t), [WriteMode(FinalMode(t))], start);
  }

  /** Every move plan closes the shutters first, writes "dirty" second, so
      before any motion, and writes its final mode last; a plan interrupted
      after the "dirty" write and before its last step leaves the mode dirty. */
  lemma {:induction false} InterruptedMoveLeavesDirty(v: Variant, t: Transition, start: int, k: nat)
    requires 2 <= k < |MovePlan(v, t)|
    ensures MovePlan(v, t)[0] == CloseShutters(Shutters(v)) && MovePlan(v, t)[1] == WriteMode(DIRTY)
    ensures MovePlan(v, t)[|MovePlan(v, t)| - 1] == WriteMode(FinalMode(t))
    ensures ModeAfter(MovePlan(v, t)[..k], start) == DIRTY
  {
    var p := MovePlan(v, t);
    var head := [CloseShutters(Shutters(v)), WriteMode(DIRTY)];
    var m := Motions(v, t);
    assert p[..k] == head + m[..k - 2];
    ModeAfterConcat(head, m[..k - 2], start);
    MotionsWriteNoMode(v, t);
    ModeAfterNoWrites(m[..k - 2], DIRTY);
  }

  /** No move plan ever writes the Imaging codes 5 or 6; the only codes
      written are "dirty" and the transition's final mode. */
  lemma MovePlanWritesNoImagingCode(v: Variant, t: Transition)
    ensures forall i :: 0 <= i < |MovePlan(v, t)| && MovePlan(v, t)[i].WriteMode? ==>
      MovePlan(v, t)[i].code in {DIRTY, FinalMode(t)} && MovePlan(v, t)[i].code !in {IMAGING_IN, IMAGING_TUNING}
  {
    var p := MovePlan(v, t);
    MotionsWriteNoMode(v, t);
    forall i | 2 <= i < |p| - 1
      ensures !p[i].WriteMode?
    {
      assert p[i] == Motions(v, t)[i - 2];
    }
  }

  /** In the instrument/plans and original_plans copies, `move_SAXSIn` moves
      `saxs_stage.z` in a step of its own after the slits and y. */
  lemma SaxsZMovesLastInOlderCopies(v: Variant)
    requires v != Current
    ensures |Motions(v, SAXSIn)| == 2
    ensures Motions(v, SAXSIn)[1] == MoveAxes([Target(SaxsZ, "terms.SAXS.z_in")])
    ensures forall tg :: tg in Motions(v, SAXSIn)[0].targets ==> tg.axis != SaxsZ
  {
  }

  /** The instrument and its mode record.  `trace` lists the plan steps
      issued so far; `mode` is always the mode those steps leave. */
  class Instrument {
    const variant: Variant
    ghost const initialMode: int
    var mode: int
    var trace: seq<Step>

    ghost predicate Valid()
      reads this
    {
      mode == ModeAfter(trace, initialMode)
    }

    constructor (variant: Variant, mode: int)
      ensures Valid()
      ensures this.variant == variant && this.mode == mode && trace == []
    {
      this.variant := variant;
      this.initialMode := mode;
      this.mode := mode;
      this.trace := [];
    }

    /** Issue one plan step. */
    method Issue(s: Step)
      requires Valid()
      modifies this
      ensures Valid()
      ensures trace == old(trace) + [s]
      ensures mode == (if s.WriteMode? then s.code else old(mode))
    {
      ModeAfterConcat(trace, [s], initialMode);
      if s.WriteMode? {
        mode := s.code;
      }
      trace := trace + [s];
    }

    /** Issue a sequence of plan steps, one at a time. */
    method IssueAll(steps: seq<Step>)
      requires Valid()
      modifies this
      ensures Valid()
      ensures trace == old(trace) + steps
      ensures mode == ModeAfter(steps, old(mode))
    {
      var i := 0;
      while i < |steps|
        invariant 0 <= i <= |steps|
        invariant Valid()
        invariant trace == old(trace) + steps[..i]
        invariant mode == ModeAfter(steps[..i], old(mode))
      {
        ModeAfterConcat(steps[..i], [steps[i]], old(mode));
        assert steps[..i + 1] == steps[..i] + [steps[i]];
        Issue(steps[i]);
        i := i + 1;
      }
      assert steps[..i] == steps;
    }

    /** The common body of the out-moves: close, dirty, motion, out of beam. */
    method MoveOut(t: Transition)
      requires Valid() && !IsIn(t)
      modifies this
      ensures Valid()
      ensures mode == OUT_OF_BEAM
      ensures trace == old(trace) + MovePlan(variant, t)
    {
      Issue(CloseShutters(Shutters(variant)));
      Issue(WriteMode(DIRTY));
      IssueAll(Motions(variant, t));
      Issue(WriteMode(FinalMode(t)));
    }

    /** The common body of the in-moves: close, confirm out of beam, dirty,
        motion, final mode.  The check runs after the shutter step. */
    method MoveIn(t: Transition) returns (err: Option<Error>)
      requires Valid() && IsIn(t)
      modifies this
      ensures Valid()
      ensures err == ConfirmOutOfBeam(old(mode))
      ensures err.Some? ==> mode == old(mode) && trace == old(trace) + [CloseShutters(Shutters(variant))]
      ensures err.None? ==> mode == FinalMode(t) && trace == old(trace) + MovePlan(variant, t)
    {
      Issue(CloseShutters(Shutters(variant)));
      err := ConfirmOutOfBeam(mode);
      if err.Some? {
        return;
      }
      Issue(WriteMode(DIRTY));
      IssueAll(Motions(variant, t));
      Issue(WriteMode(FinalMode(t)));
    }

    /** `move_WAXSOut`: no precondition, always ends out of beam. */
    method MoveWAXSOut()
      requires Valid()
      modifies this
      ensures Valid() && mode == OUT_OF_BEAM
      ensures trace == old(trace) + MovePlan(variant, WAXSOut)
    {
      MoveOut(WAXSOut);
    }

    /** `move_SAXSOut`. */
    method MoveSAXSOut()
      requires Valid()
      modifies this
      ensures Valid() && mode == OUT_OF_BEAM
      ensures trace == old(trace) + MovePlan(variant, SAXSOut)
    {
      MoveOut(SAXSOut);
    }

    /** `move_USAXSOut`. */
    method MoveUSAXSOut()
      requires Valid()
      modifies this
      ensures Valid() && mode == OUT_OF_BEAM
      ensures trace == old(trace) + MovePlan(variant, USAXSOut)
    {
      MoveOut(USAXSOut);
    }

    /** `move_WAXSIn`: raises unless out of beam, else ends "WAXS in beam". */
    method MoveWAXSIn() returns (err: Option<Error>)
      requires Valid()
      modifies this
      ensures Valid()
      ensures err.None? <==> old(mode) == OUT_OF_BEAM
      ensures err.Some? ==> err.value.ValueError? && mode == old(mode) && trace == old(trace) + [CloseShutters(Shutters(variant))]
      ensures err.None? ==> mode == WAXS_IN_BEAM && trace == old(trace) + MovePlan(variant, WAXSIn)
    {
      err := MoveIn(WAXSIn);
    }

    /** `move_SAXSIn`: raises unless out of beam, else ends "SAXS in beam". */
    method MoveSAXSIn() returns (err: Option<Error>)
      requires Valid()
      modifies this
      ensures Valid()
      ensures err.None? <==> old(mode) == OUT_OF_BEAM
      ensures err.Some? ==> err.value.ValueError? && mode == old(mode) && trace == old(trace) + [CloseShutters(Shutters(variant))]
      ensures err.None? ==> mode == SAXS_IN_BEAM && trace == old(trace) + MovePlan(variant, SAXSIn)
    {
      err := MoveIn(SAXSIn);
    }

    /** `move_USAXSIn`: raises unless out of beam, else ends "USAXS in beam". */
    method MoveUSAXSIn() returns (err: Option<Error>)
      requires Valid()
      modifies this
      ensures Valid()
      ensures err.None? <==> old(mode) == OUT_OF_BEAM
      ensures err.Some? ==> err.value.ValueError? && mode == old(mode) && trace == old(trace) + [CloseShutters(Shutters(variant))]
      ensures err.None? ==> mode == USAXS_IN_BEAM && trace == old(trace) + MovePlan(variant, USAXSIn)
    {
      err := MoveIn(USAXSIn);
    }
  }
}
