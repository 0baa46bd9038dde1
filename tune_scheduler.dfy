/** When the USAXS optics are re-tuned: the tune-due rule of
    `PreUsaxsTuneParameters.needed` (src/usaxs/devices/general_terms.py and
    the identical instrument/devices/general_terms.py), the scan counter that
    `after_plan` advances, the `before_plan` hook that runs a tune when one is
    due (src/usaxs/plans/command_list.py), and the tune plans of
    src/usaxs/plans/plans_tune.py.  The EPICS fields are fields of a class;
    the clock is a parameter `now`; the plans are recorded as steps. */
module TuneScheduler {
  import opened OrderedDicts
  import opened InstrumentModes

  /** The axes that can be tuned, and the tune plan of each. */
  datatype TuneAxis = MStageR | AStageR | AStageR2P
  datatype TunePlan = TuneMR | TuneAR | TuneA2RP

  /** One step of a tune plan as the model records it. */
  datatype TuneStep =
    | MonoFeedbackOn             // `MONO_FEEDBACK_ON()`
    | OpenMonoCloseUsaxs         // mono shutter open, USAXS shutter closed
    | StopIfRequested            // `IfRequestedStopBeforeNextScan()`
    | ModeUSAXS                  // `mode_USAXS()`
    | MoveToTuneLocation         // sample stage to `terms.preUSAXStune.sx/sy`
    | PrepareOptics              // diode stage, slits, time stamp, 0.1 s count time
    | StateMessage(msg: string)      // `user_data.set_state_plan(msg)`
    | OpenUsaxsShutter           // `bps.mv(usaxs_shutter, "open")`
    | Tune(plan: TunePlan)       // one tune plan
    | Settle                     // `bps.sleep(0.5)`
    | FinishTune(now: real)      // count time restored, counters reset at time `now`

  const TuneState: string := "pre-USAXS optics tune"
  const SwaxsTuneState: string := "pre-SWAXS optics tune"

  /** The tune-due rule: the run-next flag is set, or more scans than required
      have run since the last tune, or the required time has passed.  Both
      comparisons are strict. */
  predicate TuneDue(runTuneNext: int, numScans: int, reqNumScans: int, epochLastTune: real, reqTime: real, now: real)
  {
    runTuneNext != 0 || numScans > reqNumScans || now > epochLastTune + reqTime
  }

  /** Exactly at either limit, and with the flag clear, no tune is due. */
  lemma TuneDueIsStrict(reqNumScans: int, epochLastTune: real, reqTime: real)
    ensures !TuneDue(0, reqNumScans, reqNumScans, epochLastTune, reqTime, epochLastTune + reqTime)
    ensures TuneDue(0, reqNumScans + 1, reqNumScans, epochLastTune, reqTime, epochLastTune + reqTime)
  {
  }

  /** Once due, a tune stays due as scans accumulate and time passes. */
  lemma TuneDueMonotone(runTuneNext: int, numScans: int, reqNumScans: int, epochLastTune: real, reqTime: real,
                        now: real, moreScans: int, later: real)
    requires TuneDue(runTuneNext, numScans, reqNumScans, epochLastTune, reqTime, now)
    requires moreScans >= numScans && later >= now
    ensures runTuneNext != 0 || TuneDue(0, moreScans, reqNumScans, epochLastTune, reqTime, later)
  {
  }

  /** Right after a tune (flag and counter cleared, last-tune time `now`), no
      tune is due exactly when neither requirement is negative. */
  lemma NotDueAfterTune(reqNumScans: int, reqTime: real, now: real)
    ensures !TuneDue(0, 0, reqNumScans, now, reqTime, now) <==> reqNumScans >= 0 && reqTime >= 0.0
  {
  }

  /** The tuner dictionary of `preUSAXStune`: A stage then A2RP. */
  function PreTuners(): Dict<TuneAxis, TunePlan>
  {
    Put(Put([], AStageR, TuneAR), AStageR2P, TuneA2RP)
  }

  /** The tuner dictionary of `allUSAXStune`: M stage, then the A stage
      entries assigned twice. */
  function AllTuners(): Dict<TuneAxis, TunePlan>
  {
    Put(Put(Put(Put(Put([], MStageR, TuneMR), AStageR, TuneAR), AStageR2P, TuneA2RP), AStageR, TuneAR), AStageR2P, TuneA2RP)
  }

  /** Assigning the A stage entries again neither duplicates nor reorders
      them: three entries remain, in first-assignment order. */
  lemma TunerDictionaries()
    ensures PreTuners() == [(AStageR, TuneAR), (AStageR2P, TuneA2RP)]
    ensures AllTuners() == [(MStageR, TuneMR), (AStageR, TuneAR), (AStageR2P, TuneA2RP)]
    ensures Keys(AllTuners()) == [MStageR, AStageR, AStageR2P]
  {
    PreTunersValue();
    FirstThree();
    ReassignKeepsThree();
    KeysOfThree();
  }

  /** The two assignments of `preUSAXStune` append in order. */
  lemma PreTunersValue()
    ensures PreTuners() == [(AStageR, TuneAR), (AStageR2P, TuneA2RP)]
  {
    var d := [(AStageR, TuneAR)];
    assert Put([], AStageR, TuneAR) == d;
    assert d[1..] == [];
    assert Put(d, AStageR2P, TuneA2RP) == [d[0]] + Put([], AStageR2P, TuneA2RP);
  }

  /** The first three assignments of `allUSAXStune` append in order. */
  lemma FirstThree()
    ensures Put(Put(Put([], MStageR, TuneMR), AStageR, TuneAR), AStageR2P, TuneA2RP)
         == [(MStageR, TuneMR), (AStageR, TuneAR), (AStageR2P, TuneA2RP)]
  {
    var one := [(MStageR, TuneMR)];
    var two := [(MStageR, TuneMR), (AStageR, TuneAR)];
    assert Put([], MStageR, TuneMR) == one;
    assert one[1..] == [];
    assert Put(one, AStageR, TuneAR) == [one[0]] + Put([], AStageR, TuneAR);
    assert two[1..] == [(AStageR, TuneAR)];
    assert Put(two[1..], AStageR2P, TuneA2RP) == [two[1]] + Put([], AStageR2P, TuneA2RP);
    assert Put(two, AStageR2P, TuneA2RP) == [two[0]] + Put(two[1..], AStageR2P, TuneA2RP);
  }

  /** Assigning the A stage entries again changes nothing. */
  lemma ReassignKeepsThree()
    ensures var three := [(MStageR, TuneMR), (AStageR, TuneAR), (AStageR2P, TuneA2RP)];
      Put(three, AStageR, TuneAR) == three && Put(three, AStageR2P, TuneA2RP) == three
  {
    var a, b, c := (MStageR, TuneMR), (AStageR, TuneAR), (AStageR2P, TuneA2RP);
    assert [a, b, c] == [a] + [b, c];
    assert [b, c] == [b] + [c];
    PutPastHead(a, [b, c], AStageR, TuneAR);
    PutHeadSame(b, [c]);
    PutPastHead(a, [b, c], AStageR2P, TuneA2RP);
    PutPastHead(b, [c], AStageR2P, TuneA2RP);
    PutHeadSame(c, []);
    assert [c] + [] == [c];
  }

  /** Assigning the first entry's own value to its key. */
  lemma PutHeadSame<K, V>(x: (K, V), rest: Dict<K, V>)
    ensures Put([x] + rest, x.0, x.1) == [x] + rest
  {
    assert ([x] + rest)[1..] == rest;
  }

  /** Assigning a key other than the first entry's leaves that entry first. */
  lemma PutPastHead<K, V>(x: (K, V), rest: Dict<K, V>, k: K, v: V)
    requires x.0 != k
    ensures Put([x] + rest, k, v) == [x] + Put(rest, k, v)
  {
    assert ([x] + rest)[1..] == rest;
  }

  /** The keys of the three-entry dictionary, in order. */
  lemma KeysOfThree()
    ensures Keys([(MStageR, TuneMR), (AStageR, TuneAR), (AStageR2P, TuneA2RP)]) == [MStageR, AStageR, AStageR2P]
  {
  }

  /** The loop over the tuners: open the shutter, tune, settle. */
  function TuneLoop(tuners: Dict<TuneAxis, TunePlan>): (steps: seq<TuneStep>)
    ensures |steps| == 3 * |tuners|
  {
    if tuners == [] then []
    else TuneLoop(tuners[..|tuners| - 1]) + [OpenUsaxsShutter, Tune(tuners[|tuners| - 1].1), Settle]
  }

  /** The steps of a tune plan before the tune loop. */
  function TuneHead(useLocation: bool): (steps: seq<TuneStep>)
    ensures forall i :: 0 <= i < |steps| ==> !steps[i].Tune?
    ensures |steps| > 0 && steps[|steps| - 1] == OpenUsaxsShutter
  {
    [MonoFeedbackOn, OpenMonoCloseUsaxs, StopIfRequested, ModeUSAXS]
    + (if useLocation then [MoveToTuneLocation] else [])
    + [PrepareOptics, StateMessage(TuneState), OpenUsaxsShutter]
  }

  /** The steps of a tune plan after the tune loop. */
  function TuneTail(now: real): (steps: seq<TuneStep>)
    ensures forall i :: 0 <= i < |steps| ==> !steps[i].Tune?
  {
    [FinishTune(now), StateMessage(TuneState)]
  }

  /** Every step of a tune plan: prepare, then the loop, then reset. */
  function TuneSteps(tuners: Dict<TuneAxis, TunePlan>, useLocation: bool, now: real): seq<TuneStep>
  {
    TuneHead(useLocation) + TuneLoop(tuners) + TuneTail(now)
  }

  /** The tune plans a list of steps runs, in order. */
  function Tunes(steps: seq<TuneStep>): (ts: seq<TunePlan>)
    ensures |ts| <= |steps|
  {
    if steps == [] then []
    else Tunes(steps[..|steps| - 1]) + (if steps[|steps| - 1].Tune? then [steps[|steps| - 1].plan] else [])
  }

  lemma {:induction false} TunesAppend(a: seq<TuneStep>, b: seq<TuneStep>)
    ensures Tunes(a + b) == Tunes(a) + Tunes(b)
    decreases |b|
  {
    if b == [] {
      assert a + b == a;
    } else {
      assert (a + b)[..|a + b| - 1] == a + b[..|b| - 1];
      TunesAppend(a, b[..|b| - 1]);
    }
  }

  /** The loop runs each tuner's plan once, in dictionary order. */
  lemma {:induction false} TuneLoopRunsEachOnce(tuners: Dict<TuneAxis, TunePlan>)
    ensures Tunes(TuneLoop(tuners)) == Values(tuners)
  {
    if tuners != [] {
      var last := [OpenUsaxsShutter, Tune(tuners[|tuners| - 1].1), Settle];
      TuneLoopRunsEachOnce(tuners[..|tuners| - 1]);
      TunesAppend(TuneLoop(tuners[..|tuners| - 1]), last);
      var a := [OpenUsaxsShutter];
      var b := a + [Tune(tuners[|tuners| - 1].1)];
      assert a[..0] == [];
      assert b[..1] == a;
      assert Tunes(a) == [];
      assert Tunes(b) == [tuners[|tuners| - 1].1];
      assert last[..2] == b;
      assert Tunes(last) == [tuners[|tuners| - 1].1];
    }
  }

  /** In the loop, each tune step comes right after a shutter-open step. */
  lemma {:induction false} TuneLoopOpensFirst(tuners: Dict<TuneAxis, TunePlan>)
    ensures forall i :: 0 <= i < |TuneLoop(tuners)| && TuneLoop(tuners)[i].Tune? ==>
      i % 3 == 1 && TuneLoop(tuners)[i - 1] == OpenUsaxsShutter
  {
    if tuners != [] {
      TuneLoopOpensFirst(tuners[..|tuners| - 1]);
    }
  }

  /** With the dictionary `preUSAXStune` builds (`TunerDictionaries`), a
      tune plan tunes exactly A then A2RP, each once. */
  lemma PreTunesRun(d: Dict<TuneAxis, TunePlan>, useLocation: bool, now: real)
    requires d == [(AStageR, TuneAR), (AStageR2P, TuneA2RP)]
    ensures Tunes(TuneSteps(d, useLocation, now)) == [TuneAR, TuneA2RP]
  {
    TuneStepsRun(d, useLocation, now);
    assert Values(d) == [d[0].1, d[1].1];
  }

  /** With the dictionary `allUSAXStune` builds (`TunerDictionaries`), a
      tune plan tunes exactly M, A and A2RP, each once, in that order. */
  lemma AllTunesRun(d: Dict<TuneAxis, TunePlan>, useLocation: bool, now: real)
    requires d == [(MStageR, TuneMR), (AStageR, TuneAR), (AStageR2P, TuneA2RP)]
    ensures Tunes(TuneSteps(d, useLocation, now)) == [TuneMR, TuneAR, TuneA2RP]
  {
    TuneStepsRun(d, useLocation, now);
    assert Values(d) == [d[0].1, d[1].1, d[2].1];
  }

  /** A tune plan runs each tuner's plan once, in dictionary order, and no other. */
  lemma TuneStepsRun(tuners: Dict<TuneAxis, TunePlan>, useLocation: bool, now: real)
    ensures Tunes(TuneSteps(tuners, useLocation, now)) == Values(tuners)
  {
    var head := TuneHead(useLocation);
    NoTunes(head);
    NoTunes(TuneTail(now));
    TunesAppend(head, TuneLoop(tuners));
    TunesAppend(head + TuneLoop(tuners), TuneTail(now));
    TuneLoopRunsEachOnce(tuners);
  }

  lemma {:induction false} NoTunes(steps: seq<TuneStep>)
    requires forall i :: 0 <= i < |steps| ==> !steps[i].Tune?
    ensures Tunes(steps) == []
  {
    if steps != [] { NoTunes(steps[..|steps| - 1]); }
  }

  /** Before every tune of a tune plan the USAXS shutter is commanded open. */
  lemma ShutterOpenBeforeEveryTune(tuners: Dict<TuneAxis, TunePlan>, useLocation: bool, now: real)
    ensures var p := TuneSteps(tuners, useLocation, now);
      forall i :: 0 <= i < |p| && p[i].Tune? ==> i > 0 && p[i - 1] == OpenUsaxsShutter
  {
    var head := TuneHead(useLocation);
    var loop := TuneLoop(tuners);
    var p := TuneSteps(tuners, useLocation, now);
    TuneLoopOpensFirst(tuners);
    forall i | 0 <= i < |p| && p[i].Tune?
      ensures i > 0 && p[i - 1] == OpenUsaxsShutter
    {
      assert |head| <= i < |head| + |loop|;
      assert p[i] == loop[i - |head|];
      assert p[i - 1] == loop[i - 1 - |head|];
    }
  }

  /** The mode whose label `before_plan` compares with is "USAXS in beam". */
  lemma UsaxsLabel(mode: int)
    ensures ModeLabel(mode) == "USAXS in beam" <==> mode == USAXS_IN_BEAM
  {
    ModeTableIsBijective();
    assert ModeTable[2] == ("USAXS in beam", USAXS_IN_BEAM);
    if ModeLabel(mode) == "USAXS in beam" {
      var i :| 0 <= i < |ModeTable| && ModeTable[i] == ("USAXS in beam", mode);
      assert ModeTable[i].0 == ModeTable[2].0;
    }
  }

  /** The steps of `before_plan` given whether a tune was due. */
  function BeforePlanSteps(due: bool, mode: int, useLocation: bool, now: real): seq<TuneStep>
  {
    if !due then []
    else if mode == USAXS_IN_BEAM then TuneSteps(PreTuners(), useLocation, now)
    else [StateMessage(SwaxsTuneState)]
  }

  /** The `preUSAXStune` EPICS fields and the steps issued so far. */
  class TuneTerms {
    var numScansLastTune: int
    var epochLastTune: real
    var reqNumScansBetweenTune: int
    var reqTimeBetweenTune: real
    var runTuneNext: int
    var trace: seq<TuneStep>

    constructor (numScans: int, epoch: real, reqNumScans: int, reqTime: real, runNext: int)
      ensures numScansLastTune == numScans && epochLastTune == epoch
      ensures reqNumScansBetweenTune == reqNumScans && reqTimeBetweenTune == reqTime
      ensures runTuneNext == runNext && trace == []
    {
      numScansLastTune := numScans;
      epochLastTune := epoch;
      reqNumScansBetweenTune := reqNumScans;
      reqTimeBetweenTune := reqTime;
      runTuneNext := runNext;
      trace := [];
    }

    /** The tune-due rule on the current fields at time `now`. */
    predicate Due(now: real)
      reads this
    {
      TuneDue(runTuneNext, numScansLastTune, reqNumScansBetweenTune, epochLastTune, reqTimeBetweenTune, now)
    }

    /** `needed`: the rule on the fields as read, then `run_tune_next` is
        cleared whatever the result; nothing else changes. */
    method Needed(now: real) returns (due: bool)
      modifies this
      ensures due == old(Due(now))
      ensures runTuneNext == 0
      ensures numScansLastTune == old(numScansLastTune) && epochLastTune == old(epochLastTune)
      ensures reqNumScansBetweenTune == old(reqNumScansBetweenTune) && reqTimeBetweenTune == old(reqTimeBetweenTune)
      ensures trace == old(trace)
    {
      due := runTuneNext != 0;
      due := due || numScansLastTune > reqNumScansBetweenTune;
      var timeLimit := epochLastTune + reqTimeBetweenTune;
      due := due || now > timeLimit;
      runTuneNext := 0;
    }

    /** `after_plan(weight)`: the scan counter advances by `weight`. */
    method AfterPlan(weight: int)
      modifies this
      ensures numScansLastTune == old(numScansLastTune) + weight
      ensures epochLastTune == old(epochLastTune) && runTuneNext == old(runTuneNext)
      ensures reqNumScansBetweenTune == old(reqNumScansBetweenTune) && reqTimeBetweenTune == old(reqTimeBetweenTune)
      ensures trace == old(trace)
    {
      numScansLastTune := numScansLastTune + weight;
    }

    /** Issue plan steps, one at a time. */
    method IssueAll(steps: seq<TuneStep>)
      modifies this
      ensures trace == old(trace) + steps
      ensures numScansLastTune == old(numScansLastTune) && epochLastTune == old(epochLastTune)
      ensures runTuneNext == old(runTuneNext)
      ensures reqNumScansBetweenTune == old(reqNumScansBetweenTune) && reqTimeBetweenTune == old(reqTimeBetweenTune)
    {
      var i := 0;
      while i < |steps|
        invariant 0 <= i <= |steps|
        invariant trace == old(trace) + steps[..i]
        invariant numScansLastTune == old(numScansLastTune) && epochLastTune == old(epochLastTune)
        invariant runTuneNext == old(runTuneNext)
        invariant reqNumScansBetweenTune == old(reqNumScansBetweenTune) && reqTimeBetweenTune == old(reqTimeBetweenTune)
      {
        assert steps[..i + 1] == steps[..i] + [steps[i]];
        trace := trace + [steps[i]];
        i := i + 1;
      }
      assert steps[..i] == steps;
    }

    /** The tune loop: for each tuner, open the shutter, tune, settle. */
    method RunTuners(tuners: Dict<TuneAxis, TunePlan>)
      modifies this
      ensures trace == old(trace) + TuneLoop(tuners)
      ensures numScansLastTune == old(numScansLastTune) && epochLastTune == old(epochLastTune)
      ensures runTuneNext == old(runTuneNext)
      ensures reqNumScansBetweenTune == old(reqNumScansBetweenTune) && reqTimeBetweenTune == old(reqTimeBetweenTune)
    {
      var i := 0;
      while i < |tuners|
        invariant 0 <= i <= |tuners|
        invariant trace == old(trace) + TuneLoop(tuners[..i])
        invariant numScansLastTune == old(numScansLastTune) && epochLastTune == old(epochLastTune)
        invariant runTuneNext == old(runTuneNext)
        invariant reqNumScansBetweenTune == old(reqNumScansBetweenTune) && reqTimeBetweenTune == old(reqTimeBetweenTune)
      {
        assert tuners[..i + 1][..i] == tuners[..i];
        IssueAll([OpenUsaxsShutter, Tune(tuners[i].1), Settle]);
        i := i + 1;
      }
      assert tuners[..i] == tuners;
    }

    /** The body `preUSAXStune` and `allUSAXStune` share; `useLocation` is the
        `use_specific_location` reading being 1 or "yes". */
    method TuneWith(tuners: Dict<TuneAxis, TunePlan>, useLocation: bool, now: real)
      modifies this
      ensures trace == old(trace) + TuneSteps(tuners, useLocation, now)
      ensures numScansLastTune == 0 && runTuneNext == 0 && epochLastTune == now
      ensures reqNumScansBetweenTune == old(reqNumScansBetweenTune) && reqTimeBetweenTune == old(reqTimeBetweenTune)
    {
      ghost var t0 := trace;
      IssueAll(TuneHead(useLocation));
      RunTuners(tuners);
      numScansLastTune := 0;
      runTuneNext := 0;
      epochLastTune := now;
      IssueAll(TuneTail(now));
      assert trace == t0 + TuneHead(useLocation) + TuneLoop(tuners) + TuneTail(now);
    }

    /** `preUSAXStune`. */
    method PreUSAXStune(useLocation: bool, now: real)
      modifies this
      ensures trace == old(trace) + TuneSteps(PreTuners(), useLocation, now)
      ensures numScansLastTune == 0 && runTuneNext == 0 && epochLastTune == now
      ensures reqNumScansBetweenTune == old(reqNumScansBetweenTune) && reqTimeBetweenTune == old(reqTimeBetweenTune)
      ensures reqNumScansBetweenTune >= 0 && reqTimeBetweenTune >= 0.0 ==> !Due(now)
    {
      var tuners := Put(Put([], AStageR, TuneAR), AStageR2P, TuneA2RP);
      TuneWith(tuners, useLocation, now);
      NotDueAfterTune(reqNumScansBetweenTune, reqTimeBetweenTune, now);
    }

    /** `allUSAXStune`. */
    method AllUSAXStune(useLocation: bool, now: real)
      modifies this
      ensures trace == old(trace) + TuneSteps(AllTuners(), useLocation, now)
      ensures numScansLastTune == 0 && runTuneNext == 0 && epochLastTune == now
      ensures reqNumScansBetweenTune == old(reqNumScansBetweenTune) && reqTimeBetweenTune == old(reqTimeBetweenTune)
      ensures reqNumScansBetweenTune >= 0 && reqTimeBetweenTune >= 0.0 ==> !Due(now)
    {
      var tuners: Dict<TuneAxis, TunePlan> := [];
      tuners := Put(tuners, MStageR, TuneMR);
      tuners := Put(tuners, AStageR, TuneAR);
      tuners := Put(tuners, AStageR2P, TuneA2RP);
      tuners := Put(tuners, AStageR, TuneAR);
      tuners := Put(tuners, AStageR2P, TuneA2RP);
      TuneWith(tuners, useLocation, now);
      NotDueAfterTune(reqNumScansBetweenTune, reqTimeBetweenTune, now);
    }

    /** `preSWAXStune`: only the state message; no tune, no counter reset. */
    method PreSWAXStune()
      modifies this
      ensures trace == old(trace) + [StateMessage(SwaxsTuneState)]
      ensures numScansLastTune == old(numScansLastTune) && epochLastTune == old(epochLastTune)
      ensures runTuneNext == old(runTuneNext)
      ensures reqNumScansBetweenTune == old(reqNumScansBetweenTune) && reqTimeBetweenTune == old(reqTimeBetweenTune)
    {
      IssueAll([StateMessage(SwaxsTuneState)]);
    }

    /** `before_plan`: when a tune is due, `preUSAXStune` in USAXS mode and
        `preSWAXStune` otherwise.  `mode` is the mode record's value as read;
        the code compares the record's `as_string` reading with "USAXS in
        beam", which the model takes to be the label the mode table gives
        that value (`ModeLabel`, see `UsaxsLabel`), i.e. it assumes the EPICS
        record's enum strings match the table. */
    method BeforePlan(mode: int, useLocation: bool, now: real)
      modifies this
      ensures trace == old(trace) + BeforePlanSteps(old(Due(now)), mode, useLocation, now)
      ensures runTuneNext == 0
      ensures old(Due(now)) && mode == USAXS_IN_BEAM ==> numScansLastTune == 0 && epochLastTune == now
      ensures !(old(Due(now)) && mode == USAXS_IN_BEAM) ==>
        numScansLastTune == old(numScansLastTune) && epochLastTune == old(epochLastTune)
      ensures reqNumScansBetweenTune == old(reqNumScansBetweenTune) && reqTimeBetweenTune == old(reqTimeBetweenTune)
    {
      var due := Needed(now);
      if due {
        UsaxsLabel(mode);
        if ModeLabel(mode) == "USAXS in beam" {
          PreUSAXStune(useLocation, now);
        } else {
          PreSWAXStune();
        }
      }
    }
  }
}
