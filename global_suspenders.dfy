/** The two global suspender slots (src/usaxs/utils/global_suspenders.py):
    module-level variables set together by one function and read by two
    getters that raise while a slot is unset.  `S` stands for the suspender
    objects, which the model does not look into. */
module GlobalSuspenders {
  import opened Wrappers

  const FEShutterNotInitialized: Error := RuntimeError("FE shutter suspender not initialized")
  const BeamInHutchNotInitialized: Error := RuntimeError("BeamInHutch suspender not initialized")

  /** A getter on a slot: the stored suspender, or the RuntimeError for an
      unset slot. */
  function Slot<S>(slot: Option<S>, unset: Error): (r: Result<S>)
    ensures r.Ok? <==> slot.Some?
    ensures r.Ok? ==> r.value == slot.value
    ensures r.Err? ==> r.error == unset
  {
    match slot
    case None => Err(unset)
    case Some(s) => Ok(s)
  }

  class Suspenders<S> {
    var feShutter: Option<S>
    var beamInHutch: Option<S>

    /** Module load: both slots unset. */
    constructor ()
      ensures feShutter == None && beamInHutch == None
    {
      feShutter := None;
      beamInHutch := None;
    }

    /** `set_suspenders(fe, hutch)` overwrites both slots; `None` unsets one. */
    method SetSuspenders(fe: Option<S>, hutch: Option<S>)
      modifies this
      ensures feShutter == fe && beamInHutch == hutch
    {
      feShutter := fe;
      beamInHutch := hutch;
    }

    /** `get_suspend_FE_shutter()`. */
    function GetSuspendFEShutter(): (r: Result<S>)
      reads this
      ensures r.Ok? <==> feShutter.Some?
      ensures r.Err? ==> r.error == FEShutterNotInitialized
    {
      Slot(feShutter, FEShutterNotInitialized)
    }

    /** `get_suspend_BeamInHutch()`. */
    function GetSuspendBeamInHutch(): (r: Result<S>)
      reads this
      ensures r.Ok? <==> beamInHutch.Some?
      ensures r.Err? ==> r.error == BeamInHutchNotInitialized
    {
      Slot(beamInHutch, BeamInHutchNotInitialized)
    }
  }

  /** Before any `set_suspenders`, both getters raise; after
      `set_suspenders(a, b)`, they return `a` and `b`. */
  method SuspenderLifecycle<S>(a: S, b: S) returns (before: (Result<S>, Result<S>), after: (Result<S>, Result<S>))
    ensures before.0.Err? && before.1.Err?
    ensures after == (Ok(a), Ok(b))
  {
    var s := new Suspenders<S>();
    before := (s.GetSuspendFEShutter(), s.GetSuspendBeamInHutch());
    s.SetSuspenders(Some(a), Some(b));
    after := (s.GetSuspendFEShutter(), s.GetSuspendBeamInHutch());
  }
}
