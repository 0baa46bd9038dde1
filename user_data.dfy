/** The user-data EPICS records (src/usaxs/devices/user_data.py and its older
    copy instrument/devices/user_data.py, which behave identically): the
    sample-name signal whose written value passes through an optional
    user handler, and the instrument state message with its 39-character
    limit.  EPICS puts are field writes; a put that fails is a parameter. */
module UserData {
  import opened Wrappers

  /** What a user handler returns: a string, or some other Python value. */
  datatype PyValue = PyStr(s: string) | PyOther

  /** A user handler; `Err` is an exception raised inside it. */
  type Handler = string -> Result<PyValue>

  /** The longest state message the PV takes. */
  const StateLimit: nat := 39

  /** `register_handler` calls the handler on this probe. */
  const Probe: string := "test"

  /** The message `set_state_blocking` writes: a message longer than 39
      characters becomes its first 35 followed by " ...". */
  function TruncateState(msg: string): (r: string)
    ensures |r| <= StateLimit || r == msg
    ensures |msg| <= StateLimit ==> r == msg
    ensures |msg| > StateLimit ==> |r| == StateLimit && r[..35] == msg[..35] && r[35..] == " ..."
  {
    if |msg| > 39 then msg[..35] + " ..." else msg
  }

  /** Truncating twice is truncating once, and every written message fits. */
  lemma TruncateStateIdempotent(msg: string)
    ensures TruncateState(TruncateState(msg)) == TruncateState(msg)
    ensures |TruncateState(msg)| <= StateLimit
  {
  }

  /** The sample-name signal (`EpicsSampleNameDevice`). */
  class SampleNameSignal {
    var handler: Option<Handler>
    var value: PyValue

    constructor (initial: PyValue)
      ensures handler == None && value == initial
    {
      handler := None;
      value := initial;
    }

    /** The value `set(v)` writes: `v` itself with no handler, else the
        handler's result; a raising handler writes nothing. */
    function Written(v: string): (r: Result<PyValue>)
      reads this
      ensures handler.None? ==> r == Ok(PyStr(v))
    {
      match handler
      case None => Ok(PyStr(v))
      case Some(f) => f(v)
    }

    /** `set(v)`. */
    method Set(v: string) returns (err: Option<Error>)
      modifies this
      ensures handler == old(handler)
      ensures old(Written(v)).Ok? ==> err == None && value == old(Written(v)).value
      ensures old(Written(v)).Err? ==> err == Some(old(Written(v)).error) && value == old(value)
    {
      var r := Written(v);
      if r.Err? {
        return Some(r.error);
      }
      value := r.value;
      err := None;
    }

    /** `register_handler(f)`: `None` clears the handler; otherwise `f` is
        called once on "test" and kept only when that returns a string.  An
        exception from the probe, or a non-string result (ValueError), leaves
        the previous handler in place. */
    method RegisterHandler(f: Option<Handler>) returns (err: Option<Error>)
      modifies this
      ensures value == old(value)
      ensures f.None? ==> err == None && handler == None
      ensures f.Some? && f.value(Probe).Ok? && f.value(Probe).value.PyStr? ==> err == None && handler == f
      ensures f.Some? && f.value(Probe).Err? ==> err == Some(f.value(Probe).error) && handler == old(handler)
      ensures f.Some? && f.value(Probe).Ok? && !f.value(Probe).value.PyStr? ==>
        err.Some? && err.value.ValueError? && handler == old(handler)
    {
      if f.None? {
        handler := None;
        return None;
      }
      var test := f.value(Probe);
      if test.Err? {
        return Some(test.error);
      }
      if !test.value.PyStr? {
        return Some(ValueError("Sample name function must return 'string' type"));
      }
      handler := f;
      err := None;
    }
  }

  /** After a successful registration of `f`, `set(v)` writes `f(v)`; after
      clearing, it writes `v` unchanged. */
  method RegisterThenSet(f: Handler, v: string) returns (withHandler: PyValue, cleared: PyValue)
    requires f(Probe).Ok? && f(Probe).value.PyStr? && f(v).Ok?
    ensures withHandler == f(v).value && cleared == PyStr(v)
  {
    var signal := new SampleNameSignal(PyOther);
    var err := signal.RegisterHandler(Some(f));
    err := signal.Set(v);
    withHandler := signal.value;
    err := signal.RegisterHandler(None);
    err := signal.Set(v);
    cleared := signal.value;
  }

  /** The instrument state record of `UserDataDevice`. */
  class StateRecord {
    var state: string

    constructor (initial: string)
      ensures state == initial
    {
      state := initial;
    }

    /** `set_state_blocking(msg)`: writes the truncated message; a failing
        put is logged and swallowed, leaving the record as it was. */
    method SetStateBlocking(msg: string, putSucceeds: bool)
      modifies this
      ensures state == if putSucceeds then TruncateState(msg) else old(state)
    {
      var m := msg;
      if |m| > 39 {
        m := m[..35] + " ...";
      }
      if putSucceeds {
        state := m;
      }
    }

    /** `set_state_plan(msg)`: writes the message as given (no truncation);
        a failure is logged and swallowed. */
    method SetStatePlan(msg: string, putSucceeds: bool)
      modifies this
      ensures state == if putSucceeds then msg else old(state)
    {
      if putSucceeds {
        state := msg;
      }
    }
  }
}
