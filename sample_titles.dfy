/** The replaceable sample-title function (src/usaxs/utils/user_sample_title.py):
    a module-level slot holding the function every scan applies to its sample
    title.  The slot is a field of a class; loading the module runs the reset. */
module SampleTitles {
  import opened Wrappers

  /** `plainSampleTitle`: the title itself. */
  function PlainSampleTitle(title: string): (r: string)
    ensures r == title
  {
    title
  }

  class SampleTitleSlot {
    /** `_sample_title_function`; `None` when a caller stored `None`. */
    var titleFunction: Option<string -> string>

    /** Loading the module: the slot starts as `None`, then the reset runs. */
    constructor ()
      ensures titleFunction == Some(PlainSampleTitle)
    {
      titleFunction := None;
      new;
      ResetSampleTitleFunction();
    }

    /** `setSampleTitleFunction(f)`: the most recent call wins. */
    method SetSampleTitleFunction(f: Option<string -> string>)
      modifies this
      ensures titleFunction == f
    {
      titleFunction := f;
    }

    /** `resetSampleTitleFunction()`: back to the plain title. */
    method ResetSampleTitleFunction()
      modifies this
      ensures titleFunction == Some(PlainSampleTitle)
    {
      titleFunction := Some(PlainSampleTitle);
    }

    /** `getSampleTitle(title)`: the stored function applied to the title;
        calling a stored `None` is a TypeError. */
    function GetSampleTitle(title: string): (r: Result<string>)
      reads this
      ensures titleFunction == Some(PlainSampleTitle) ==> r == Ok(title)
      ensures titleFunction.None? <==> r.Err?
    {
      match titleFunction
      case None => Err(TypeError)
      case Some(f) => Ok(f(title))
    }
  }

  /** From module load, through a `setSampleTitleFunction(f)`, to a reset: the
      title is the identity, then `f`, then the identity again. */
  method SampleTitleLifecycle(f: string -> string, title: string)
    returns (loaded: Result<string>, custom: Result<string>, reset: Result<string>)
    ensures loaded == Ok(title) && custom == Ok(f(title)) && reset == Ok(title)
  {
    var slot := new SampleTitleSlot();
    loaded := slot.GetSampleTitle(title);
    slot.SetSampleTitleFunction(Some(f));
    custom := slot.GetSampleTitle(title);
    slot.ResetSampleTitleFunction();
    reset := slot.GetSampleTitle(title);
  }
}
