// The USAXS and guard slits: the size-setting plan shared by both devices,
// the guard slit's gap checks, and the order in which its blade motor
// records are processed.

module Slits {
  import opened Wrappers

  /** One write of the `set_size` move. */
  datatype SizeWrite = HSize(h: real) | VSize(v: real)

  const NoHorizontal: string := "must define horizontal size"
  const NoVertical: string := "must define vertical size"

  /** `set_size(h=…, v=…)`, the same on both slit devices: a missing size
      raises ValueError (the horizontal one is checked first), otherwise both
      sizes are moved together. */
  function SetSize(h: Option<real>, v: Option<real>): (r: Result<seq<SizeWrite>>)
    ensures r.Ok? <==> h.Some? && v.Some?
    ensures h.None? ==> r == Err(ValueError(NoHorizontal))
    ensures h.Some? && v.None? ==> r == Err(ValueError(NoVertical))
    ensures r.Ok? ==> r.value == [HSize(h.value), VSize(v.value)]
  {
    if h.None? then Err(ValueError(NoHorizontal))
    else if v.None? then Err(ValueError(NoVertical))
    else Ok([HSize(h.value), VSize(v.value)])
  }

  /** How close the measured gap must be to the requested size (mm). */
  const GapTolerance: real := 0.02

  function Abs(x: real): real { if x < 0.0 then -x else x }

  /** The guard slit's blade positions. */
  datatype Blades = Blades(top: real, bot: real, inb: real, outb: real)

  /** `h_gap_ok`: the horizontal gap is within tolerance of the SAXS guard
      width. */
  predicate HGapOk(b: Blades, guardH: real)
  {
    Abs(b.outb - b.inb - guardH) <= GapTolerance
  }

  /** `v_h_gap_ok`: the vertical gap is within tolerance of the SAXS guard
      height. */
  predicate VGapOk(b: Blades, guardV: real)
  {
    Abs(b.top - b.bot - guardV) <= GapTolerance
  }

  /** `gap_ok`: both gaps are. */
  predicate GapOk(b: Blades, guardH: real, guardV: real)
  {
    HGapOk(b, guardH) && VGapOk(b, guardV)
  }

  /** The gap checks as intervals: each gap lies in [size − 0.02, size + 0.02]. */
  lemma GapOkInterval(b: Blades, guardH: real, guardV: real)
    ensures GapOk(b, guardH, guardV) <==>
      guardH - GapTolerance <= b.outb - b.inb <= guardH + GapTolerance &&
      guardV - GapTolerance <= b.top - b.bot <= guardV + GapTolerance
  {
  }

  /** Moving a pair of opposite blades together keeps its gap, and so the
      verdict. */
  lemma GapOkShift(b: Blades, dx: real, dy: real, guardH: real, guardV: real)
    ensures GapOk(Blades(b.top + dy, b.bot + dy, b.inb + dx, b.outb + dx), guardH, guardV)
            == GapOk(b, guardH, guardV)
  {
    assert (b.outb + dx) - (b.inb + dx) == b.outb - b.inb;
    assert (b.top + dy) - (b.bot + dy) == b.top - b.bot;
  }

  datatype Blade = Top | Bot | Inb | Outb

  /** What `process_motor_records` yields. */
  datatype ProcStep = Process(blade: Blade) | Pause(seconds: real)

  /** `process_motor_records`: top and outboard, a pause, bottom and inboard,
      a pause. */
  function ProcessMotorRecords(): (ss: seq<ProcStep>)
    ensures |ss| == 6 && ss[2] == Pause(0.05) && ss[5] == Pause(0.05)
  {
    [Process(Top), Process(Outb), Pause(0.05), Process(Bot), Process(Inb), Pause(0.05)]
  }

  /** Each blade's record is processed exactly once. */
  lemma ProcessEachOnce(b: Blade)
    ensures |set i | 0 <= i < 6 && ProcessMotorRecords()[i] == Process(b)| == 1
  {
    var ss := ProcessMotorRecords();
    var k := match b case Top => 0 case Outb => 1 case Bot => 3 case Inb => 4;
    assert (set i | 0 <= i < 6 && ss[i] == Process(b)) == {k};
  }
}
