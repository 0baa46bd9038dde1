// Filter plans of the older instrument package: every insert plan writes
// one Al-bank filter position to the filter box and waits for the blades.

module Filters {
  /** Python's `int(x)` on a float: truncation toward zero, so the result
      keeps the sign of `x` and is never farther from zero than `x`. */
  function TruncToInt(x: real): (n: int)
    ensures 0.0 <= x ==> n as real <= x < n as real + 1.0
    ensures x < 0.0 ==> n as real - 1.0 < x <= n as real
    ensures 0.0 <= x ==> 0 <= n
    ensures x < 0.0 ==> n <= 0
  {
    if x >= 0.0 then x.Floor else -((-x).Floor)
  }

  /** A whole number survives `int()` unchanged. */
  lemma TruncToIntWhole(n: int)
    ensures TruncToInt(n as real) == n
  {
  }

  /** What an insert plan yields. */
  datatype Step = FilterPosition(position: int) | Sleep(seconds: real)

  /** Time left for all blades to move. */
  const BladeSettle: real := 0.5

  /** `_insertFilters_(a)`: write `int(a)` to the filter position, then sleep. */
  function InsertFilters(a: real): (ss: seq<Step>)
    ensures |ss| == 2 && ss[0].FilterPosition? && ss[1] == Sleep(BladeSettle)
    ensures 0.0 <= a ==> ss[0].position as real <= a < ss[0].position as real + 1.0
    ensures a < 0.0 ==> ss[0].position as real - 1.0 < a <= ss[0].position as real
  {
    [FilterPosition(TruncToInt(a)), Sleep(BladeSettle)]
  }

  /** Whole-number settings reach the filter box exactly. */
  lemma InsertFiltersWhole(n: int)
    ensures InsertFilters(n as real) == [FilterPosition(n), Sleep(BladeSettle)]
  {
    TruncToIntWhole(n);
  }

  /** The two banks of one configured filter setting (EPICS user terms). */
  datatype Banks = Banks(al: real, ti: real)

  /** The configured settings each insert plan reads. */
  datatype FilterTerms = FilterTerms(blackfly: Banks, radiography: Banks, saxs: Banks, scan: Banks, waxs: Banks)

  datatype Purpose = Blackfly | Radiography | Saxs | Scan | Waxs

  function SettingFor(t: FilterTerms, p: Purpose): Banks
  {
    match p
    case Blackfly => t.blackfly
    case Radiography => t.radiography
    case Saxs => t.saxs
    case Scan => t.scan
    case Waxs => t.waxs
  }

  /** `insertBlackflyFilters` … `insertWaxsFilters`: the Al bank of the
      plan's own setting; the Ti bank is never sent. */
  function InsertFor(t: FilterTerms, p: Purpose): seq<Step>
  {
    InsertFilters(SettingFor(t, p).al)
  }

  /** Changing only Ti values, or only the settings of other plans, does not
      change what a plan writes. */
  lemma InsertForIgnoresTi(t: FilterTerms, t': FilterTerms, p: Purpose)
    requires SettingFor(t, p).al == SettingFor(t', p).al
    ensures InsertFor(t, p) == InsertFor(t', p)
  {
  }

  /** The Al filter index chosen for a transmission measurement at a
      monochromator energy (keV): more filters at higher energy. */
  function TransmissionFilters(energy: real): (n: int)
    ensures n == 3 || n == 7 || n == 15
    ensures n == 3 <==> energy < 12.1
    ensures n == 15 <==> 18.1 <= energy
  {
    if energy < 12.1 then 3
    else if energy < 18.1 then 7
    else 15
  }

  /** A higher energy never selects fewer filters. */
  lemma TransmissionFiltersMonotone(e1: real, e2: real)
    requires e1 <= e2
    ensures TransmissionFilters(e1) <= TransmissionFilters(e2)
  {
  }

  /** `insertTransmissionFilters`: the chosen index, written as is. */
  function InsertTransmissionFilters(energy: real): (ss: seq<Step>)
    ensures ss == [FilterPosition(TransmissionFilters(energy)), Sleep(BladeSettle)]
  {
    InsertFiltersWhole(TransmissionFilters(energy));
    InsertFilters(TransmissionFilters(energy) as real)
  }
}
