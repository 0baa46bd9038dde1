// `readable_time(duration)`: a whole number of seconds written as weeks,
// days, hours, minutes and seconds, e.g. 21425 -> "5h 57m 5s".  The heater
// profile script divides with `int(x / UNIT)` (truncation toward zero) at
// every step; the Linkam device truncates for the weeks and then uses floor
// division `//` for the smaller units.  Both agree on non-negative input.

module ReadableTime {
  import opened Wrappers
  import opened Text

  const Minute: int := 60
  const Hour: int := 3600
  const Day: int := 86400
  const Week: int := 604800

  /** How the parts below weeks are divided out. */
  datatype Division = Truncating | Flooring

  /** `int(a / b)` for a positive divisor: the quotient rounded toward zero. */
  function TruncDiv(a: int, b: int): int
    requires b > 0
  {
    if a >= 0 then a / b else -((-a) / b)
  }

  /** `a // b` (Python) or `int(a / b)`, as `div` says. */
  function Quot(div: Division, a: int, b: int): int
    requires b > 0
  {
    match div
    case Truncating => TruncDiv(a, b)
    case Flooring => a / b
  }

  datatype Parts = Parts(weeks: int, days: int, hours: int, minutes: int, seconds: int)

  /** The five parts recomposed into seconds. */
  function Total(p: Parts): int
  {
    p.weeks * 604800 + p.days * 86400 + p.hours * 3600 + p.minutes * 60 + p.seconds
  }

  /** The decomposition step by step: each part is the quotient of what is
      still unaccounted for; the seconds are what remains (`round` of a whole
      number is the number itself). */
  function Decompose(duration: int, div: Division): (p: Parts)
    ensures Total(p) == duration
  {
    var weeks := TruncDiv(duration, 604800);
    var known := weeks * 604800;
    var days := Quot(div, duration - known, 86400);
    var known' := known + days * 86400;
    var hours := Quot(div, duration - known', 3600);
    var known'' := known' + hours * 3600;
    var minutes := Quot(div, duration - known'', 60);
    var known''' := known'' + minutes * 60;
    Parts(weeks, days, hours, minutes, duration - known''')
  }

  /** The parts are bounded: for a non-negative duration every part below
      weeks is within its unit; truncation keeps every part of a negative
      duration non-positive; flooring keeps hours, minutes and seconds
      non-negative whatever the sign. */
  lemma DecomposeBounds(duration: int, div: Division)
    ensures var p := Decompose(duration, div);
      && (duration >= 0 ==> p.weeks >= 0 && 0 <= p.days < 7 && 0 <= p.hours < 24 && 0 <= p.minutes < 60 && 0 <= p.seconds < 60)
      && (duration <= 0 && div.Truncating? ==>
            p.weeks <= 0 && -7 < p.days <= 0 && -24 < p.hours <= 0 && -60 < p.minutes <= 0 && -60 < p.seconds <= 0)
      && (div.Flooring? ==> -7 <= p.days < 7 && 0 <= p.hours < 24 && 0 <= p.minutes < 60 && 0 <= p.seconds < 60)
  {
    if duration >= 0 {
      NonNegativeParts(duration, div);
    }
    if duration <= 0 && div.Truncating? {
      TruncatingNonPositiveParts(duration);
    }
    if div.Flooring? && duration < 0 {
      FlooringNegativeParts(duration);
    }
  }

  lemma NonNegativeParts(duration: int, div: Division)
    requires duration >= 0
    ensures var p := Decompose(duration, div);
      p.weeks >= 0 && 0 <= p.days < 7 && 0 <= p.hours < 24 && 0 <= p.minutes < 60 && 0 <= p.seconds < 60
  {
    var weeks := duration / 604800;
    assert TruncDiv(duration, 604800) == weeks;
    var r1 := duration - weeks * 604800;
    assert 0 <= r1 < 604800;
    QuotNonNegative(div, r1, 86400);
    var days := r1 / 86400;
    var r2 := r1 - days * 86400;
    assert 0 <= days < 7 && 0 <= r2 < 86400;
    QuotNonNegative(div, r2, 3600);
    var hours := r2 / 3600;
    var r3 := r2 - hours * 3600;
    assert 0 <= hours < 24 && 0 <= r3 < 3600;
    QuotNonNegative(div, r3, 60);
    var minutes := r3 / 60;
    assert 0 <= minutes < 60 && 0 <= r3 - minutes * 60 < 60;
    assert Decompose(duration, div) == Parts(weeks, days, hours, minutes, r3 - minutes * 60);
  }

  lemma TruncatingNonPositiveParts(duration: int)
    requires duration <= 0
    ensures var p := Decompose(duration, Truncating);
      p.weeks <= 0 && -7 < p.days <= 0 && -24 < p.hours <= 0 && -60 < p.minutes <= 0 && -60 < p.seconds <= 0
  {
    var weeks := -((-duration) / 604800);
    assert TruncDiv(duration, 604800) == weeks;
    var r1 := duration - weeks * 604800;
    assert -604800 < r1 <= 0;
    var days := -((-r1) / 86400);
    assert Quot(Truncating, r1, 86400) == days;
    var r2 := r1 - days * 86400;
    assert -7 < days <= 0 && -86400 < r2 <= 0;
    var hours := -((-r2) / 3600);
    assert Quot(Truncating, r2, 3600) == hours;
    var r3 := r2 - hours * 3600;
    assert -24 < hours <= 0 && -3600 < r3 <= 0;
    var minutes := -((-r3) / 60);
    assert Quot(Truncating, r3, 60) == minutes;
    assert -60 < minutes <= 0 && -60 < r3 - minutes * 60 <= 0;
    assert Decompose(duration, Truncating) == Parts(weeks, days, hours, minutes, r3 - minutes * 60);
  }

  lemma FlooringNegativeParts(duration: int)
    requires duration < 0
    ensures var p := Decompose(duration, Flooring);
      -7 <= p.days < 7 && 0 <= p.hours < 24 && 0 <= p.minutes < 60 && 0 <= p.seconds < 60
  {
    var weeks := -((-duration) / 604800);
    assert TruncDiv(duration, 604800) == weeks;
    var r1 := duration - weeks * 604800;
    assert -604800 < r1 <= 0;
    var days := r1 / 86400;
    var r2 := r1 - days * 86400;
    assert -7 <= days <= 0 && 0 <= r2 < 86400;
    var hours := r2 / 3600;
    var r3 := r2 - hours * 3600;
    assert 0 <= hours < 24 && 0 <= r3 < 3600;
    var minutes := r3 / 60;
    assert 0 <= minutes < 60 && 0 <= r3 - minutes * 60 < 60;
    assert Decompose(duration, Flooring) == Parts(weeks, days, hours, minutes, r3 - minutes * 60);
  }

  /** On a non-negative duration truncation and flooring agree, so the two
      copies print the same text. */
  lemma CopiesAgree(duration: int)
    requires duration >= 0
    ensures HeaterReadableTime(duration) == LinkamReadableTime(duration)
  {
    DecomposeAgree(duration);
  }

  lemma DecomposeAgree(duration: int)
    requires duration >= 0
    ensures Decompose(duration, Truncating) == Decompose(duration, Flooring)
  {
  }

  /** Below zero they part ways: five seconds short is "-5s" for the heater
      script but minus one day plus 23h 59m 55s for the Linkam device. */
  lemma CopiesDifferBelowZero()
    ensures Decompose(-5, Truncating) == Parts(0, 0, 0, 0, -5)
    ensures Decompose(-5, Flooring) == Parts(0, -1, 23, 59, 55)
  {
    TruncatingBelowZero();
    FlooringBelowZero();
  }

  lemma TruncatingBelowZero()
    ensures Decompose(-5, Truncating) == Parts(0, 0, 0, 0, -5)
  {
    TruncatingUnderAMinute(-5);
  }

  /** With truncation, anything short of a minute either way is all seconds. */
  lemma TruncatingUnderAMinute(duration: int)
    requires -60 < duration < 60
    ensures Decompose(duration, Truncating) == Parts(0, 0, 0, 0, duration)
  {
    assert TruncDiv(duration, 604800) == 0;
    assert Quot(Truncating, duration, 86400) == 0;
    assert Quot(Truncating, duration, 3600) == 0;
    assert Quot(Truncating, duration, 60) == 0;
    assert Decompose(duration, Truncating) == Parts(0, 0, 0, 0, duration - (0 * 604800 + 0 * 86400 + 0 * 3600 + 0 * 60));
  }

  lemma FlooringBelowZero()
    ensures Decompose(-5, Flooring) == Parts(0, -1, 23, 59, 55)
  {
    assert TruncDiv(-5, 604800) == 0;
    assert -5 / 86400 == -1;
    assert 86395 / 3600 == 23;
    assert 3595 / 60 == 59;
  }

  /** One printed part: its value and its unit letter. */
  datatype Term = Term(value: int, unit: char)

  /** The five parts with their unit letters, largest unit first. */
  function AllTerms(p: Parts): seq<Term>
  {
    [Term(p.weeks, 'w')] + ([Term(p.days, 'd')] + ([Term(p.hours, 'h')] + ([Term(p.minutes, 'm')] + [Term(p.seconds, 's')])))
  }

  /** The `if v != 0` filter of the comprehension, order kept. */
  function NonZero(ts: seq<Term>): (r: seq<Term>)
    ensures |r| <= |ts|
    ensures forall i :: 0 <= i < |r| ==> r[i].value != 0 && r[i] in ts
  {
    if ts == [] then []
    else if ts[0].value != 0 then [ts[0]] + NonZero(ts[1..])
    else NonZero(ts[1..])
  }

  /** The printed terms. */
  function Terms(p: Parts): seq<Term>
  {
    NonZero(AllTerms(p))
  }

  /** `f"{v}{k}"`. */
  function FormatTerm(t: Term): string
  {
    IntToString(t.value) + [t.unit]
  }

  function FormatTerms(ts: seq<Term>): (ss: seq<string>)
    ensures |ss| == |ts| && forall i :: 0 <= i < |ts| ==> ss[i] == FormatTerm(ts[i])
  {
    if ts == [] then [] else [FormatTerm(ts[0])] + FormatTerms(ts[1..])
  }

  /** The printed terms joined by single spaces. */
  function Show(p: Parts): string
  {
    Join(" ", FormatTerms(Terms(p)))
  }

  /** `readable_time(duration)` for a whole number of seconds. */
  function ReadableTimeOf(duration: int, div: Division): string
  {
    Show(Decompose(duration, div))
  }

  /** `readable_time` of the heater profile script (user/heater_profile.py). */
  function HeaterReadableTime(duration: int): string
  {
    ReadableTimeOf(duration, Truncating)
  }

  /** `My_Linkam_T96_Device.readable_time`. */
  function LinkamReadableTime(duration: int): string
  {
    ReadableTimeOf(duration, Flooring)
  }

  // ------------------------------------------------------------ reading it back

  /** Seconds per unit letter. */
  function UnitSeconds(u: char): Option<int>
  {
    match u
    case 'w' => Some(Week)
    case 'd' => Some(Day)
    case 'h' => Some(Hour)
    case 'm' => Some(Minute)
    case 's' => Some(1)
    case _ => None
  }

  /** `v` units of `u` in seconds (nothing for an unknown unit). */
  function Scaled(v: int, u: char): int
  {
    match u
    case 'w' => v * 604800
    case 'd' => v * 86400
    case 'h' => v * 3600
    case 'm' => v * 60
    case 's' => v
    case _ => 0
  }

  /** Unit letters strictly decreasing in size along the sequence. */
  predicate LargestFirst(ts: seq<Term>)
  {
    && (forall i :: 0 <= i < |ts| ==> UnitSeconds(ts[i].unit).Some?)
    && (forall i, j :: 0 <= i < j < |ts| ==> UnitSeconds(ts[i].unit).value > UnitSeconds(ts[j].unit).value)
  }

  /** A piece such as "57m": an integer followed by a unit letter. */
  function ParseTerm(piece: string): Result<Term>
  {
    if piece == [] || UnitSeconds(piece[|piece| - 1]).None? then Err(ValueError(piece))
    else
      match ParseInt(piece[..|piece| - 1])
      case Ok(v) => Ok(Term(v, piece[|piece| - 1]))
      case Err(e) => Err(e)
  }

  function ParseTerms(pieces: seq<string>): Result<seq<Term>>
  {
    if pieces == [] then Ok([])
    else
      match ParseTerm(pieces[0])
      case Err(e) => Err(e)
      case Ok(t) =>
        match ParseTerms(pieces[1..])
        case Err(e) => Err(e)
        case Ok(ts) => Ok([t] + ts)
  }

  function TermsSeconds(ts: seq<Term>): int
  {
    if ts == [] then 0 else Scaled(ts[0].value, ts[0].unit) + TermsSeconds(ts[1..])
  }

  /** The number of seconds a readable duration stands for. */
  function ParseReadableTime(s: string): Result<int>
  {
    if s == [] then Ok(0)
    else
      match ParseTerms(Split(s, ' '))
      case Ok(ts) => Ok(TermsSeconds(ts))
      case Err(e) => Err(e)
  }

  // ------------------------------------------------------------ properties

  /** `str(v)` holds no space. */
  lemma IntToStringNoSpace(v: int)
    ensures ' ' !in IntToString(v)
  {
    var d := NatToString(if v < 0 then -v else v);
    assert forall i :: 0 <= i < |d| ==> d[i] != ' ';
    if v < 0 {
      assert IntToString(v) == "-" + d;
    }
  }

  /** A formatted term with a unit letter holds no space and is not empty. */
  lemma FormatTermShape(t: Term)
    requires UnitSeconds(t.unit).Some?
    ensures FormatTerm(t) != [] && ' ' !in FormatTerm(t)
  {
    IntToStringNoSpace(t.value);
    assert FormatTerm(t) == IntToString(t.value) + [t.unit];
  }

  lemma ParseFormatTerm(t: Term)
    requires UnitSeconds(t.unit).Some?
    ensures ParseTerm(FormatTerm(t)) == Ok(t)
  {
    var f := FormatTerm(t);
    assert f[..|f| - 1] == IntToString(t.value);
    ParseIntOfIntToString(t.value);
  }

  lemma {:induction false} ParseFormatTerms(ts: seq<Term>)
    requires forall i :: 0 <= i < |ts| ==> UnitSeconds(ts[i].unit).Some?
    ensures ParseTerms(FormatTerms(ts)) == Ok(ts)
  {
    if ts != [] {
      ParseFormatTerms(ts[1..]);
      ParseFormatTerm(ts[0]);
      var fs := FormatTerms(ts);
      assert fs[0] == FormatTerm(ts[0]) && fs[1..] == FormatTerms(ts[1..]);
      assert [ts[0]] + ts[1..] == ts;
    }
  }

  /** The filter drops only zero terms, which stand for no seconds. */
  lemma {:induction false} NonZeroSeconds(ts: seq<Term>)
    ensures TermsSeconds(NonZero(ts)) == TermsSeconds(ts)
  {
    if ts != [] {
      NonZeroSeconds(ts[1..]);
      if ts[0].value != 0 {
        var r := [ts[0]] + NonZero(ts[1..]);
        assert r[0] == ts[0] && r[1..] == NonZero(ts[1..]);
      }
    }
  }

  /** The filter keeps the order of what it keeps. */
  lemma {:induction false} NonZeroLargestFirst(ts: seq<Term>)
    requires LargestFirst(ts)
    ensures LargestFirst(NonZero(ts))
  {
    if ts != [] {
      assert LargestFirst(ts[1..]);
      NonZeroLargestFirst(ts[1..]);
      if ts[0].value != 0 {
        var rest := NonZero(ts[1..]);
        forall j | 0 <= j < |rest|
          ensures UnitSeconds(rest[j].unit).Some?
          ensures UnitSeconds(ts[0].unit).value > UnitSeconds(rest[j].unit).value
        {
          var k :| 0 <= k < |ts[1..]| && ts[1..][k] == rest[j];
          assert ts[k + 1] == rest[j];
        }
        ConsLargestFirst(ts[0], rest);
      }
    }
  }

  /** A term of a larger unit than all of a largest-first list goes in front. */
  lemma ConsLargestFirst(t: Term, rest: seq<Term>)
    requires LargestFirst(rest) && UnitSeconds(t.unit).Some?
    requires forall j :: 0 <= j < |rest| ==> UnitSeconds(t.unit).value > UnitSeconds(rest[j].unit).value
    ensures LargestFirst([t] + rest)
  {
    var r := [t] + rest;
    forall i | 0 <= i < |r|
      ensures UnitSeconds(r[i].unit).Some?
    {
      if i > 0 {
        assert r[i] == rest[i - 1];
      }
    }
    forall i, j | 0 <= i < j < |r|
      ensures UnitSeconds(r[i].unit).value > UnitSeconds(r[j].unit).value
    {
      assert r[j] == rest[j - 1];
      if i > 0 {
        assert r[i] == rest[i - 1];
      }
    }
  }

  /** The filter keeps every non-zero term. */
  lemma {:induction false} NonZeroComplete(ts: seq<Term>)
    ensures forall i :: 0 <= i < |ts| && ts[i].value != 0 ==> ts[i] in NonZero(ts)
  {
    if ts != [] {
      NonZeroComplete(ts[1..]);
      forall i | 1 <= i < |ts| && ts[i].value != 0
        ensures ts[i] in NonZero(ts)
      {
        assert ts[1..][i - 1] == ts[i];
      }
    }
  }

  lemma NonZeroCons(t: Term, ts: seq<Term>)
    ensures NonZero([t] + ts) == (if t.value != 0 then [t] else []) + NonZero(ts)
  {
    assert ([t] + ts)[0] == t && ([t] + ts)[1..] == ts;
  }

  lemma TermsSecondsCons(t: Term, ts: seq<Term>)
    ensures TermsSeconds([t] + ts) == Scaled(t.value, t.unit) + TermsSeconds(ts)
  {
    assert ([t] + ts)[0] == t && ([t] + ts)[1..] == ts;
  }

  /** The printed terms are non-zero, largest unit first, and every non-zero
      part is among them. */
  lemma TermsShape(p: Parts)
    ensures var ts := Terms(p);
      && LargestFirst(ts)
      && (forall i :: 0 <= i < |ts| ==> ts[i].value != 0 && ts[i] in AllTerms(p))
      && (forall i :: 0 <= i < 5 && AllTerms(p)[i].value != 0 ==> AllTerms(p)[i] in ts)
  {
    var all := AllTerms(p);
    assert LargestFirst(all);
    NonZeroLargestFirst(all);
    NonZeroComplete(all);
  }

  /** The printed terms stand for exactly the parts' total. */
  lemma TermsTotal(p: Parts)
    ensures TermsSeconds(Terms(p)) == Total(p)
  {
    NonZeroSeconds(AllTerms(p));
    TermsSecondsCons(Term(p.minutes, 'm'), [Term(p.seconds, 's')]);
    TermsSecondsCons(Term(p.hours, 'h'), [Term(p.minutes, 'm')] + [Term(p.seconds, 's')]);
    TermsSecondsCons(Term(p.days, 'd'), [Term(p.hours, 'h')] + ([Term(p.minutes, 'm')] + [Term(p.seconds, 's')]));
    TermsSecondsCons(Term(p.weeks, 'w'), [Term(p.days, 'd')] + ([Term(p.hours, 'h')] + ([Term(p.minutes, 'm')] + [Term(p.seconds, 's')])));
  }

  lemma JoinNotEmpty(parts: seq<string>)
    requires parts != [] && parts[0] != []
    ensures Join(" ", parts) != []
  {
    assert |Join(" ", parts)| >= |parts[0]|;
  }

  /** Reading back the text of terms with unit letters gives their seconds. */
  lemma TermsRoundTrip(ts: seq<Term>)
    requires ts != [] && forall i :: 0 <= i < |ts| ==> UnitSeconds(ts[i].unit).Some?
    ensures ParseReadableTime(Join(" ", FormatTerms(ts))) == Ok(TermsSeconds(ts))
  {
    var fs := FormatTerms(ts);
    forall i | 0 <= i < |fs|
      ensures fs[i] != [] && ' ' !in fs[i]
    {
      FormatTermShape(ts[i]);
    }
    SplitJoin(fs, ' ');
    ParseFormatTerms(ts);
    JoinNotEmpty(fs);
  }

  /** Reading back the text of any parts gives their total. */
  lemma PartsRoundTrip(p: Parts)
    ensures ParseReadableTime(Show(p)) == Ok(Total(p))
  {
    TermsShape(p);
    TermsTotal(p);
    if Terms(p) != [] {
      TermsRoundTrip(Terms(p));
    }
  }

  /** Reading the text back gives the duration: the printed parts recompose
      to the input, whichever division was used. */
  lemma ReadableTimeRoundTrip(duration: int, div: Division)
    ensures ParseReadableTime(ReadableTimeOf(duration, div)) == Ok(duration)
  {
    PartsRoundTrip(Decompose(duration, div));
  }

  /** The text is empty exactly for a zero duration. */
  lemma ReadableTimeEmpty(duration: int, div: Division)
    ensures ReadableTimeOf(duration, div) == "" <==> duration == 0
  {
    if duration == 0 {
      ZeroText(div);
    } else {
      ReadableTimeRoundTrip(duration, div);
    }
  }

  lemma ZeroText(div: Division)
    ensures ReadableTimeOf(0, div) == ""
  {
    UnderADay(0, div, Parts(0, 0, 0, 0, 0));
    ZeroPartsShowNothing(Parts(0, 0, 0, 0, 0));
  }

  lemma ZeroPartsShowNothing(p: Parts)
    requires p == Parts(0, 0, 0, 0, 0)
    ensures Show(p) == ""
  {
    TermsShape(p);
    assert forall t :: t in AllTerms(p) ==> t.value == 0;
    assert Terms(p) == [];
  }

  /** A duration under a day has no weeks or days; the rest are the usual
      quotients and remainders. */
  lemma UnderADay(duration: int, div: Division, p: Parts)
    requires 0 <= duration < 86400
    requires p == Parts(0, 0, duration / 3600, duration % 3600 / 60, duration % 60)
    ensures Decompose(duration, div) == p
  {
    var h, rest := duration / 3600, duration % 3600;
    assert duration == h * 3600 + rest;
    var m, sec := rest / 60, rest % 60;
    assert rest == m * 60 + sec;
    assert duration == (h * 60 + m) * 60 + sec;
    assert sec == duration % 60;
    QuotNonNegative(div, duration, 86400);
    QuotNonNegative(div, duration, 3600);
    QuotNonNegative(div, rest, 60);
    assert TruncDiv(duration, 604800) == 0;
    assert Quot(div, duration - 0 * 604800, 86400) == 0;
    assert Quot(div, duration - (0 + 0 * 86400), 3600) == h;
    assert Quot(div, duration - (0 + 0 * 86400 + h * 3600), 60) == m;
  }

  /** On a non-negative dividend both ways of dividing agree. */
  lemma QuotNonNegative(div: Division, a: int, b: int)
    requires a >= 0 && b > 0
    ensures Quot(div, a, b) == a / b
  {
  }

  /** The examples of the documentation. */
  lemma FormatSmall(v: nat, u: char)
    requires 0 < v < 100
    ensures FormatTerm(Term(v, u)) == (if v < 10 then [DigitChar(v)] else [DigitChar(v / 10), DigitChar(v % 10)]) + [u]
  {
    if v >= 10 {
      assert NatToString(v) == NatToString(v / 10) + [DigitChar(v % 10)];
      assert NatToString(v / 10) == [DigitChar(v / 10)];
    }
  }

  lemma Example425(div: Division)
    ensures ReadableTimeOf(425, div) == "7m 5s"
  {
    UnderADay(425, div, Parts(0, 0, 0, 7, 5));
    Example425Terms();
    Example425Text();
  }

  lemma Example425Terms()
    ensures Terms(Parts(0, 0, 0, 7, 5)) == [Term(7, 'm'), Term(5, 's')]
  {
    NonZeroCons(Term(5, 's'), []);
    NonZeroCons(Term(7, 'm'), [Term(5, 's')]);
    NonZeroCons(Term(0, 'h'), [Term(7, 'm')] + [Term(5, 's')]);
    NonZeroCons(Term(0, 'd'), [Term(0, 'h')] + ([Term(7, 'm')] + [Term(5, 's')]));
    NonZeroCons(Term(0, 'w'), [Term(0, 'd')] + ([Term(0, 'h')] + ([Term(7, 'm')] + [Term(5, 's')])));
  }

  lemma Example425Text()
    ensures Join(" ", FormatTerms([Term(7, 'm'), Term(5, 's')])) == "7m 5s"
  {
    var fs := FormatTerms([Term(7, 'm'), Term(5, 's')]);
    FormatSmall(7, 'm');
    assert FormatTerm(Term(7, 'm')) == "7m";
    FormatSmall(5, 's');
    assert FormatTerm(Term(5, 's')) == "5s";
    assert fs == ["7m", "5s"];
    assert Join(" ", ["7m", "5s"]) == "7m" + " " + Join(" ", ["5s"]);
  }

  lemma Example1425(div: Division)
    ensures ReadableTimeOf(1425, div) == "23m 45s"
  {
    UnderADay(1425, div, Parts(0, 0, 0, 23, 45));
    Example1425Terms();
    Example1425Text();
  }

  lemma Example1425Terms()
    ensures Terms(Parts(0, 0, 0, 23, 45)) == [Term(23, 'm'), Term(45, 's')]
  {
    NonZeroCons(Term(45, 's'), []);
    NonZeroCons(Term(23, 'm'), [Term(45, 's')]);
    NonZeroCons(Term(0, 'h'), [Term(23, 'm')] + [Term(45, 's')]);
    NonZeroCons(Term(0, 'd'), [Term(0, 'h')] + ([Term(23, 'm')] + [Term(45, 's')]));
    NonZeroCons(Term(0, 'w'), [Term(0, 'd')] + ([Term(0, 'h')] + ([Term(23, 'm')] + [Term(45, 's')])));
  }

  lemma Example1425Text()
    ensures Join(" ", FormatTerms([Term(23, 'm'), Term(45, 's')])) == "23m 45s"
  {
    var fs := FormatTerms([Term(23, 'm'), Term(45, 's')]);
    FormatSmall(23, 'm');
    assert FormatTerm(Term(23, 'm')) == "23m";
    FormatSmall(45, 's');
    assert FormatTerm(Term(45, 's')) == "45s";
    assert fs == ["23m", "45s"];
    assert Join(" ", ["23m", "45s"]) == "23m" + " " + Join(" ", ["45s"]);
  }

  lemma Example21425(div: Division)
    ensures ReadableTimeOf(21425, div) == "5h 57m 5s"
  {
    UnderADay(21425, div, Parts(0, 0, 5, 57, 5));
    Example21425Terms();
    Example21425Text();
  }

  lemma Example21425Terms()
    ensures Terms(Parts(0, 0, 5, 57, 5)) == [Term(5, 'h'), Term(57, 'm'), Term(5, 's')]
  {
    NonZeroCons(Term(5, 's'), []);
    NonZeroCons(Term(57, 'm'), [Term(5, 's')]);
    NonZeroCons(Term(5, 'h'), [Term(57, 'm')] + [Term(5, 's')]);
    NonZeroCons(Term(0, 'd'), [Term(5, 'h')] + ([Term(57, 'm')] + [Term(5, 's')]));
    NonZeroCons(Term(0, 'w'), [Term(0, 'd')] + ([Term(5, 'h')] + ([Term(57, 'm')] + [Term(5, 's')])));
  }

  lemma Example21425Text()
    ensures Join(" ", FormatTerms([Term(5, 'h'), Term(57, 'm'), Term(5, 's')])) == "5h 57m 5s"
  {
    var fs := FormatTerms([Term(5, 'h'), Term(57, 'm'), Term(5, 's')]);
    FormatSmall(5, 'h');
    assert FormatTerm(Term(5, 'h')) == "5h";
    FormatSmall(57, 'm');
    assert FormatTerm(Term(57, 'm')) == "57m";
    FormatSmall(5, 's');
    assert FormatTerm(Term(5, 's')) == "5s";
    assert fs == ["5h", "57m", "5s"];
    assert Join(" ", ["5h", "57m", "5s"]) == "5h" + " " + Join(" ", ["57m", "5s"]);
    assert Join(" ", ["57m", "5s"]) == "57m" + " " + Join(" ", ["5s"]);
  }

  lemma Example360(div: Division)
    ensures ReadableTimeOf(360, div) == "6m"
  {
    UnderADay(360, div, Parts(0, 0, 0, 6, 0));
    Example360Terms();
    Example360Text();
  }

  lemma Example360Terms()
    ensures Terms(Parts(0, 0, 0, 6, 0)) == [Term(6, 'm')]
  {
    NonZeroCons(Term(0, 's'), []);
    NonZeroCons(Term(6, 'm'), [Term(0, 's')]);
    NonZeroCons(Term(0, 'h'), [Term(6, 'm')] + [Term(0, 's')]);
    NonZeroCons(Term(0, 'd'), [Term(0, 'h')] + ([Term(6, 'm')] + [Term(0, 's')]));
    NonZeroCons(Term(0, 'w'), [Term(0, 'd')] + ([Term(0, 'h')] + ([Term(6, 'm')] + [Term(0, 's')])));
  }

  lemma Example360Text()
    ensures Join(" ", FormatTerms([Term(6, 'm')])) == "6m"
  {
    var fs := FormatTerms([Term(6, 'm')]);
    FormatSmall(6, 'm');
    assert FormatTerm(Term(6, 'm')) == "6m";
    assert fs == ["6m"];
  }
}
