// The camonitor log reader: each line "PV DATE TIME.MICROS VALUE" becomes an
// event with a UTC epoch timestamp, grouped by PV in file order.

module CamonitorLog {
  import opened Wrappers
  import Text
  import opened OrderedDicts

  /** One logged value change; the value is kept as its raw token. */
  datatype Event = Event(pv: string, timestamp: real, value: string)

  datatype Date = Date(year: int, month: int, day: int)
  datatype Time = Time(hour: int, minute: int, second: int)

  predicate IsLeap(y: int)
  {
    y % 4 == 0 && (y % 100 != 0 || y % 400 == 0)
  }

  function YearLength(y: int): int
  {
    if IsLeap(y) then 366 else 365
  }

  function DaysIn(y: int, m: int): int
    requires 1 <= m <= 12
  {
    if m == 2 then (if IsLeap(y) then 29 else 28)
    else if m == 4 || m == 6 || m == 9 || m == 11 then 30
    else 31
  }

  predicate ValidDate(d: Date)
  {
    1 <= d.year <= 9999 && 1 <= d.month <= 12 && 1 <= d.day <= DaysIn(d.year, d.month)
  }

  predicate ValidTime(t: Time)
  {
    0 <= t.hour < 24 && 0 <= t.minute < 60 && 0 <= t.second < 60
  }

  /** Days of the months before `m` in year `y`. */
  function DaysBeforeMonth(y: int, m: int): int
    requires 1 <= m <= 13
  {
    if m == 1 then 0 else DaysBeforeMonth(y, m - 1) + DaysIn(y, m - 1)
  }

  /** Day number of January 1 of year `y`, counted from 1970-01-01. */
  function YearStart(y: int): int
    decreases if y >= 1970 then y - 1970 else 1970 - y
  {
    if y == 1970 then 0
    else if y > 1970 then YearStart(y - 1) + YearLength(y - 1)
    else YearStart(y + 1) - YearLength(y)
  }

  /** Day number of a date, counted from 1970-01-01. */
  function EpochDay(d: Date): int
    requires 1 <= d.month <= 12
  {
    YearStart(d.year) + DaysBeforeMonth(d.year, d.month) + d.day - 1
  }

  /** `calendar.timegm(dt.timetuple())`: the date and time read as UTC. */
  function EpochSeconds(d: Date, t: Time): int
    requires 1 <= d.month <= 12
  {
    EpochDay(d) * 86400 + t.hour * 3600 + t.minute * 60 + t.second
  }

  /** The calendar day after `d`. */
  function NextDay(d: Date): (n: Date)
    requires ValidDate(d) && d.year < 9999
    ensures ValidDate(n)
  {
    if d.day < DaysIn(d.year, d.month) then Date(d.year, d.month, d.day + 1)
    else if d.month < 12 then Date(d.year, d.month + 1, 1)
    else Date(d.year + 1, 1, 1)
  }

  lemma {:induction false} YearStartNext(y: int)
    ensures YearStart(y + 1) == YearStart(y) + YearLength(y)
  {
  }

  lemma DaysBeforeDecember(y: int)
    ensures DaysBeforeMonth(y, 12) + 31 == YearLength(y)
  {
    var feb := if IsLeap(y) then 29 else 28;
    assert DaysBeforeMonth(y, 2) == 31;
    assert DaysBeforeMonth(y, 3) == 31 + feb;
    assert DaysBeforeMonth(y, 4) == 62 + feb;
    assert DaysBeforeMonth(y, 5) == 92 + feb;
    assert DaysBeforeMonth(y, 6) == 123 + feb;
    assert DaysBeforeMonth(y, 7) == 153 + feb;
    assert DaysBeforeMonth(y, 8) == 184 + feb;
    assert DaysBeforeMonth(y, 9) == 215 + feb;
    assert DaysBeforeMonth(y, 10) == 245 + feb;
    assert DaysBeforeMonth(y, 11) == 276 + feb;
    assert DaysBeforeMonth(y, 12) == 306 + feb;
  }

  /** The day numbering has no gaps or overlaps: the next calendar day,
      across month and year ends and leap days, is the next day number. */
  lemma EpochDayNext(d: Date)
    requires ValidDate(d) && d.year < 9999
    ensures EpochDay(NextDay(d)) == EpochDay(d) + 1
  {
    if d.day == DaysIn(d.year, d.month) && d.month == 12 {
      YearStartNext(d.year);
      DaysBeforeDecember(d.year);
    }
  }

  /** Day one of the count is the epoch. */
  lemma EpochStart()
    ensures EpochSeconds(Date(1970, 1, 1), Time(0, 0, 0)) == 0
  {
  }

  /** `n` digits read as a number, or nothing if they are not all digits or
      not exactly `n` of them. */
  function Fixed(s: string, n: nat): (r: Option<nat>)
    ensures r.Some? ==> |s| == n
  {
    if |s| == n && Text.AllDigits(s) then Some(Text.DigitsValue(s)) else None
  }

  /** `YYYY-MM-DD`, a real calendar date. */
  function ParseDate(s: string): (r: Option<Date>)
    ensures r.Some? ==> ValidDate(r.value)
  {
    if |s| != 10 || s[4] != '-' || s[7] != '-' then None
    else
      var y := Fixed(s[..4], 4);
      var m := Fixed(s[5..7], 2);
      var d := Fixed(s[8..], 2);
      if y.None? || m.None? || d.None? then None
      else
        var date := Date(y.value, m.value, d.value);
        if ValidDate(date) then Some(date) else None
  }

  /** A real time of day from its hour, minute and second fields. */
  function TimeOf(h: Option<nat>, m: Option<nat>, sec: Option<nat>): (r: Option<Time>)
    ensures r.Some? ==> ValidTime(r.value)
  {
    if h.None? || m.None? || sec.None? then None
    else
      var t := Time(h.value, m.value, sec.value);
      if ValidTime(t) then Some(t) else None
  }

  /** `HH`, `HH:MM` or `HH:MM:SS`, a real time of day; the fields left out
      are zero. */
  function ParseTime(s: string): (r: Option<Time>)
    ensures r.Some? ==> ValidTime(r.value)
    ensures r.Some? ==> |s| in {2, 5, 8}
  {
    if |s| == 2 then TimeOf(Fixed(s, 2), Some(0), Some(0))
    else if |s| == 5 && s[2] == ':' then TimeOf(Fixed(s[..2], 2), Fixed(s[3..], 2), Some(0))
    else if |s| == 8 && s[2] == ':' && s[5] == ':' then TimeOf(Fixed(s[..2], 2), Fixed(s[3..5], 2), Fixed(s[6..], 2))
    else None
  }

  /** Zero-padded decimal digits of `n` in exactly `width` places. */
  function Digits(n: nat, width: nat): (s: string)
    ensures |s| == width && forall i :: 0 <= i < width ==> Text.IsDigit(s[i])
  {
    if width == 0 then [] else Digits(n / 10, width - 1) + [Text.DigitChar(n % 10)]
  }

  /** A number that fits reads back from its digits. */
  lemma {:induction false} DigitsValueOfDigits(n: nat, width: nat)
    requires n < Text.Pow10(width)
    ensures Text.DigitsValue(Digits(n, width)) == n
  {
    if width > 0 {
      var q := n / 10;
      assert q < Text.Pow10(width - 1);
      DigitsValueOfDigits(q, width - 1);
      var s := Digits(n, width);
      assert s[..|s| - 1] == Digits(q, width - 1);
      assert Text.DigitValue(s[|s| - 1]) == n % 10;
    }
  }

  /** How a date and time of day are written in the log. */
  function ShowDate(d: Date): string
    requires ValidDate(d)
  {
    Digits(d.year, 4) + "-" + Digits(d.month, 2) + "-" + Digits(d.day, 2)
  }

  function ShowTime(t: Time): string
    requires ValidTime(t)
  {
    Digits(t.hour, 2) + ":" + Digits(t.minute, 2) + ":" + Digits(t.second, 2)
  }

  lemma FixedDigits(n: nat, width: nat)
    requires 0 < width && n < Text.Pow10(width)
    ensures Fixed(Digits(n, width), width) == Some(n)
  {
    DigitsValueOfDigits(n, width);
  }

  /** Every valid date reads back as itself. */
  lemma ParseShowDate(d: Date)
    requires ValidDate(d)
    ensures ParseDate(ShowDate(d)) == Some(d)
  {
    var s := ShowDate(d);
    var y, m, dd := Digits(d.year, 4), Digits(d.month, 2), Digits(d.day, 2);
    assert s == y + "-" + m + "-" + dd;
    assert s[..4] == y && s[5..7] == m && s[8..] == dd;
    assert s[4] == '-' && s[7] == '-';
    assert Text.Pow10(4) == 10000 by { assert Text.Pow10(2) == 100; }
    FixedDigits(d.year, 4);
    FixedDigits(d.month, 2);
    FixedDigits(d.day, 2);
  }

  /** Every valid time of day reads back as itself. */
  lemma ParseShowTime(t: Time)
    requires ValidTime(t)
    ensures ParseTime(ShowTime(t)) == Some(t)
  {
    var s := ShowTime(t);
    var h, m, sec := Digits(t.hour, 2), Digits(t.minute, 2), Digits(t.second, 2);
    assert s == h + ":" + m + ":" + sec;
    assert s[..2] == h && s[3..5] == m && s[6..] == sec;
    assert Text.Pow10(2) == 100;
    FixedDigits(t.hour, 2);
    FixedDigits(t.minute, 2);
    FixedDigits(t.second, 2);
  }

  /** The shorter forms read as the time with the missing fields zero. */
  lemma ParseShortTimes(t: Time)
    requires ValidTime(t)
    ensures ParseTime(Digits(t.hour, 2)) == Some(Time(t.hour, 0, 0))
    ensures ParseTime(Digits(t.hour, 2) + ":" + Digits(t.minute, 2)) == Some(Time(t.hour, t.minute, 0))
  {
    var h, m := Digits(t.hour, 2), Digits(t.minute, 2);
    var s := h + ":" + m;
    assert s[..2] == h && s[3..] == m && s[2] == ':';
    assert Text.Pow10(2) == 100;
    FixedDigits(t.hour, 2);
    FixedDigits(t.minute, 2);
  }

  /** The error of a time token that does not split into two parts at ".". */
  function UnpackError(got: nat): Error
  {
    if got < 2 then ValueError("not enough values to unpack (expected 2, got " + Text.IntToString(got) + ")")
    else ValueError("too many values to unpack (expected 2)")
  }

  /** `datetime.fromisoformat(f"{ymd}T{hms}")` in its extended forms
      "YYYY-MM-DDTHH", "YYYY-MM-DDTHH:MM" and "YYYY-MM-DDTHH:MM:SS". */
  function FromIsoFormat(ymd: string, hms: string): (r: Result<(Date, Time)>)
    ensures r.Ok? <==> ParseDate(ymd).Some? && ParseTime(hms).Some?
    ensures r.Ok? ==> r.value == (ParseDate(ymd).value, ParseTime(hms).value)
    ensures r.Err? ==> r.error.ValueError?
  {
    var date := ParseDate(ymd);
    var time := ParseTime(hms);
    if date.Some? && time.Some? then Ok((date.value, time.value))
    else Err(ValueError("Invalid isoformat string: '" + ymd + "T" + hms + "'"))
  }

  /** One line of the log: no event unless it has exactly four tokens; a
      time token without exactly one "." raises; a fractional part of any
      length is accepted (the source only warns when it is not six digits);
      the timestamp is the UTC epoch seconds plus the fraction / 1e6. */
  function ParseLine(line: string): (r: Result<Option<Event>>)
    ensures |Text.Words(line)| != 4 ==> r == Ok(None)
    ensures |Text.Words(line)| == 4 && |Text.Split(Text.Words(line)[2], '.')| != 2 ==>
      r == Err(UnpackError(|Text.Split(Text.Words(line)[2], '.')|))
    ensures r.Ok? && r.value.Some? ==>
      var ws := Text.Words(line);
      var pieces := Text.Split(ws[2], '.');
      |ws| == 4 && |pieces| == 2 &&
      var dt := FromIsoFormat(ws[1], pieces[0]);
      var micros := Text.ParseDecimal(pieces[1]);
      dt.Ok? && micros.Ok? &&
      r.value.value == Event(ws[0], EpochSeconds(dt.value.0, dt.value.1) as real + micros.value / 1000000.0, ws[3])
    ensures |Text.Words(line)| == 4 && r.Ok? ==> r.value.Some?
  {
    var ws := Text.Words(line);
    if |ws| != 4 then Ok(None)
    else
      var pieces := Text.Split(ws[2], '.');
      if |pieces| != 2 then Err(UnpackError(|pieces|))
      else
        var dt := FromIsoFormat(ws[1], pieces[0]);
        if dt.Err? then Err(dt.error)
        else
          var micros := Text.ParseDecimal(pieces[1]);
          if micros.Err? then Err(micros.error)
          else
            var ts := EpochSeconds(dt.value.0, dt.value.1) as real + micros.value / 1000000.0;
            Ok(Some(Event(ws[0], ts, ws[3])))
  }

  /** The events of the first lines, or the error of the first line that
      raised. */
  function ParseAll(lines: seq<string>): (r: Result<seq<Event>>)
  {
    if lines == [] then Ok([])
    else
      var prev := ParseAll(lines[..|lines| - 1]);
      if prev.Err? then prev
      else
        match ParseLine(lines[|lines| - 1])
        case Err(e) => Err(e)
        case Ok(None) => prev
        case Ok(Some(ev)) => Ok(prev.value + [ev])
  }

  /** `buf[pv].append(event)` on the `defaultdict(list)`. */
  function AddEvent(buf: Dict<string, seq<Event>>, ev: Event): Dict<string, seq<Event>>
  {
    var before := Get(buf, ev.pv);
    Put(buf, ev.pv, (if before.Some? then before.value else []) + [ev])
  }

  /** The buffer after appending every event in order. */
  function Group(events: seq<Event>): Dict<string, seq<Event>>
  {
    if events == [] then [] else AddEvent(Group(events[..|events| - 1]), events[|events| - 1])
  }

  /** The events of one PV, in file order. */
  function EventsOf(events: seq<Event>, pv: string): (es: seq<Event>)
    ensures forall i :: 0 <= i < |es| ==> es[i].pv == pv
  {
    if events == [] then []
    else
      var prev := EventsOf(events[..|events| - 1], pv);
      if events[|events| - 1].pv == pv then prev + [events[|events| - 1]] else prev
  }

  /** The PVs in order of their first event. */
  function PvsOf(events: seq<Event>): seq<string>
  {
    if events == [] then []
    else
      var prev := PvsOf(events[..|events| - 1]);
      if events[|events| - 1].pv in prev then prev else prev + [events[|events| - 1].pv]
  }

  /** The grouping: every PV's list holds exactly its events in file order,
      a PV without events has no entry, and the PVs are listed in order of
      their first event. */
  lemma {:induction false} GroupContents(events: seq<Event>, pv: string)
    ensures Get(Group(events), pv) == if pv in PvsOf(events) then Some(EventsOf(events, pv)) else None
    ensures Keys(Group(events)) == PvsOf(events)
  {
    if events != [] {
      var prev := events[..|events| - 1];
      var ev := events[|events| - 1];
      GroupContents(prev, pv);
      GroupContents(prev, ev.pv);
      GetPut(Group(prev), ev.pv, (if Get(Group(prev), ev.pv).Some? then Get(Group(prev), ev.pv).value else []) + [ev], pv);
      if ev.pv !in PvsOf(prev) {
        EventsOfAbsent(prev, ev.pv);
      }
    }
  }

  lemma {:induction false} EventsOfAbsent(events: seq<Event>, pv: string)
    requires pv !in PvsOf(events)
    ensures EventsOf(events, pv) == []
  {
    if events != [] {
      var prev := events[..|events| - 1];
      assert pv !in PvsOf(prev);
      EventsOfAbsent(prev, pv);
    }
  }

  /** `read_logs`, over the lines of the file: each line parsed in turn and
      its event appended under its PV; the first line that raises ends the
      reading with that error. */
  method ReadLogs(lines: seq<string>) returns (r: Result<Dict<string, seq<Event>>>)
    ensures r == match ParseAll(lines) case Ok(es) => Ok(Group(es)) case Err(e) => Err(e)
  {
    var buf: Dict<string, seq<Event>> := [];
    ghost var events: seq<Event> := [];
    var i := 0;
    while i < |lines|
      invariant 0 <= i <= |lines|
      invariant ParseAll(lines[..i]) == Ok(events) && buf == Group(events)
    {
      assert lines[..i + 1][..i] == lines[..i];
      var parsed := ParseLine(lines[i]);
      if parsed.Err? {
        assert ParseAll(lines[..i + 1]) == Err(parsed.error);
        ParseAllStops(lines, i + 1);
        return Err(parsed.error);
      }
      if parsed.value.Some? {
        var ev := parsed.value.value;
        buf := AddEvent(buf, ev);
        assert (events + [ev])[..|events|] == events;
        events := events + [ev];
      }
      i := i + 1;
    }
    assert lines[..i] == lines;
    return Ok(buf);
  }

  /** Once a line raised, later lines change nothing. */
  lemma {:induction false} ParseAllStops(lines: seq<string>, k: nat)
    requires k <= |lines| && ParseAll(lines[..k]).Err?
    ensures ParseAll(lines) == ParseAll(lines[..k])
    decreases |lines| - k
  {
    if k < |lines| {
      assert lines[..k + 1][..k] == lines[..k];
      ParseAllStops(lines, k + 1);
    } else {
      assert lines[..k] == lines;
    }
  }
}
