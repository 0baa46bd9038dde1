/** The Python string operations the modelled code relies on: `strip`,
    `rstrip`, `lower`, `split()`, `split(sep)`, `sep.join`, `int()`, `float()`
    and `str()`/`format` of integers.  Characters are compared as ASCII; the
    Unicode whitespace and case tables are not modelled. */
module Text {
  import opened Wrappers

  /** Python's `str.isspace` on the ASCII range. */
  predicate IsSpace(c: char) {
    c == ' ' || (9 <= c as int <= 13) || (0x1c <= c as int <= 0x1f)
  }

  predicate IsDigit(c: char) { '0' <= c <= '9' }

  predicate IsUpper(c: char) { 'A' <= c <= 'Z' }

  /** `str.lower()` on ASCII letters. */
  function Lower(s: string): (r: string)
    ensures |r| == |s|
  {
    if s == [] then []
    else [if IsUpper(s[0]) then (s[0] as int + 32) as char else s[0]] + Lower(s[1..])
  }

  /** Lowering maps each upper-case letter to its lower-case letter and keeps every other character. */
  lemma {:induction false} LowerChars(s: string)
    ensures forall i :: 0 <= i < |s| ==> Lower(s)[i] == (if IsUpper(s[i]) then (s[i] as int + 32) as char else s[i])
  {
    if s != [] {
      LowerChars(s[1..]);
      assert forall i :: 1 <= i < |s| ==> Lower(s)[i] == Lower(s[1..])[i - 1];
    }
  }

  /** Lowering twice is lowering once. */
  lemma {:induction false} LowerIdempotent(s: string)
    ensures Lower(Lower(s)) == Lower(s)
  {
    if s != [] {
      LowerIdempotent(s[1..]);
      var l := Lower(s);
      assert l[1..] == Lower(s[1..]);
    }
  }

  /** `str.lstrip()`: drop leading whitespace. */
  function LStrip(s: string): (r: string)
    ensures |r| <= |s|
  {
    if s != [] && IsSpace(s[0]) then LStrip(s[1..]) else s
  }

  /** `str.rstrip()`: drop trailing whitespace. */
  function RStrip(s: string): (r: string)
    ensures |r| <= |s|
  {
    if s != [] && IsSpace(s[|s| - 1]) then RStrip(s[..|s| - 1]) else s
  }

  /** `str.lstrip()` removes exactly the leading whitespace. */
  lemma {:induction false} LStripDropsSpace(s: string)
    ensures var r := LStrip(s);
      && r == s[|s| - |r|..]
      && (r == [] || !IsSpace(r[0]))
      && forall i :: 0 <= i < |s| - |r| ==> IsSpace(s[i])
  {
    if s != [] && IsSpace(s[0]) {
      LStripDropsSpace(s[1..]);
    }
  }

  /** `str.rstrip()` removes exactly the trailing whitespace. */
  lemma {:induction false} RStripDropsSpace(s: string)
    ensures var r := RStrip(s);
      && r == s[..|r|]
      && (r == [] || !IsSpace(r[|r| - 1]))
      && forall i :: |r| <= i < |s| ==> IsSpace(s[i])
  {
    if s != [] && IsSpace(s[|s| - 1]) {
      RStripDropsSpace(s[..|s| - 1]);
    }
  }

  /** `str.strip()`. */
  function Strip(s: string): (r: string)
    ensures |r| <= |s|
  {
    RStrip(LStrip(s))
  }

  /** A stripped string neither starts nor ends with whitespace. */
  lemma StripTrims(s: string)
    ensures Strip(s) == [] || (!IsSpace(Strip(s)[0]) && !IsSpace(Strip(s)[|Strip(s)| - 1]))
  {
    LStripDropsSpace(s);
    RStripDropsSpace(LStrip(s));
    var l := LStrip(s);
    var r := RStrip(l);
    if r != [] {
      assert r[0] == l[0];
    }
  }

  /** Index of the first whitespace character of `s`, or `|s|`. */
  function WordEnd(s: string): (k: nat)
    ensures k <= |s|
    ensures forall i :: 0 <= i < k ==> !IsSpace(s[i])
    ensures k < |s| ==> IsSpace(s[k])
  {
    if s == [] || IsSpace(s[0]) then 0 else 1 + WordEnd(s[1..])
  }

  /** `str.split()` with no argument: the maximal runs of non-whitespace. */
  function Words(s: string): (ws: seq<string>)
    ensures forall i :: 0 <= i < |ws| ==> IsWord(ws[i])
    decreases |s|
  {
    var t := LStrip(s);
    LStripDropsSpace(s);
    if t == [] then []
    else
      var k := WordEnd(t);
      assert IsWord(t[..k]);
      [t[..k]] + Words(t[k..])
  }

  /** A token of `str.split()`: non-empty, no whitespace. */
  predicate IsWord(w: string) {
    w != [] && forall j :: 0 <= j < |w| ==> !IsSpace(w[j])
  }

  /** `s.split(sep)` for a one-character separator: empty pieces are kept. */
  function Split(s: string, sep: char): (parts: seq<string>)
    ensures |parts| >= 1
    ensures forall i :: 0 <= i < |parts| ==> sep !in parts[i]
  {
    if s == [] then [""]
    else
      var rest := Split(s[1..], sep);
      if s[0] == sep then [""] + rest else [[s[0]] + rest[0]] + rest[1..]
  }

  /** Splitting a string with one more piece after a separator. */
  lemma {:induction false} SplitLast(p: string, name: string, sep: char)
    requires sep !in name
    ensures Split(p + [sep] + name, sep) == Split(p, sep) + [name]
  {
    if p == [] {
      assert p + [sep] + name == [sep] + name;
      assert ([sep] + name)[1..] == name;
      NoSplit(name, sep);
    } else {
      SplitLast(p[1..], name, sep);
      assert (p + [sep] + name)[1..] == p[1..] + [sep] + name;
    }
  }

  /** `sep.join(parts)`. */
  function Join(sep: string, parts: seq<string>): string
  {
    if parts == [] then ""
    else if |parts| == 1 then parts[0]
    else parts[0] + sep + Join(sep, parts[1..])
  }

  /** Number of occurrences of `c` in `s`. */
  function Count(s: string, c: char): nat
  {
    if s == [] then 0 else (if s[0] == c then 1 else 0) + Count(s[1..], c)
  }

  /** Splitting on a separator and joining with it gives the text back. */
  lemma {:induction false} JoinSplit(s: string, sep: char)
    ensures Join([sep], Split(s, sep)) == s
  {
    if s != [] {
      JoinSplit(s[1..], sep);
      var rest := Split(s[1..], sep);
      if s[0] != sep {
        if |rest| == 1 {
        } else {
          assert [[s[0]] + rest[0]] + rest[1..] == [[s[0]] + rest[0]] + rest[1..];
          assert Join([sep], [[s[0]] + rest[0]] + rest[1..]) == [s[0]] + rest[0] + [sep] + Join([sep], rest[1..]);
        }
      }
    }
  }

  /** Splitting after a separator-free prefix and a separator. */
  lemma {:induction false} SplitAfter(a: string, b: string, sep: char)
    requires sep !in a
    ensures Split(a + [sep] + b, sep) == [a] + Split(b, sep)
  {
    if a == [] {
      assert [] + [sep] + b == [sep] + b;
      assert ([sep] + b)[1..] == b;
    } else {
      SplitAfter(a[1..], b, sep);
      assert (a + [sep] + b)[1..] == a[1..] + [sep] + b;
      assert [a[0]] + a[1..] == a;
    }
  }

  /** Joining separator-free pieces and splitting again gives the pieces back. */
  lemma {:induction false} SplitJoin(parts: seq<string>, sep: char)
    requires parts != [] && forall i :: 0 <= i < |parts| ==> sep !in parts[i]
    ensures Split(Join([sep], parts), sep) == parts
  {
    if |parts| == 1 {
      NoSplit(parts[0], sep);
    } else {
      SplitJoin(parts[1..], sep);
      assert Join([sep], parts) == parts[0] + [sep] + Join([sep], parts[1..]);
      SplitAfter(parts[0], Join([sep], parts[1..]), sep);
      assert [parts[0]] + parts[1..] == parts;
    }
  }

  /** `s.split(sep)` has one piece more than `s` has separators. */
  lemma {:induction false} SplitCount(s: string, sep: char)
    ensures |Split(s, sep)| == Count(s, sep) + 1
  {
    if s != [] { SplitCount(s[1..], sep); }
  }

  function DigitChar(d: nat): (c: char)
    requires d < 10
    ensures IsDigit(c)
  {
    ('0' as int + d) as char
  }

  function DigitValue(c: char): (d: nat)
    requires IsDigit(c)
    ensures d < 10 && DigitChar(d) == c
  {
    c as int - '0' as int
  }

  /** Decimal digits of a natural number, no leading zeros. */
  function NatToString(n: nat): (s: string)
    ensures s != [] && forall i :: 0 <= i < |s| ==> IsDigit(s[i])
  {
    if n < 10 then [DigitChar(n)] else NatToString(n / 10) + [DigitChar(n % 10)]
  }

  /** `str(i)` of a Python int. */
  function IntToString(i: int): (s: string)
  {
    if i < 0 then "-" + NatToString(-i) else NatToString(i)
  }

  /** `"{:0Nd}".format(i)`: zero padding after the sign, to at least `width` characters. */
  function ZeroPad(i: int, width: nat): (s: string)
  {
    var digits := NatToString(if i < 0 then -i else i);
    var sign := if i < 0 then "-" else "";
    var pad := if |sign| + |digits| < width then width - |sign| - |digits| else 0;
    sign + seq(pad, _ => '0') + digits
  }

  /** Value of a non-empty string of decimal digits. */
  function DigitsValue(s: string): nat
    requires forall i :: 0 <= i < |s| ==> IsDigit(s[i])
  {
    if s == [] then 0 else DigitsValue(s[..|s| - 1]) * 10 + DigitValue(s[|s| - 1])
  }

  predicate AllDigits(s: string) { s != [] && forall i :: 0 <= i < |s| ==> IsDigit(s[i]) }

  /** Python's `int(text)`: surrounding whitespace, an optional sign and decimal
      digits; anything else raises ValueError.  Digit-group underscores are not
      modelled. */
  function ParseInt(text: string): (r: Result<int>)
  {
    var t := Strip(text);
    var neg := t != [] && t[0] == '-';
    var body := if t != [] && (t[0] == '-' || t[0] == '+') then t[1..] else t;
    if AllDigits(body) then Ok(if neg then -(DigitsValue(body) as int) else DigitsValue(body))
    else Err(ValueError("invalid literal for int() with base 10: '" + text + "'"))
  }

  lemma {:induction false} DigitsValueOfNat(n: nat)
    ensures DigitsValue(NatToString(n)) == n
  {
    if n >= 10 {
      DigitsValueOfNat(n / 10);
      var s := NatToString(n);
      assert s[..|s| - 1] == NatToString(n / 10);
    }
  }

  /** A string that neither starts nor ends with whitespace is its own strip. */
  lemma StripUnpadded(s: string)
    requires s != [] && !IsSpace(s[0]) && !IsSpace(s[|s| - 1])
    ensures Strip(s) == s
  {
    assert LStrip(s) == s;
    assert RStrip(s) == s;
  }

  /** `str(i)` is an optional minus sign followed by the digits of `|i|`. */
  lemma IntToStringShape(i: int)
    ensures var s := IntToString(i); var d := NatToString(if i < 0 then -i else i);
      && s != [] && !IsSpace(s[0]) && !IsSpace(s[|s| - 1])
      && (i < 0 ==> s[0] == '-' && s[1..] == d)
      && (i >= 0 ==> s == d)
  {
    var s := IntToString(i);
    var d := NatToString(if i < 0 then -i else i);
    if i < 0 {
      assert s == ['-'] + d;
      assert s[1..] == d;
    }
    assert IsDigit(d[0]) && IsDigit(d[|d| - 1]);
  }

  /** `int(str(i)) == i`. */
  lemma ParseIntOfIntToString(i: int)
    ensures ParseInt(IntToString(i)) == Ok(i)
  {
    var s := IntToString(i);
    IntToStringShape(i);
    StripUnpadded(s);
    DigitsValueOfNat(if i < 0 then -i else i);
  }

  /** A run of zeros reads as nothing in front of digits. */
  lemma {:induction false} LeadingZeros(z: nat, s: string)
    requires forall i :: 0 <= i < |s| ==> IsDigit(s[i])
    ensures var t := seq(z, _ => '0') + s;
      (forall i :: 0 <= i < |t| ==> IsDigit(t[i])) && DigitsValue(t) == DigitsValue(s)
    decreases |s|
  {
    var t := seq(z, _ => '0') + s;
    if s == [] {
      assert t == seq(z, _ => '0');
      ZerosValue(z);
    } else {
      LeadingZeros(z, s[..|s| - 1]);
      assert t[..|t| - 1] == seq(z, _ => '0') + s[..|s| - 1];
    }
  }

  lemma {:induction false} ZerosValue(z: nat)
    ensures DigitsValue(seq(z, _ => '0')) == 0
  {
    if z > 0 {
      ZerosValue(z - 1);
      assert seq(z, _ => '0')[..z - 1] == seq(z - 1, _ => '0');
    }
  }

  /** A zero-padded natural number reads back as itself. */
  lemma ZeroPadValue(n: nat, width: nat)
    ensures var s := ZeroPad(n, width);
      (forall i :: 0 <= i < |s| ==> IsDigit(s[i])) && DigitsValue(s) == n
  {
    var d := NatToString(n);
    var pad := if |d| < width then width - |d| else 0;
    assert ZeroPad(n, width) == seq(pad, _ => '0') + d;
    LeadingZeros(pad, d);
    DigitsValueOfNat(n);
  }

  /** Python's `float(text)` restricted to plain decimal notation: surrounding
      whitespace, an optional sign, digits with at most one decimal point and at
      least one digit.  Exponents, `inf` and `nan` are not modelled. */
  function ParseDecimal(text: string): (r: Result<real>)
  {
    var t := Strip(text);
    var neg := t != [] && t[0] == '-';
    var body := if t != [] && (t[0] == '-' || t[0] == '+') then t[1..] else t;
    var parts := Split(body, '.');
    if |parts| == 1 && AllDigits(parts[0]) then
      Ok(if neg then -(DigitsValue(parts[0]) as real) else DigitsValue(parts[0]) as real)
    else if |parts| == 2 && (parts[0] + parts[1]) != []
      && (parts[0] == [] || AllDigits(parts[0])) && (parts[1] == [] || AllDigits(parts[1])) then
      var whole := if parts[0] == [] then 0 else DigitsValue(parts[0]);
      var frac := if parts[1] == [] then 0 else DigitsValue(parts[1]);
      var v := whole as real + (frac as real) / (Pow10(|parts[1]|) as real);
      Ok(if neg then -v else v)
    else Err(ValueError("could not convert string to float: '" + text + "'"))
  }

  /** The message of a failed `float()` names the text. */
  lemma ParseDecimalFails(text: string)
    ensures ParseDecimal(text).Err? ==> ParseDecimal(text).error.ValueError?
  {
  }

  function Pow10(n: nat): (p: nat)
    ensures p >= 1
  {
    if n == 0 then 1 else 10 * Pow10(n - 1)
  }

  /** `float(str(i)) == i`. */
  lemma ParseDecimalOfIntToString(i: int)
    ensures ParseDecimal(IntToString(i)) == Ok(i as real)
  {
    var n := if i < 0 then -i else i;
    var d := NatToString(n);
    var s := IntToString(i);
    IntToStringStripped(i);
    NoSplit(d, '.');
    DigitsValueOfNat(n);
    assert AllDigits(d);
    var body := if i < 0 then s[1..] else s;
    if i < 0 {
      assert s[0] == '-' && s[1..] == d;
    } else {
      assert s == d && IsDigit(s[0]);
    }
    assert Split(body, '.') == [d];
  }

  /** The text of an integer has no surrounding whitespace. */
  lemma IntToStringStripped(i: int)
    ensures Strip(IntToString(i)) == IntToString(i)
  {
    var s := IntToString(i);
    var d := NatToString(if i < 0 then -i else i);
    assert s[|s| - 1] == d[|d| - 1];
    assert !IsSpace(s[0]) && !IsSpace(s[|s| - 1]);
    assert LStrip(s) == s;
    assert RStrip(s) == s;
  }

  lemma {:induction false} NoSplit(s: string, sep: char)
    requires sep !in s
    ensures Split(s, sep) == [s]
  {
    if s != [] {
      NoSplit(s[1..], sep);
      assert s[0] != sep;
      assert [s[0]] + s[1..] == s;
      assert [s[1..]][1..] == [];
    }
  }
}
