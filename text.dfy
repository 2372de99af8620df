// String helpers that the pages and the store call on plain JavaScript
// strings: toLowerCase/toUpperCase (on ASCII letters only), includes, trim,
// split/join, number-to-text, and the decimal rounding behind toFixed.
module Text {

  function LowerChar(c: char): char
  {
    if 'A' <= c <= 'Z' then (c as int + 32) as char else c
  }

  function UpperChar(c: char): char
  {
    if 'a' <= c <= 'z' then (c as int - 32) as char else c
  }

  function Lower(s: string): string
  {
    seq(|s|, i requires 0 <= i < |s| => LowerChar(s[i]))
  }

  function Upper(s: string): string
  {
    seq(|s|, i requires 0 <= i < |s| => UpperChar(s[i]))
  }

  /** Lower-casing twice is lower-casing once. */
  lemma LowerIdempotent(s: string)
    ensures Lower(Lower(s)) == Lower(s)
  {
  }

  /** `s.includes(t)`: t occurs in s at some position. */
  predicate Contains(s: string, t: string)
    decreases |s|
  {
    (|t| <= |s| && s[..|t|] == t) || (|s| > 0 && Contains(s[1..], t))
  }

  /** Every string includes the empty string. */
  lemma ContainsEmpty(s: string)
    ensures Contains(s, "")
  {
  }

  /** A string built as a + x + b includes x. */
  lemma {:induction false} ContainsMiddle(a: string, x: string, b: string)
    ensures Contains(a + x + b, x)
    decreases |a|
  {
    if a == [] {
      assert (a + x + b)[..|x|] == x;
    } else {
      assert (a + x + b)[1..] == a[1..] + x + b;
      ContainsMiddle(a[1..], x, b);
    }
  }

  /** A string contains itself, and so contains every one of its own prefixes. */
  lemma ContainsPrefix(s: string, k: nat)
    requires k <= |s|
    ensures Contains(s, s[..k])
  {
  }

  /**
   * The characters String.prototype.trim removes: ECMA-262's WhiteSpace
   * (tab, vertical tab, form feed, the byte order mark and every space
   * separator of Unicode category Zs) and its LineTerminator (LF, CR,
   * U+2028 and U+2029).
   */
  predicate IsSpace(c: char)
  {
    c == ' ' || c == '\t' || c == '\n' || c == '\r' || c == '\U{000B}' || c == '\U{000C}'
    || c == '\U{00A0}' || c == '\U{1680}' || ('\U{2000}' <= c <= '\U{200A}')
    || c == '\U{2028}' || c == '\U{2029}' || c == '\U{202F}' || c == '\U{205F}'
    || c == '\U{3000}' || c == '\U{FEFF}'
  }

  function TrimStart(s: string): string
    decreases |s|
  {
    if |s| > 0 && IsSpace(s[0]) then TrimStart(s[1..]) else s
  }

  function TrimEnd(s: string): string
    decreases |s|
  {
    if |s| > 0 && IsSpace(s[|s| - 1]) then TrimEnd(s[..|s| - 1]) else s
  }

  function Trim(s: string): string
  {
    TrimEnd(TrimStart(s))
  }

  /** `!s.trim()`: the string is empty after trimming. */
  predicate IsBlank(s: string)
  {
    Trim(s) == ""
  }

  lemma {:induction false} TrimStartAllSpace(s: string)
    ensures TrimStart(s) == "" <==> forall i :: 0 <= i < |s| ==> IsSpace(s[i])
    ensures TrimStart(s) == "" || !IsSpace(TrimStart(s)[0])
    decreases |s|
  {
    if |s| > 0 {
      TrimStartAllSpace(s[1..]);
      if IsSpace(s[0]) {
        assert forall i :: 1 <= i < |s| ==> s[i] == s[1..][i - 1];
      }
    }
  }

  lemma {:induction false} TrimEndAllSpace(s: string)
    ensures TrimEnd(s) == "" <==> forall i :: 0 <= i < |s| ==> IsSpace(s[i])
    decreases |s|
  {
    if |s| > 0 {
      TrimEndAllSpace(s[..|s| - 1]);
      if IsSpace(s[|s| - 1]) {
        assert forall i :: 0 <= i < |s| - 1 ==> s[i] == s[..|s| - 1][i];
      }
    }
  }

  /** A string is blank exactly when every one of its characters is white space. */
  lemma BlankIffAllSpace(s: string)
    ensures IsBlank(s) <==> forall i :: 0 <= i < |s| ==> IsSpace(s[i])
  {
    TrimStartAllSpace(s);
    TrimEndAllSpace(TrimStart(s));
  }

  /** Lower-casing neither makes nor unmakes a blank string. */
  lemma LowerKeepsBlank(s: string)
    ensures IsBlank(Lower(s)) <==> IsBlank(s)
  {
    BlankIffAllSpace(s);
    BlankIffAllSpace(Lower(s));
    forall i | 0 <= i < |s| ensures IsSpace(Lower(s)[i]) <==> IsSpace(s[i]) {
      assert Lower(s)[i] == LowerChar(s[i]);
    }
  }

  /** `s.split(sep)` on a one-character separator. */
  function Split(s: string, sep: char): (r: seq<string>)
    ensures |r| >= 1
    decreases |s|
  {
    if s == [] then [""]
    else
      var rest := Split(s[1..], sep);
      if s[0] == sep then [""] + rest else [[s[0]] + rest[0]] + rest[1..]
  }

  /** `parts.join(sep)`. */
  function Join(parts: seq<string>, sep: string): string
  {
    if |parts| == 0 then ""
    else if |parts| == 1 then parts[0]
    else parts[0] + sep + Join(parts[1..], sep)
  }

  /** No piece produced by split contains the separator. */
  lemma {:induction false} SplitPiecesFree(s: string, sep: char)
    ensures forall p, i :: p in Split(s, sep) && 0 <= i < |p| ==> p[i] != sep
    decreases |s|
  {
    if s != [] {
      SplitPiecesFree(s[1..], sep);
    }
  }

  /** Joining the pieces of a split with the separator gives the string back. */
  lemma {:induction false} JoinSplit(s: string, sep: char)
    ensures Join(Split(s, sep), [sep]) == s
    decreases |s|
  {
    if s != [] {
      var rest := Split(s[1..], sep);
      JoinSplit(s[1..], sep);
      if s[0] == sep {
        assert Split(s, sep) == [""] + rest;
        assert ([""] + rest)[1..] == rest;
      } else {
        var r := [[s[0]] + rest[0]] + rest[1..];
        assert Split(s, sep) == r;
        if |rest| == 1 {
          assert Join(r, [sep]) == [s[0]] + rest[0];
        } else {
          assert r[1..] == rest[1..];
          assert Join(rest, [sep]) == rest[0] + [sep] + Join(rest[1..], [sep]);
        }
      }
    }
  }

  predicate Free(s: string, sep: char)
  {
    forall i :: 0 <= i < |s| ==> s[i] != sep
  }

  /** A piece without the separator splits to itself. */
  lemma {:induction false} SplitFree(a: string, sep: char)
    requires Free(a, sep)
    ensures Split(a, sep) == [a]
    decreases |a|
  {
    if a != [] {
      SplitFree(a[1..], sep);
      assert [a[0]] + a[1..] == a;
    }
  }

  /** A separator-free prefix and the separator split off as one piece. */
  lemma {:induction false} SplitPrefix(a: string, sep: char, rest: string)
    requires Free(a, sep)
    ensures Split(a + [sep] + rest, sep) == [a] + Split(rest, sep)
    decreases |a|
  {
    var s := a + [sep] + rest;
    if a == [] {
      assert s[0] == sep && s[1..] == rest;
    } else {
      assert s[0] == a[0] && s[1..] == a[1..] + [sep] + rest;
      SplitPrefix(a[1..], sep, rest);
      assert [a[0]] + a[1..] == a;
    }
  }

  /**
   * Splitting a join of separator-free pieces gives the pieces back: the
   * other half of the round trip `JoinSplit` states.
   */
  lemma {:induction false} SplitJoin(parts: seq<string>, sep: char)
    requires |parts| >= 1
    requires forall k :: 0 <= k < |parts| ==> Free(parts[k], sep)
    ensures Split(Join(parts, [sep]), sep) == parts
    decreases |parts|
  {
    if |parts| == 1 {
      SplitFree(parts[0], sep);
    } else {
      SplitJoin(parts[1..], sep);
      SplitPrefix(parts[0], sep, Join(parts[1..], [sep]));
      assert [parts[0]] + parts[1..] == parts;
    }
  }

  /** `id.split('-')[1]` inside a template literal: "undefined" when there is no '-'. */
  function IdSuffix(id: string): string
  {
    var parts := Split(id, '-');
    if |parts| > 1 then parts[1] else "undefined"
  }

  function DigitChar(d: nat): char
    requires d < 10
  {
    ('0' as int + d) as char
  }

  predicate IsDigits(s: string)
  {
    forall i :: 0 <= i < |s| ==> '0' <= s[i] <= '9'
  }

  /** Decimal text of a natural number: String(n). */
  function NatToString(n: nat): (r: string)
    ensures |r| >= 1 && IsDigits(r)
  {
    if n < 10 then [DigitChar(n)] else NatToString(n / 10) + [DigitChar(n % 10)]
  }

  /** `s` with leading zeros added until it is at least `width` characters long. */
  function ZeroPad(s: string, width: nat): (r: string)
    ensures |r| >= width && |r| >= |s| && r[|r| - |s|..] == s
    ensures IsDigits(s) ==> IsDigits(r)
    decreases width - |s|
  {
    if |s| >= width then s
    else
      assert IsDigits(s) ==> IsDigits("0" + s) by {
        if IsDigits(s) {
          assert forall i :: 1 <= i < |"0" + s| ==> ("0" + s)[i] == s[i - 1];
        }
      }
      var r := ZeroPad("0" + s, width);
      assert r[|r| - |s|..] == r[|r| - |"0" + s|..][1..];
      r
  }

  /** 10 to the power of the number of decimals toFixed is called with here (1 or 2). */
  function Scale(digits: nat): (r: nat)
    requires digits == 1 || digits == 2
    ensures r >= 10
  {
    if digits == 1 then 10 else 100
  }

  /** Half-up rounding of a non-negative real to the nearest integer. */
  function HalfUp(x: real): (r: int)
    requires x >= 0.0
    ensures r >= 0 && x - 0.5 < r as real <= x + 0.5
  {
    (x + 0.5).Floor
  }

  /** Half-up rounding of the magnitude of x at scale p, the sign kept. */
  function RoundAt(x: real, p: real): real
    requires p > 0.0
  {
    if x < 0.0 then -(HalfUp(-x * p) as real / p) else HalfUp(x * p) as real / p
  }

  /**
   * The number that `x.toFixed(digits)` denotes: the magnitude is rounded
   * half up to that many decimals and the sign is kept (JavaScript's rule,
   * applied to exact reals).
   */
  function RoundFixed(x: real, digits: nat): real
    requires digits == 1 || digits == 2
  {
    if digits == 1 then RoundAt(x, 10.0) else RoundAt(x, 100.0)
  }

  /** Rounding moves the value by at most half a unit of the last kept place. */
  lemma RoundFixedClose(x: real, digits: nat)
    requires digits == 1 || digits == 2
    ensures var half := 0.5 / Scale(digits) as real;
      -half <= RoundFixed(x, digits) - x <= half
  {
  }

  lemma HalfUpMonotone(a: real, b: real)
    requires 0.0 <= a <= b
    ensures HalfUp(a) <= HalfUp(b)
  {
  }

  /** toFixed rounding never reverses the order of two numbers. */
  lemma RoundFixedMonotone(a: real, b: real, digits: nat)
    requires a <= b
    requires digits == 1 || digits == 2
    ensures RoundFixed(a, digits) <= RoundFixed(b, digits)
  {
    if digits == 1 {
      if b < 0.0 {
        HalfUpMonotone(-b * 10.0, -a * 10.0);
      } else if 0.0 <= a {
        HalfUpMonotone(a * 10.0, b * 10.0);
      }
    } else {
      if b < 0.0 {
        HalfUpMonotone(-b * 100.0, -a * 100.0);
      } else if 0.0 <= a {
        HalfUpMonotone(a * 100.0, b * 100.0);
      }
    }
  }

  /** A whole number is left unchanged by toFixed. */
  lemma RoundFixedInteger(n: int, digits: nat)
    requires digits == 1 || digits == 2
    ensures RoundFixed(n as real, digits) == n as real
  {
    var p := Scale(digits);
    if n < 0 {
      assert -(n as real) * p as real == (-n * p) as real;
      assert HalfUp((-n * p) as real) == -n * p;
    } else {
      assert (n as real) * p as real == (n * p) as real;
      assert HalfUp((n * p) as real) == n * p;
    }
  }

  /** A sign, digits, a point and digits: no comma among them. */
  lemma DecimalHasNoComma(sign: string, whole: string, frac: string)
    requires sign == "" || sign == "-"
    requires IsDigits(whole) && IsDigits(frac)
    ensures Free(sign + whole + "." + frac, ',')
  {
    var f := sign + whole + "." + frac;
    forall i | 0 <= i < |f| ensures f[i] != ',' {
      if i < |sign| {
      } else if i < |sign| + |whole| {
        assert f[i] == whole[i - |sign|];
      } else if i == |sign| + |whole| {
      } else {
        assert f[i] == frac[i - |sign| - |whole| - 1];
      }
    }
  }

  /**
   * The text of a rounded magnitude `q` scaled by 10^digits: sign, integer
   * part, '.', and the fraction digits; never a comma.
   */
  function DecimalText(negative: bool, q: nat, digits: nat): (r: string)
    requires digits == 1 || digits == 2
    ensures Free(r, ',')
  {
    var p := Scale(digits);
    var sign := if negative then "-" else "";
    var whole := NatToString(q / p);
    var frac := ZeroPad(NatToString(q % p), digits);
    DecimalHasNoComma(sign, whole, frac);
    sign + whole + "." + frac
  }

  /** The text of `x.toFixed(digits)`: the magnitude rounded half up, then written out. */
  function Fixed(x: real, digits: nat): string
    requires digits == 1 || digits == 2
  {
    var m := if x < 0.0 then -x else x;
    DecimalText(x < 0.0, HalfUp(m * Scale(digits) as real) as nat, digits)
  }
}
