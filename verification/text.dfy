/**
 * The Python string built-ins the pipeline relies on: `str.strip()`,
 * `str.startswith`, `str.replace(c, '')`, `str.split(sep)`, `sep.join(...)`,
 * `int(str)`, `str(int)` and the `<` / `>` alignment of format specifications.
 */
module Text {
  import opened Wrappers

  /** The characters for which Python's `str.isspace()` holds. */
  predicate IsSpace(c: char) {
    var n := c as int;
    (9 <= n <= 13) || (28 <= n <= 32) || n == 0x85 || n == 0xA0 || n == 0x1680
    || (0x2000 <= n <= 0x200A) || n == 0x2028 || n == 0x2029 || n == 0x202F
    || n == 0x205F || n == 0x3000
  }

  /** `s.lstrip()`: drops the leading whitespace and nothing else. */
  function LStrip(s: string): (r: string)
    ensures |r| <= |s|
    ensures r == [] || !IsSpace(r[0])
    ensures forall i :: 0 <= i < |s| - |r| ==> IsSpace(s[i])
  {
    if s != [] && IsSpace(s[0]) then LStrip(s[1..]) else s
  }

  /** `s.rstrip()`: drops the trailing whitespace and nothing else. */
  function RStrip(s: string): (r: string)
    ensures |r| <= |s|
    ensures r == [] || !IsSpace(r[|r| - 1])
    ensures forall i :: |r| <= i < |s| ==> IsSpace(s[i])
  {
    if s != [] && IsSpace(s[|s| - 1]) then RStrip(s[..|s| - 1]) else s
  }

  /** What `lstrip` keeps is a suffix of its input. */
  lemma {:induction false} LStripSuffix(s: string)
    ensures LStrip(s) == s[|s| - |LStrip(s)|..]
  {
    if s != [] && IsSpace(s[0]) {
      LStripSuffix(s[1..]);
    }
  }

  /** What `rstrip` keeps is a prefix of its input. */
  lemma {:induction false} RStripPrefix(s: string)
    ensures RStrip(s) == s[..|RStrip(s)|]
  {
    if s != [] && IsSpace(s[|s| - 1]) {
      RStripPrefix(s[..|s| - 1]);
    }
  }

  /** `s.strip()`: empty exactly when `s` is all whitespace, as `if not line.strip()` relies on. */
  function Strip(s: string): (r: string)
    ensures |r| <= |s|
    ensures r == [] <==> forall i :: 0 <= i < |s| ==> IsSpace(s[i])
  {
    LStripSuffix(s);
    RStrip(LStrip(s))
  }

  /** Every character `strip()` keeps is a character of its input. */
  lemma StripWithin(s: string, j: nat)
    requires j < |Strip(s)|
    ensures Strip(s)[j] in s
  {
    var l := LStrip(s);
    LStripSuffix(s);
    RStripPrefix(l);
    assert Strip(s)[j] == l[j] == s[|s| - |l| + j];
  }

  /** A stripped string neither starts nor ends with whitespace, so stripping it again changes nothing. */
  lemma StripIdempotent(s: string)
    ensures Strip(s) == [] || (!IsSpace(Strip(s)[0]) && !IsSpace(Strip(s)[|Strip(s)| - 1]))
    ensures Strip(Strip(s)) == Strip(s)
  {
    var l := LStrip(s);
    var r := RStrip(l);
    RStripPrefix(l);
    if r != [] {
      assert r[0] == l[0];
      assert LStrip(r) == r;
      assert RStrip(r) == r;
    }
  }

  /** A string with a non-whitespace character does not strip to the empty string. */
  lemma StripKeepsNonSpace(s: string, i: nat)
    requires i < |s| && !IsSpace(s[i])
    ensures Strip(s) != []
  {
    var l := LStrip(s);
    assert |l| > 0 by {
      assert !(i < |s| - |l|) ==> |l| > 0;
    }
    assert !IsSpace(l[0]);
  }

  /** `s.startswith(c)` for a one-character prefix. */
  predicate StartsWith(s: string, c: char) {
    s != [] && s[0] == c
  }

  /** `s.replace(c, '')`: every `c` goes, every other character stays, as often as it occurred. */
  function RemoveChar(s: string, c: char): (r: string)
    ensures c !in r
    ensures |r| <= |s|
    ensures c !in s ==> r == s
    ensures forall x :: x in r <==> x in s && x != c
  {
    if s == [] then []
    else
      assert s == [s[0]] + s[1..];
      (if s[0] == c then [] else [s[0]]) + RemoveChar(s[1..], c)
  }

  /** `replace` keeps every other character exactly as often as it occurred. */
  lemma {:induction false} RemoveCharCounts(s: string, c: char)
    ensures multiset(RemoveChar(s, c)) == multiset(s)[c := 0]
  {
    if s != [] {
      assert s == [s[0]] + s[1..];
      RemoveCharCounts(s[1..], c);
    }
  }

  /** `replace` works left to right, so the kept characters stay in their order. */
  lemma {:induction false} RemoveCharAppend(a: string, b: string, c: char)
    ensures RemoveChar(a + b, c) == RemoveChar(a, c) + RemoveChar(b, c)
  {
    if a != [] {
      assert (a + b)[1..] == a[1..] + b;
      RemoveCharAppend(a[1..], b, c);
    } else {
      assert a + b == b;
    }
  }

  /** `s.split(sep)`: the pieces between the occurrences of `sep`; `"".split(sep) == [""]`. */
  function Split(s: string, sep: char): (r: seq<string>)
    ensures |r| >= 1
  {
    if s == [] then [""]
    else
      var r := Split(s[..|s| - 1], sep);
      if s[|s| - 1] == sep then r + [""]
      else ExtendLast(r, [s[|s| - 1]])
  }

  /** `r` with `f` appended to its last piece. */
  function ExtendLast(r: seq<string>, f: string): (q: seq<string>)
    requires |r| >= 1
    ensures |q| == |r| && q[..|q| - 1] == r[..|r| - 1] && q[|q| - 1] == r[|r| - 1] + f
  {
    r[..|r| - 1] + [r[|r| - 1] + f]
  }

  /** `sep.join(fs)`. */
  function Join(fs: seq<string>, sep: char): string {
    if fs == [] then ""
    else if |fs| == 1 then fs[0]
    else Join(fs[..|fs| - 1], sep) + [sep] + fs[|fs| - 1]
  }

  /** No piece of a split contains the separator. */
  lemma {:induction false} SplitPiecesFree(s: string, sep: char)
    ensures forall i :: 0 <= i < |Split(s, sep)| ==> sep !in Split(s, sep)[i]
  {
    if s != [] {
      SplitPiecesFree(s[..|s| - 1], sep);
    }
  }

  /** Joining with an empty last piece ends the text with one separator. */
  lemma JoinEmptyLast(r: seq<string>, sep: char)
    requires |r| >= 1
    ensures Join(r + [""], sep) == Join(r, sep) + [sep]
  {
    var q := r + [""];
    assert q[..|q| - 1] == r;
  }

  /** Extending the last piece extends the joined text. */
  lemma JoinExtendLast(r: seq<string>, c: char, sep: char)
    requires |r| >= 1
    ensures Join(ExtendLast(r, [c]), sep) == Join(r, sep) + [c]
  {
    var q := ExtendLast(r, [c]);
    if |r| > 1 {
      var r' := r[..|r| - 1];
      assert q[..|q| - 1] == r';
      assert Join(q, sep) == Join(r', sep) + [sep] + (r[|r| - 1] + [c]);
    }
  }

  /** Joining the pieces of a split gives back the string. */
  lemma {:induction false} JoinSplit(s: string, sep: char)
    ensures Join(Split(s, sep), sep) == s
  {
    if s != [] {
      var p := s[..|s| - 1];
      var c := s[|s| - 1];
      assert s == p + [c];
      JoinSplit(p, sep);
      if c == sep {
        assert Split(s, sep) == Split(p, sep) + [""];
        JoinEmptyLast(Split(p, sep), sep);
      } else {
        assert Split(s, sep) == ExtendLast(Split(p, sep), [c]);
        JoinExtendLast(Split(p, sep), c, sep);
      }
    }
  }

  lemma SplitSnoc(p: string, c: char, sep: char)
    requires c != sep
    ensures Split(p + [c], sep) == ExtendLast(Split(p, sep), [c])
  {
    assert (p + [c])[..|p + [c]| - 1] == p;
  }

  lemma ExtendLastTwice(r: seq<string>, f: string, c: char)
    requires |r| >= 1
    ensures ExtendLast(ExtendLast(r, f), [c]) == ExtendLast(r, f + [c])
  {
    assert r[|r| - 1] + f + [c] == r[|r| - 1] + (f + [c]);
  }

  /** Appending separator-free text extends the last piece of a split. */
  lemma {:induction false} SplitExtend(x: string, f: string, sep: char)
    requires sep !in f
    ensures Split(x + f, sep) == ExtendLast(Split(x, sep), f)
  {
    if f == [] {
      assert x + f == x;
      assert Split(x, sep)[|Split(x, sep)| - 1] + f == Split(x, sep)[|Split(x, sep)| - 1];
    } else {
      var f' := f[..|f| - 1];
      var c := f[|f| - 1];
      assert x + f == (x + f') + [c] by {
        assert f == f' + [c];
      }
      SplitExtend(x, f', sep);
      SplitSnoc(x + f', c, sep);
      ExtendLastTwice(Split(x, sep), f', c);
    }
  }

  /** A separator followed by separator-free text starts one more piece. */
  lemma SplitAfterSep(x: string, last: string, sep: char)
    requires sep !in last
    ensures Split(x + [sep] + last, sep) == Split(x, sep) + [last]
  {
    var y := x + [sep];
    assert y[..|y| - 1] == x && y[|y| - 1] == sep;
    assert Split(y, sep) == Split(x, sep) + [""];
    SplitExtend(y, last, sep);
    var r := Split(x, sep) + [""];
    assert r[..|r| - 1] == Split(x, sep);
    assert "" + last == last;
  }

  /** Splitting what was joined from separator-free pieces gives the pieces back. */
  lemma {:induction false} SplitJoin(fs: seq<string>, sep: char)
    requires |fs| >= 1
    requires forall i :: 0 <= i < |fs| ==> sep !in fs[i]
    ensures Split(Join(fs, sep), sep) == fs
  {
    if |fs| == 1 {
      SplitFree(fs[0], sep);
    } else {
      var init := fs[..|fs| - 1];
      var last := fs[|fs| - 1];
      assert fs == init + [last];
      SplitJoin(init, sep);
      SplitJoinSnoc(init, last, sep);
    }
  }

  /** The step of `SplitJoin`: one more separator-free piece. */
  lemma SplitJoinSnoc(init: seq<string>, last: string, sep: char)
    requires |init| >= 1 && sep !in last
    requires Split(Join(init, sep), sep) == init
    ensures Split(Join(init + [last], sep), sep) == init + [last]
  {
    var fs := init + [last];
    assert fs[..|fs| - 1] == init;
    assert Join(fs, sep) == Join(init, sep) + [sep] + last;
    SplitAfterSep(Join(init, sep), last, sep);
  }

  /** Text without the separator is a single piece. */
  lemma {:induction false} SplitFree(f: string, sep: char)
    requires sep !in f
    ensures Split(f, sep) == [f]
  {
    if f != [] {
      var f' := f[..|f| - 1];
      assert f == f' + [f[|f| - 1]];
      SplitFree(f', sep);
    }
  }

  /** Joining two non-empty lists of pieces is joining each and putting one separator between. */
  lemma {:induction false} JoinConcat(a: seq<string>, b: seq<string>, sep: char)
    requires |a| >= 1 && |b| >= 1
    ensures Join(a + b, sep) == Join(a, sep) + [sep] + Join(b, sep)
  {
    if |b| == 1 {
      assert (a + b)[..|a + b| - 1] == a;
    } else {
      var b' := b[..|b| - 1];
      JoinConcat(a, b', sep);
      assert (a + b)[..|a + b| - 1] == a + b';
      assert (a + b)[|a + b| - 1] == b[|b| - 1];
    }
  }

  /** Dropping past the first part of a concatenation drops into the second part. */
  lemma DropPast(a: string, b: string, k: nat)
    requires |a| <= k <= |a| + |b|
    ensures (a + b)[k..] == b[k - |a|..]
  {
  }

  /** Dropping within the first part of a concatenation keeps all of the second part. */
  lemma DropWithin(a: string, b: string, k: nat)
    requires k <= |a|
    ensures (a + b)[k..] == a[k..] + b
  {
  }

  /** Strings with a common suffix are equal only when what precedes it is. */
  lemma SuffixCancel(x: string, y: string, z: string)
    ensures x + z == y + z ==> x == y
  {
    if x + z == y + z {
      assert x == (x + z)[..|x|];
    }
  }

  /** `str * n` for a one-character string. */
  function Repeat(c: char, n: nat): (r: string)
    ensures |r| == n && forall i :: 0 <= i < n ==> r[i] == c
  {
    seq(n, _ => c)
  }

  /** `f"{s:<w}"`: left-aligned in a field of at least `w` characters. */
  function LeftAlign(s: string, w: int): (r: string)
    ensures |r| == if |s| < w then w else |s|
    ensures r[..|s|] == s && forall i :: |s| <= i < |r| ==> r[i] == ' '
  {
    if |s| < w then s + Repeat(' ', w - |s|) else s
  }

  /** `f"{s:>w}"`: right-aligned in a field of at least `w` characters. */
  function RightAlign(s: string, w: int): (r: string)
    ensures |r| == if |s| < w then w else |s|
    ensures r[|r| - |s|..] == s && forall i :: 0 <= i < |r| - |s| ==> r[i] == ' '
  {
    if |s| < w then Repeat(' ', w - |s|) + s else s
  }

  predicate IsDigit(c: char) {
    '0' <= c <= '9'
  }

  function DigitValue(c: char): nat {
    if IsDigit(c) then (c as int) - ('0' as int) else 0
  }

  function DigitChar(n: nat): (c: char)
    requires n < 10
    ensures IsDigit(c) && DigitValue(c) == n
  {
    (('0' as int) + n) as char
  }

  /** `str(n)` for a natural number: its decimal digits, most significant first, without leading zeros. */
  function NatToString(n: nat): (r: string)
    ensures |r| >= 1 && forall i :: 0 <= i < |r| ==> IsDigit(r[i])
    ensures |r| > 1 ==> r[0] != '0'
  {
    if n < 10 then [DigitChar(n)] else NatToString(n / 10) + [DigitChar(n % 10)]
  }

  /** `str(n)` for an integer: a minus sign exactly when `n` is negative, then decimal digits. */
  function IntToString(n: int): (r: string)
    ensures |r| >= 1 && (r[0] == '-' <==> n < 0)
    ensures forall i :: 0 < i < |r| ==> IsDigit(r[i])
    ensures n >= 0 ==> IsDigit(r[0])
  {
    if n < 0 then "-" + NatToString(-n) else NatToString(n)
  }

  /** The number a string of decimal digits denotes. */
  function DigitsValue(s: string): nat {
    if s == [] then 0 else DigitsValue(s[..|s| - 1]) * 10 + DigitValue(s[|s| - 1])
  }

  /** The digit part that `int()` accepts in base 10: digits, with single underscores between them. */
  predicate IsDigitRun(s: string) {
    && s != []
    && IsDigit(s[0])
    && IsDigit(s[|s| - 1])
    && (forall i :: 0 <= i < |s| ==> IsDigit(s[i]) || s[i] == '_')
    && (forall i, j :: 0 <= i < |s| && 0 <= j < |s| && j - i == 1 ==> !(s[i] == '_' && s[j] == '_'))
  }

  /**
   * `int(s)` on a string: surrounding whitespace is ignored, one optional sign,
   * then a digit run; `None` where Python raises `ValueError`.
   */
  function ParseInt(s: string): Option<int> {
    ParseSigned(Strip(s))
  }

  /** `int()` after the whitespace is gone: one optional sign, then a digit run. */
  function ParseSigned(u: string): Option<int> {
    var signed := u != [] && (u[0] == '-' || u[0] == '+');
    match RunValue(if signed then u[1..] else u)
    case None => None
    case Some(v) =>
      var n: int := v;
      Some(if signed && u[0] == '-' then -n else n)
  }

  /** The value of a digit run, its underscores ignored, or `None` when the text is not one. */
  function RunValue(body: string): Option<nat> {
    if IsDigitRun(body) then Some(DigitsValue(RemoveChar(body, '_'))) else None
  }

  /** `int()` of text holding no digit at all fails. */
  lemma ParseIntNeedsDigit(s: string)
    requires forall i :: 0 <= i < |s| ==> !IsDigit(s[i])
    ensures ParseInt(s).None?
  {
    var u := Strip(s);
    if ParseInt(s).Some? {
      var signed := u != [] && (u[0] == '-' || u[0] == '+');
      var body := if signed then u[1..] else u;
      assert IsDigitRun(body);
      var j := if signed then 1 else 0;
      assert u[j] == body[0];
      StripWithin(s, j);
      assert false;
    }
  }

  /** A digit run without underscores has its decimal value. */
  lemma RunValuePlain(d: string)
    requires IsDigitRun(d) && '_' !in d
    ensures RunValue(d) == Some(DigitsValue(d))
  {
    assert RemoveChar(d, '_') == d;
  }

  lemma {:induction false} DigitsValueOfNat(n: nat)
    ensures DigitsValue(NatToString(n)) == n
  {
    if n >= 10 {
      var s := NatToString(n);
      DigitsValueOfNat(n / 10);
      assert s[..|s| - 1] == NatToString(n / 10);
    }
  }

  /** A string that neither starts nor ends with whitespace is its own `strip()`. */
  lemma StripUnpadded(s: string)
    requires s != [] && !IsSpace(s[0]) && !IsSpace(s[|s| - 1])
    ensures Strip(s) == s
  {
    assert LStrip(s) == s;
    assert RStrip(s) == s;
  }

  lemma DigitRunOfNat(n: nat)
    ensures IsDigitRun(NatToString(n))
  {
    var d := NatToString(n);
    assert forall i :: 0 <= i < |d| ==> d[i] != '_';
  }

  lemma DigitNotSpace(c: char)
    requires IsDigit(c) || c == '-'
    ensures !IsSpace(c)
  {
  }

  lemma ParseDigitRun(d: string)
    requires IsDigitRun(d) && '_' !in d
    ensures ParseInt(d) == Some(DigitsValue(d))
  {
    DigitNotSpace(d[0]);
    DigitNotSpace(d[|d| - 1]);
    StripUnpadded(d);
    assert !(d[0] == '-' || d[0] == '+');
    RunValuePlain(d);
  }

  /** `int()` of a minus sign and a digit run of value `v` is `-v`. */
  lemma ParseNegativeRun(d: string, v: nat)
    requires RunValue(d) == Some(v)
    ensures ParseInt("-" + d) == Some(0 - v)
  {
    NegativeUnpadded(d);
    ParseUnpadded("-" + d);
    NegativeRunValue(d, v);
  }

  /** Text without surrounding whitespace goes straight to the sign and the digits. */
  lemma ParseUnpadded(s: string)
    requires Strip(s) == s
    ensures ParseInt(s) == ParseSigned(s)
  {
  }

  /** A minus sign and a digit run have no surrounding whitespace. */
  lemma NegativeUnpadded(d: string)
    requires RunValue(d).Some?
    ensures Strip("-" + d) == "-" + d
  {
    var e := "-" + d;
    assert e[0] == '-' && e[|e| - 1] == d[|d| - 1];
    DigitNotSpace('-');
    DigitNotSpace(d[|d| - 1]);
    StripUnpadded(e);
  }

  /** After the minus sign, the digit run gives its value, negated. */
  lemma NegativeRunValue(d: string, v: nat)
    requires RunValue(d) == Some(v)
    ensures ParseSigned("-" + d) == Some(0 - v)
  {
    var e := "-" + d;
    assert e[0] == '-' && e[1..] == d;
    NegativeSigned(e, v);
  }

  /** A leading minus sign negates the value of the digit run after it. */
  lemma NegativeSigned(u: string, v: nat)
    requires u != [] && u[0] == '-' && RunValue(u[1..]) == Some(v)
    ensures ParseSigned(u) == Some(0 - v)
  {
  }

  /** `int(str(n)) == n`: the integer text the model writes reads back as the same integer. */
  lemma ParseIntToString(n: int)
    ensures ParseInt(IntToString(n)) == Some(n)
  {
    var m: nat := if n < 0 then -n else n;
    var d := NatToString(m);
    DigitsValueOfNat(m);
    DigitRunOfNat(m);
    assert '_' !in d;
    if n < 0 {
      RunValuePlain(d);
      ParseNegativeRun(d, m);
    } else {
      ParseDigitRun(d);
    }
  }

  /** `str(n)` is made of a sign and digits only, with no surrounding whitespace. */
  lemma IntToStringClean(n: int)
    ensures Strip(IntToString(n)) == IntToString(n)
    ensures forall c :: c in IntToString(n) ==> c == '-' || IsDigit(c)
  {
    var s := IntToString(n);
    var d := NatToString(if n < 0 then -n else n);
    assert s[|s| - 1] == d[|d| - 1];
    DigitNotSpace(s[0]);
    DigitNotSpace(s[|s| - 1]);
    StripUnpadded(s);
  }
}
