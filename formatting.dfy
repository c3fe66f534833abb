/**
 * Decimal digit strings and thousands grouping, shared by the currency
 * formatters `eur` (backend/app/helpers.py), `usd` (helpers.py) and the
 * amount input script (script/amount.js).
 */
module Formatting {

  predicate IsDigit(c: char) {
    '0' <= c <= '9'
  }

  predicate AllDigits(s: string) {
    forall i :: 0 <= i < |s| ==> IsDigit(s[i])
  }

  function DigitChar(d: nat): (c: char)
    requires d < 10
    ensures IsDigit(c) && c as int - '0' as int == d
  {
    (('0' as int) + d) as char
  }

  /** The number a string of decimal digits denotes (leading zeros allowed). */
  function DigitsValue(s: string): nat
    requires AllDigits(s)
  {
    if s == [] then 0 else 10 * DigitsValue(s[..|s| - 1]) + (s[|s| - 1] as int - '0' as int)
  }

  /** Python's `str(n)` for `n >= 0`: the digits of `n`, without leading zeros. */
  function DecimalDigits(n: nat): (s: string)
    ensures |s| >= 1 && AllDigits(s)
    ensures s[0] == '0' ==> n == 0 && s == "0"
  {
    if n < 10 then [DigitChar(n)] else DecimalDigits(n / 10) + [DigitChar(n % 10)]
  }

  /** Reading back the digits of `n` gives `n`. */
  lemma {:induction false} DecimalDigitsValue(n: nat)
    ensures DigitsValue(DecimalDigits(n)) == n
  {
    if n >= 10 {
      var s := DecimalDigits(n);
      assert s[..|s| - 1] == DecimalDigits(n / 10);
      DecimalDigitsValue(n / 10);
    }
  }

  /** Python's `str(n)` for any integer. */
  function IntToString(n: int): string {
    if n < 0 then "-" + DecimalDigits(-n) else DecimalDigits(n)
  }

  /**
   * Inserts `sep` between every group of three digits, counting from the
   * right, as Python's `,` format option and `Intl.NumberFormat('en-US')` do.
   */
  function Group(d: string, sep: char): (g: string)
    ensures |d| >= 1 ==> |g| == |d| + (|d| - 1) / 3
  {
    if |d| <= 3 then d else Group(d[..|d| - 3], sep) + [sep] + d[|d| - 3..]
  }

  /** `s` is a non-empty run of groups: one to three characters, then groups of exactly three, `sep` between them. */
  ghost predicate GroupedBy(s: string, sep: char) {
    if |s| <= 3 then 1 <= |s| && sep !in s
    else |s| >= 5 && s[|s| - 4] == sep && sep !in s[|s| - 3..] && GroupedBy(s[..|s| - 4], sep)
  }

  lemma {:induction false} GroupShape(d: string, sep: char)
    requires |d| >= 1 && sep !in d
    ensures GroupedBy(Group(d, sep), sep)
  {
    if |d| > 3 {
      var h := d[..|d| - 3];
      assert forall i :: 0 <= i < |h| ==> h[i] == d[i];
      assert sep !in h;
      GroupShape(h, sep);
      var g := Group(d, sep);
      assert g[..|g| - 4] == Group(h, sep);
      assert g[|g| - 3..] == d[|d| - 3..];
    }
  }

  /** `s` without the characters in `drop` (`str.replace(c, "")` for each `c`). */
  function Strip(s: string, drop: set<char>): string {
    if s == [] then []
    else Strip(s[..|s| - 1], drop) + (if s[|s| - 1] in drop then [] else [s[|s| - 1]])
  }

  lemma {:induction false} StripAppend(a: string, b: string, drop: set<char>)
    ensures Strip(a + b, drop) == Strip(a, drop) + Strip(b, drop)
  {
    if b != [] {
      assert (a + b)[..|a + b| - 1] == a + b[..|b| - 1];
      StripAppend(a, b[..|b| - 1], drop);
    } else {
      assert a + b == a;
    }
  }

  lemma {:induction false} StripNone(s: string, drop: set<char>)
    requires forall i :: 0 <= i < |s| ==> s[i] !in drop
    ensures Strip(s, drop) == s
  {
    if s != [] {
      var h := s[..|s| - 1];
      assert forall i :: 0 <= i < |h| ==> h[i] == s[i];
      StripNone(h, drop);
      assert s == h + [s[|s| - 1]];
    }
  }

  /** Removing the separators from a grouping gives the digits back. */
  lemma {:induction false} StripGroup(d: string, sep: char, drop: set<char>)
    requires sep in drop
    requires forall i :: 0 <= i < |d| ==> d[i] !in drop
    ensures Strip(Group(d, sep), drop) == d
  {
    if |d| <= 3 {
      StripNone(d, drop);
    } else {
      var h, t := d[..|d| - 3], d[|d| - 3..];
      assert d == h + t;
      StripAppend(Group(h, sep) + [sep], t, drop);
      StripAppend(Group(h, sep), [sep], drop);
      StripGroup(h, sep, drop);
      StripNone(t, drop);
    }
  }

  /** `s.replace(a, b)` for single characters. */
  function ReplaceChar(s: string, a: char, b: char): string {
    if s == [] then []
    else ReplaceChar(s[..|s| - 1], a, b) + [if s[|s| - 1] == a then b else s[|s| - 1]]
  }

  lemma {:induction false} ReplaceAppend(x: string, y: string, a: char, b: char)
    ensures ReplaceChar(x + y, a, b) == ReplaceChar(x, a, b) + ReplaceChar(y, a, b)
  {
    if y != [] {
      assert (x + y)[..|x + y| - 1] == x + y[..|y| - 1];
      ReplaceAppend(x, y[..|y| - 1], a, b);
    } else {
      assert x + y == x;
    }
  }

  lemma {:induction false} ReplaceAbsent(s: string, a: char, b: char)
    requires a !in s
    ensures ReplaceChar(s, a, b) == s
  {
    if s != [] {
      ReplaceAbsent(s[..|s| - 1], a, b);
    }
  }

  /** Replacing the separator of a grouping regroups with the new separator. */
  lemma {:induction false} ReplaceGroup(d: string, a: char, b: char)
    requires a !in d
    ensures ReplaceChar(Group(d, a), a, b) == Group(d, b)
  {
    if |d| <= 3 {
      ReplaceAbsent(d, a, b);
    } else {
      var h, t := d[..|d| - 3], d[|d| - 3..];
      assert a !in h && a !in t;
      ReplaceAppend(Group(h, a) + [a], t, a, b);
      ReplaceAppend(Group(h, a), [a], a, b);
      ReplaceGroup(h, a, b);
      ReplaceAbsent(t, a, b);
    }
  }

  /** Python's `f"{value:,.0f}"` for an integer `value`: sign, then the digits grouped with commas. */
  function CommaGrouped(n: int): string {
    if n < 0 then "-" + Group(DecimalDigits(-n), ',') else Group(DecimalDigits(n), ',')
  }

  function Abs(n: int): nat {
    if n < 0 then -n else n
  }

  /** The digits of `n`, grouped in threes by `sep`. */
  function Grouped(n: int, sep: char): string {
    (if n < 0 then "-" else "") + Group(DecimalDigits(Abs(n)), sep)
  }

  lemma DigitsHaveNoSeparator(n: nat, c: char)
    requires !IsDigit(c)
    ensures c !in DecimalDigits(n)
  {
  }

  /**
   * `eur(value)` of backend/app/helpers.py: format with commas, then replace
   * every comma by a space and every period by a comma.
   */
  function Eur(n: int): (r: string)
    ensures r == Grouped(n, ' ') + " €"
  {
    EurShape(n);
    ReplaceChar(ReplaceChar(CommaGrouped(n) + " €", ',', ' '), '.', ',')
  }

  lemma EurShape(n: int)
    ensures ReplaceChar(ReplaceChar(CommaGrouped(n) + " €", ',', ' '), '.', ',') == Grouped(n, ' ') + " €"
  {
    assert CommaGrouped(n) == Grouped(n, ',');
    ReplaceAppend(Grouped(n, ','), " €", ',', ' ');
    ReplaceAbsent(" €", ',', ' ');
    ReplaceGrouped(n, ',', ' ');
    var spaced := Grouped(n, ' ') + " €";
    GroupedAbsent(n, '.', ' ');
    assert '.' !in spaced;
    ReplaceAbsent(spaced, '.', ',');
  }

  /** Replacing the separator of a signed grouping regroups it with the new separator. */
  lemma ReplaceGrouped(n: int, a: char, b: char)
    requires !IsDigit(a) && a != '-'
    ensures ReplaceChar(Grouped(n, a), a, b) == Grouped(n, b)
  {
    var d := DecimalDigits(Abs(n));
    DigitsHaveNoSeparator(Abs(n), a);
    ReplaceGroup(d, a, b);
    if n < 0 {
      ReplaceAppend("-", Group(d, a), a, b);
      ReplaceAbsent("-", a, b);
    } else {
      assert Grouped(n, a) == Group(d, a);
    }
  }

  /** A signed grouping holds no character other than the sign, the digits and the separator. */
  lemma GroupedAbsent(n: int, c: char, sep: char)
    requires !IsDigit(c) && c != sep && c != '-'
    ensures c !in Grouped(n, sep)
  {
    var d := DecimalDigits(Abs(n));
    DigitsHaveNoSeparator(Abs(n), c);
    GroupNoOther(d, sep, c);
    if n >= 0 {
      assert Grouped(n, sep) == Group(d, sep);
    }
  }

  /** A grouping contains only the digits' characters and the separator. */
  lemma {:induction false} GroupNoOther(d: string, sep: char, c: char)
    requires c != sep && c !in d
    ensures c !in Group(d, sep)
  {
    if |d| > 3 {
      var h := d[..|d| - 3];
      assert c !in h && c !in d[|d| - 3..];
      GroupNoOther(h, sep, c);
    }
  }

  /** `usd(value)` of helpers.py: a dollar sign, then Python's comma-grouped format. */
  function Usd(n: int): (r: string)
    ensures r == "$" + Grouped(n, ',')
  {
    "$" + CommaGrouped(n)
  }

  /** Removing the separators of a signed grouping gives `str(n)`. */
  lemma StripGrouped(n: int, sep: char, drop: set<char>)
    requires sep in drop && '-' !in drop
    requires forall c :: c in drop ==> !IsDigit(c)
    ensures Strip(Grouped(n, sep), drop) == IntToString(n)
  {
    var d := DecimalDigits(Abs(n));
    StripGroup(d, sep, drop);
    if n < 0 {
      StripAppend("-", Group(d, sep), drop);
      StripNone("-", drop);
    } else {
      assert Grouped(n, sep) == Group(d, sep);
    }
  }

  /** Removing the spaces of `eur(n)`, once its " €" suffix is cut, gives `str(n)`. */
  lemma EurRoundTrip(n: int)
    ensures |Eur(n)| >= 2 && Eur(n)[|Eur(n)| - 2..] == " €"
    ensures Strip(Eur(n)[..|Eur(n)| - 2], {' '}) == IntToString(n)
  {
    var e := Eur(n);
    assert e[..|e| - 2] == Grouped(n, ' ');
    StripGrouped(n, ' ', {' '});
  }

  /** Removing the dollar sign and the commas of `usd(n)` gives `str(n)`. */
  lemma UsdRoundTrip(n: int)
    ensures Strip(Usd(n), {'$', ','}) == IntToString(n)
  {
    var drop := {'$', ','};
    var g := Grouped(n, ',');
    assert Usd(n) == "$" + g;
    StripAppend("$", g, drop);
    StripDropped('$', drop);
    StripGrouped(n, ',', drop);
  }

  lemma StripDropped(c: char, drop: set<char>)
    requires c in drop
    ensures Strip([c], drop) == []
  {
    assert [c][..0] == [];
  }

  /** The characters of `s` that are decimal digits (`s.replace(/[^0-9]/g, '')`). */
  function KeepDigits(s: string): (r: string)
    ensures AllDigits(r) && |r| <= |s|
  {
    if s == [] then []
    else KeepDigits(s[..|s| - 1]) + (if IsDigit(s[|s| - 1]) then [s[|s| - 1]] else [])
  }

  /** Exactly the digits of `s` are kept. */
  lemma {:induction false} KeepDigitsKeeps(s: string)
    ensures forall c :: c in KeepDigits(s) <==> c in s && IsDigit(c)
  {
    if s != [] {
      var init := s[..|s| - 1];
      KeepDigitsKeeps(init);
      assert s == init + [s[|s| - 1]];
    }
  }

  lemma {:induction false} KeepDigitsAppend(a: string, b: string)
    ensures KeepDigits(a + b) == KeepDigits(a) + KeepDigits(b)
  {
    if b != [] {
      assert (a + b)[..|a + b| - 1] == a + b[..|b| - 1];
      KeepDigitsAppend(a, b[..|b| - 1]);
    } else {
      assert a + b == a;
    }
  }

  lemma {:induction false} KeepAllDigits(s: string)
    requires AllDigits(s)
    ensures KeepDigits(s) == s
  {
    if s != [] {
      KeepAllDigits(s[..|s| - 1]);
    }
  }

  /** Keeping the digits of a grouping gives the grouped digits back. */
  lemma {:induction false} KeepDigitsGroup(d: string, sep: char)
    requires AllDigits(d) && !IsDigit(sep)
    ensures KeepDigits(Group(d, sep)) == d
  {
    if |d| <= 3 {
      KeepAllDigits(d);
    } else {
      var h, t := d[..|d| - 3], d[|d| - 3..];
      assert d == h + t;
      KeepDigitsAppend(Group(h, sep) + [sep], t);
      KeepDigitsAppend(Group(h, sep), [sep]);
      assert KeepDigits([sep]) == [] by { assert [sep][..0] == []; }
      KeepDigitsGroup(h, sep);
      KeepAllDigits(t);
    }
  }

  /** Strip every non-digit and read the rest as a number; 0 when nothing is left. */
  function ParseDigits(s: string): nat {
    DigitsValue(KeepDigits(s))
  }

  lemma KeepNoDigits(s: string)
    requires forall i :: 0 <= i < |s| ==> !IsDigit(s[i])
    ensures KeepDigits(s) == ""
  {
    if s != [] {
      var h := s[..|s| - 1];
      assert forall i :: 0 <= i < |h| ==> h[i] == s[i];
      KeepNoDigits(h);
    }
  }

  /** Keeping the digits of a signed grouping gives the magnitude's digits. */
  lemma KeepDigitsGrouped(n: int, sep: char)
    requires !IsDigit(sep)
    ensures KeepDigits(Grouped(n, sep)) == DecimalDigits(Abs(n))
  {
    var d := DecimalDigits(Abs(n));
    KeepDigitsGroup(d, sep);
    if n < 0 {
      assert Grouped(n, sep) == "-" + Group(d, sep);
      KeepDigitsAppend("-", Group(d, sep));
      assert KeepDigits("-") == "" by { assert "-"[..0] == ""; }
    } else {
      assert Grouped(n, sep) == Group(d, sep);
    }
  }

  /** The digits of `eur(n)` read back as the magnitude of `n`. */
  lemma ParseEur(n: int)
    ensures ParseDigits(Eur(n)) == Abs(n)
  {
    EurDigits(n);
    DecimalDigitsValue(Abs(n));
  }

  lemma EurDigits(n: int)
    ensures KeepDigits(Eur(n)) == DecimalDigits(Abs(n))
  {
    KeepDigitsAppend(Grouped(n, ' '), " €");
    KeepNoDigits(" €");
    KeepDigitsGrouped(n, ' ');
  }

  /** The digits of `usd(n)` read back as the magnitude of `n`. */
  lemma ParseUsd(n: int)
    ensures ParseDigits(Usd(n)) == Abs(n)
  {
    UsdDigits(n);
    DecimalDigitsValue(Abs(n));
  }

  lemma UsdDigits(n: int)
    ensures KeepDigits(Usd(n)) == DecimalDigits(Abs(n))
  {
    KeepDigitsAppend("$", Grouped(n, ','));
    KeepNoDigits("$");
    KeepDigitsGrouped(n, ',');
  }
}
