/**
 * Amount input handling shared by the single-earner and the couple pages:
 * parsing a salary field into whole pesos, the sanitiser the salary fields
 * run on every keystroke, and the number a paste extracts.
 */
module Amounts {

  import opened Results

  // ---------------------------------------------------------------------
  // Characters
  // ---------------------------------------------------------------------

  /** The class `\d` of a non-Unicode JavaScript regular expression: ASCII digits only. */
  predicate IsDigit(c: char) {
    '0' <= c <= '9'
  }

  /** The characters `String.prototype.trim` removes (WhiteSpace and LineTerminator). */
  predicate IsJsWhitespace(c: char) {
    c == '\t' || c == '\n' || c == '\U{000B}' || c == '\U{000C}' || c == '\r' || c == ' '
    || c == '\U{00A0}' || c == '\U{1680}' || ('\U{2000}' <= c <= '\U{200A}')
    || c == '\U{2028}' || c == '\U{2029}' || c == '\U{202F}' || c == '\U{205F}'
    || c == '\U{3000}' || c == '\U{FEFF}'
  }

  /** `!value || value.trim() === ''`: empty, or nothing but whitespace. */
  predicate IsBlank(s: string) {
    forall i :: 0 <= i < |s| ==> IsJsWhitespace(s[i])
  }

  predicate AllDigits(s: string) {
    forall i :: 0 <= i < |s| ==> IsDigit(s[i])
  }

  function DigitOf(c: char): (d: nat)
    requires IsDigit(c)
    ensures d < 10
  {
    (c as int) - ('0' as int)
  }

  function DigitChar(d: nat): (c: char)
    requires d < 10
    ensures IsDigit(c) && DigitOf(c) == d
  {
    ('0' as int + d) as char
  }

  function Pow10(k: nat): (p: nat)
    ensures p >= 1
  {
    if k == 0 then 1 else 10 * Pow10(k - 1)
  }

  // ---------------------------------------------------------------------
  // parseInputValue
  // ---------------------------------------------------------------------

  /** `value.replace(/[^\d]/g, '')`: the digits of `s`, in order. */
  function KeepDigits(s: string): (r: string)
    ensures AllDigits(r) && |r| <= |s|
    ensures AllDigits(s) ==> r == s
  {
    if s == [] then []
    else (if IsDigit(s[0]) then [s[0]] else []) + KeepDigits(s[1..])
  }

  /** The base-10 value of a digit string (what `parseInt(clean, 10)` gives for it). */
  function DigitsValue(ds: string): (n: nat)
    requires AllDigits(ds)
    ensures n < Pow10(|ds|)
  {
    if ds == [] then 0
    else
      var init := DigitsValue(ds[..|ds| - 1]);
      assert 10 * init + DigitOf(ds[|ds| - 1]) < 10 * Pow10(|ds| - 1);
      10 * init + DigitOf(ds[|ds| - 1])
  }

  /**
   * `parseInputValue`: blank input gives 0; otherwise every non-digit is
   * dropped and the remaining digits are read in base 10, an empty digit
   * string (NaN) giving 0.
   */
  function ParseInputValue(s: string): (n: nat)
    ensures n == DigitsValue(KeepDigits(s))
    ensures KeepDigits(s) == [] ==> n == 0
  {
    if IsBlank(s) then
      BlankHasNoDigits(s);
      0
    else
      var clean := KeepDigits(s);
      if clean == [] then 0 else DigitsValue(clean)
  }

  lemma {:induction false} BlankHasNoDigits(s: string)
    requires IsBlank(s)
    ensures KeepDigits(s) == []
  {
    if s != [] {
      assert IsBlank(s[1..]) by {
        forall i | 0 <= i < |s[1..]| ensures IsJsWhitespace(s[1..][i]) {
          assert s[1..][i] == s[i + 1];
        }
      }
      BlankHasNoDigits(s[1..]);
    }
  }

  lemma {:induction false} KeepDigitsAppend(a: string, b: string)
    ensures KeepDigits(a + b) == KeepDigits(a) + KeepDigits(b)
  {
    if a == [] {
      assert a + b == b;
    } else {
      assert (a + b)[0] == a[0];
      assert (a + b)[1..] == a[1..] + b;
      KeepDigitsAppend(a[1..], b);
    }
  }

  lemma ShiftDigit(x: int, p: int, v: int, d: int)
    ensures 10 * (x * p + v) + d == x * (10 * p) + (10 * v + d)
  {
  }

  lemma {:induction false} DigitsValueAppend(a: string, b: string)
    requires AllDigits(a) && AllDigits(b)
    ensures AllDigits(a + b)
    ensures DigitsValue(a + b) == DigitsValue(a) * Pow10(|b|) + DigitsValue(b)
  {
    if b == [] {
      assert a + b == a;
    } else {
      var b' := b[..|b| - 1];
      var d := DigitOf(b[|b| - 1]);
      assert (a + b)[..|a + b| - 1] == a + b';
      assert (a + b)[|a + b| - 1] == b[|b| - 1];
      DigitsValueAppend(a, b');
      assert DigitsValue(a + b) == 10 * DigitsValue(a + b') + d;
      assert DigitsValue(b) == 10 * DigitsValue(b') + d;
      ShiftDigit(DigitsValue(a), Pow10(|b'|), DigitsValue(b'), d);
    }
  }

  // ---------------------------------------------------------------------
  // Reference renderings of an amount, for the parser's round trips
  // ---------------------------------------------------------------------

  /** The canonical decimal numeral of `n`: digits only, no leading zero. */
  function DecimalString(n: nat): (s: string)
    ensures AllDigits(s) && |s| >= 1
    ensures DigitsValue(s) == n
    ensures s[0] == '0' ==> n == 0 && s == "0"
  {
    if n < 10 then [DigitChar(n)]
    else
      var s := DecimalString(n / 10) + [DigitChar(n % 10)];
      DigitsValueAppend(DecimalString(n / 10), [DigitChar(n % 10)]);
      assert DigitsValue([DigitChar(n % 10)]) == n % 10 by {
        assert [DigitChar(n % 10)][..0] == [];
      }
      s
  }

  /** Exactly three digits, with leading zeros, for `k < 1000`. */
  function Pad3(k: nat): (s: string)
    requires k < 1000
    ensures AllDigits(s) && |s| == 3 && DigitsValue(s) == k
  {
    var s := [DigitChar(k / 100), DigitChar(k / 10 % 10), DigitChar(k % 10)];
    assert s[..2][..1] == [s[0]] && s[..2] == [s[0], s[1]] && s[..1][..0] == [];
    assert DigitsValue(s[..1]) == k / 100;
    assert DigitsValue(s[..2]) == 10 * (k / 100) + k / 10 % 10;
    assert 10 * (k / 100) + k / 10 % 10 == k / 10;
    s
  }

  /**
   * `n` written with a separator `sep` between groups of three digits, as a
   * person types or pastes an amount ("1.234.567", "1,234,567").
   */
  function Grouped(n: nat, sep: char): (s: string)
  {
    if n < 1000 then DecimalString(n)
    else Grouped(n / 1000, sep) + [sep] + Pad3(n % 1000)
  }

  /** The parser reads back the canonical numeral of every amount. */
  lemma ParseDecimalString(n: nat)
    ensures ParseInputValue(DecimalString(n)) == n
  {
  }

  /** Thousands separators (dots, commas, spaces, anything but a digit) do not change the value. */
  lemma ParseGrouped(n: nat, sep: char)
    requires !IsDigit(sep)
    ensures ParseInputValue(Grouped(n, sep)) == n
  {
    GroupedDigits(n, sep);
  }

  lemma {:induction false} GroupedDigits(n: nat, sep: char)
    requires !IsDigit(sep)
    ensures KeepDigits(Grouped(n, sep)) == DecimalString(n)
  {
    if n >= 1000 {
      var hi := Grouped(n / 1000, sep);
      var lo := Pad3(n % 1000);
      GroupedDigits(n / 1000, sep);
      KeepDigitsAppend(hi + [sep], lo);
      KeepDigitsAppend(hi, [sep]);
      assert KeepDigits([sep]) == [] by { assert [sep][1..] == []; }
      var hd := DecimalString(n / 1000);
      assert KeepDigits(Grouped(n, sep)) == hd + lo;
      SplitThousands(hd, lo, n);
    }
  }

  lemma SplitThousands(hd: string, lo: string, n: nat)
    requires n >= 1000 && hd == DecimalString(n / 1000) && lo == Pad3(n % 1000)
    ensures hd + lo == DecimalString(n)
  {
    DigitsValueAppend(hd, lo);
    assert DigitsValue(hd + lo) == (n / 1000) * 1000 + n % 1000;
    assert (hd + lo)[0] == hd[0];
    DecimalCanonical(hd + lo, n);
  }

  /** A numeral of `n` with no leading zero is the canonical one. */
  lemma {:induction false} DecimalCanonical(s: string, n: nat)
    requires AllDigits(s) && |s| >= 1 && DigitsValue(s) == n && (s[0] != '0' || |s| == 1)
    ensures s == DecimalString(n)
  {
    var init := s[..|s| - 1];
    var last := s[|s| - 1];
    assert s == init + [last];
    if |s| == 1 {
      assert init == [];
      assert DigitsValue(s) == 10 * DigitsValue(init) + DigitOf(last);
      assert n == DigitOf(last) && n < 10;
    } else {
      var q := DigitsValue(init);
      assert init[0] == s[0];
      assert q >= 1 by { LeadingDigitPositive(init); }
      assert n == 10 * q + DigitOf(last);
      LastDecimalDigit(n, q, DigitOf(last));
      DecimalCanonical(init, q);
      assert DecimalString(n) == DecimalString(q) + [DigitChar(DigitOf(last))];
    }
  }

  /** Dividing `10 * q + d` by ten, for a digit `d`, gives back `q` and `d`. */
  lemma LastDecimalDigit(n: nat, q: nat, d: nat)
    requires n == 10 * q + d && d < 10
    ensures n / 10 == q && n % 10 == d
  {
  }

  lemma {:induction false} LeadingDigitPositive(s: string)
    requires AllDigits(s) && |s| >= 1 && s[0] != '0'
    ensures DigitsValue(s) >= 1
  {
    if |s| > 1 {
      var init := s[..|s| - 1];
      assert init[0] == s[0];
      LeadingDigitPositive(init);
    } else {
      assert s[..0] == [];
    }
  }

  lemma DecimalExample()
    ensures DecimalString(1234567) == "1234567"
  {
    assert DecimalString(1) == "1" && Pad3(234) == "234" && Pad3(567) == "567";
    SplitThousands(DecimalString(1), Pad3(234), 1234);
    SplitThousands(DecimalString(1234), Pad3(567), 1234567);
  }

  lemma GroupedExample(sep: char)
    ensures Grouped(1234567, sep) == ['1', sep, '2', '3', '4', sep, '5', '6', '7']
  {
    assert DecimalString(1) == "1" && Pad3(234) == "234" && Pad3(567) == "567";
    assert Grouped(1234, sep) == ['1', sep, '2', '3', '4'];
  }

  /** The amount 1234567 written three ways, and a blank field. */
  lemma ParseExamples()
    ensures ParseInputValue("1.234.567") == 1234567
    ensures ParseInputValue("1,234,567") == 1234567
    ensures ParseInputValue("1234567") == 1234567
    ensures ParseInputValue("  ") == 0
  {
    DecimalExample();
    ParseDecimalString(1234567);
    GroupedExample('.');
    ParseGrouped(1234567, '.');
    GroupedExample(',');
    ParseGrouped(1234567, ',');
  }

  // ---------------------------------------------------------------------
  // Salary-field sanitiser (the `input` handler of every salary field)
  // ---------------------------------------------------------------------

  predicate OnlyDigitsAndCommas(s: string) {
    forall i :: 0 <= i < |s| ==> IsDigit(s[i]) || s[i] == ','
  }

  predicate NoDoubleComma(s: string) {
    forall i :: 0 <= i && i + 1 < |s| ==> !(s[i] == ',' && s[i + 1] == ',')
  }

  predicate StartsWithComma(s: string) {
    |s| > 0 && s[0] == ','
  }

  /** What the sanitiser leaves in a salary field. */
  predicate IsSanitized(s: string) {
    OnlyDigitsAndCommas(s) && NoDoubleComma(s) && !StartsWithComma(s)
  }

  /** `value.replace(/[^\d,]/g, '')`. */
  function KeepDigitsAndCommas(s: string): (r: string)
    ensures OnlyDigitsAndCommas(r)
    ensures KeepDigits(r) == KeepDigits(s)
    ensures OnlyDigitsAndCommas(s) ==> r == s
    ensures |s| == 1 ==> r == if IsDigit(s[0]) || s[0] == ',' then s else []
  {
    if s == [] then []
    else
      var head := if IsDigit(s[0]) || s[0] == ',' then [s[0]] else [];
      var r := head + KeepDigitsAndCommas(s[1..]);
      assert OnlyDigitsAndCommas(s) ==> OnlyDigitsAndCommas(s[1..]) by {
        if OnlyDigitsAndCommas(s) {
          forall i | 0 <= i < |s[1..]| ensures IsDigit(s[1..][i]) || s[1..][i] == ',' {
            assert s[1..][i] == s[i + 1];
          }
        }
      }
      KeepDigitsAppend(head, KeepDigitsAndCommas(s[1..]));
      assert KeepDigits(head) == if IsDigit(s[0]) then [s[0]] else [] by {
        if head != [] { assert head[1..] == []; }
      }
      r
  }

  /** Filtering distributes over concatenation, so every digit and every comma stays where it was. */
  lemma {:induction false} KeepDigitsAndCommasAppend(a: string, b: string)
    ensures KeepDigitsAndCommas(a + b) == KeepDigitsAndCommas(a) + KeepDigitsAndCommas(b)
  {
    if a == [] {
      assert a + b == b;
    } else {
      assert (a + b)[0] == a[0];
      assert (a + b)[1..] == a[1..] + b;
      KeepDigitsAndCommasAppend(a[1..], b);
    }
  }

  /** `value.replace(/,+/g, ',')`: every run of commas becomes one comma. */
  function CollapseCommas(s: string): (r: string)
    ensures |s| > 0 ==> |r| > 0 && r[0] == s[0]
    ensures NoDoubleComma(r)
    ensures KeepDigits(r) == KeepDigits(s)
    ensures OnlyDigitsAndCommas(s) ==> OnlyDigitsAndCommas(r)
    ensures NoDoubleComma(s) ==> r == s
    decreases |s|
  {
    if |s| <= 1 then s
    else
      var rest := CollapseCommas(s[1..]);
      assert NoDoubleComma(s) ==> NoDoubleComma(s[1..]) by {
        if NoDoubleComma(s) {
          forall i | 0 <= i && i + 1 < |s[1..]| ensures !(s[1..][i] == ',' && s[1..][i + 1] == ',') {
            assert s[1..][i] == s[i + 1] && s[1..][i + 1] == s[i + 2];
          }
        }
      }
      assert OnlyDigitsAndCommas(s) ==> OnlyDigitsAndCommas(s[1..]) by {
        if OnlyDigitsAndCommas(s) {
          forall i | 0 <= i < |s[1..]| ensures IsDigit(s[1..][i]) || s[1..][i] == ',' {
            assert s[1..][i] == s[i + 1];
          }
        }
      }
      if s[0] == ',' && s[1] == ',' then
        assert s == [s[0]] + s[1..];
        KeepDigitsAppend([s[0]], s[1..]);
        assert KeepDigits([s[0]]) == [];
        rest
      else
        assert s == [s[0]] + s[1..];
        KeepDigitsAppend([s[0]], s[1..]);
        KeepDigitsAppend([s[0]], rest);
        var r := [s[0]] + rest;
        assert forall i :: 1 <= i < |r| ==> r[i] == rest[i - 1];
        r
  }

  /**
   * Two adjacent commas collapse to one wherever they stand. With
   * `NoDoubleComma(s) ==> CollapseCommas(s) == s` this fixes the result:
   * every run of commas becomes exactly one comma and nothing else changes.
   */
  lemma {:induction false} CollapseCommaRun(a: string, b: string)
    ensures CollapseCommas(a + [',', ','] + b) == CollapseCommas(a + [','] + b)
    decreases |a|
  {
    var s := a + [',', ','] + b;
    var t := a + [','] + b;
    if a == [] {
      assert s[1..] == t;
    } else {
      assert s[1..] == a[1..] + [',', ','] + b;
      assert t[1..] == a[1..] + [','] + b;
      CollapseCommaRun(a[1..], b);
      assert s[0] == t[0] && s[1] == t[1];
    }
  }

  /**
   * The salary fields' `input` handler: keep digits and commas, collapse
   * runs of commas, drop one leading comma. Its output is sanitised, keeps
   * the digits of the input in order, and is the input itself exactly when
   * the input was already sanitised.
   */
  function SanitizeSalary(s: string): (r: string)
    ensures IsSanitized(r)
    ensures KeepDigits(r) == KeepDigits(s)
    ensures IsSanitized(s) ==> r == s
  {
    var collapsed := CollapseCommas(KeepDigitsAndCommas(s));
    var r := if StartsWithComma(collapsed) then collapsed[1..] else collapsed;
    if StartsWithComma(collapsed) then
      assert collapsed == [collapsed[0]] + r;
      KeepDigitsAppend([collapsed[0]], r);
      assert KeepDigits([collapsed[0]]) == [];
      assert |collapsed| > 1 ==> collapsed[1] != ',';
      assert forall i :: 0 <= i < |r| ==> r[i] == collapsed[i + 1];
      r
    else
      r
  }

  /** Sanitising twice is sanitising once. */
  lemma SanitizeIdempotent(s: string)
    ensures SanitizeSalary(SanitizeSalary(s)) == SanitizeSalary(s)
  {
  }

  /** A field left unchanged by the sanitiser is exactly a sanitised one. */
  lemma SanitizeFixedPoints(s: string)
    ensures SanitizeSalary(s) == s <==> IsSanitized(s)
  {
  }

  /** Sanitising never changes the amount the field parses to. */
  lemma SanitizeKeepsAmount(s: string)
    ensures ParseInputValue(SanitizeSalary(s)) == ParseInputValue(s)
  {
  }

  /**
   * The sanitiser ignores every character that is neither a digit nor a
   * comma, wherever it stands.
   */
  lemma SanitizeDropsOtherChars(a: string, c: char, b: string)
    requires !IsDigit(c) && c != ','
    ensures SanitizeSalary(a + [c] + b) == SanitizeSalary(a + b)
  {
    var ka, kb := KeepDigitsAndCommas(a), KeepDigitsAndCommas(b);
    assert KeepDigitsAndCommas(a + [c]) == ka by {
      KeepDigitsAndCommasAppend(a, [c]);
      assert KeepDigitsAndCommas([c]) == [];
      assert ka + [] == ka;
    }
    KeepDigitsAndCommasAppend(a + [c], b);
    KeepDigitsAndCommasAppend(a, b);
    SanitizeOfFiltered(a + [c] + b, a + b);
  }

  /** The sanitiser sees its input only through the digits and commas it keeps. */
  lemma SanitizeOfFiltered(s: string, t: string)
    requires KeepDigitsAndCommas(s) == KeepDigitsAndCommas(t)
    ensures SanitizeSalary(s) == SanitizeSalary(t)
  {
  }

  /** The sanitiser reads two adjacent commas as one, wherever they stand. */
  lemma SanitizeCollapsesCommaRun(a: string, b: string)
    ensures SanitizeSalary(a + [',', ','] + b) == SanitizeSalary(a + [','] + b)
  {
    var ka, kb := KeepDigitsAndCommas(a), KeepDigitsAndCommas(b);
    KeepDigitsAndCommasAppend(a + [',', ','], b);
    KeepDigitsAndCommasAppend(a, [',', ',']);
    KeepDigitsAndCommasAppend(a + [','], b);
    KeepDigitsAndCommasAppend(a, [',']);
    assert KeepDigitsAndCommas([',', ',']) == [',', ','] by {
      assert OnlyDigitsAndCommas([',', ',']);
    }
    assert KeepDigitsAndCommas(a + [',', ','] + b) == ka + [',', ','] + kb;
    assert KeepDigitsAndCommas(a + [','] + b) == ka + [','] + kb;
    CollapseCommaRun(ka, kb);
  }

  /** A comma in front of the text is dropped, so it never changes the result. */
  lemma SanitizeDropsLeadingComma(b: string)
    ensures SanitizeSalary([','] + b) == SanitizeSalary(b)
  {
    var t := KeepDigitsAndCommas(b);
    KeepDigitsAndCommasAppend([','], b);
    assert KeepDigitsAndCommas([',']) == [','];
    var s := [','] + t;
    assert KeepDigitsAndCommas([','] + b) == s;
    if t == [] {
      assert CollapseCommas(s) == [','];
    } else if t[0] == ',' {
      assert s[1..] == t;
      assert CollapseCommas(s) == CollapseCommas(t);
    } else {
      assert s[1..] == t;
      assert CollapseCommas(s) == [','] + CollapseCommas(t);
      assert (([','] + CollapseCommas(t))[1..]) == CollapseCommas(t);
    }
  }

  // ---------------------------------------------------------------------
  // Paste handler
  // ---------------------------------------------------------------------

  /**
   * The salary fields' `paste` handler: strip every non-digit from the
   * pasted text; with no digit left nothing happens (None), otherwise the
   * field receives the number they spell.
   */
  function PastedAmount(text: string): (r: Option<nat>)
    ensures r.None? <==> KeepDigits(text) == []
    ensures r.Some? ==> r.value == ParseInputValue(text)
  {
    var clean := KeepDigits(text);
    if clean == [] then None else Some(DigitsValue(clean))
  }
}
