/** The Brazilian-real money field (components/ui/CurrencyInput.tsx): a number is shown as
    `1.234,56` (a '.' every three integer digits, ',' before two decimals) and typed text is read
    back by keeping digits and commas and taking the first comma as the decimal point.

    The text `parseCurrency` hands to `parseFloat` only ever holds digits, at most one '.' and
    commas, so its reading is written out here exactly, as the decimal number the text denotes;
    the rounding of that decimal to the nearest double is not modelled. */
module CurrencyInput {

  import opened Common
  import opened Numeric
  import opened Text

  function DigitChar(d: nat): (c: char)
    requires d < 10
    ensures IsDigit(c)
  {
    "0123456789"[d]
  }

  function DigitValue(c: char): (d: nat)
    requires IsDigit(c)
    ensures d < 10
  {
    (c as int - '0' as int) as nat
  }

  lemma DigitCharValue(d: nat)
    requires d < 10
    ensures DigitValue(DigitChar(d)) == d
  {
  }

  /** The decimal digits of `n`, most significant first, without leading zeros ("0" for 0). */
  function NatDigits(n: nat): (s: string)
    ensures s != [] && AllDigits(s)
  {
    if n < 10 then [DigitChar(n)] else NatDigits(n / 10) + [DigitChar(n % 10)]
  }

  /** The number a string of decimal digits denotes (0 for the empty string). */
  function DigitsValue(s: string): (n: nat)
    requires AllDigits(s)
  {
    if s == [] then 0 else DigitsValue(s[..|s| - 1]) * 10 + DigitValue(s[|s| - 1])
  }

  /** Reading back the digits of a number gives the number. */
  lemma {:induction false} DigitsRoundTrip(n: nat)
    ensures DigitsValue(NatDigits(n)) == n
  {
    var s := NatDigits(n);
    if n >= 10 {
      DigitsRoundTrip(n / 10);
      assert s[..|s| - 1] == NatDigits(n / 10);
      DigitCharValue(n % 10);
    } else {
      DigitCharValue(n);
    }
  }

  function Pow10(k: nat): (p: nat)
    ensures p >= 1
  {
    if k == 0 then 1 else 10 * Pow10(k - 1)
  }

  /** The regular expression `\B(?=(\d{3})+(?!\d))` with the flag `g`, replaced by '.': a '.'
      goes between two digits wherever a multiple of three digits follows. */
  function Group(ds: string): (g: string)
    ensures |ds| > 0 ==> |g| == |ds| + (|ds| - 1) / 3
  {
    if |ds| <= 3 then ds else Group(ds[..|ds| - 3]) + "." + ds[|ds| - 3..]
  }

  /** The '.'s of `g` sit exactly every four characters counted from the right, and every other
      character is a digit. */
  predicate Grouped(g: string)
  {
    forall k :: 0 <= k < |g| ==> (g[k] == '.' <==> (|g| - k) % 4 == 0) && (g[k] != '.' ==> IsDigit(g[k]))
  }

  /** A number grouped by thousands has a '.' every three digits from the right and nowhere
      else, in particular never first or last. */
  lemma {:induction false} GroupShape(ds: string)
    requires ds != [] && AllDigits(ds)
    ensures Grouped(Group(ds))
  {
    if |ds| > 3 {
      var pre := ds[..|ds| - 3];
      GroupShape(pre);
      GroupedExtend(Group(pre), ds[|ds| - 3..]);
    }
  }

  /** A '.' and three more digits after a grouped number keep it grouped. */
  lemma GroupedExtend(gp: string, t: string)
    requires Grouped(gp) && |t| == 3 && AllDigits(t)
    ensures Grouped(gp + "." + t)
  {
    var g := gp + "." + t;
    forall k | 0 <= k < |g|
      ensures (g[k] == '.' <==> (|g| - k) % 4 == 0) && (g[k] != '.' ==> IsDigit(g[k]))
    {
      if k < |gp| {
        assert g[k] == gp[k];
      } else if k > |gp| {
        assert g[k] == t[k - |gp| - 1];
      }
    }
  }

  /** `s.replace(/[^\d,]/g, '')`: digits and commas kept, in order. */
  function Keep(s: string): (r: string)
    ensures |r| <= |s|
    ensures forall i :: 0 <= i < |r| ==> IsDigit(r[i]) || r[i] == ','
  {
    if s == [] then [] else Keep(s[..|s| - 1]) + (if IsDigit(s[|s| - 1]) || s[|s| - 1] == ',' then [s[|s| - 1]] else [])
  }

  lemma {:induction false} KeepAppend(a: string, b: string)
    ensures Keep(a + b) == Keep(a) + Keep(b)
    decreases |b|
  {
    if b == [] {
      assert a + b == a;
    } else {
      assert (a + b)[..|a + b| - 1] == a + b[..|b| - 1];
      KeepAppend(a, b[..|b| - 1]);
    }
  }

  lemma {:induction false} KeepDigits(ds: string)
    requires AllDigits(ds)
    ensures Keep(ds) == ds
  {
    if ds != [] {
      KeepDigits(ds[..|ds| - 1]);
    }
  }

  /** Dropping the separators of a grouped number gives its digits back. */
  lemma {:induction false} KeepGroup(ds: string)
    requires AllDigits(ds)
    ensures Keep(Group(ds)) == ds
  {
    if |ds| <= 3 {
      KeepDigits(ds);
    } else {
      var pre, tail := ds[..|ds| - 3], ds[|ds| - 3..];
      KeepGroup(pre);
      KeepAppend(Group(pre) + ".", tail);
      KeepAppend(Group(pre), ".");
      KeepDigits(tail);
      assert Keep(".") == Keep(""[..0]) + [];
      assert pre + tail == ds;
    }
  }

  /** `formatCurrency` of a number that `toFixed(2)` writes as `cents` hundredths. */
  function FormatCents(cents: nat): (r: string)
    ensures |r| >= 4 && r[|r| - 3] == ','
    ensures IsDigit(r[|r| - 2]) && IsDigit(r[|r| - 1])
    ensures DigitValue(r[|r| - 2]) * 10 + DigitValue(r[|r| - 1]) == cents % 100
  {
    DigitCharValue((cents % 100) / 10);
    DigitCharValue(cents % 10);
    Group(NatDigits(cents / 100)) + "," + [DigitChar((cents % 100) / 10), DigitChar(cents % 10)]
  }

  /** Before the comma, a formatted amount is its whole units, grouped by thousands. */
  lemma {:induction false} FormatIntegerPart(cents: nat)
    ensures var r := FormatCents(cents);
      Grouped(r[..|r| - 3]) && Keep(r[..|r| - 3]) == NatDigits(cents / 100)
  {
    var r := FormatCents(cents);
    var ds := NatDigits(cents / 100);
    var g := Group(ds);
    var tail := [DigitChar((cents % 100) / 10), DigitChar(cents % 10)];
    assert r == g + ([','] + tail);
    assert |r| - 3 == |g|;
    assert r[..|g|] == g;
    GroupShape(ds);
    KeepGroup(ds);
  }

  /** `formatCurrency(num)`; it is only called with non-negative numbers. */
  function FormatCurrency(num: real): string
    requires num >= 0.0
  {
    FormatCents(Cents(num))
  }

  /** `cleaned.replace(',', '.')`: only the first comma becomes a decimal point. */
  function FirstCommaToPoint(s: string): string
  {
    if s == [] then []
    else if s[0] == ',' then "." + s[1..]
    else [s[0]] + FirstCommaToPoint(s[1..])
  }

  lemma {:induction false} FirstCommaAfterDigits(ds: string, rest: string)
    requires AllDigits(ds)
    ensures FirstCommaToPoint(ds + "," + rest) == ds + "." + rest
  {
    if ds != [] {
      assert (ds + "," + rest)[1..] == ds[1..] + "," + rest;
      FirstCommaAfterDigits(ds[1..], rest);
    }
  }

  /** The number of digits at the start of `s`. */
  function LeadingDigits(s: string): (k: nat)
    ensures k <= |s| && AllDigits(s[..k])
    ensures k < |s| ==> !IsDigit(s[k])
  {
    if s != [] && IsDigit(s[0]) then
      var k := 1 + LeadingDigits(s[1..]);
      assert s[..k] == [s[0]] + s[1..][..k - 1];
      k
    else 0
  }

  lemma {:induction false} LeadingDigitsOf(ds: string, rest: string)
    requires AllDigits(ds) && (rest == [] || !IsDigit(rest[0]))
    ensures LeadingDigits(ds + rest) == |ds|
  {
    if ds != [] {
      assert (ds + rest)[1..] == ds[1..] + rest;
      LeadingDigitsOf(ds[1..], rest);
    }
  }

  /** The digits at the start of `t`. */
  function DigitPrefix(t: string): (p: string)
    ensures AllDigits(p) && |p| <= |t|
  {
    t[..LeadingDigits(t)]
  }

  lemma DigitPrefixOf(ds: string, rest: string)
    requires AllDigits(ds) && (rest == [] || !IsDigit(rest[0]))
    ensures DigitPrefix(ds + rest) == ds
  {
    LeadingDigitsOf(ds, rest);
    assert (ds + rest)[..|ds|] == ds;
  }

  /** The fraction digits: those after a '.' at position `k`, if there is one there. */
  function FractionPart(s: string, k: nat): (f: string)
    requires k <= |s|
    ensures AllDigits(f)
  {
    if k < |s| && s[k] == '.' then DigitPrefix(s[k + 1..]) else []
  }

  /** The value of a decimal literal with the given whole and fraction digits. */
  function DecimalValue(whole: string, fraction: string): (v: real)
    requires AllDigits(whole) && AllDigits(fraction)
    ensures v >= 0.0
  {
    DigitsValue(whole) as real + DigitsValue(fraction) as real / Pow10(|fraction|) as real
  }

  /** `parseFloat` on a text made of digits, at most one '.' and commas: the integer digits, then
      the fraction digits after a '.', up to the first other character; NaN when there are
      neither. */
  function ParseDecimal(s: string): (n: Number)
    ensures n.Some? ==> n.value >= 0.0
  {
    var whole := DigitPrefix(s);
    var fraction := FractionPart(s, |whole|);
    if whole == [] && fraction == [] then None else Some(DecimalValue(whole, fraction))
  }

  /** The kept text with its first comma as decimal point, read by `parseFloat`, and `|| 0`. */
  function ReadKept(t: string): (r: real)
    ensures r >= 0.0
  {
    OrElse(ParseDecimal(FirstCommaToPoint(t)), 0.0)
  }

  /** `parseCurrency`: never negative, whatever the text. */
  function ParseCurrency(str: string): (r: real)
    ensures r >= 0.0
  {
    ReadKept(Keep(str))
  }

  /** A run of digits, a '.', and a run of digits reads as the whole part plus the fraction. */
  lemma {:induction false} DecimalOfPointed(ds: string, fs: string)
    requires ds != [] && AllDigits(ds) && AllDigits(fs)
    ensures ParseDecimal(ds + "." + fs).Some?
    ensures ParseDecimal(ds + "." + fs).value == DecimalValue(ds, fs)
  {
    var s := ds + "." + fs;
    assert s == ds + ("." + fs);
    DigitPrefixOf(ds, "." + fs);
    assert s[|ds|] == '.';
    assert s[|ds| + 1..] == fs + [];
    DigitPrefixOf(fs, []);
    assert FractionPart(s, |ds|) == fs;
  }

  lemma TwoDigitsValue(d1: char, d2: char)
    requires IsDigit(d1) && IsDigit(d2)
    ensures DigitsValue([d1, d2]) == DigitValue(d1) * 10 + DigitValue(d2)
  {
    assert [d1, d2][..1] == [d1];
    assert [d1][..0] == [];
    assert DigitsValue([d1]) == DigitsValue([]) * 10 + DigitValue(d1);
    assert DigitsValue([d1, d2]) == DigitsValue([d1]) * 10 + DigitValue(d2);
  }

  /** `parseCurrency` keeps digits, a comma and digits as they are. */
  lemma {:induction false} KeepCommaDecimal(ds: string, fs: string)
    requires AllDigits(ds) && AllDigits(fs)
    ensures Keep(ds + "," + fs) == ds + "," + fs
  {
    KeepAppend(ds + ",", fs);
    KeepAppend(ds, ",");
    KeepDigits(ds);
    KeepDigits(fs);
    assert Keep(",") == Keep(""[..0]) + ",";
  }

  /** Typed digits, a comma and more digits read as the decimal number with the comma as
      decimal point. */
  lemma {:induction false} ParseCommaDecimal(ds: string, fs: string)
    requires ds != [] && AllDigits(ds) && AllDigits(fs)
    ensures ReadKept(ds + "," + fs) == DecimalValue(ds, fs)
    ensures ParseCurrency(ds + "," + fs) == DecimalValue(ds, fs)
  {
    KeepCommaDecimal(ds, fs);
    FirstCommaAfterDigits(ds, fs);
    DecimalOfPointed(ds, fs);
  }

  /** Dropping what `parseCurrency` ignores from a formatted amount leaves its digits, the comma
      and the two decimals. */
  lemma {:induction false} KeepFormatted(cents: nat)
    ensures Keep(FormatCents(cents))
            == NatDigits(cents / 100) + "," + [DigitChar((cents % 100) / 10), DigitChar(cents % 10)]
  {
    var ds := NatDigits(cents / 100);
    var tail := [DigitChar((cents % 100) / 10), DigitChar(cents % 10)];
    KeepAppend(Group(ds) + ",", tail);
    KeepAppend(Group(ds), ",");
    KeepGroup(ds);
    KeepDigits(tail);
    assert Keep(",") == Keep(""[..0]) + ",";
  }

  /** The whole digits and the two decimals of a number of cents denote that number. */
  lemma DecimalOfCents(cents: nat)
    ensures DecimalValue(NatDigits(cents / 100), [DigitChar((cents % 100) / 10), DigitChar(cents % 10)])
            == cents as real / 100.0
  {
    var d1, d2 := DigitChar((cents % 100) / 10), DigitChar(cents % 10);
    TwoDigitsValue(d1, d2);
    DigitsRoundTrip(cents / 100);
    DigitCharValue((cents % 100) / 10);
    DigitCharValue(cents % 10);
    var q, r := cents / 100, cents % 100;
    assert DigitsValue([d1, d2]) == r;
    assert Pow10(|[d1, d2]|) == 100 by {
      assert Pow10(2) == 10 * Pow10(1) && Pow10(1) == 10 * Pow10(0);
    }
    assert q * 100 + r == cents;
    assert (q * 100 + r) as real == q as real * 100.0 + r as real;
  }

  /** Reading back a formatted amount gives the amount: `parseCurrency(formatCurrency(v)) == v`
      for every non-negative `v` with at most two decimals. */
  lemma FormatParseRoundTrip(cents: nat)
    ensures ParseCurrency(FormatCents(cents)) == cents as real / 100.0
  {
    var ds := NatDigits(cents / 100);
    var fs := [DigitChar((cents % 100) / 10), DigitChar(cents % 10)];
    KeepFormatted(cents);
    ParseCommaDecimal(ds, fs);
    DecimalOfCents(cents);
  }

  /** `parseCurrency` on the three texts `handleChange` clears before parsing. */
  lemma ClearedTextsParseToZero()
    ensures ParseCurrency("") == 0.0
    ensures ParseCurrency("0") == 0.0
    ensures ParseCurrency("0,00") == 0.0
  {
    ZeroParsesToZero();
    ZeroCommaParsesToZero();
  }

  lemma ZeroParsesToZero()
    ensures ParseCurrency("0") == 0.0
  {
    KeepDigits("0");
    assert FirstCommaToPoint("0") == "0";
    DigitPrefixOf("0", []);
    assert "0" + [] == "0";
    assert DigitsValue("0") == DigitsValue("0"[..0]) * 10 + 0;
  }

  lemma ZeroCommaParsesToZero()
    ensures ParseCurrency("0,00") == 0.0
  {
    var zero, zeros := "0", "00";
    assert "0,00" == zero + "," + zeros;
    ParseCommaDecimal(zero, zeros);
    ZeroDigitsValue();
  }

  lemma ZeroDigitsValue()
    ensures DecimalValue("0", "00") == 0.0
  {
    TwoDigitsValue('0', '0');
    assert DigitsValue("0") == DigitsValue("0"[..0]) * 10 + 0;
  }

  /** What the field shows for a numeric value: its formatting when positive, nothing otherwise. */
  function DisplayFor(value: real): (d: string)
    ensures d == "" <==> value <= 0.0
  {
    if value > 0.0 then FormatCurrency(value) else ""
  }

  /** The number a change reports for the typed text. */
  function ChangedValue(input: string): (v: real)
    ensures v >= 0.0
    ensures input == "" || input == "0" || input == "0,00" ==> v == 0.0
    ensures !(input == "" || input == "0" || input == "0,00") ==> v == ParseCurrency(input)
  {
    if input == "" || input == "0" || input == "0,00" then 0.0 else ParseCurrency(input)
  }

  /** The explicit check for "", "0" and "0,00" agrees with parsing: every change reports
      `parseCurrency` of the typed text. */
  lemma ChangedValueIsParse(input: string)
    ensures ChangedValue(input) == ParseCurrency(input)
  {
    ClearedTextsParseToZero();
  }

  class CurrencyField {
    var displayValue: string

    constructor ()
      ensures displayValue == ""
    {
      displayValue := "";
    }

    /** The effect on a new `value` and `handleBlur` apply the same rule: the formatted value
        when it is positive, the empty text otherwise. */
    method Refresh(value: real)
      modifies this`displayValue
      ensures displayValue == DisplayFor(value)
      ensures displayValue == "" <==> value <= 0.0
    {
      if value > 0.0 {
        var formatted := FormatCurrency(value);
        displayValue := formatted;
      } else {
        displayValue := "";
      }
    }

    /** `handleChange`: the reported number is the parsed text (0 for the cleared texts); a zero
        clears the display, any other number shows formatted. */
    method Change(input: string) returns (reported: real)
      modifies this`displayValue
      ensures reported == ChangedValue(input) && reported >= 0.0
      ensures reported == 0.0 ==> displayValue == ""
      ensures reported != 0.0 ==> displayValue == FormatCurrency(reported)
      ensures displayValue == "" <==> reported == 0.0
    {
      if input == "" || input == "0" || input == "0,00" {
        displayValue := "";
        return 0.0;
      }
      var numValue := ParseCurrency(input);
      if numValue == 0.0 {
        displayValue := "";
        return 0.0;
      }
      var formatted := FormatCurrency(numValue);
      displayValue := formatted;
      reported := numValue;
    }
  }

  /** Typing what the field shows for a positive whole number of cents reports that amount and
      leaves the display as it was. */
  lemma RetypeFormatted(cents: nat)
    requires cents > 0
    ensures ChangedValue(FormatCents(cents)) == cents as real / 100.0
    ensures FormatCurrency(ChangedValue(FormatCents(cents))) == FormatCents(cents)
  {
    ChangedValueIsParse(FormatCents(cents));
    FormatParseRoundTrip(cents);
    ToFixed2OfCents(cents);
  }
}
