/** Numbers as the dashboard's JavaScript code sees them.

    The components keep every numeric input as the text the user typed and turn it into a number
    with the host's `parseFloat`, and turn numbers back into text with `Number.prototype.toString`
    or `toFixed(2)`. The model does not re-derive the host's float syntax: a component is given
    the two conversions as function values, and `Faithful` states the one fact the components rely
    on (a number shown as text reads back as the same number). Money and dimensions are `real`s;
    float rounding is not modelled. */
module Numeric {

  import opened Common

  /** A JavaScript number; `None` stands for NaN. */
  type Number = Option<real>

  /** The host's `parseFloat`: the number a text denotes, or NaN. */
  type Parser = string -> Number

  /** The host's `Number.prototype.toString`. */
  type Printer = real -> string

  /** The only property of the two conversions the components depend on: the empty text is NaN,
      and any non-zero number printed and read back is that number. */
  ghost predicate Faithful(parse: Parser, show: Printer)
  {
    && parse("") == None
    && forall x: real :: x != 0.0 ==> parse(show(x)) == Some(x)
  }

  /** JavaScript truthiness of a number: neither NaN nor zero. */
  predicate Truthy(n: Number)
  {
    n.Some? && n.value != 0.0
  }

  /** `a || b` on numbers. */
  function Or(a: Number, b: Number): Number
  {
    if Truthy(a) then a else b
  }

  /** `a || d` for a number literal `d`, which is never NaN. */
  function OrElse(a: Number, d: real): real
  {
    if Truthy(a) then a.value else d
  }

  /** Multiplication; NaN is absorbing. */
  function Mul(a: Number, b: Number): Number
  {
    if a.Some? && b.Some? then Some(a.value * b.value) else None
  }

  /** Division by a divisor the caller knows is a non-zero number. */
  function Div(a: Number, b: real): Number
    requires b != 0.0
  {
    if a.Some? then Some(a.value / b) else None
  }

  function Max(a: real, b: real): real
  {
    if a >= b then a else b
  }

  /** `toNumber` of the installation editor: the parsed value, NaN read as 0. */
  function ToNumber(parse: Parser, s: string): real
  {
    match parse(s)
    case None => 0.0
    case Some(v) => v
  }

  /** `toDisplay` of the installation editor: 0 is shown as the empty text. */
  function ToDisplay(show: Printer, x: real): string
  {
    if x == 0.0 then "" else show(x)
  }

  /** The whole number of cents `toFixed(2)` writes for `x`: the sign is taken off, the magnitude
      rounded to the nearest cent with ties going up, and the sign put back. */
  function Cents(x: real): int
  {
    if x >= 0.0 then (x * 100.0 + 0.5).Floor else -((-x) * 100.0 + 0.5).Floor
  }

  /** The number that the text `x.toFixed(2)` denotes. */
  function ToFixed2(x: real): real
  {
    Cents(x) as real / 100.0
  }

  /** An empty text reads as 0, and any number shown by `ToDisplay` reads back as itself. */
  lemma DisplayRoundTrip(parse: Parser, show: Printer, x: real)
    requires Faithful(parse, show)
    ensures ToNumber(parse, ToDisplay(show, x)) == x
    ensures ToDisplay(show, x) == "" <==> x == 0.0
  {
    if x != 0.0 {
      assert parse(show(x)) == Some(x);
    }
  }

  /** `toNumber` is 0 on the empty text and on anything that does not parse. */
  lemma ToNumberEmpty(parse: Parser, show: Printer, s: string)
    requires Faithful(parse, show)
    requires s == "" || parse(s).None?
    ensures ToNumber(parse, s) == 0.0
  {
  }

  /** `toFixed(2)` moves a value by at most half a cent and keeps its sign. */
  lemma ToFixed2Close(x: real)
    ensures -0.005 <= ToFixed2(x) - x <= 0.005
    ensures x >= 0.0 ==> ToFixed2(x) >= 0.0
    ensures x <= 0.0 ==> ToFixed2(x) <= 0.0
  {
    if x >= 0.0 {
      var f := (x * 100.0 + 0.5).Floor;
      assert f as real <= x * 100.0 + 0.5 < f as real + 1.0;
    } else {
      var f := ((-x) * 100.0 + 0.5).Floor;
      assert f as real <= (-x) * 100.0 + 0.5 < f as real + 1.0;
    }
  }

  /** A whole number of cents is written exactly. */
  lemma ToFixed2OfCents(c: int)
    ensures Cents(c as real / 100.0) == c
    ensures ToFixed2(c as real / 100.0) == c as real / 100.0
  {
    var x := c as real / 100.0;
    if c >= 0 {
      assert x * 100.0 + 0.5 == c as real + 0.5;
    } else {
      assert (-x) * 100.0 + 0.5 == (-c) as real + 0.5;
    }
  }

  /** Rounding to the cent twice is rounding once. */
  lemma ToFixed2Twice(x: real)
    ensures ToFixed2(ToFixed2(x)) == ToFixed2(x)
  {
    ToFixed2OfCents(Cents(x));
  }

  /** Dividing by a non-zero number and multiplying back gives the number. */
  lemma DivMul(t: real, d: real)
    requires d != 0.0
    ensures t / d * d == t
  {
  }
}
