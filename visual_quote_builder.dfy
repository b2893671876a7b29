/** The visual quote builder (components/VisualQuoteBuilder.tsx): a three-step wizard (category,
    model, configuration) whose configuration form and pricing rules depend on the company's
    business segment.

    `toFixed(2)` produces a text that the code immediately reads back with `parseFloat`; the model
    writes such a value as the number that text denotes (`Numeric.ToFixed2`), and the text
    "0.00" as 0. */
module VisualQuoteBuilder {

  import opened Common
  import opened Numeric

  /** `company?.segment || 'glazier'`. */
  datatype Segment = Locksmith | Handyman | Plumber | Glazier | OtherSegment(name: string)

  function SegmentNamed(name: string): (s: Segment)
    ensures name == "" ==> s == Glazier
    ensures s.OtherSegment? ==> s.name == name
  {
    if name == "locksmith" then Locksmith
    else if name == "handyman" then Handyman
    else if name == "plumber" then Plumber
    else if name == "glazier" || name == "" then Glazier
    else OtherSegment(name)
  }

  /** Segments with the simplified form: a description and a unit or total price. */
  predicate Simple(s: Segment)
  {
    s == Locksmith || s == Handyman
  }

  datatype Model = Model(id: string, name: string)
  datatype Category = Category(id: string, name: string, models: seq<Model>)

  /** The model the wizard assumes for a category it skips step 2 for. */
  const Manual := Model("manual", "Manual")

  const Categories: seq<Category> := [
    Category("janelas", "Janelas", [
      Model("2-folhas-correr", "2 Folhas Correr"), Model("4-folhas-correr", "4 Folhas Correr"),
      Model("basculante", "Basculante"), Model("maxim-ar", "Maxim-ar")]),
    Category("portas", "Portas", [
      Model("abrir-pivotante", "Abrir (Pivotante)"), Model("correr-2-folhas", "Correr 2 Folhas"),
      Model("correr-4-folhas", "Correr 4 Folhas"), Model("mao-de-amigo", "Mão de Amigo")]),
    Category("box", "Box (Banheiro)", [
      Model("frontal-1-fixo-1-movel", "Frontal (1 Fixo 1 Móvel)"), Model("canto-l", "Canto (L)"),
      Model("abrir-pivotante", "Abrir (Pivotante)"), Model("box-ate-teto", "Box até o Teto")]),
    Category("guarda-corpo", "Guarda-Corpo", [
      Model("torre", "Torre"), Model("botao", "Botão"), Model("perfil-u", "Perfil U")]),
    Category("envidracamento", "Envidraçamento/Sacada", [
      Model("fixo", "Fixo"), Model("correr", "Correr"), Model("basculante", "Basculante")]),
    Category("espelhos", "Espelhos", [
      Model("espelho-simples", "Espelho Simples"), Model("espelho-com-moldura", "Espelho com Moldura")]),
    Category("fixos", "Fixos/Vitrines", [
      Model("vitrine-simples", "Vitrine Simples"), Model("vitrine-com-porta", "Vitrine com Porta")]),
    Category("outros", "Outros/Manual", [])
  ]

  const GlassColors: seq<string> := ["Incolor", "Verde", "Fumê", "Bronze"]
  const GlassThicknesses: seq<string> := ["6mm", "8mm", "10mm"]
  const ProfileColors: seq<string> := ["Branco", "Preto", "Fosco", "Bronze", "Cromado"]

  /** Whether choosing the category skips the model step. */
  predicate SkipsModels(c: Category)
  {
    c.id == "outros" || c.models == []
  }

  /** The texts of the configuration step. */
  datatype Form = Form(description: string, height: string, width: string, linearMeters: string,
                       glassColor: string, glassThickness: string, profileColor: string,
                       pricePerM2: string, unitPrice: string, totalPrice: string, quantity: string)

  /** The form after `handleReset`: everything empty except a quantity of "1". */
  const EmptyForm := Form("", "", "", "", "", "", "", "", "", "", "1")

  /** Width and height as attached to a glazier item; `None` is `undefined`. */
  datatype GlassDimensions = GlassDimensions(width: Option<real>, height: Option<real>)

  /** The item `handleSave` hands to `onSave`. Total and unit price can be NaN (`None`). */
  datatype QuoteLine = QuoteLine(
    serviceName: string, quantity: real, unitPrice: Number, total: Number,
    category: string, model: string, dimensions: Option<GlassDimensions>,
    glassColor: Option<string>, glassThickness: Option<string>, profileColor: Option<string>)

  datatype Pricing = Pricing(total: Number, unitPrice: Number)

  /** `parseFloat(quantity) || 1`. */
  function Qty(parse: Parser, quantity: string): (q: real)
    ensures q != 0.0
  {
    OrElse(parse(quantity), 1.0)
  }

  /** The quantity is 1 exactly when its text is unparseable, 0 or 1, and the parsed value
      otherwise. */
  lemma QtyMeaning(parse: Parser, quantity: string)
    ensures Qty(parse, quantity) == 1.0 <==>
      (parse(quantity).None? || parse(quantity).value == 0.0 || parse(quantity).value == 1.0)
    ensures Qty(parse, quantity) != 1.0 ==> parse(quantity) == Some(Qty(parse, quantity))
  {
  }

  /** `parseFloat(text) || 0`. */
  function NumberOrZero(parse: Parser, text: string): real
  {
    OrElse(parse(text), 0.0)
  }

  /** Square metres of a height and width in millimetres. */
  function SquareMetres(h: real, w: real): real
  {
    h * w / 1000000.0
  }

  /** `parseFloat(calculateM2())`: the area in square metres of a height and width in
      millimetres, to the cent, or 0 unless both are positive. */
  function CalculateM2(parse: Parser, height: string, width: string): real
  {
    var h := NumberOrZero(parse, height);
    var w := NumberOrZero(parse, width);
    if h > 0.0 && w > 0.0 then ToFixed2(SquareMetres(h, w)) else 0.0
  }

  /** Rounding a positive area to the cent. */
  lemma RoundedArea(h: real, w: real)
    requires h > 0.0 && w > 0.0
    ensures var r := ToFixed2(SquareMetres(h, w));
      r >= 0.0 && -0.005 <= r - SquareMetres(h, w) <= 0.005
  {
    var x := SquareMetres(h, w);
    assert x > 0.0 by { assert h * w > 0.0; }
    ToFixed2Close(x);
  }

  /** The area is never negative, is within half a hundredth of height times width over a
      million when both are positive, and is 0 otherwise. */
  lemma AreaRounded(parse: Parser, height: string, width: string)
    ensures CalculateM2(parse, height, width) >= 0.0
    ensures NumberOrZero(parse, height) > 0.0 && NumberOrZero(parse, width) > 0.0 ==>
      -0.005 <= CalculateM2(parse, height, width) - SquareMetres(NumberOrZero(parse, height), NumberOrZero(parse, width)) <= 0.005
    ensures NumberOrZero(parse, height) <= 0.0 || NumberOrZero(parse, width) <= 0.0 ==>
      CalculateM2(parse, height, width) == 0.0
  {
    var h := NumberOrZero(parse, height);
    var w := NumberOrZero(parse, width);
    if h > 0.0 && w > 0.0 {
      RoundedArea(h, w);
    }
  }

  /** The area is a whole number of hundredths: rounding it again changes nothing. */
  lemma AreaWholeHundredths(parse: Parser, height: string, width: string)
    ensures ToFixed2(CalculateM2(parse, height, width)) == CalculateM2(parse, height, width)
  {
    var h := NumberOrZero(parse, height);
    var w := NumberOrZero(parse, width);
    var r := CalculateM2(parse, height, width);
    if h > 0.0 && w > 0.0 {
      var x := SquareMetres(h, w);
      ToFixed2Twice(x);
    } else {
      assert r == 0 as real / 100.0;
      ToFixed2OfCents(0);
    }
  }

  /** A 2000 mm by 1500 mm pane is 3 m². */
  lemma AreaExample(parse: Parser)
    requires parse("2000") == Some(2000.0) && parse("1500") == Some(1500.0)
    ensures CalculateM2(parse, "2000", "1500") == 3.0
  {
    ToFixed2OfCents(300);
    assert SquareMetres(2000.0, 1500.0) == 300 as real / 100.0;
  }

  /** `parseFloat(calculateTotal())`: area times price per m² times quantity to the cent when the
      area and the price are positive, else the typed total (or 0 when it is empty). */
  function CalculateTotal(parse: Parser, f: Form): Number
  {
    var m2 := CalculateM2(parse, f.height, f.width);
    var price := NumberOrZero(parse, f.pricePerM2);
    var qty := Qty(parse, f.quantity);
    if m2 > 0.0 && price > 0.0 then Some(ToFixed2(m2 * price * qty))
    else if f.totalPrice != "" then parse(f.totalPrice)
    else Some(0.0)
  }

  /** The derived total is within half a cent of area × price × quantity when area and price
      are positive; otherwise it is what the typed total reads as. */
  lemma TotalFromArea(parse: Parser, f: Form)
    requires parse("") == None
    ensures var m2 := CalculateM2(parse, f.height, f.width);
            var price := NumberOrZero(parse, f.pricePerM2);
            var t := CalculateTotal(parse, f);
      && (m2 > 0.0 && price > 0.0 ==>
            t.Some? && -0.005 <= t.value - m2 * price * Qty(parse, f.quantity) <= 0.005)
      && (!(m2 > 0.0 && price > 0.0) && f.totalPrice != "" ==> t == parse(f.totalPrice))
      && (!(m2 > 0.0 && price > 0.0) && f.totalPrice == "" ==> t == Some(0.0))
  {
    var m2 := CalculateM2(parse, f.height, f.width);
    var price := NumberOrZero(parse, f.pricePerM2);
    ToFixed2Close(m2 * price * Qty(parse, f.quantity));
  }

  /** Locksmith and handyman: the typed total, else unit price × quantity; the typed unit price,
      else total ÷ quantity. */
  function SimplePricing(parse: Parser, f: Form): Pricing
  {
    var qty := Qty(parse, f.quantity);
    var total := Or(parse(f.totalPrice), Mul(parse(f.unitPrice), Some(qty)));
    Pricing(total, Or(parse(f.unitPrice), Div(total, qty)))
  }

  /** Plumber: a per-metre price times metres times quantity, where metres default to the
      quantity; without a per-metre price, the typed total spread over metres × quantity. */
  function PlumberPricing(parse: Parser, f: Form): Pricing
  {
    var qty := Qty(parse, f.quantity);
    var meters := OrElse(parse(f.linearMeters), qty);
    if f.pricePerM2 != "" then
      Pricing(Mul(Mul(parse(f.pricePerM2), Some(meters)), Some(qty)), parse(f.pricePerM2))
    else
      var total := OrElse(parse(f.totalPrice), 0.0);
      Pricing(Some(total), Some(total / OrElse(Some(meters * qty), 1.0)))
  }

  /** Glazier and every other segment: the derived total, else the typed total, else 0; the
      price per m² when positive, else total spread over area × quantity. */
  function AreaPricing(parse: Parser, f: Form): Pricing
  {
    var m2 := CalculateM2(parse, f.height, f.width);
    var price := NumberOrZero(parse, f.pricePerM2);
    var qty := Qty(parse, f.quantity);
    var total := OrElse(Or(CalculateTotal(parse, f), parse(f.totalPrice)), 0.0);
    Pricing(Some(total), Some(if price > 0.0 then price else total / OrElse(Some(m2 * qty), 1.0)))
  }

  function SegmentPricing(parse: Parser, segment: Segment, f: Form): Pricing
  {
    if Simple(segment) then SimplePricing(parse, f)
    else if segment == Plumber then PlumberPricing(parse, f)
    else AreaPricing(parse, f)
  }

  /** `parseFloat(text) || undefined`. */
  function Defined(n: Number): (r: Option<real>)
    ensures r.Some? <==> Truthy(n)
    ensures r.Some? ==> r.value == n.value && r.value != 0.0
  {
    if Truthy(n) then Some(n.value) else None
  }

  function NonEmpty(s: string): (r: Option<string>)
    ensures r.Some? <==> s != ""
    ensures s != "" ==> r == Some(s)
  {
    if s == "" then None else Some(s)
  }

  /** `handleSave` (lines 177-240): no item without a category and a model; otherwise the
      segment's pricing, the service name, and the glazier-only attributes. */
  function BuildItem(parse: Parser, segment: Segment, category: Option<Category>,
                     model: Option<Model>, f: Form): Option<QuoteLine>
  {
    if category.None? || model.None? then None
    else
      var c, m := category.value, model.value;
      var p := SegmentPricing(parse, segment, f);
      var fullName := c.name + " - " + m.name;
      var serviceName := if Simple(segment) && f.description != "" then f.description else fullName;
      var glazier := segment == Glazier;
      Some(QuoteLine(
        serviceName, Qty(parse, f.quantity), p.unitPrice, p.total, c.id, m.id,
        if glazier && (f.width != "" || f.height != "")
        then Some(GlassDimensions(Defined(parse(f.width)), Defined(parse(f.height)))) else None,
        if glazier then NonEmpty(f.glassColor) else None,
        if glazier then NonEmpty(f.glassThickness) else None,
        if glazier then NonEmpty(f.profileColor) else None))
  }

  /** An item is emitted exactly when a category and a model are selected; it carries their ids,
      and the service name is "Category - Model" except for a simple segment with a
      description. */
  lemma SaveNeedsSelection(parse: Parser, segment: Segment, category: Option<Category>,
                           model: Option<Model>, f: Form)
    ensures BuildItem(parse, segment, category, model, f).Some? <==> category.Some? && model.Some?
    ensures category.Some? && model.Some? ==>
      var item := BuildItem(parse, segment, category, model, f).value;
      && item.category == category.value.id && item.model == model.value.id
      && item.quantity == Qty(parse, f.quantity) && item.quantity != 0.0
      && item.serviceName == (if Simple(segment) && f.description != "" then f.description
                              else category.value.name + " - " + model.value.name)
  {
  }

  /** Locksmith and handyman: the total is NaN exactly when no total is typed (or it reads as 0)
      and the unit price does not parse; with no typed total it is unit price × quantity, and the
      unit price times the quantity gives back a typed total when no unit price is typed. */
  lemma SimpleSegmentPricing(parse: Parser, f: Form)
    ensures var p := SimplePricing(parse, f);
            var qty := Qty(parse, f.quantity);
      && (Truthy(parse(f.totalPrice)) ==> p.total == parse(f.totalPrice))
      && (p.total.None? <==> !Truthy(parse(f.totalPrice)) && parse(f.unitPrice).None?)
      && (!Truthy(parse(f.totalPrice)) && parse(f.unitPrice).Some? ==>
            p.total.Some? && p.total.value == parse(f.unitPrice).value * qty)
      && (Truthy(parse(f.unitPrice)) ==> p.unitPrice == parse(f.unitPrice))
      && (Truthy(parse(f.totalPrice)) && !Truthy(parse(f.unitPrice)) ==>
            p.unitPrice.Some? && p.unitPrice.value * qty == parse(f.totalPrice).value)
  {
    var qty := Qty(parse, f.quantity);
    var p := SimplePricing(parse, f);
    if !Truthy(parse(f.totalPrice)) && parse(f.unitPrice).Some? {
      assert p.total.value == parse(f.unitPrice).value * qty;
    }
    if Truthy(parse(f.totalPrice)) && !Truthy(parse(f.unitPrice)) {
      DivMul(parse(f.totalPrice).value, qty);
    }
  }

  /** Plumber: with a per-metre price the total is price × metres × quantity and the unit price
      is the per-metre price, metres defaulting to the quantity when the metres field is empty;
      without one the total is never NaN and the unit price times the (non-zero) divisor gives
      the total back. */
  lemma PlumberSegmentPricing(parse: Parser, f: Form)
    requires parse("") == None
    ensures var p := PlumberPricing(parse, f);
            var qty := Qty(parse, f.quantity);
            var meters := OrElse(parse(f.linearMeters), qty);
      && (f.linearMeters == "" ==> meters == qty)
      && (f.pricePerM2 != "" ==> p.unitPrice == parse(f.pricePerM2))
      && (f.pricePerM2 != "" && parse(f.pricePerM2).Some? ==>
            p.total.Some? && p.total.value == parse(f.pricePerM2).value * meters * qty)
      && (f.pricePerM2 != "" && parse(f.pricePerM2).None? ==> p.total.None?)
      && (f.pricePerM2 == "" ==>
            && p.total.Some? && p.unitPrice.Some?
            && p.total.value == OrElse(parse(f.totalPrice), 0.0)
            && (meters * qty != 0.0 ==> p.unitPrice.value * (meters * qty) == p.total.value)
            && (meters * qty == 0.0 ==> p.unitPrice == p.total))
  {
    var qty := Qty(parse, f.quantity);
    var meters := OrElse(parse(f.linearMeters), qty);
    var p := PlumberPricing(parse, f);
    if f.pricePerM2 != "" && parse(f.pricePerM2).Some? {
      assert p.total.value == parse(f.pricePerM2).value * meters * qty;
    }
    if f.pricePerM2 == "" && meters * qty != 0.0 {
      DivMul(OrElse(parse(f.totalPrice), 0.0), meters * qty);
    }
  }

  /** Glazier and other segments: the total is the derived total when that is a non-zero
      number, else the typed total when that is, else 0; it is never NaN. The unit price is the
      price per m² when that is positive, and otherwise the unit price times the (non-zero)
      divisor area × quantity gives the total back. */
  lemma AreaSegmentPricing(parse: Parser, f: Form)
    ensures var p := AreaPricing(parse, f);
            var m2 := CalculateM2(parse, f.height, f.width);
            var price := NumberOrZero(parse, f.pricePerM2);
            var qty := Qty(parse, f.quantity);
      && p.total.Some? && p.unitPrice.Some?
      && (Truthy(CalculateTotal(parse, f)) ==> p.total == CalculateTotal(parse, f))
      && (!Truthy(CalculateTotal(parse, f)) && Truthy(parse(f.totalPrice)) ==>
            p.total == parse(f.totalPrice))
      && (!Truthy(CalculateTotal(parse, f)) && !Truthy(parse(f.totalPrice)) ==> p.total == Some(0.0))
      && (price > 0.0 ==> p.unitPrice == Some(price))
      && (price <= 0.0 && m2 * qty != 0.0 ==> p.unitPrice.value * (m2 * qty) == p.total.value)
      && (price <= 0.0 && m2 * qty == 0.0 ==> p.unitPrice == p.total)
  {
    var m2 := CalculateM2(parse, f.height, f.width);
    var qty := Qty(parse, f.quantity);
    var t := AreaPricing(parse, f).total.value;
    if m2 * qty != 0.0 {
      DivMul(t, m2 * qty);
    }
  }

  /** Dimensions and glass attributes are attached only for the segment exactly `glazier`:
      dimensions when width or height text is non-empty, each the number its text reads as and
      undefined when that is 0 or NaN, and each glass attribute, as chosen, when it is
      non-empty. */
  lemma GlazierOnlyAttributes(parse: Parser, segment: Segment, c: Category, m: Model, f: Form)
    ensures var item := BuildItem(parse, segment, Some(c), Some(m), f).value;
      && (segment != Glazier ==>
            item.dimensions.None? && item.glassColor.None? && item.glassThickness.None?
            && item.profileColor.None?)
      && (segment == Glazier ==>
            && (item.dimensions.Some? <==> f.width != "" || f.height != "")
            && (item.dimensions.Some? ==>
                  && (item.dimensions.value.width.Some? <==> Truthy(parse(f.width)))
                  && (item.dimensions.value.height.Some? <==> Truthy(parse(f.height)))
                  && (Truthy(parse(f.width)) ==> item.dimensions.value.width == parse(f.width))
                  && (Truthy(parse(f.height)) ==> item.dimensions.value.height == parse(f.height)))
            && (item.glassColor.Some? <==> f.glassColor != "")
            && (item.glassThickness.Some? <==> f.glassThickness != "")
            && (item.profileColor.Some? <==> f.profileColor != "")
            && (f.glassColor != "" ==> item.glassColor == Some(f.glassColor))
            && (f.glassThickness != "" ==> item.glassThickness == Some(f.glassThickness))
            && (f.profileColor != "" ==> item.profileColor == Some(f.profileColor)))
  {
  }

  class Builder {
    const parse: Parser
    const segment: Segment
    var step: int
    var selectedCategory: Option<Category>
    var selectedModel: Option<Model>
    var form: Form

    /** Which step is shown agrees with what is selected. */
    ghost predicate StepConsistent()
      reads this
    {
      && 1 <= step <= 3
      && (step == 1 ==> selectedCategory.None? && selectedModel.None?)
      && (step >= 2 ==> selectedCategory.Some?)
      && (step == 3 ==> selectedModel.Some?)
    }

    /** Each price input clears the typed total and the total input clears the price, so at most
        one of the two holds text the user typed. */
    ghost predicate Exclusive()
      reads this
    {
      && (Simple(segment) ==> form.totalPrice == "" || form.unitPrice == "")
      && (!Simple(segment) ==> form.totalPrice == "" || form.pricePerM2 == "")
    }

    ghost predicate Valid()
      reads this
    {
      parse("") == None && StepConsistent() && Exclusive()
    }

    constructor (parse: Parser, companySegment: string)
      requires parse("") == None
      ensures Valid() && this.parse == parse && segment == SegmentNamed(companySegment)
      ensures step == 1 && selectedCategory.None? && selectedModel.None? && form == EmptyForm
    {
      this.parse := parse;
      segment := SegmentNamed(companySegment);
      step := 1;
      selectedCategory, selectedModel := None, None;
      form := EmptyForm;
    }

    /** `handleReset`, also run by closing the wizard. */
    method Reset()
      requires parse("") == None
      modifies this
      ensures Valid()
      ensures step == 1 && selectedCategory.None? && selectedModel.None? && form == EmptyForm
    {
      step := 1;
      selectedCategory, selectedModel := None, None;
      form := EmptyForm;
    }

    /** Choosing a category in step 1. A category without models goes straight to step 3 with the
        manual model, and a simple segment's description names them. */
    method ChooseCategory(c: Category)
      requires Valid() && step == 1
      modifies this
      ensures Valid()
      ensures selectedCategory == Some(c)
      ensures SkipsModels(c) ==> step == 3 && selectedModel == Some(Manual)
      ensures !SkipsModels(c) ==> step == 2 && selectedModel.None? && form == old(form)
      ensures SkipsModels(c) ==>
        form == old(form).(description := if Simple(segment) then c.name + " - " + Manual.name
                                          else old(form).description)
    {
      selectedCategory := Some(c);
      if SkipsModels(c) {
        selectedModel := Some(Manual);
        step := 3;
        UpdateDescription();
      } else {
        step := 2;
      }
    }

    /** Choosing a model in step 2; a simple segment's description names the category and the
        model. */
    method ChooseModel(m: Model)
      requires Valid() && step == 2 && m in selectedCategory.value.models
      modifies this
      ensures Valid()
      ensures step == 3 && selectedModel == Some(m) && selectedCategory == old(selectedCategory)
      ensures form == old(form).(description := if Simple(segment)
                                                then selectedCategory.value.name + " - " + m.name
                                                else old(form).description)
    {
      selectedModel := Some(m);
      step := 3;
      UpdateDescription();
    }

    /** `updateDescription` reading the selection just made. */
    method UpdateDescription()
      modifies this`form
      ensures Simple(segment) && selectedCategory.Some? && selectedModel.Some? ==>
        form == old(form).(description := selectedCategory.value.name + " - " + selectedModel.value.name)
      ensures !(Simple(segment) && selectedCategory.Some? && selectedModel.Some?) ==> form == old(form)
    {
      UpdateDescriptionWith(selectedCategory, selectedModel);
    }

    /** `updateDescription` as the closure of a render sees it: with that render's selection. */
    method UpdateDescriptionWith(category: Option<Category>, model: Option<Model>)
      modifies this`form
      ensures Simple(segment) && category.Some? && model.Some? ==>
        form == old(form).(description := category.value.name + " - " + model.value.name)
      ensures !(Simple(segment) && category.Some? && model.Some?) ==> form == old(form)
    {
      if Simple(segment) && category.Some? && model.Some? {
        form := form.(description := category.value.name + " - " + model.value.name);
      }
    }

    /** Choosing a category as the component does it: `updateDescription` runs with the
        selection of the render before the click, which in step 1 is always empty, so a category
        without models leaves the description as it was. */
    method ChooseCategoryAsWritten(c: Category)
      requires Valid() && step == 1
      modifies this
      ensures Valid()
      ensures selectedCategory == Some(c) && form == old(form)
      ensures SkipsModels(c) ==> step == 3 && selectedModel == Some(Manual)
      ensures !SkipsModels(c) ==> step == 2 && selectedModel.None?
    {
      var staleCategory, staleModel := selectedCategory, selectedModel;
      selectedCategory := Some(c);
      if SkipsModels(c) {
        selectedModel := Some(Manual);
        step := 3;
        UpdateDescriptionWith(staleCategory, staleModel);
      } else {
        step := 2;
      }
    }

    /** Choosing a model as the component does it: `updateDescription` runs in the click handler
        of the render before the click, so it sees the category and model selected before it. */
    method ChooseModelAsWritten(m: Model)
      requires Valid() && step == 2 && m in selectedCategory.value.models
      modifies this
      ensures Valid()
      ensures step == 3 && selectedModel == Some(m) && selectedCategory == old(selectedCategory)
      ensures Simple(segment) && old(selectedModel).Some? ==>
        form == old(form).(description := old(selectedCategory).value.name + " - " + old(selectedModel).value.name)
      ensures !(Simple(segment) && old(selectedModel).Some?) ==> form == old(form)
    {
      var staleCategory, staleModel := selectedCategory, selectedModel;
      selectedModel := Some(m);
      step := 3;
      UpdateDescriptionWith(staleCategory, staleModel);
    }

    /** The back button: step 3 returns to the models, step 2 to the categories and clears the
        selection. */
    method Back()
      requires Valid() && step > 1
      modifies this
      ensures Valid() && form == old(form)
      ensures old(step) == 3 ==> step == 2 && selectedCategory == old(selectedCategory)
                                  && selectedModel == old(selectedModel)
      ensures old(step) == 2 ==> step == 1 && selectedCategory.None? && selectedModel.None?
    {
      if step == 3 {
        step := 2;
      } else if step == 2 {
        step := 1;
        selectedCategory, selectedModel := None, None;
      }
    }

    /** The unit price input of the simple form; it clears the typed total. */
    method SetUnitPrice(text: string)
      requires Valid() && step == 3 && Simple(segment)
      modifies this`form
      ensures Valid()
      ensures form == old(form).(unitPrice := text, totalPrice := "")
    {
      form := form.(unitPrice := text, totalPrice := "");
    }

    /** The price per metre (plumber) or per m² (glazier) input; it clears the typed total. */
    method SetPricePerM2(text: string)
      requires Valid() && step == 3 && (segment == Plumber || segment == Glazier)
      modifies this`form
      ensures Valid()
      ensures form == old(form).(pricePerM2 := text, totalPrice := "")
    {
      form := form.(pricePerM2 := text, totalPrice := "");
    }

    /** The total input; it clears the unit price in the simple form and the price per metre or
        m² in the others. */
    method SetTotalPrice(text: string)
      requires Valid() && step == 3 && !segment.OtherSegment?
      modifies this`form
      ensures Valid()
      ensures Simple(segment) ==> form == old(form).(totalPrice := text, unitPrice := "")
      ensures !Simple(segment) ==> form == old(form).(totalPrice := text, pricePerM2 := "")
    {
      if Simple(segment) {
        form := form.(totalPrice := text, unitPrice := "");
      } else {
        form := form.(totalPrice := text, pricePerM2 := "");
      }
    }

    method SetDescription(text: string)
      requires Valid() && step == 3 && (Simple(segment) || segment == Plumber)
      modifies this`form
      ensures Valid() && form == old(form).(description := text)
    {
      form := form.(description := text);
    }

    method SetQuantity(text: string)
      requires Valid() && step == 3 && !segment.OtherSegment?
      modifies this`form
      ensures Valid() && form == old(form).(quantity := text)
    {
      form := form.(quantity := text);
    }

    method SetLinearMeters(text: string)
      requires Valid() && step == 3 && segment == Plumber
      modifies this`form
      ensures Valid() && form == old(form).(linearMeters := text)
    {
      form := form.(linearMeters := text);
    }

    method SetHeight(text: string)
      requires Valid() && step == 3 && segment == Glazier
      modifies this`form
      ensures Valid() && form == old(form).(height := text)
    {
      form := form.(height := text);
    }

    method SetWidth(text: string)
      requires Valid() && step == 3 && segment == Glazier
      modifies this`form
      ensures Valid() && form == old(form).(width := text)
    {
      form := form.(width := text);
    }

    /** A glass color chip: clicking the chosen color clears it, any other chooses it. */
    method ToggleGlassColor(color: string)
      requires Valid() && step == 3 && segment == Glazier && color in GlassColors
      modifies this`form
      ensures Valid()
      ensures form == old(form).(glassColor := if old(form).glassColor == color then "" else color)
    {
      form := form.(glassColor := if form.glassColor == color then "" else color);
    }

    method ToggleGlassThickness(thickness: string)
      requires Valid() && step == 3 && segment == Glazier && thickness in GlassThicknesses
      modifies this`form
      ensures Valid()
      ensures form == old(form).(glassThickness := if old(form).glassThickness == thickness then "" else thickness)
    {
      form := form.(glassThickness := if form.glassThickness == thickness then "" else thickness);
    }

    method ToggleProfileColor(color: string)
      requires Valid() && step == 3 && segment == Glazier && color in ProfileColors
      modifies this`form
      ensures Valid()
      ensures form == old(form).(profileColor := if old(form).profileColor == color then "" else color)
    {
      form := form.(profileColor := if form.profileColor == color then "" else color);
    }

    /** `handleSave`: the item built from the current state, after which the wizard is reset;
        nothing changes when no item can be built. */
    method Save() returns (item: Option<QuoteLine>)
      requires Valid()
      modifies this
      ensures Valid()
      ensures item == BuildItem(parse, segment, old(selectedCategory), old(selectedModel), old(form))
      ensures item.Some? ==> step == 1 && selectedCategory.None? && selectedModel.None? && form == EmptyForm
      ensures item.None? ==> step == old(step) && selectedCategory == old(selectedCategory)
                             && selectedModel == old(selectedModel) && form == old(form)
    {
      item := BuildItem(parse, segment, selectedCategory, selectedModel, form);
      if item.Some? {
        Reset();
      }
    }
  }

  /** A locksmith picks "Janelas" and "2 Folhas Correr", steps back and picks "Basculante": the
      component's description still names the first model, so the item saved with it pairs the
      name "Janelas - 2 Folhas Correr" with the model id "basculante". */
  method StaleDescriptionExample(parse: Parser) returns (item: QuoteLine)
    requires parse("") == None
    ensures item.serviceName == "Janelas - 2 Folhas Correr" && item.model == "basculante"
  {
    var twoLeaves, basculante := Model("2-folhas-correr", "2 Folhas Correr"), Model("basculante", "Basculante");
    var janelas := Category("janelas", "Janelas", [twoLeaves, basculante]);
    var b := new Builder(parse, "locksmith");
    b.ChooseCategory(janelas);
    b.ChooseModelAsWritten(twoLeaves);
    assert b.form.description == "";
    b.Back();
    b.ChooseModelAsWritten(basculante);
    assert b.form.description == "Janelas" + " - " + "2 Folhas Correr";
    var saved := b.Save();
    item := saved.value;
  }

  /** A locksmith picks "Janelas" and "2 Folhas Correr", types the description "Troca de
      fechadura", goes back to the categories and picks "Outros/Manual", which has no models:
      the component leaves the typed description in place, so the manual item is saved under
      the name typed for the window. */
  method KeptDescriptionExample(parse: Parser) returns (item: QuoteLine)
    requires parse("") == None
    ensures item.serviceName == "Troca de fechadura" && item.category == "outros" && item.model == "manual"
  {
    var twoLeaves := Model("2-folhas-correr", "2 Folhas Correr");
    var janelas, outros := Category("janelas", "Janelas", [twoLeaves]), Category("outros", "Outros/Manual", []);
    var b := new Builder(parse, "locksmith");
    b.ChooseCategoryAsWritten(janelas);
    b.ChooseModelAsWritten(twoLeaves);
    b.SetDescription("Troca de fechadura");
    b.Back();
    b.Back();
    b.ChooseCategoryAsWritten(outros);
    var saved := b.Save();
    item := saved.value;
  }

  /** The same clicks with the corrected `ChooseCategory` name the manual category. */
  method ManualDescriptionExample(parse: Parser) returns (item: QuoteLine)
    requires parse("") == None
    ensures item.serviceName == "Outros/Manual - Manual" && item.category == "outros" && item.model == "manual"
  {
    var twoLeaves := Model("2-folhas-correr", "2 Folhas Correr");
    var janelas, outros := Category("janelas", "Janelas", [twoLeaves]), Category("outros", "Outros/Manual", []);
    var b := new Builder(parse, "locksmith");
    b.ChooseCategory(janelas);
    b.ChooseModel(twoLeaves);
    b.SetDescription("Troca de fechadura");
    b.Back();
    b.Back();
    b.ChooseCategory(outros);
    assert b.form.description == "Outros/Manual" + " - " + "Manual";
    var saved := b.Save();
    item := saved.value;
  }

  /** The same clicks with the corrected `ChooseModel` name the model chosen. */
  method CurrentDescriptionExample(parse: Parser) returns (item: QuoteLine)
    requires parse("") == None
    ensures item.serviceName == "Janelas - Basculante" && item.model == "basculante"
  {
    var twoLeaves, basculante := Model("2-folhas-correr", "2 Folhas Correr"), Model("basculante", "Basculante");
    var janelas := Category("janelas", "Janelas", [twoLeaves, basculante]);
    var b := new Builder(parse, "locksmith");
    b.ChooseCategory(janelas);
    b.ChooseModel(twoLeaves);
    b.Back();
    b.ChooseModel(basculante);
    assert b.form.description == "Janelas" + " - " + "Basculante";
    var saved := b.Save();
    item := saved.value;
  }
}
