/** The installation line-item editor (components/InstallationItemModal.tsx).

    The editor keeps every numeric input as text. Four pricing methods derive the total from
    width, height, quantity and unit price; a manual-override flag freezes the total. The
    recompute effect of the component runs after a render in which one of its dependencies
    (method, width, height, unit price, quantity, override flag) changed value; here every
    handler ends by running it under exactly that condition. */
module InstallationItem {

  import opened Common
  import opened Numeric
  import opened Text
  import ChipSelector

  datatype PricingMethod = M2 | Linear | Fixed | Unit | Unrecognised(name: string)

  /** `initialItem.pricingMethod || 'unit'`: the method a stored item names. A name outside the
      four is kept and priced like `unit`. */
  function MethodNamed(name: string): (m: PricingMethod)
    ensures m == Fixed <==> name == "fixed"
    ensures name == "" ==> m == Unit
  {
    if name == "m2" then M2
    else if name == "linear" then Linear
    else if name == "fixed" then Fixed
    else if name == "unit" || name == "" then Unit
    else Unrecognised(name)
  }

  /** The service names the select offers; "Outro" asks for a custom name. */
  const InstallationServices: seq<string> :=
    ["Cortina de Vidro", "Box Padrão", "Guarda-corpo", "Porta de Vidro", "Janela de Vidro",
     "Divisória de Vidro", "Outro"]

  /** The custom name a stored item opens with: its name when that is not one of the listed
      services, else empty. */
  function CustomNameFor(name: string): (c: string)
    ensures c != "" <==> name != "" && name !in InstallationServices
    ensures c != "" ==> c == name
  {
    if name != "" && name !in InstallationServices then name else ""
  }

  /** The quantity the formulas use: `Math.max(1, toNumber(text) || 1)`. */
  function EffectiveQuantity(parse: Parser, text: string): real
  {
    Max(1.0, OrElse(Some(ToNumber(parse, text)), 1.0))
  }

  /** Empty, zero, negative or below-one quantities count as 1; anything above 1 counts as
      itself. */
  lemma QuantityFloor(parse: Parser, text: string)
    ensures EffectiveQuantity(parse, text) >= 1.0
    ensures ToNumber(parse, text) <= 1.0 ==> EffectiveQuantity(parse, text) == 1.0
    ensures ToNumber(parse, text) > 1.0 ==> EffectiveQuantity(parse, text) == ToNumber(parse, text)
  {
  }

  /** The total the recompute effect derives for a method when the total is not frozen;
      `typedTotal` is the number in the total field, which only `fixed` uses. */
  function CalculatedTotal(m: PricingMethod, width: real, height: real, quantity: real,
                           unitPrice: real, typedTotal: real): real
  {
    match m
    case M2 =>
      if width > 0.0 && height > 0.0 && unitPrice > 0.0 then width * height * quantity * unitPrice
      else 0.0
    case Linear =>
      if width > 0.0 && unitPrice > 0.0 then width * quantity * unitPrice else 0.0
    case Fixed => typedTotal
    case Unit => quantity * unitPrice
    case Unrecognised(_) => quantity * unitPrice
  }

  /** With a quantity of at least 1, `m2` and `linear` yield a positive total exactly when their
      guarded inputs are all positive and 0 otherwise, never a negative one; `unit` and any
      unrecognised method multiply with no guard, and `fixed` keeps the typed total. */
  lemma MethodTotals(width: real, height: real, quantity: real, unitPrice: real, typedTotal: real)
    requires quantity >= 1.0
    ensures var t := CalculatedTotal(M2, width, height, quantity, unitPrice, typedTotal);
      && (width > 0.0 && height > 0.0 && unitPrice > 0.0 ==> t == width * height * quantity * unitPrice && t > 0.0)
      && (!(width > 0.0 && height > 0.0 && unitPrice > 0.0) ==> t == 0.0)
    ensures var t := CalculatedTotal(Linear, width, height, quantity, unitPrice, typedTotal);
      && (width > 0.0 && unitPrice > 0.0 ==> t == width * quantity * unitPrice && t > 0.0)
      && (!(width > 0.0 && unitPrice > 0.0) ==> t == 0.0)
      && t == CalculatedTotal(Linear, width, 0.0, quantity, unitPrice, typedTotal)
    ensures forall name :: CalculatedTotal(Unrecognised(name), width, height, quantity, unitPrice, typedTotal)
                           == CalculatedTotal(Unit, width, height, quantity, unitPrice, typedTotal)
                           == quantity * unitPrice
    ensures CalculatedTotal(Fixed, width, height, quantity, unitPrice, typedTotal) == typedTotal
  {
    if width > 0.0 && height > 0.0 && unitPrice > 0.0 {
      assert width * height > 0.0;
      assert width * height * quantity > 0.0;
    }
    if width > 0.0 && unitPrice > 0.0 {
      assert width * quantity > 0.0;
    }
  }

  /** The fields of the recompute effect's dependency list. */
  datatype Dependencies = Dependencies(m: PricingMethod, width: real, height: real,
                                       unitPrice: real, quantity: real, manual: bool)

  /** An item the editor is opened on. Numbers the stored item lacks are 0 and strings are empty:
      the component reads every field through `|| 0` or `|| ''`, so the two cannot differ. */
  datatype StoredItem = StoredItem(serviceName: string, pricingMethod: string, width: real,
                                   height: real, unitPrice: real, total: real, quantity: real,
                                   glassColor: string, glassThickness: string,
                                   profileColor: string)

  datatype Dimensions = Dimensions(width: real, height: real, area: Option<real>)

  /** The item `handleSave` passes to `onSave`. */
  datatype InstallationLine = InstallationLine(
    serviceName: string, quantity: real, unitPrice: real, total: real,
    pricingMethod: PricingMethod, dimensions: Dimensions, glassColor: string,
    glassThickness: string, profileColor: string, isInstallation: bool)

  datatype SaveError =
    MissingServiceName | InvalidFixedTotal | MissingAreaInputs | MissingLinearInputs | MissingUnitInputs

  /** What a glass or profile chip selector hands back: the string, or the first element of an
      array, or empty. */
  function ChipValue(v: ChipSelector.Selection): string
  {
    match v
    case One(s) => s
    case Many(vs) => if vs == [] then "" else vs[0]
  }

  class InstallationItemModal {
    const parse: Parser
    const show: Printer

    var serviceName: string
    var customServiceName: string
    var pricingMethod: PricingMethod
    var widthDisplay: string
    var heightDisplay: string
    var unitPriceDisplay: string
    var totalPriceDisplay: string
    var quantityDisplay: string
    var isManualOverride: bool
    var glassColor: string
    var glassThickness: string
    var profileColor: string

    ghost predicate Valid()
    {
      Faithful(parse, show)
    }

    function Width(): real reads this`widthDisplay { ToNumber(parse, widthDisplay) }
    function Height(): real reads this`heightDisplay { ToNumber(parse, heightDisplay) }
    function UnitPrice(): real reads this`unitPriceDisplay { ToNumber(parse, unitPriceDisplay) }
    function Quantity(): real reads this`quantityDisplay { EffectiveQuantity(parse, quantityDisplay) }
    function TotalPrice(): real reads this`totalPriceDisplay { ToNumber(parse, totalPriceDisplay) }

    function Deps(): Dependencies
      reads this`pricingMethod, this`widthDisplay, this`heightDisplay, this`unitPriceDisplay
      reads this`quantityDisplay, this`isManualOverride
    {
      Dependencies(pricingMethod, Width(), Height(), UnitPrice(), Quantity(), isManualOverride)
    }

    /** The total is frozen: overridden by hand in a method other than `fixed`. */
    predicate Frozen()
      reads this`isManualOverride, this`pricingMethod
    {
      isManualOverride && pricingMethod != Fixed
    }

    /** The total the form holds is the formula's, unless it is frozen. */
    ghost predicate InSync()
      reads this
    {
      !Frozen() ==>
        TotalPrice() == CalculatedTotal(pricingMethod, Width(), Height(), Quantity(), UnitPrice(), TotalPrice())
    }

    /** A new editor, after its first render: a `unit` item with empty fields, not overridden. */
    constructor (parse: Parser, show: Printer)
      requires Faithful(parse, show)
      ensures Valid() && this.parse == parse && this.show == show
      ensures serviceName == "" && customServiceName == "" && pricingMethod == Unit
      ensures widthDisplay == "" && heightDisplay == "" && unitPriceDisplay == ""
      ensures quantityDisplay == "" && totalPriceDisplay == "" && !isManualOverride
      ensures glassColor == "" && glassThickness == "" && profileColor == ""
      ensures InSync()
    {
      this.parse := parse;
      this.show := show;
      serviceName, customServiceName := "", "";
      pricingMethod := Unit;
      widthDisplay, heightDisplay, unitPriceDisplay := "", "", "";
      totalPriceDisplay, quantityDisplay := "", "";
      isManualOverride := false;
      glassColor, glassThickness, profileColor := "", "", "";
      new;
      Recompute();
    }

    /** The recompute effect (lines 111-143). */
    method Recompute()
      requires Valid()
      modifies this`totalPriceDisplay
      ensures Frozen() ==> totalPriceDisplay == old(totalPriceDisplay)
      ensures !Frozen() ==> (totalPriceDisplay ==
        ToDisplay(show, CalculatedTotal(pricingMethod, Width(), Height(), Quantity(), UnitPrice(), old(TotalPrice()))))
      ensures !Frozen() ==> (TotalPrice() ==
        CalculatedTotal(pricingMethod, Width(), Height(), Quantity(), UnitPrice(), old(TotalPrice())))
      ensures InSync()
    {
      if isManualOverride && pricingMethod != Fixed {
        return;
      }
      var width, height, quantity, unitPrice := Width(), Height(), Quantity(), UnitPrice();
      var calculatedTotal := 0.0;
      match pricingMethod {
        case M2 =>
          if width > 0.0 && height > 0.0 && unitPrice > 0.0 {
            var area := width * height;
            calculatedTotal := area * quantity * unitPrice;
          }
        case Linear =>
          if width > 0.0 && unitPrice > 0.0 {
            calculatedTotal := width * quantity * unitPrice;
          }
        case Fixed =>
          calculatedTotal := TotalPrice();
        case Unit =>
          calculatedTotal := quantity * unitPrice;
        case Unrecognised(_) =>
          calculatedTotal := quantity * unitPrice;
      }
      assert calculatedTotal == CalculatedTotal(pricingMethod, width, height, quantity, unitPrice, TotalPrice());
      if !isManualOverride || pricingMethod == Fixed {
        totalPriceDisplay := ToDisplay(show, calculatedTotal);
      }
      assert width == Width() && height == Height() && quantity == Quantity() && unitPrice == UnitPrice();
      DisplayRoundTrip(parse, show, calculatedTotal);
    }

    /** React re-runs the effect after a render in which a dependency changed value. */
    method RunEffect(before: Dependencies)
      requires Valid()
      modifies this`totalPriceDisplay
      ensures Deps() == before ==> totalPriceDisplay == old(totalPriceDisplay)
      ensures Frozen() ==> totalPriceDisplay == old(totalPriceDisplay)
      ensures Deps() != before ==> InSync()
      ensures Deps() != before && !Frozen() ==>
        (TotalPrice() == CalculatedTotal(pricingMethod, Width(), Height(), Quantity(), UnitPrice(), old(TotalPrice())))
      ensures Deps() == before && old(InSync()) ==> InSync()
    {
      if Deps() != before {
        Recompute();
      }
    }

    /** The open/reset effect (lines 79-108): the form takes the stored item's fields, or is
        cleared when there is none. */
    method Load(initial: Option<StoredItem>)
      modifies this
      ensures initial.None? ==> Cleared()
      ensures initial.Some? ==> Holds(initial.value)
    {
      match initial {
        case Some(it) => Fill(it);
        case None => Clear();
      }
    }

    /** Every field empty, `unit`, not overridden. */
    predicate Cleared()
      reads this
    {
      && serviceName == "" && customServiceName == "" && pricingMethod == Unit
      && widthDisplay == "" && heightDisplay == "" && unitPriceDisplay == ""
      && totalPriceDisplay == "" && quantityDisplay == ""
      && glassColor == "" && glassThickness == "" && profileColor == ""
      && !isManualOverride
    }

    /** The form shows the stored item `it`. */
    predicate Holds(it: StoredItem)
      reads this
    {
      HoldsNumbers(it) && HoldsChoices(it)
    }

    /** The numeric fields show the stored numbers; a quantity of 0 shows as 1. */
    predicate HoldsNumbers(it: StoredItem)
      reads this`widthDisplay, this`heightDisplay, this`unitPriceDisplay, this`totalPriceDisplay
      reads this`quantityDisplay
    {
      && widthDisplay == ToDisplay(show, it.width)
      && heightDisplay == ToDisplay(show, it.height)
      && unitPriceDisplay == ToDisplay(show, it.unitPrice)
      && totalPriceDisplay == ToDisplay(show, it.total)
      && quantityDisplay == ToDisplay(show, if it.quantity == 0.0 then 1.0 else it.quantity)
    }

    /** The names, the method, the colors and the override flag are the stored ones. */
    predicate HoldsChoices(it: StoredItem)
      reads this`serviceName, this`pricingMethod, this`glassColor, this`glassThickness
      reads this`profileColor, this`customServiceName, this`isManualOverride
    {
      && serviceName == it.serviceName
      && pricingMethod == MethodNamed(it.pricingMethod)
      && glassColor == it.glassColor && glassThickness == it.glassThickness
      && profileColor == it.profileColor
      && customServiceName == CustomNameFor(it.serviceName)
      && (isManualOverride <==> it.pricingMethod == "fixed")
    }

    method Fill(it: StoredItem)
      modifies this
      ensures Holds(it)
    {
      FillNumbers(it);
      FillChoices(it);
    }

    method FillNumbers(it: StoredItem)
      modifies this`widthDisplay, this`heightDisplay, this`unitPriceDisplay, this`totalPriceDisplay
      modifies this`quantityDisplay
      ensures HoldsNumbers(it)
    {
      widthDisplay := ToDisplay(show, it.width);
      heightDisplay := ToDisplay(show, it.height);
      unitPriceDisplay := ToDisplay(show, it.unitPrice);
      totalPriceDisplay := ToDisplay(show, it.total);
      quantityDisplay := ToDisplay(show, if it.quantity == 0.0 then 1.0 else it.quantity);
    }

    method FillChoices(it: StoredItem)
      modifies this`serviceName, this`pricingMethod, this`glassColor, this`glassThickness
      modifies this`profileColor, this`customServiceName, this`isManualOverride
      ensures HoldsChoices(it)
    {
      serviceName := it.serviceName;
      pricingMethod := MethodNamed(it.pricingMethod);
      glassColor, glassThickness, profileColor := it.glassColor, it.glassThickness, it.profileColor;
      customServiceName := CustomNameFor(it.serviceName);
      isManualOverride := it.pricingMethod == "fixed";
    }

    method Clear()
      modifies this
      ensures Cleared()
    {
      serviceName := "";
      pricingMethod := Unit;
      widthDisplay, heightDisplay, unitPriceDisplay := "", "", "";
      totalPriceDisplay, quantityDisplay := "", "";
      glassColor, glassThickness, profileColor := "", "", "";
      customServiceName := "";
      isManualOverride := false;
    }

    /** Opening the editor: the reset effect, then the recompute effect if a dependency changed.
        A stored item's own numbers read back unchanged, and a stored `fixed` item keeps its
        total. */
    method Open(initial: Option<StoredItem>)
      requires Valid()
      modifies this
      ensures Valid()
      ensures initial.Some? ==>
        && Width() == initial.value.width && Height() == initial.value.height
        && UnitPrice() == initial.value.unitPrice
        && (initial.value.quantity >= 1.0 ==> Quantity() == initial.value.quantity)
      ensures initial.Some? && initial.value.pricingMethod == "fixed" ==>
        TotalPrice() == initial.value.total
      ensures Deps() != old(Deps()) ==> InSync()
      ensures Frozen() ==> totalPriceDisplay == (if initial.Some? then ToDisplay(show, initial.value.total) else "")
    {
      var before := Deps();
      Load(initial);
      if initial.Some? {
        var it := initial.value;
        DisplayRoundTrip(parse, show, it.width);
        DisplayRoundTrip(parse, show, it.height);
        DisplayRoundTrip(parse, show, it.unitPrice);
        DisplayRoundTrip(parse, show, it.total);
        DisplayRoundTrip(parse, show, if it.quantity == 0.0 then 1.0 else it.quantity);
      }
      RunEffect(before);
      if initial.Some? && initial.value.pricingMethod == "fixed" {
        DisplayRoundTrip(parse, show, initial.value.total);
      }
    }

    /** Typing in the width field. While the total is frozen it is unchanged. */
    method SetWidthDisplay(text: string)
      requires Valid()
      modifies this`widthDisplay, this`totalPriceDisplay
      ensures widthDisplay == text
      ensures Frozen() ==> totalPriceDisplay == old(totalPriceDisplay)
      ensures Deps() != old(Deps()) || old(InSync()) ==> InSync()
      ensures !Frozen() && Deps() != old(Deps()) ==>
        TotalPrice() == CalculatedTotal(pricingMethod, Width(), Height(), Quantity(), UnitPrice(), old(TotalPrice()))
      ensures pricingMethod == Fixed ==> TotalPrice() == old(TotalPrice())
    {
      var before := Deps();
      widthDisplay := text;
      RunEffect(before);
    }

    /** Typing in the height field. While the total is frozen it is unchanged. */
    method SetHeightDisplay(text: string)
      requires Valid()
      modifies this`heightDisplay, this`totalPriceDisplay
      ensures heightDisplay == text
      ensures Frozen() ==> totalPriceDisplay == old(totalPriceDisplay)
      ensures Deps() != old(Deps()) || old(InSync()) ==> InSync()
      ensures !Frozen() && Deps() != old(Deps()) ==>
        TotalPrice() == CalculatedTotal(pricingMethod, Width(), Height(), Quantity(), UnitPrice(), old(TotalPrice()))
      ensures pricingMethod == Fixed ==> TotalPrice() == old(TotalPrice())
    {
      var before := Deps();
      heightDisplay := text;
      RunEffect(before);
    }

    /** Typing in the quantity field. While the total is frozen it is unchanged. */
    method SetQuantityDisplay(text: string)
      requires Valid()
      modifies this`quantityDisplay, this`totalPriceDisplay
      ensures quantityDisplay == text
      ensures Frozen() ==> totalPriceDisplay == old(totalPriceDisplay)
      ensures Deps() != old(Deps()) || old(InSync()) ==> InSync()
      ensures !Frozen() && Deps() != old(Deps()) ==>
        TotalPrice() == CalculatedTotal(pricingMethod, Width(), Height(), Quantity(), UnitPrice(), old(TotalPrice()))
      ensures pricingMethod == Fixed ==> TotalPrice() == old(TotalPrice())
    {
      var before := Deps();
      quantityDisplay := text;
      RunEffect(before);
    }

    /** Typing in the unit price field. While the total is frozen it is unchanged. */
    method SetUnitPriceDisplay(text: string)
      requires Valid()
      modifies this`unitPriceDisplay, this`totalPriceDisplay
      ensures unitPriceDisplay == text
      ensures Frozen() ==> totalPriceDisplay == old(totalPriceDisplay)
      ensures Deps() != old(Deps()) || old(InSync()) ==> InSync()
      ensures !Frozen() && Deps() != old(Deps()) ==>
        TotalPrice() == CalculatedTotal(pricingMethod, Width(), Height(), Quantity(), UnitPrice(), old(TotalPrice()))
      ensures pricingMethod == Fixed ==> TotalPrice() == old(TotalPrice())
    {
      var before := Deps();
      unitPriceDisplay := text;
      RunEffect(before);
    }

    /** Choosing a pricing method in the select, which offers the four named methods. The
        override is cleared, so the form is in sync unless nothing the effect watches changed. */
    method SelectMethod(m: PricingMethod)
      requires Valid()
      requires !m.Unrecognised?
      modifies this`pricingMethod, this`isManualOverride, this`totalPriceDisplay
      ensures pricingMethod == m && !isManualOverride
      ensures Deps() != old(Deps()) || old(InSync()) ==> InSync()
      ensures old(Frozen()) || m != old(pricingMethod) ==>
        (TotalPrice() == CalculatedTotal(m, Width(), Height(), Quantity(), UnitPrice(), old(TotalPrice())))
      ensures old(Frozen()) || m != old(pricingMethod) ==> InSync()
    {
      var before := Deps();
      pricingMethod := m;
      isManualOverride := false;
      RunEffect(before);
    }

    /** Typing in the total field: the text is kept as typed, and the total becomes frozen unless
        the method is `fixed`, whose flag is left alone. The field is read-only unless the
        override is on or the method is `fixed`. */
    method TypeTotal(text: string)
      requires Valid()
      requires isManualOverride || pricingMethod == Fixed
      modifies this`totalPriceDisplay, this`isManualOverride
      ensures totalPriceDisplay == text
      ensures pricingMethod != Fixed ==> isManualOverride && Frozen()
      ensures pricingMethod == Fixed ==> isManualOverride == old(isManualOverride)
      ensures InSync()
    {
      var before := Deps();
      totalPriceDisplay := text;
      if pricingMethod != Fixed {
        isManualOverride := true;
      }
      RunEffect(before);
    }

    /** The lock button, shown only outside `fixed`. Unlocking recomputes the total. */
    method ToggleOverride()
      requires Valid()
      requires pricingMethod != Fixed
      modifies this`isManualOverride, this`totalPriceDisplay
      ensures isManualOverride == !old(isManualOverride)
      ensures isManualOverride ==> totalPriceDisplay == old(totalPriceDisplay)
      ensures !isManualOverride ==>
        (TotalPrice() == CalculatedTotal(pricingMethod, Width(), Height(), Quantity(), UnitPrice(), old(TotalPrice())))
      ensures InSync()
    {
      var before := Deps();
      isManualOverride := !isManualOverride;
      RunEffect(before);
    }

    method SetServiceName(name: string)
      modifies this`serviceName
      ensures serviceName == name
    {
      serviceName := name;
    }

    method SetCustomServiceName(name: string)
      modifies this`customServiceName
      ensures customServiceName == name
    {
      customServiceName := name;
    }

    /** The glass color, glass thickness and profile color chip selectors. */
    method SetGlassColor(v: ChipSelector.Selection)
      modifies this`glassColor
      ensures glassColor == ChipValue(v)
    {
      glassColor := ChipValue(v);
    }

    method SetGlassThickness(v: ChipSelector.Selection)
      modifies this`glassThickness
      ensures glassThickness == ChipValue(v)
    {
      glassThickness := ChipValue(v);
    }

    method SetProfileColor(v: ChipSelector.Selection)
      modifies this`profileColor
      ensures profileColor == ChipValue(v)
    {
      profileColor := ChipValue(v);
    }

    /** The service name saved: the custom text when "Outro" is selected. */
    function ResolvedName(): string
      reads this
    {
      if serviceName == "Outro" then customServiceName else serviceName
    }

    /** `handleSave` (lines 145-191): the checks in source order, then the item it emits. */
    function Save(): (r: Result<InstallationLine, SaveError>)
      reads this
      ensures r == Err(MissingServiceName) <==> Blank(ResolvedName())
      ensures r == Err(InvalidFixedTotal) <==>
        !Blank(ResolvedName()) && pricingMethod == Fixed && TotalPrice() <= 0.0
      ensures r == Err(MissingAreaInputs) <==>
        && !Blank(ResolvedName()) && pricingMethod == M2
        && (widthDisplay == "" || heightDisplay == "" || unitPriceDisplay == ""
            || Width() <= 0.0 || Height() <= 0.0 || UnitPrice() <= 0.0)
      ensures r == Err(MissingLinearInputs) <==>
        && !Blank(ResolvedName()) && pricingMethod == Linear
        && (widthDisplay == "" || unitPriceDisplay == "" || Width() <= 0.0 || UnitPrice() <= 0.0)
      ensures r == Err(MissingUnitInputs) <==>
        && !Blank(ResolvedName()) && pricingMethod == Unit
        && (unitPriceDisplay == "" || quantityDisplay == "" || UnitPrice() <= 0.0)
      ensures r.Ok? <==>
        && !Blank(ResolvedName())
        && (pricingMethod == Fixed ==> TotalPrice() > 0.0)
        && (pricingMethod == M2 ==>
              widthDisplay != "" && heightDisplay != "" && unitPriceDisplay != ""
              && Width() > 0.0 && Height() > 0.0 && UnitPrice() > 0.0)
        && (pricingMethod == Linear ==>
              widthDisplay != "" && unitPriceDisplay != "" && Width() > 0.0 && UnitPrice() > 0.0)
        && (pricingMethod == Unit ==> unitPriceDisplay != "" && quantityDisplay != "" && UnitPrice() > 0.0)
      ensures r.Ok? ==>
        var item := r.value;
        && item.serviceName == ResolvedName() && !Blank(item.serviceName)
        && item.isInstallation
        && item.total == TotalPrice()
        && item.quantity == Quantity() && item.quantity >= 1.0
        && item.pricingMethod == pricingMethod
        && item.unitPrice == (if pricingMethod == Fixed then TotalPrice() else UnitPrice())
        && (pricingMethod == Fixed ==> item.total > 0.0)
        && item.dimensions.width == Width()
        && item.dimensions.height == (if pricingMethod == Linear then 0.0 else Height())
        && (item.dimensions.area.Some? <==> pricingMethod == M2 && Width() > 0.0 && Height() > 0.0)
        && (item.dimensions.area.Some? ==> item.dimensions.area.value == Width() * Height())
        && item.glassColor == glassColor && item.glassThickness == glassThickness
        && item.profileColor == profileColor
    {
      var finalServiceName := ResolvedName();
      TrimEmptyIffBlank(finalServiceName);
      QuantityFloor(parse, quantityDisplay);
      var width, height, unitPrice, quantity, totalPrice := Width(), Height(), UnitPrice(), Quantity(), TotalPrice();
      if Trim(finalServiceName) == "" then Err(MissingServiceName)
      else if pricingMethod == Fixed && totalPrice <= 0.0 then Err(InvalidFixedTotal)
      else if pricingMethod == M2 && (widthDisplay == "" || heightDisplay == "" || unitPriceDisplay == ""
                                      || width <= 0.0 || height <= 0.0 || unitPrice <= 0.0)
      then Err(MissingAreaInputs)
      else if pricingMethod == Linear && (widthDisplay == "" || unitPriceDisplay == ""
                                          || width <= 0.0 || unitPrice <= 0.0)
      then Err(MissingLinearInputs)
      else if pricingMethod == Unit && (unitPriceDisplay == "" || quantityDisplay == ""
                                        || unitPrice <= 0.0 || quantity <= 0.0)
      then Err(MissingUnitInputs)
      else
        Ok(InstallationLine(
          finalServiceName, quantity,
          if pricingMethod == Fixed then totalPrice else unitPrice,
          totalPrice, pricingMethod,
          Dimensions(width, if pricingMethod == Linear then 0.0 else height,
                     if pricingMethod == M2 && width > 0.0 && height > 0.0 then Some(width * height) else None),
          glassColor, glassThickness, profileColor, true))
    }
  }

  /** A saved `m2` item computed automatically reproduces its total when its width, height,
      quantity and unit price are fed back into the formula, and its area is width times
      height. */
  lemma SavedAreaItemRoundTrip(f: InstallationItemModal)
    requires f.InSync() && !f.isManualOverride && f.pricingMethod == M2 && f.Save().Ok?
    ensures var item := f.Save().value;
      && CalculatedTotal(M2, item.dimensions.width, item.dimensions.height, item.quantity,
                         item.unitPrice, 0.0) == item.total
      && item.total > 0.0
      && item.dimensions.area.Some?
      && item.dimensions.area.value == item.dimensions.width * item.dimensions.height
  {
    var item := f.Save().value;
    assert f.Width() > 0.0 && f.Height() > 0.0;
    MethodTotals(item.dimensions.width, item.dimensions.height, item.quantity, item.unitPrice, 0.0);
  }

  /** A saved `linear` item computed automatically reproduces its total from its width,
      quantity and unit price, with its height recorded as 0. */
  lemma SavedLinearItemRoundTrip(f: InstallationItemModal)
    requires f.InSync() && !f.isManualOverride && f.pricingMethod == Linear && f.Save().Ok?
    ensures var item := f.Save().value;
      && item.dimensions.height == 0.0 && item.dimensions.area.None?
      && CalculatedTotal(Linear, item.dimensions.width, 0.0, item.quantity, item.unitPrice, 0.0) == item.total
      && item.total > 0.0
  {
    var item := f.Save().value;
    MethodTotals(item.dimensions.width, item.dimensions.height, item.quantity, item.unitPrice, 0.0);
  }

  /** The scenario of a typed total in `m2`: with the total unlocked and typed, a new unit price
      leaves the total alone, and choosing `unit` clears the override and prices quantity times unit price. */
  method OverrideScenario(parse: Parser, show: Printer, typed: string, price: string)
    returns (frozenTotal: real, unitTotal: real)
    requires Faithful(parse, show)
    ensures frozenTotal == ToNumber(parse, typed)
    ensures unitTotal == EffectiveQuantity(parse, "") * ToNumber(parse, price)
  {
    var f := new InstallationItemModal(parse, show);
    f.SelectMethod(M2);
    f.ToggleOverride();
    f.TypeTotal(typed);
    f.SetUnitPriceDisplay(price);
    frozenTotal := f.TotalPrice();
    f.SelectMethod(Unit);
    unitTotal := f.TotalPrice();
  }
}
