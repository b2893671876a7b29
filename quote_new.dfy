/** The quote editor's item list (pages/QuoteNew.tsx): services are appended as items, an
    item's quantity or unit price is edited with its total recomputed, items are removed by
    position, and the quote total is the sum of item totals less the discount. */
module QuoteNew {

  import opened Common
  import opened Numeric
  import opened Lists

  datatype Service = Service(id: string, name: string, description: string, defaultPrice: Option<real>)

  const Services: seq<Service> := [
    Service("troca-roldanas", "Troca de Roldanas", "Substituição por roldanas premium", Some(50.0)),
    Service("vedacao-completa", "Vedação Completa", "Substituição completa da vedação", Some(35.0)),
    Service("higienizacao-blindagem", "Higienização e Blindagem", "Limpeza profunda e blindagem nos trilhos", Some(450.0)),
    Service("colagem-vidro", "Colagem de Vidro", "Colagem profissional de vidros soltos", Some(120.0)),
    Service("visita-tecnica", "Visita Técnica/Diagnóstico", "Diagnóstico completo do sistema", Some(150.0))
  ]

  datatype QuoteItem = QuoteItem(serviceId: string, serviceName: string, quantity: real,
                                 unitPrice: real, total: real)

  /** The field an edit changes. */
  datatype Field = Quantity | UnitPrice

  /** An item whose total is its quantity times its unit price. */
  predicate Priced(item: QuoteItem)
  {
    item.total == item.quantity * item.unitPrice
  }

  predicate Consistent(items: seq<QuoteItem>)
  {
    forall i :: 0 <= i < |items| ==> Priced(items[i])
  }

  /** `items.reduce((sum, item) => sum + item.total, 0)`: item totals added from the left. */
  function Subtotal(items: seq<QuoteItem>): real
  {
    if items == [] then 0.0 else Subtotal(items[..|items| - 1]) + items[|items| - 1].total
  }

  /** The subtotal of two lists one after the other is the sum of their subtotals. */
  lemma {:induction false} SubtotalConcat(a: seq<QuoteItem>, b: seq<QuoteItem>)
    ensures Subtotal(a + b) == Subtotal(a) + Subtotal(b)
    decreases |b|
  {
    if b == [] {
      assert a + b == a;
    } else {
      var last := |b| - 1;
      assert (a + b)[..|a + b| - 1] == a + b[..last];
      SubtotalConcat(a, b[..last]);
    }
  }

  /** The subtotal of a list split after position `k`: the prefix, item `k`, then the rest. */
  lemma {:induction false} SubtotalSplit(items: seq<QuoteItem>, k: int)
    requires 0 <= k < |items|
    ensures Subtotal(items) == Subtotal(items[..k]) + items[k].total + Subtotal(items[k + 1..])
  {
    assert items == items[..k + 1] + items[k + 1..];
    SubtotalConcat(items[..k + 1], items[k + 1..]);
    assert items[..k + 1][..k] == items[..k];
  }

  /** Removing the item at a valid position takes exactly its total off the subtotal; any other
      position changes nothing. */
  lemma {:induction false} SubtotalDropIndex(items: seq<QuoteItem>, index: int)
    ensures 0 <= index < |items| ==>
      Subtotal(DropIndex(items, index)) == Subtotal(items) - items[index].total
    ensures !(0 <= index < |items|) ==> Subtotal(DropIndex(items, index)) == Subtotal(items)
  {
    DropIndexSlices(items, index);
    if 0 <= index < |items| {
      SubtotalSplit(items, index);
      SubtotalConcat(items[..index], items[index + 1..]);
    }
  }

  /** Replacing one item changes the subtotal by the difference of the two totals. */
  lemma {:induction false} SubtotalUpdate(items: seq<QuoteItem>, index: int, item: QuoteItem)
    requires 0 <= index < |items|
    ensures Subtotal(items[index := item]) == Subtotal(items) - items[index].total + item.total
  {
    var updated := items[index := item];
    SubtotalSplit(items, index);
    SubtotalSplit(updated, index);
    assert updated[..index] == items[..index];
    assert updated[index + 1..] == items[index + 1..];
  }

  /** The item `addService` builds: one unit at the default price, or 0 without one. */
  function NewItem(service: Service): (item: QuoteItem)
    ensures item.serviceId == service.id && item.serviceName == service.name
    ensures item.quantity == 1.0 && Priced(item)
    ensures item.unitPrice == (if service.defaultPrice.Some? then service.defaultPrice.value else 0.0)
  {
    var price := OrElse(service.defaultPrice, 0.0);
    QuoteItem(service.id, service.name, 1.0, price, price)
  }

  /** An item after `updateItem`: the field set, the total recomputed. */
  function Updated(item: QuoteItem, field: Field, value: real): (r: QuoteItem)
    ensures Priced(r)
    ensures r.serviceId == item.serviceId && r.serviceName == item.serviceName
    ensures field == Quantity ==> r.quantity == value && r.unitPrice == item.unitPrice
    ensures field == UnitPrice ==> r.unitPrice == value && r.quantity == item.quantity
  {
    match field
    case Quantity => item.(quantity := value, total := value * item.unitPrice)
    case UnitPrice => item.(unitPrice := value, total := item.quantity * value)
  }

  /** The quantity input: `parseFloat(text) || 1`. */
  function QuantityInput(parse: Parser, text: string): (q: real)
    ensures q != 0.0
    ensures parse(text).None? || parse(text) == Some(0.0) ==> q == 1.0
    ensures Truthy(parse(text)) ==> q == parse(text).value
  {
    OrElse(parse(text), 1.0)
  }

  /** The unit price and discount inputs: `parseFloat(text) || 0`. */
  function AmountInput(parse: Parser, text: string): (a: real)
    ensures parse(text).None? ==> a == 0.0
    ensures parse(text).Some? ==> a == parse(text).value
  {
    OrElse(parse(text), 0.0)
  }

  class QuoteEditor {
    var items: seq<QuoteItem>
    var discount: real

    /** A new quote: no items, no discount. */
    constructor ()
      ensures items == [] && discount == 0.0
    {
      items, discount := [], 0.0;
    }

    function Total(): real
      reads this
    {
      Subtotal(items) - discount
    }

    /** `addService`: one item appended, the others untouched, the subtotal raised by its total. */
    method AddService(service: Service)
      modifies this`items
      ensures items == old(items) + [NewItem(service)]
      ensures Subtotal(items) == old(Subtotal(items)) + NewItem(service).total
      ensures Consistent(old(items)) ==> Consistent(items)
    {
      items := items + [NewItem(service)];
      assert items[..|items| - 1] == old(items);
    }

    /** `updateItem`: the array is copied and the item at `index` has its field set and its total
        recomputed in place; no other item changes. The component is only called with the index
        of a rendered item. */
    method UpdateItem(index: int, field: Field, value: real)
      requires 0 <= index < |items|
      modifies this`items
      ensures |items| == |old(items)|
      ensures items[index] == Updated(old(items)[index], field, value)
      ensures forall i :: 0 <= i < |items| && i != index ==> items[i] == old(items)[i]
      ensures Subtotal(items) == old(Subtotal(items)) - old(items)[index].total + items[index].total
      ensures Consistent(old(items)) ==> Consistent(items)
    {
      var newItems := items;
      var item := newItems[index];
      match field {
        case Quantity =>
          item := item.(quantity := value);
          item := item.(total := item.quantity * item.unitPrice);
        case UnitPrice =>
          item := item.(unitPrice := value);
          item := item.(total := item.quantity * item.unitPrice);
      }
      newItems := newItems[index := item];
      SubtotalUpdate(items, index, item);
      items := newItems;
    }

    /** `removeItem`: exactly the item at `index` is dropped, the others keep their order; an
        index outside the list changes nothing. */
    method RemoveItem(index: int)
      modifies this`items
      ensures 0 <= index < |old(items)| ==> items == old(items)[..index] + old(items)[index + 1..]
      ensures !(0 <= index < |old(items)|) ==> items == old(items)
      ensures 0 <= index < |old(items)| ==> Subtotal(items) == old(Subtotal(items)) - old(items)[index].total
      ensures Consistent(old(items)) ==> Consistent(items)
    {
      DropIndexSlices(items, index);
      SubtotalDropIndex(items, index);
      items := DropIndex(items, index);
      if Consistent(old(items)) && 0 <= index < |old(items)| {
        forall i | 0 <= i < |items| ensures Priced(items[i]) {
          if i < index { assert items[i] == old(items)[i]; }
          else { assert items[i] == old(items)[i + 1]; }
        }
      }
    }

    /** The quantity input of item `index`. */
    method EditQuantity(parse: Parser, index: int, text: string)
      requires 0 <= index < |items|
      modifies this`items
      ensures items == old(items)[index := Updated(old(items)[index], Quantity, QuantityInput(parse, text))]
      ensures items[index].quantity != 0.0
    {
      UpdateItem(index, Quantity, QuantityInput(parse, text));
    }

    /** The unit price input of item `index`. */
    method EditUnitPrice(parse: Parser, index: int, text: string)
      requires 0 <= index < |items|
      modifies this`items
      ensures items == old(items)[index := Updated(old(items)[index], UnitPrice, AmountInput(parse, text))]
    {
      UpdateItem(index, UnitPrice, AmountInput(parse, text));
    }

    /** The discount input; the total is the subtotal less the discount, never clamped. */
    method EditDiscount(parse: Parser, text: string)
      modifies this`discount
      ensures discount == AmountInput(parse, text)
      ensures Total() == Subtotal(items) - AmountInput(parse, text)
    {
      discount := AmountInput(parse, text);
    }
  }
}
