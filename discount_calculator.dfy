/**
 * The discount calculator component: a quantity, an ordered list of selected
 * discounts, a value buffer for the next discount, the discount catalog and
 * the state of the catalog fetch. Its handlers become the methods of
 * `CalculatorState`; the network result of the catalog fetch and the
 * currently selected product (a property passed in by the page) are inputs.
 */
module DiscountCalculator {
  import opened Types

  /** A catalog entry as the discounts endpoint returns it. */
  datatype CatalogEntry = CatalogEntry(id: int, kind: string, value: Option<real>, description: string)

  /** The four mutually exclusive things the component renders. */
  datatype CalculatorView = SelectProductPrompt | Spinner | ErrorBanner(message: string) | Ready

  const FetchDiscountsError: string := "Failed to fetch available discounts"

  /** The record the "add discount" handler builds from a type string and the
      current buffer: the amount is dropped exactly when the string is the
      upper-case key "BOGO". */
  function NewDiscount(kind: string, buffer: real): (d: DiscountType)
    ensures d.kind == kind
    ensures d.value.None? <==> kind == BogoKey
    ensures d.value.Some? ==> d.value.value == buffer
  {
    DiscountType(kind, if kind != BogoKey then Some(buffer) else None)
  }

  /** The buffer is only ever 0, so every discount the handler adds is either
      a value-less "BOGO" or carries the amount 0. */
  predicate Conforms(d: DiscountType) {
    d.value == if d.kind == BogoKey then None else Some(0.0)
  }

  /** A copy of `s` with `splice(index, 1)` applied: the element at `index`
      is removed and the rest keep their order; an index past the end
      removes nothing. */
  function RemoveAt<T>(s: seq<T>, index: nat): (r: seq<T>)
    ensures index < |s| ==> |r| == |s| - 1
    ensures index < |s| ==> forall k :: 0 <= k < index ==> r[k] == s[k]
    ensures index < |s| ==> forall k :: index <= k < |r| ==> r[k] == s[k + 1]
    ensures index >= |s| ==> r == s
  {
    if index < |s| then s[..index] + s[index + 1..] else s
  }

  /** Exactly the element at `index` leaves the list. */
  lemma RemoveAtTakesOne<T>(s: seq<T>, index: nat)
    requires index < |s|
    ensures multiset(RemoveAt(s, index)) + multiset{s[index]} == multiset(s)
  {
    assert s == s[..index] + [s[index]] + s[index + 1..];
  }

  /** Adding a discount and then removing the last position gives back the
      list as it was. */
  lemma AddThenRemoveLast(s: seq<DiscountType>, kind: string, buffer: real)
    ensures RemoveAt(s + [NewDiscount(kind, buffer)], |s|) == s
  {
  }

  /** Adding from a buffer of 0 keeps every selected discount conforming. */
  lemma AddKeepsConforming(s: seq<DiscountType>, kind: string)
    requires forall i :: 0 <= i < |s| ==> Conforms(s[i])
    ensures forall i :: 0 <= i < |s| + 1 ==> Conforms((s + [NewDiscount(kind, 0.0)])[i])
  {
  }

  /** Removing keeps every selected discount conforming. */
  lemma RemoveKeepsConforming(s: seq<DiscountType>, index: nat)
    requires forall i :: 0 <= i < |s| ==> Conforms(s[i])
    ensures forall i :: 0 <= i < |RemoveAt(s, index)| ==> Conforms(RemoveAt(s, index)[i])
  {
  }

  /** The server's lower-case "bogo" is not the key "BOGO", so a
      buy-one-get-one entry taken from the catalog keeps the buffer value. */
  lemma CatalogBogoKeepsValue(buffer: real)
    ensures NewDiscount(BogoValue, buffer).value == Some(buffer)
  {
  }

  /** Which view is rendered: no product first, then loading, then error. */
  function ViewOf(product: Option<Product>, isLoading: bool, error: Option<string>): (v: CalculatorView)
    ensures v == SelectProductPrompt <==> product.None?
    ensures v == Spinner <==> product.Some? && isLoading
    ensures v.ErrorBanner? <==> product.Some? && !isLoading && Truthy(error)
    ensures v.ErrorBanner? ==> v.message == error.value
    ensures v == Ready <==> product.Some? && !isLoading && !Truthy(error)
  {
    if product.None? then SelectProductPrompt
    else if isLoading then Spinner
    else if Truthy(error) then ErrorBanner(error.value)
    else Ready
  }

  class CalculatorState {
    var quantity: real
    var selectedDiscounts: seq<DiscountType>
    var discountValue: real
    var availableDiscounts: seq<CatalogEntry>
    var isLoading: bool
    var error: Option<string>

    /** The buffer stays 0 and every selected discount conforms. */
    ghost predicate Valid()
      reads this`discountValue, this`selectedDiscounts
    {
      discountValue == 0.0 &&
      forall i :: 0 <= i < |selectedDiscounts| ==> Conforms(selectedDiscounts[i])
    }

    constructor ()
      ensures Valid()
      ensures quantity == 1.0 && selectedDiscounts == [] && discountValue == 0.0
      ensures availableDiscounts == [] && !isLoading && error == None
    {
      quantity := 1.0;
      selectedDiscounts := [];
      discountValue := 0.0;
      availableDiscounts := [];
      isLoading := false;
      error := None;
    }

    /** The first half of the catalog fetch, before the request is awaited. */
    method BeginFetchDiscounts()
      modifies this`isLoading, this`error
      ensures isLoading && error == None
    {
      isLoading := true;
      error := None;
    }

    /** The second half of the catalog fetch: the catalog is replaced on
        success, the error is set on failure, and loading ends either way. */
    method ResolveFetchDiscounts(outcome: FetchOutcome<seq<CatalogEntry>>)
      modifies this`availableDiscounts, this`error, this`isLoading
      ensures availableDiscounts == if outcome.Fetched? then outcome.payload else old(availableDiscounts)
      ensures error == if outcome.Fetched? then old(error) else Some(FetchDiscountsError)
      ensures !isLoading
    {
      match outcome {
        case Fetched(catalog) =>
          availableDiscounts := catalog;
        case FetchFailed =>
          error := Some(FetchDiscountsError);
      }
      isLoading := false;
    }

    method SetQuantity(q: real)
      modifies this`quantity
      ensures quantity == q
    {
      quantity := q;
    }

    /** Appends the discount built from `kind` and the buffer, then clears
        the buffer. */
    method AddDiscount(kind: string)
      requires Valid()
      modifies this`selectedDiscounts, this`discountValue
      ensures Valid()
      ensures selectedDiscounts == old(selectedDiscounts) + [NewDiscount(kind, old(discountValue))]
      ensures discountValue == 0.0
    {
      AddKeepsConforming(selectedDiscounts, kind);
      selectedDiscounts := selectedDiscounts + [NewDiscount(kind, discountValue)];
      discountValue := 0.0;
    }

    /** The remove button of the row at `index`: splices a copy of the list. */
    method RemoveDiscount(index: nat)
      requires Valid()
      modifies this`selectedDiscounts
      ensures Valid()
      ensures selectedDiscounts == RemoveAt(old(selectedDiscounts), index)
    {
      var newDiscounts := selectedDiscounts;
      RemoveKeepsConforming(newDiscounts, index);
      newDiscounts := RemoveAt(newDiscounts, index);
      selectedDiscounts := newDiscounts;
    }

    /** Returns the argument the calculate callback receives, or `None` when
        no product is selected and the callback is not called. The state is
        left as it was. */
    method Calculate(selected: Option<Product>) returns (call: Option<DiscountCalculation>)
      ensures call.None? <==> selected.None?
      ensures call.Some? ==> call.value.productId == selected.value.id
      ensures call.Some? ==> call.value.quantity == quantity
      ensures call.Some? ==> call.value.discountTypes == selectedDiscounts
    {
      if selected.None? {
        return None;
      }
      call := Some(DiscountCalculation(selected.value.id, quantity, selectedDiscounts));
    }

    function View(selected: Option<Product>): CalculatorView
      reads this`isLoading, this`error
    {
      ViewOf(selected, isLoading, error)
    }
  }

  /** A catalog offering one 10% entry, a product "p1", quantity 2, one click
      on the entry, then Calculate: the callback receives the percentage
      discount with amount 0, the buffer's value, not the catalog's 10. */
  method CatalogScenario() returns (call: Option<DiscountCalculation>)
    ensures call == Some(DiscountCalculation("p1", 2.0, [DiscountType("percentage", Some(0.0))]))
  {
    var widget := Product("p1", "Widget", 100.0, None);
    var c := new CalculatorState();
    assert c.View(None) == SelectProductPrompt;
    c.BeginFetchDiscounts();
    assert c.View(Some(widget)) == Spinner;
    c.ResolveFetchDiscounts(Fetched([CatalogEntry(1, "percentage", Some(10.0), "10% off")]));
    assert c.View(Some(widget)) == Ready;
    c.SetQuantity(2.0);
    assert "percentage" != BogoKey;
    c.AddDiscount(c.availableDiscounts[0].kind);
    assert c.selectedDiscounts == [DiscountType("percentage", Some(0.0))];
    call := c.Calculate(Some(widget));
  }
}
