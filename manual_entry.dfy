/**
 * The manual-entry draft of a receipt: the item list, the item being typed,
 * and the tax/tip/card-fee text, with the add, remove and save actions and
 * the subtotal and total they show.
 *
 * parseFloat and parseInt are parameters: None stands for NaN. The item id
 * (Date.now() in the screen), the receipt id, its creation time and its date
 * are parameters too.
 */
module ManualEntry {
  import opened Wrappers
  import opened Text
  import opened Seqs
  import opened ReceiptContext

  type FloatParser = string -> Option<real>
  type IntParser = string -> Option<int>

  /** The item inputs, all text as typed. */
  datatype ItemDraft = ItemDraft(name: string, price: string, quantity: string)

  /** The receipt-detail inputs, all text as typed. */
  datatype DetailsDraft = DetailsDraft(total: string, tax: string, tip: string, ccFee: string, merchant: string)

  const EmptyItemDraft: ItemDraft := ItemDraft("", "", "1")
  const EmptyDetails: DetailsDraft := DetailsDraft("", "", "", "", "")

  datatype AddItemError = MissingNameOrPrice | InvalidPrice

  datatype SaveError = NoItems

  /** `parseFloat(text) || 0`: text that does not parse counts as 0. */
  function NumberOrZero(parseFloat: FloatParser, text: string): (r: real)
    ensures parseFloat(text).None? ==> r == 0.0
    ensures parseFloat(text).Some? ==> r == parseFloat(text).value
  {
    match parseFloat(text)
    case Some(v) => v
    case None => 0.0
  }

  /** `parseInt(text) || 1`: NaN and 0 fall back to 1; a negative count is kept. */
  function QuantityOrOne(parseInt: IntParser, text: string): (q: int)
    ensures q != 0
    ensures parseInt(text).Some? && parseInt(text).value != 0 ==> q == parseInt(text).value
    ensures parseInt(text).None? || parseInt(text).value == 0 ==> q == 1
  {
    match parseInt(text)
    case Some(n) => if n == 0 then 1 else n
    case None => 1
  }

  /**
   * addItem's checks and the item it builds: name and price text must not be
   * blank, and the price must parse to a positive number.
   */
  function ItemFromDraft(draft: ItemDraft, id: string, parseFloat: FloatParser, parseInt: IntParser): (r: Result<Item, AddItemError>)
    ensures IsBlank(draft.name) || IsBlank(draft.price) ==> r == Failure(MissingNameOrPrice)
    ensures r.Success? <==>
      !IsBlank(draft.name) && !IsBlank(draft.price) && parseFloat(draft.price).Some? && parseFloat(draft.price).value > 0.0
    ensures r.Success? ==>
      && r.value.id == id
      && r.value.name == Trim(draft.name) && r.value.name != []
      && r.value.price == parseFloat(draft.price).value
      && r.value.quantity == QuantityOrOne(parseInt, draft.quantity)
      && r.value.subtotal == r.value.price * r.value.quantity as real
  {
    if IsBlank(draft.name) || IsBlank(draft.price) then Failure(MissingNameOrPrice)
    else
      var price := parseFloat(draft.price);
      var quantity := QuantityOrOne(parseInt, draft.quantity);
      if price.None? || price.value <= 0.0 then Failure(InvalidPrice)
      else Success(Item(id, Trim(draft.name), price.value, quantity, price.value * quantity as real))
  }

  /** calculateSubtotal: `reduce((sum, item) => sum + item.subtotal, 0)`. */
  function Subtotal(items: seq<Item>): (r: real)
    ensures items == [] ==> r == 0.0
    ensures (forall i :: 0 <= i < |items| ==> items[i].subtotal >= 0.0) ==> r >= 0.0
    decreases |items|
  {
    if items == [] then 0.0 else Subtotal(items[..|items| - 1]) + items[|items| - 1].subtotal
  }

  /** The subtotal of two lists put together is the sum of their subtotals. */
  lemma {:induction false} SubtotalConcat(a: seq<Item>, b: seq<Item>)
    ensures Subtotal(a + b) == Subtotal(a) + Subtotal(b)
    decreases |b|
  {
    if b != [] {
      var b' := b[..|b| - 1];
      assert (a + b)[..|a + b| - 1] == a + b';
      SubtotalConcat(a, b');
    } else {
      assert a + b == a;
    }
  }

  function HasId(id: string): Item -> bool {
    (item: Item) => item.id == id
  }

  function LacksId(id: string): Item -> bool {
    (item: Item) => item.id != id
  }

  /** removeItem's `filter`: every item with the id is dropped. */
  function WithoutItem(items: seq<Item>, id: string): (r: seq<Item>)
    ensures forall item :: item in r <==> item in items && item.id != id
    ensures forall item: Item :: item.id != id ==> multiset(r)[item] == multiset(items)[item]
  {
    var r := Filter(LacksId(id), items);
    assert forall item :: item in r <==> item in items && item.id != id by {
      forall item ensures item in r <==> item in items && item.id != id {
        FilterMembership(LacksId(id), items, item);
      }
    }
    assert forall item: Item :: item.id != id ==> multiset(r)[item] == multiset(items)[item] by {
      forall item: Item | item.id != id ensures multiset(r)[item] == multiset(items)[item] {
        FilterCount(LacksId(id), items, item);
      }
    }
    r
  }

  /** Removing items lowers the subtotal by exactly the subtotals of the items removed. */
  lemma {:induction false} SubtotalAfterRemoval(items: seq<Item>, id: string)
    ensures Subtotal(items) == Subtotal(WithoutItem(items, id)) + Subtotal(Filter(HasId(id), items))
  {
    if items == [] {
      assert WithoutItem(items, id) == [] && Filter(HasId(id), items) == [];
    } else {
      var x, rest := items[0], items[1..];
      SubtotalAfterRemoval(rest, id);
      assert items == [x] + rest;
      SubtotalConcat([x], rest);
      assert Subtotal([x]) == x.subtotal by {
        assert [x][..0] == [];
      }
      var kept, dropped := WithoutItem(rest, id), Filter(HasId(id), rest);
      if x.id == id {
        assert !LacksId(id)(x) && HasId(id)(x);
        assert WithoutItem(items, id) == kept;
        assert Filter(HasId(id), items) == [x] + dropped;
        SubtotalConcat([x], dropped);
      } else {
        assert LacksId(id)(x) && !HasId(id)(x);
        assert WithoutItem(items, id) == [x] + kept;
        assert Filter(HasId(id), items) == dropped;
        SubtotalConcat([x], kept);
      }
    }
  }

  /** calculateTotal: subtotal plus tax, tip and card fee, each 0 when its text does not parse. */
  function Total(items: seq<Item>, details: DetailsDraft, parseFloat: FloatParser): (r: real)
    ensures parseFloat(details.tax).None? && parseFloat(details.tip).None? && parseFloat(details.ccFee).None? ==>
      r == Subtotal(items)
  {
    Subtotal(items) + NumberOrZero(parseFloat, details.tax) + NumberOrZero(parseFloat, details.tip)
      + NumberOrZero(parseFloat, details.ccFee)
  }

  /** Two coffees at 3.50 and a muffin at 2.25, 0.50 tax, 1.00 tip and no card fee come to 9.25 and 10.75. */
  lemma {:induction false} TotalsExample(coffee: Item, muffin: Item, parseFloat: FloatParser)
    requires coffee.subtotal == 3.5 * 2.0 && muffin.subtotal == 2.25 * 1.0
    requires parseFloat("0.50") == Some(0.5) && parseFloat("1.00") == Some(1.0) && parseFloat("") == None
    ensures Subtotal([coffee, muffin]) == 9.25
    ensures Total([coffee, muffin], DetailsDraft("", "0.50", "1.00", "", ""), parseFloat) == 10.75
  {
    var items := [coffee, muffin];
    assert items[..1] == [coffee];
    assert Subtotal([coffee]) == 7.0 by {
      assert [coffee][..0] == [];
    }
  }

  /** The outcome of a save: the stored receipt and the receipt store after it. */
  datatype Saved = Saved(receipt: Receipt, store: State)

  /** The receipt data saveReceipt hands to addReceipt. */
  function ManualReceiptData(items: seq<Item>, details: DetailsDraft, date: string, parseFloat: FloatParser): (r: ReceiptData)
    ensures r.items == items && r.kind == "manual" && r.date == date
    ensures r.subtotal == Subtotal(items) && r.total == r.subtotal + r.tax + r.tip + r.ccFee
    ensures r.total == Total(items, details, parseFloat)
    ensures parseFloat(details.tax).None? ==> r.tax == 0.0
    ensures parseFloat(details.tip).None? ==> r.tip == 0.0
    ensures parseFloat(details.ccFee).None? ==> r.ccFee == 0.0
    ensures r.tax == NumberOrZero(parseFloat, details.tax) && r.tip == NumberOrZero(parseFloat, details.tip)
    ensures r.ccFee == NumberOrZero(parseFloat, details.ccFee)
    ensures r.merchant == Trim(details.merchant)
    ensures IsBlank(details.merchant) ==> r.merchant == ""
  {
    ReceiptData(items, Trim(details.merchant), Subtotal(items),
                NumberOrZero(parseFloat, details.tax), NumberOrZero(parseFloat, details.tip),
                NumberOrZero(parseFloat, details.ccFee), Total(items, details, parseFloat), date, "manual")
  }

  /** The screen's draft state, updated action by action. */
  class Draft {
    var items: seq<Item>
    var currentItem: ItemDraft
    var receiptDetails: DetailsDraft

    constructor ()
      ensures items == [] && currentItem == EmptyItemDraft && receiptDetails == EmptyDetails
    {
      items := [];
      currentItem := EmptyItemDraft;
      receiptDetails := EmptyDetails;
    }

    /** The item inputs' onChangeText handlers. */
    method EditItem(draft: ItemDraft)
      modifies this
      ensures currentItem == draft && items == old(items) && receiptDetails == old(receiptDetails)
    {
      currentItem := draft;
    }

    /** The tax input's onChangeText handler: only the tax text changes. */
    method EditTax(text: string)
      modifies this
      ensures receiptDetails == old(receiptDetails).(tax := text)
      ensures items == old(items) && currentItem == old(currentItem)
    {
      receiptDetails := receiptDetails.(tax := text);
    }

    /** The tip input's onChangeText handler: only the tip text changes. */
    method EditTip(text: string)
      modifies this
      ensures receiptDetails == old(receiptDetails).(tip := text)
      ensures items == old(items) && currentItem == old(currentItem)
    {
      receiptDetails := receiptDetails.(tip := text);
    }

    /** The card-fee input's onChangeText handler: only the card-fee text changes. */
    method EditCardFee(text: string)
      modifies this
      ensures receiptDetails == old(receiptDetails).(ccFee := text)
      ensures items == old(items) && currentItem == old(currentItem)
    {
      receiptDetails := receiptDetails.(ccFee := text);
    }

    /**
     * addItem: a rejected draft changes nothing; an accepted one is appended
     * at the end, raising the subtotal by its own, and the inputs are reset.
     */
    method AddItem(id: string, parseFloat: FloatParser, parseInt: IntParser) returns (added: Result<Item, AddItemError>)
      modifies this
      ensures added == ItemFromDraft(old(currentItem), id, parseFloat, parseInt)
      ensures receiptDetails == old(receiptDetails)
      ensures added.Failure? ==> items == old(items) && currentItem == old(currentItem)
      ensures added.Success? ==>
        && items == old(items) + [added.value]
        && currentItem == EmptyItemDraft
        && Subtotal(items) == Subtotal(old(items)) + added.value.subtotal
    {
      added := ItemFromDraft(currentItem, id, parseFloat, parseInt);
      if added.Failure? {
        return;
      }
      items := items + [added.value];
      currentItem := EmptyItemDraft;
      assert items[..|items| - 1] == old(items);
    }

    /**
     * removeItem: exactly the items with that id go, the rest keep their
     * order, and the subtotal drops by the removed items' subtotals.
     */
    method RemoveItem(id: string)
      modifies this
      ensures items == WithoutItem(old(items), id)
      ensures currentItem == old(currentItem) && receiptDetails == old(receiptDetails)
      ensures forall item :: item in items ==> item.id != id
      ensures Subtotal(old(items)) == Subtotal(items) + Subtotal(Filter(HasId(id), old(items)))
    {
      SubtotalAfterRemoval(items, id);
      items := WithoutItem(items, id);
    }

    /**
     * saveReceipt: refused while there are no items; otherwise the draft is
     * saved through addReceipt as a 'manual' receipt whose total is exactly
     * its subtotal plus the parsed tax, tip and card fee. The draft itself
     * is left as it is.
     */
    method SaveReceipt(store: State, id: string, createdAt: string, date: string, parseFloat: FloatParser)
      returns (saved: Result<Saved, SaveError>)
      ensures saved.Failure? <==> items == []
      ensures saved.Success? ==>
        var data := saved.value.receipt.data;
        && data == ManualReceiptData(items, receiptDetails, date, parseFloat)
        && data.kind == "manual"
        && data.total == data.subtotal + data.tax + data.tip + data.ccFee
        && saved.value.receipt.id == id && saved.value.receipt.createdAt == createdAt
        && saved.value.store.receipts == store.receipts + [saved.value.receipt]
        && saved.value.store.currentReceipt == Some(saved.value.receipt)
    {
      if |items| == 0 {
        return Failure(NoItems);
      }
      var receiptData := ManualReceiptData(items, receiptDetails, date, parseFloat);
      var added := AddReceiptData(store, receiptData, id, createdAt);
      saved := Success(Saved(added.receipt, added.store));
    }
  }
}
