/**
 * The client's receipt store: a reducer over
 * {receipts, currentReceipt, loading, error} with five actions, and the
 * addReceipt wrapper that stamps a receipt with an id and a creation time.
 * The clock and the id source are parameters.
 */
module ReceiptContext {
  import opened Wrappers
  import opened Seqs

  /** A line item as the manual-entry screen builds it. */
  datatype Item = Item(id: string, name: string, price: real, quantity: int, subtotal: real)

  /** The receipt fields a screen hands to addReceipt. */
  datatype ReceiptData = ReceiptData(
    items: seq<Item>,
    merchant: string,
    subtotal: real,
    tax: real,
    tip: real,
    ccFee: real,
    total: real,
    date: string,
    kind: string)

  /** A stored receipt: the data extended with `id` and `createdAt`. */
  datatype Receipt = Receipt(id: string, createdAt: string, data: ReceiptData)

  datatype State = State(receipts: seq<Receipt>, currentReceipt: Option<Receipt>, loading: bool, error: Option<string>)

  datatype Action =
    | AddReceipt(receipt: Receipt)
    | UpdateReceipt(receipt: Receipt)
    | DeleteReceipt(id: string)
    | SetCurrentReceipt(current: Option<Receipt>)
    | ClearCurrentReceipt
    | Unrecognised(kind: string)

  /** The store starts with no receipts, nothing selected, not loading and no error. */
  function InitialState(): (s: State)
    ensures |s.receipts| == 0 && s.currentReceipt.None? && !s.loading && s.error.None?
  {
    State([], None, false, None)
  }

  /** UPDATE's `map`: every receipt carrying the payload's id is replaced by the payload. */
  function ReplaceById(receipts: seq<Receipt>, payload: Receipt): (r: seq<Receipt>)
    ensures |r| == |receipts|
  {
    seq(|receipts|, i requires 0 <= i < |receipts| => if receipts[i].id == payload.id then payload else receipts[i])
  }

  function LacksId(id: string): Receipt -> bool {
    (r: Receipt) => r.id != id
  }

  /** DELETE's `filter`: drops every receipt carrying the id. */
  function RemoveById(receipts: seq<Receipt>, id: string): seq<Receipt> {
    Filter(LacksId(id), receipts)
  }

  /** receiptReducer: no action touches `loading` or `error`. */
  function Reduce(s: State, action: Action): (r: State)
    ensures r.loading == s.loading && r.error == s.error
  {
    match action
    case AddReceipt(payload) =>
      s.(receipts := s.receipts + [payload], currentReceipt := Some(payload))
    case UpdateReceipt(payload) =>
      s.(receipts := ReplaceById(s.receipts, payload), currentReceipt := Some(payload))
    case DeleteReceipt(id) =>
      s.(receipts := RemoveById(s.receipts, id),
         currentReceipt := if s.currentReceipt.Some? && s.currentReceipt.value.id == id then None else s.currentReceipt)
    case SetCurrentReceipt(current) =>
      s.(currentReceipt := current)
    case ClearCurrentReceipt =>
      s.(currentReceipt := None)
    case Unrecognised(_) =>
      s
  }

  /** The state after dispatching `actions` in order. */
  function ReduceAll(s: State, actions: seq<Action>): State
    decreases |actions|
  {
    if actions == [] then s else ReduceAll(Reduce(s, actions[0]), actions[1..])
  }

  /** However many actions are dispatched, `loading` and `error` keep their initial values. */
  lemma {:induction false} FlagsNeverChange(s: State, actions: seq<Action>)
    ensures ReduceAll(s, actions).loading == s.loading && ReduceAll(s, actions).error == s.error
    decreases |actions|
  {
    if actions != [] {
      FlagsNeverChange(Reduce(s, actions[0]), actions[1..]);
    }
  }

  /** ADD appends the payload as the last receipt, keeps the others in place, and selects it. */
  lemma {:induction false} AddAppends(s: State, payload: Receipt)
    ensures var r := Reduce(s, AddReceipt(payload));
      && |r.receipts| == |s.receipts| + 1
      && r.receipts[|s.receipts|] == payload
      && r.receipts[..|s.receipts|] == s.receipts
      && r.currentReceipt == Some(payload)
  {
    assert (s.receipts + [payload])[..|s.receipts|] == s.receipts;
  }

  /**
   * UPDATE keeps length, order and every id; receipts with another id are
   * untouched, those with the payload's id become the payload; the payload is
   * stored iff some id matched, and it is selected even when none did.
   */
  lemma {:induction false} UpdateReplacesMatching(s: State, payload: Receipt)
    ensures var r := Reduce(s, UpdateReceipt(payload));
      && |r.receipts| == |s.receipts|
      && (forall i :: 0 <= i < |s.receipts| ==> r.receipts[i].id == s.receipts[i].id)
      && (forall i :: 0 <= i < |s.receipts| && s.receipts[i].id != payload.id ==> r.receipts[i] == s.receipts[i])
      && (forall i :: 0 <= i < |s.receipts| && s.receipts[i].id == payload.id ==> r.receipts[i] == payload)
      && ((exists i :: 0 <= i < |s.receipts| && s.receipts[i].id == payload.id) ==> payload in r.receipts)
      && r.currentReceipt == Some(payload)
  {
    var r := Reduce(s, UpdateReceipt(payload));
    if exists i :: 0 <= i < |s.receipts| && s.receipts[i].id == payload.id {
      var i :| 0 <= i < |s.receipts| && s.receipts[i].id == payload.id;
      assert r.receipts[i] == payload;
    }
  }

  /** Updating twice with the same payload is updating once. */
  lemma {:induction false} UpdateIdempotent(s: State, payload: Receipt)
    ensures Reduce(Reduce(s, UpdateReceipt(payload)), UpdateReceipt(payload)) == Reduce(s, UpdateReceipt(payload))
  {
    var once := Reduce(s, UpdateReceipt(payload));
    var twice := Reduce(once, UpdateReceipt(payload));
    assert twice.receipts == once.receipts;
  }

  /**
   * DELETE drops exactly the receipts with that id: none of them is left,
   * every other receipt is kept as often as before and in the same relative
   * order, and the selection is cleared exactly when it has that id.
   */
  lemma {:induction false} DeleteRemovesExactly(s: State, id: string)
    ensures var r := Reduce(s, DeleteReceipt(id));
      && (forall x :: x in r.receipts ==> x.id != id)
      && (forall x: Receipt :: x.id != id ==> multiset(r.receipts)[x] == multiset(s.receipts)[x])
      && (forall a, b :: a + b == s.receipts ==> r.receipts == RemoveById(a, id) + RemoveById(b, id))
      && (r.currentReceipt.None? <==> s.currentReceipt.None? || s.currentReceipt.value.id == id)
      && (s.currentReceipt.Some? && s.currentReceipt.value.id != id ==> r.currentReceipt == s.currentReceipt)
  {
    forall x: Receipt | x.id != id ensures multiset(RemoveById(s.receipts, id))[x] == multiset(s.receipts)[x] {
      FilterCount(LacksId(id), s.receipts, x);
    }
    forall a, b | a + b == s.receipts ensures RemoveById(s.receipts, id) == RemoveById(a, id) + RemoveById(b, id) {
      FilterConcat(LacksId(id), a, b);
    }
  }

  /** Deleting the same id twice is deleting it once. */
  lemma {:induction false} DeleteIdempotent(s: State, id: string)
    ensures Reduce(Reduce(s, DeleteReceipt(id)), DeleteReceipt(id)) == Reduce(s, DeleteReceipt(id))
  {
    FilterIdempotent(LacksId(id), s.receipts);
  }

  /** SET_CURRENT, CLEAR_CURRENT and an unknown action leave the receipt list as it was. */
  lemma {:induction false} SelectionActionsKeepReceipts(s: State, current: Option<Receipt>, kind: string)
    ensures Reduce(s, SetCurrentReceipt(current)) == s.(currentReceipt := current)
    ensures Reduce(s, ClearCurrentReceipt) == s.(currentReceipt := None)
    ensures Reduce(s, Unrecognised(kind)) == s
  {
  }

  /** The pair addReceipt yields: the stamped receipt it returns and the store after its ADD. */
  datatype Added = Added(receipt: Receipt, store: State)

  /**
   * addReceipt: stamps the data with the given id and creation time, stores
   * that record at the end of the list, selects it, and returns the very
   * record it stored.
   */
  function AddReceiptData(s: State, data: ReceiptData, id: string, createdAt: string): (r: Added)
    ensures r.receipt.data == data && r.receipt.id == id && r.receipt.createdAt == createdAt
    ensures r.store.receipts == s.receipts + [r.receipt] && r.store.currentReceipt == Some(r.receipt)
    ensures r.store.loading == s.loading && r.store.error == s.error
  {
    var receipt := Receipt(id, createdAt, data);
    Added(receipt, Reduce(s, AddReceipt(receipt)))
  }
}
