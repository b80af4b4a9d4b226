/**
 * The receipt list screen: the search box's filter over title, vendor and
 * note, deletion by id, and the lookup that opens a receipt.
 */
module ReceiptOverview {
  import opened Wrappers
  import opened Text
  import opened Seqs

  /** A listed receipt; a vendor or note may be missing. */
  datatype ListedReceipt = ListedReceipt(id: string, title: string, vendor: Option<string>, amount: real,
                                         currency: string, date: string, note: Option<string>)

  /** `(field || '')`: a missing field reads as the empty string. */
  function OrEmpty(field: Option<string>): (r: string)
    ensures field.None? ==> r == ""
    ensures field.Some? ==> r == field.value
  {
    match field
    case Some(text) => text
    case None => ""
  }

  /** The query as it is compared: trimmed, then lower-cased. */
  function NormalizeQuery(query: string): (q: string)
    ensures q == [] <==> IsBlank(query)
  {
    ToLower(Trim(query))
  }

  /** The filter's predicate: the lower-cased title, vendor or note contains `q`. */
  predicate MatchesQuery(r: ListedReceipt, q: string)
    ensures q == [] ==> MatchesQuery(r, q)
  {
    assert q == [] ==> OccursAt(ToLower(r.title), q, 0);
    || Contains(ToLower(r.title), q)
    || Contains(ToLower(OrEmpty(r.vendor)), q)
    || Contains(ToLower(OrEmpty(r.note)), q)
  }

  function Matcher(q: string): ListedReceipt -> bool {
    (r: ListedReceipt) => MatchesQuery(r, q)
  }

  /** The `filtered` list: everything for a blank query, otherwise the matching receipts in order. */
  function Filtered(receipts: seq<ListedReceipt>, query: string): (r: seq<ListedReceipt>)
    ensures IsBlank(query) ==> r == receipts
    ensures |r| <= |receipts|
    ensures forall x :: x in r ==> x in receipts
  {
    var q := NormalizeQuery(query);
    if q == [] then receipts else Filter(Matcher(q), receipts)
  }

  /** For a non-blank query, a receipt is listed exactly when it is in the list and matches. */
  lemma FilteredMembership(receipts: seq<ListedReceipt>, query: string, x: ListedReceipt)
    requires !IsBlank(query)
    ensures x in Filtered(receipts, query) <==> x in receipts && MatchesQuery(x, NormalizeQuery(query))
  {
    FilterMembership(Matcher(NormalizeQuery(query)), receipts, x);
  }

  /** A matching receipt is listed as often as it occurs; a non-matching one not at all. */
  lemma FilteredCount(receipts: seq<ListedReceipt>, query: string, x: ListedReceipt)
    requires !IsBlank(query)
    ensures multiset(Filtered(receipts, query))[x] ==
      if MatchesQuery(x, NormalizeQuery(query)) then multiset(receipts)[x] else 0
  {
    FilterCount(Matcher(NormalizeQuery(query)), receipts, x);
  }

  /** The listing keeps the receipts' order: filtering two halves and joining is filtering the whole. */
  lemma FilteredKeepsOrder(a: seq<ListedReceipt>, b: seq<ListedReceipt>, query: string)
    ensures Filtered(a + b, query) == Filtered(a, query) + Filtered(b, query)
  {
    if !IsBlank(query) {
      FilterConcat(Matcher(NormalizeQuery(query)), a, b);
    }
  }

  /** A missing vendor and note never match: only the title is searched. */
  lemma MissingFieldsNeverMatch(r: ListedReceipt, q: string)
    requires q != [] && r.vendor.None? && r.note.None?
    ensures MatchesQuery(r, q) <==> Contains(ToLower(r.title), q)
  {
    assert ToLower("") == "";
    EmptyContainsOnlyEmpty(q);
  }

  /** The search ignores the query's letter case. */
  lemma QueryCaseInsensitive(receipts: seq<ListedReceipt>, query: string)
    ensures Filtered(receipts, ToLower(query)) == Filtered(receipts, query)
  {
    TrimLower(query);
    ToLowerIdempotent(Trim(query));
  }

  function LacksId(id: string): ListedReceipt -> bool {
    (r: ListedReceipt) => r.id != id
  }

  /** onDeleteReceipt: the list without the receipts carrying `id`. */
  function DeleteReceipt(receipts: seq<ListedReceipt>, id: string): (r: seq<ListedReceipt>)
    ensures |r| <= |receipts|
  {
    Filter(LacksId(id), receipts)
  }

  /** Deletion removes exactly the receipts with that id, keeps every other one as often as it occurs, and keeps their order. */
  lemma DeleteRemovesExactly(receipts: seq<ListedReceipt>, id: string, x: ListedReceipt, rest: seq<ListedReceipt>)
    ensures x in DeleteReceipt(receipts, id) <==> x in receipts && x.id != id
    ensures x.id != id ==> multiset(DeleteReceipt(receipts, id))[x] == multiset(receipts)[x]
    ensures DeleteReceipt(receipts + rest, id) == DeleteReceipt(receipts, id) + DeleteReceipt(rest, id)
  {
    FilterMembership(LacksId(id), receipts, x);
    FilterCount(LacksId(id), receipts, x);
    FilterConcat(LacksId(id), receipts, rest);
  }

  /** `k` is the first position holding a receipt with `id`. */
  predicate FirstWithId(receipts: seq<ListedReceipt>, id: string, k: int) {
    0 <= k < |receipts| && receipts[k].id == id && forall j | 0 <= j < k :: receipts[j].id != id
  }

  /** The `find` in onViewReceipt: the first receipt with that id, if any. */
  function FindById(receipts: seq<ListedReceipt>, id: string): (r: Option<ListedReceipt>)
    ensures r.None? <==> forall k | 0 <= k < |receipts| :: receipts[k].id != id
    ensures r.Some? ==> exists k :: FirstWithId(receipts, id, k) && receipts[k] == r.value
  {
    if receipts == [] then None
    else if receipts[0].id == id then
      assert FirstWithId(receipts, id, 0);
      Some(receipts[0])
    else
      var r := FindById(receipts[1..], id);
      if r.Some? then
        var k :| FirstWithId(receipts[1..], id, k) && receipts[1..][k] == r.value;
        assert FirstWithId(receipts, id, k + 1);
        r
      else
        r
  }
}
