/**
 * The split-bill endpoint: surcharge the total with the payer's card fee,
 * divide it evenly, convert every share into the participant's preferred
 * currency through the rate cache, and round each converted share to cents.
 *
 * The source issues the conversions concurrently; the model runs them one
 * after another in participant order, threading the cache, and proves that
 * each participant still receives what a lookup against the cache as it was
 * on entry would give (CurrencyService.LookupKeepsAnswers).
 */
module Payments {
  import opened Wrappers
  import opened CurrencyService

  datatype Participant = Participant(id: string, name: string, preferredCurrency: string)

  /** The request body; a missing or null fee is None. */
  datatype SplitRequest = SplitRequest(
    totalAmount: real,
    currency: string,
    participants: seq<Participant>,
    payerCardFeePercentage: Option<real>)

  datatype Split = Split(userId: string, name: string, amountOwed: real, currency: string)

  datatype SplitResponse =
    | SplitOk(originalAmount: real, totalWithFee: real, cardFeePercentage: real, splits: seq<Split>)
    | SplitFailed(error: string)

  const SplitFailureMessage: string := "Failed to split bill"

  /** A whole number of cents. */
  predicate IsCents(x: real) {
    (x * 100.0).Floor as real == x * 100.0
  }

  /** Rounds a non-negative amount to the nearest cent, halves upwards. */
  function RoundCentsNonNegative(x: real): (r: real)
    requires x >= 0.0
    ensures IsCents(r)
    ensures -0.005 < r - x <= 0.005
  {
    var cents := (x * 100.0 + 0.5).Floor;
    assert cents as real <= x * 100.0 + 0.5 < cents as real + 1.0;
    cents as real / 100.0
  }

  /**
   * parseFloat(x.toFixed(2)) on an exact value: the nearest cent, halves away
   * from zero (toFixed rounds the magnitude and keeps the sign).
   */
  function Round2(x: real): (r: real)
    ensures IsCents(r)
    ensures -0.005 <= r - x <= 0.005
    ensures x >= 0.0 ==> -0.005 < r - x
    ensures x < 0.0 ==> r - x < 0.005
    ensures x >= 0.0 ==> r >= 0.0
  {
    if x >= 0.0 then RoundCentsNonNegative(x)
    else
      var magnitude := RoundCentsNonNegative(-x);
      NegatedCents(magnitude);
      -magnitude
  }

  lemma {:induction false} NegatedCents(x: real)
    requires IsCents(x)
    ensures IsCents(-x)
  {
    var m := (x * 100.0).Floor;
    var negated := (-x) * 100.0;
    assert negated == -(x * 100.0);
    assert negated == (-m) as real;
    assert negated.Floor == -m;
  }

  /** `payerCardFeePercentage || 0`. */
  function FeeOrZero(feePercentage: Option<real>): (r: real)
    ensures IsFalsyFee(feePercentage) ==> r == 0.0
    ensures !IsFalsyFee(feePercentage) ==> Some(r) == feePercentage
  {
    if feePercentage.Some? then feePercentage.value else 0.0
  }

  /** The conversions of one split so far: per-participant results, the cache, the pairs requested. */
  datatype Conversions = Conversions(amounts: seq<Result<real, RateError>>, cache: Cache, requests: seq<(string, string)>)

  /** Converts `share` from `from` for each participant in order, threading the cache. */
  function ConvertShares(c: Cache, share: real, from: string, ps: seq<Participant>, now: int, provider: Provider): (r: Conversions)
    ensures |r.amounts| == |ps|
    decreases |ps|
  {
    if ps == [] then Conversions([], c, [])
    else
      var prev := ConvertShares(c, share, from, ps[..|ps| - 1], now, provider);
      var to := ps[|ps| - 1].preferredCurrency;
      var step := Convert(prev.cache, share, from, to, now, provider);
      Conversions(prev.amounts + [step.result], step.cache, prev.requests + (if step.fetched then [(from, to)] else []))
  }

  predicate AllConverted(amounts: seq<Result<real, RateError>>) {
    forall i :: 0 <= i < |amounts| ==> amounts[i].Success?
  }

  /** One entry per participant, in participant order, each converted share rounded to cents. */
  function Entries(ps: seq<Participant>, amounts: seq<Result<real, RateError>>): (r: seq<Split>)
    requires |amounts| == |ps| && AllConverted(amounts)
    ensures |r| == |ps|
    ensures forall i :: 0 <= i < |ps| ==>
      && r[i].userId == ps[i].id && r[i].name == ps[i].name && r[i].currency == ps[i].preferredCurrency
      && IsCents(r[i].amountOwed) && -0.005 <= r[i].amountOwed - amounts[i].value <= 0.005
  {
    seq(|ps|, i requires 0 <= i < |ps| =>
      Split(ps[i].id, ps[i].name, Round2(amounts[i].value), ps[i].preferredCurrency))
  }

  /** The share each participant owes before conversion (unused when there is nobody to split with). */
  function PerPersonShare(req: SplitRequest): (share: real)
    ensures |req.participants| > 0 ==>
      share * |req.participants| as real == ApplyCardFee(req.totalAmount, req.payerCardFeePercentage)
  {
    if |req.participants| == 0 then 0.0
    else ApplyCardFee(req.totalAmount, req.payerCardFeePercentage) / |req.participants| as real
  }

  /** The whole effect of one split: the response, the cache afterwards, the pairs requested. */
  datatype SplitOutcome = SplitOutcome(response: SplitResponse, cache: Cache, requests: seq<(string, string)>)

  /** The split-bill handler as a function of the cache on entry. */
  function SplitBillSpec(c: Cache, req: SplitRequest, now: int, provider: Provider): (out: SplitOutcome)
    ensures out.response.SplitFailed? ==> out.response.error == SplitFailureMessage
    ensures out.response.SplitOk? ==> |out.response.splits| == |req.participants|
    ensures req.participants == [] ==>
      out.response.SplitOk? && out.response.splits == [] && out.cache == c && out.requests == []
  {
    var amountWithFee := ApplyCardFee(req.totalAmount, req.payerCardFeePercentage);
    var conv := ConvertShares(c, PerPersonShare(req), req.currency, req.participants, now, provider);
    var response :=
      if AllConverted(conv.amounts) then
        SplitOk(req.totalAmount, Round2(amountWithFee), FeeOrZero(req.payerCardFeePercentage),
                Entries(req.participants, conv.amounts))
      else
        SplitFailed(SplitFailureMessage);
    SplitOutcome(response, conv.cache, conv.requests)
  }

  /** POST /split-bill against the process's rate cache at instant `now`. */
  method SplitBill(service: RateService, req: SplitRequest, now: int, provider: Provider) returns (response: SplitResponse)
    modifies service
    ensures var spec := SplitBillSpec(old(service.State()), req, now, provider);
      && response == spec.response
      && service.State() == spec.cache
      && service.Requests == old(service.Requests) + spec.requests
  {
    var amountWithFee := ApplyCardFee(req.totalAmount, req.payerCardFeePercentage);
    var participants := req.participants;
    var amountPerPerson := PerPersonShare(req);
    var amounts: seq<Result<real, RateError>> := [];
    var i := 0;
    while i < |participants|
      invariant 0 <= i <= |participants|
      invariant var conv := ConvertShares(old(service.State()), amountPerPerson, req.currency, participants[..i], now, provider);
        && amounts == conv.amounts
        && service.State() == conv.cache
        && service.Requests == old(service.Requests) + conv.requests
    {
      assert participants[..i + 1][..i] == participants[..i];
      var converted := service.ConvertAmount(amountPerPerson, req.currency, participants[i].preferredCurrency, now, provider);
      amounts := amounts + [converted];
      i := i + 1;
    }
    assert participants[..i] == participants;
    var failed := exists k :: 0 <= k < |amounts| && amounts[k].Failure?;
    if failed {
      return SplitFailed(SplitFailureMessage);
    }
    var splits := Entries(participants, amounts);
    response := SplitOk(req.totalAmount, Round2(amountWithFee), FeeOrZero(req.payerCardFeePercentage), splits);
  }

  /**
   * Within one split every conversion gives what it would give against the
   * cache as it was when the split began, even though earlier conversions of
   * the same split have written to the cache since.
   */
  lemma {:induction false} ConvertSharesAsOnEntry(c: Cache, share: real, from: string, ps: seq<Participant>, now: int, provider: Provider)
    ensures AnswersAs(c, ConvertShares(c, share, from, ps, now, provider).cache, from, now, provider)
    ensures forall i :: 0 <= i < |ps| ==>
      ConvertShares(c, share, from, ps, now, provider).amounts[i] == Convert(c, share, from, ps[i].preferredCurrency, now, provider).result
    decreases |ps|
  {
    if ps != [] {
      var init := ps[..|ps| - 1];
      var prev := ConvertShares(c, share, from, init, now, provider);
      ConvertSharesAsOnEntry(c, share, from, init, now, provider);
      var to := ps[|ps| - 1].preferredCurrency;
      var step := Convert(prev.cache, share, from, to, now, provider);
      ConvertAnswersAs(c, prev.cache, share, from, to, now, provider);
      if from != to {
        LookupKeepsAnswers(prev.cache, from, to, now, provider);
      }
      var post := step.cache;
      forall to' ensures LookupRate(post, from, to', now, provider).result == LookupRate(c, from, to', now, provider).result {
        assert LookupRate(post, from, to', now, provider).result == LookupRate(prev.cache, from, to', now, provider).result;
        assert LookupRate(prev.cache, from, to', now, provider).result == LookupRate(c, from, to', now, provider).result;
      }
      forall i | 0 <= i < |ps| - 1 ensures ConvertShares(c, share, from, ps, now, provider).amounts[i] == Convert(c, share, from, ps[i].preferredCurrency, now, provider).result {
        assert init[i] == ps[i];
      }
    }
  }

  /**
   * On success the response echoes the request, rounds the surcharged total,
   * reports a falsy fee as 0, and holds one entry per participant in
   * participant order, each owing the converted share rounded to cents.
   */
  lemma {:induction false} SplitEntriesFollowParticipants(c: Cache, req: SplitRequest, now: int, provider: Provider)
    ensures var r := SplitBillSpec(c, req, now, provider).response;
      var ps := req.participants;
      r.SplitOk? ==>
        && r.originalAmount == req.totalAmount
        && r.totalWithFee == Round2(ApplyCardFee(req.totalAmount, req.payerCardFeePercentage))
        && r.cardFeePercentage == FeeOrZero(req.payerCardFeePercentage)
        && |r.splits| == |ps|
        && forall i :: 0 <= i < |ps| ==>
          && r.splits[i].userId == ps[i].id
          && r.splits[i].name == ps[i].name
          && r.splits[i].currency == ps[i].preferredCurrency
          && var converted := Convert(c, PerPersonShare(req), req.currency, ps[i].preferredCurrency, now, provider).result;
             converted.Success? && r.splits[i].amountOwed == Round2(converted.value)
  {
    ConvertSharesAsOnEntry(c, PerPersonShare(req), req.currency, req.participants, now, provider);
  }

  /** Some participant's share, converted against cache `c`, fails. */
  predicate SomeConversionFails(c: Cache, req: SplitRequest, now: int, provider: Provider) {
    exists i :: 0 <= i < |req.participants| && ConversionFails(c, req, i, now, provider)
  }

  predicate ConversionFails(c: Cache, req: SplitRequest, i: int, now: int, provider: Provider)
    requires 0 <= i < |req.participants|
  {
    Convert(c, PerPersonShare(req), req.currency, req.participants[i].preferredCurrency, now, provider).result.Failure?
  }

  /**
   * All or nothing: the split fails exactly when some participant's
   * conversion fails, and a failed split carries no entries at all.
   */
  lemma {:induction false} SplitAllOrNothing(c: Cache, req: SplitRequest, now: int, provider: Provider)
    ensures var r := SplitBillSpec(c, req, now, provider).response;
      r.SplitFailed? <==> SomeConversionFails(c, req, now, provider)
    ensures SplitBillSpec(c, req, now, provider).response.SplitFailed? ==>
      SplitBillSpec(c, req, now, provider).response == SplitFailed(SplitFailureMessage)
  {
    var conv := ConvertShares(c, PerPersonShare(req), req.currency, req.participants, now, provider);
    ConvertSharesAsOnEntry(c, PerPersonShare(req), req.currency, req.participants, now, provider);
    if !AllConverted(conv.amounts) {
      var i :| 0 <= i < |conv.amounts| && !conv.amounts[i].Success?;
      assert ConversionFails(c, req, i, now, provider);
    }
  }

  /** When nobody converts currency the cache is neither read nor written and nothing is requested. */
  lemma {:induction false} SameCurrencyNoLookup(c: Cache, share: real, from: string, ps: seq<Participant>, now: int, provider: Provider)
    requires forall i :: 0 <= i < |ps| ==> ps[i].preferredCurrency == from
    ensures var conv := ConvertShares(c, share, from, ps, now, provider);
      && conv.cache == c
      && conv.requests == []
      && forall i :: 0 <= i < |ps| ==> conv.amounts[i] == Success(share)
    decreases |ps|
  {
    if ps != [] {
      SameCurrencyNoLookup(c, share, from, ps[..|ps| - 1], now, provider);
    }
  }

  function SumOwed(splits: seq<Split>): real {
    if splits == [] then 0.0 else SumOwed(splits[..|splits| - 1]) + splits[|splits| - 1].amountOwed
  }

  /** Every entry owing the same amount sums to that amount times the count. */
  lemma {:induction false} SumOfEqualShares(splits: seq<Split>, owed: real)
    requires forall i :: 0 <= i < |splits| ==> splits[i].amountOwed == owed
    ensures SumOwed(splits) == |splits| as real * owed
    decreases |splits|
  {
    if splits != [] {
      SumOfEqualShares(splits[..|splits| - 1], owed);
    }
  }

  /**
   * When every participant's currency is the bill's, the split succeeds with
   * no rate lookup, everyone owes the surcharged total divided evenly and
   * rounded to cents, and the rounded shares miss the surcharged total by at
   * most half a cent per participant: the remainder is left unreconciled.
   */
  lemma {:induction false} SplitSameCurrency(c: Cache, req: SplitRequest, now: int, provider: Provider)
    requires |req.participants| > 0
    requires forall i :: 0 <= i < |req.participants| ==> req.participants[i].preferredCurrency == req.currency
    ensures var out := SplitBillSpec(c, req, now, provider);
      var amountWithFee := ApplyCardFee(req.totalAmount, req.payerCardFeePercentage);
      var n := |req.participants|;
      && out.cache == c
      && out.requests == []
      && out.response.SplitOk?
      && (forall i :: 0 <= i < n ==> out.response.splits[i].amountOwed == Round2(amountWithFee / n as real))
      && -0.005 * n as real <= SumOwed(out.response.splits) - amountWithFee <= 0.005 * n as real
  {
    var n := |req.participants|;
    var amountWithFee := ApplyCardFee(req.totalAmount, req.payerCardFeePercentage);
    var owed := Round2(amountWithFee / n as real);
    SameCurrencyShares(c, req, now, provider);
    EvenSplitDrift(SplitBillSpec(c, req, now, provider).response.splits, amountWithFee);
  }

  /** Entries that all owe the rounded even share of `amount` sum to within half a cent each of it. */
  lemma {:induction false} EvenSplitDrift(splits: seq<Split>, amount: real)
    requires |splits| > 0
    requires forall i :: 0 <= i < |splits| ==> splits[i].amountOwed == Round2(amount / |splits| as real)
    ensures -0.005 * |splits| as real <= SumOwed(splits) - amount <= 0.005 * |splits| as real
  {
    var n := |splits|;
    var owed := Round2(amount / n as real);
    assert -0.005 <= owed - amount / n as real <= 0.005;
    SumOfEqualShares(splits, owed);
    EvenSharesDrift(n, amount, owed);
  }

  /** The shape of a split in which nobody converts: every entry owes the rounded even share. */
  lemma {:induction false} SameCurrencyShares(c: Cache, req: SplitRequest, now: int, provider: Provider)
    requires |req.participants| > 0
    requires forall i :: 0 <= i < |req.participants| ==> req.participants[i].preferredCurrency == req.currency
    ensures var out := SplitBillSpec(c, req, now, provider);
      var n := |req.participants|;
      var owed := Round2(ApplyCardFee(req.totalAmount, req.payerCardFeePercentage) / n as real);
      && out.cache == c
      && out.requests == []
      && out.response.SplitOk?
      && |out.response.splits| == n
      && (forall i :: 0 <= i < n ==> out.response.splits[i].amountOwed == owed)
  {
    var ps := req.participants;
    var n := |ps|;
    var share := PerPersonShare(req);
    SameCurrencyNoLookup(c, share, req.currency, ps, now, provider);
    var conv := ConvertShares(c, share, req.currency, ps, now, provider);
    assert AllConverted(conv.amounts);
    var owed := Round2(share);
    var splits := Entries(ps, conv.amounts);
    forall i | 0 <= i < n ensures splits[i].amountOwed == owed {
      assert conv.amounts[i] == Success(share);
    }
  }

  /** n shares of amount/n, each off by at most half a cent, sum to within n half-cents of amount. */
  lemma {:induction false} EvenSharesDrift(n: nat, amount: real, owed: real)
    requires n > 0
    requires -0.005 <= owed - amount / n as real <= 0.005
    ensures -0.005 * n as real <= n as real * owed - amount <= 0.005 * n as real
  {
    var share := amount / n as real;
    var d := owed - share;
    assert n as real * share == amount;
    assert n as real * owed - amount == n as real * d;
    assert n as real * d <= n as real * 0.005;
    assert n as real * (-0.005) <= n as real * d;
  }

  /** A 100 USD bill with a 5% card fee split between two USD payers: 52.50 each, 105.00 in all. */
  lemma {:induction false} SplitExample(c: Cache, now: int, provider: Provider)
    ensures var req := SplitRequest(100.0, "USD",
        [Participant("1", "Ann", "USD"), Participant("2", "Bo", "USD")], Some(5.0));
      var r := SplitBillSpec(c, req, now, provider).response;
      && r.SplitOk?
      && r.totalWithFee == 105.0
      && |r.splits| == 2
      && r.splits[0].amountOwed == 52.5 && r.splits[1].amountOwed == 52.5
      && SumOwed(r.splits) == 105.0
  {
    var req := SplitRequest(100.0, "USD",
        [Participant("1", "Ann", "USD"), Participant("2", "Bo", "USD")], Some(5.0));
    assert ApplyCardFee(100.0, Some(5.0)) == 105.0;
    assert (10500.0 + 0.5).Floor == 10500;
    assert (5250.0 + 0.5).Floor == 5250;
    SplitSameCurrency(c, req, now, provider);
    var r := SplitBillSpec(c, req, now, provider).response;
    SumOfEqualShares(r.splits, 52.5);
  }
}
