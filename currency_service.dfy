/**
 * The exchange-rate service of the server: a one-hour cache of provider rates
 * keyed by the ordered currency pair, the conversion built on it, and the
 * payer's card-fee surcharge.
 *
 * The cache's state is given twice: as the value `Cache` that the pure
 * specification functions LookupRate and Convert take and return, and as the
 * two map fields of the class RateService, whose methods are proved to step
 * exactly as those functions do.
 */
module CurrencyService {
  import opened Wrappers

  /** A cached rate is reused while it is younger than one hour (milliseconds). */
  const CacheTtlMillis: int := 3600000

  /** The cache key: the ordered pair written FROM_TO, so (A, B) and (B, A) are separate entries. */
  function CacheKey(from: string, to: string): (key: string)
    ensures |key| == |from| + 1 + |to|
    ensures key[..|from|] == from && key[|from|] == '_' && key[|from| + 1..] == to
  {
    from + "_" + to
  }

  /** A currency code without the key separator, as every ISO-4217 code is. */
  predicate SeparatorFree(code: string) {
    '_' !in code
  }

  /** The position of the first '_' in `s`, or |s| when there is none. */
  function SeparatorIndex(s: string): (i: nat)
    ensures i <= |s|
    ensures i < |s| ==> s[i] == '_'
  {
    if s == [] || s[0] == '_' then 0 else 1 + SeparatorIndex(s[1..])
  }

  /** The first '_' of a key whose source code has none is the one CacheKey inserted. */
  lemma {:induction false} SeparatorIndexOfKey(from: string, to: string)
    requires SeparatorFree(from)
    ensures SeparatorIndex(CacheKey(from, to)) == |from|
  {
    if from != [] {
      assert CacheKey(from, to)[1..] == CacheKey(from[1..], to);
      SeparatorIndexOfKey(from[1..], to);
    }
  }

  /** Two pairs share a key only if they are the same pair, provided their source codes have no '_'. */
  lemma {:induction false} CacheKeyInjective(from: string, to: string, from': string, to': string)
    requires SeparatorFree(from) && SeparatorFree(from')
    ensures CacheKey(from, to) == CacheKey(from', to') <==> from == from' && to == to'
  {
    var k, k' := CacheKey(from, to), CacheKey(from', to');
    if k == k' {
      SeparatorIndexOfKey(from, to);
      SeparatorIndexOfKey(from', to');
      assert from == k[..|from|] && from' == k'[..|from'|];
      assert to == k[|from| + 1..] && to' == k'[|from'| + 1..];
    }
  }

  /** For a fixed source currency the key determines the target currency, whatever the codes hold. */
  lemma {:induction false} CacheKeyTargetInjective(from: string, to: string, to': string)
    ensures CacheKey(from, to) == CacheKey(from, to') <==> to == to'
  {
    var k, k' := CacheKey(from, to), CacheKey(from, to');
    if k == k' {
      assert to == k[|from| + 1..] && to' == k'[|from| + 1..];
    }
  }

  /** The pair and its reverse are cached apart: a stored rate is never inverted for the other direction. */
  lemma {:induction false} ReversePairSeparate(a: string, b: string)
    requires SeparatorFree(a) && SeparatorFree(b) && a != b
    ensures CacheKey(a, b) != CacheKey(b, a)
  {
    CacheKeyInjective(a, b, b, a);
  }

  /**
   * What one round trip to the exchange-rate provider yields. The request
   * itself (URL, API key, network) is outside the model: callers pass the
   * provider as a function from the ordered pair to its reply.
   */
  datatype ProviderReply =
    | Unreachable   // fetch rejected, or the body was not JSON
    | Reply(ok: bool, status: int, result: string, conversionRate: real)

  type Provider = (string, string) -> ProviderReply

  datatype RateError =
    | RequestFailed      // the rejection of fetch or response.json()
    | ApiError(status: int)
    | FetchFailed        // ok status but `result` other than "success"

  /** A reply yields a rate only when its status is ok and its `result` is "success". */
  function RateFromReply(reply: ProviderReply): (r: Result<real, RateError>)
    ensures r.Success? <==> reply.Reply? && reply.ok && reply.result == "success"
    ensures r.Success? ==> r.value == reply.conversionRate
    ensures reply.Reply? && !reply.ok ==> r == Failure(ApiError(reply.status))
  {
    match reply
    case Unreachable => Failure(RequestFailed)
    case Reply(ok, status, result, rate) =>
      if !ok then Failure(ApiError(status))
      else if result == "success" then Success(rate)
      else Failure(FetchFailed)
  }

  /** The two module-level dictionaries: rate and fetch time (milliseconds) per key. */
  datatype Cache = Cache(rates: map<string, real>, fetchedAt: map<string, int>)

  /** Both dictionaries are written together, so they always have the same keys. */
  predicate Consistent(c: Cache) {
    c.rates.Keys == c.fetchedAt.Keys
  }

  /**
   * A key is served from the cache when its rate is truthy (present and not 0)
   * and it was fetched less than an hour before `now`; a missing timestamp
   * compares as NaN, which is never below the limit.
   */
  predicate IsFresh(c: Cache, key: string, now: int)
    ensures key !in c.rates || key !in c.fetchedAt ==> !IsFresh(c, key, now)
    ensures IsFresh(c, key, now) ==> c.rates[key] != 0.0 && now < c.fetchedAt[key] + CacheTtlMillis
  {
    key in c.rates && c.rates[key] != 0.0 && key in c.fetchedAt && now - c.fetchedAt[key] < CacheTtlMillis
  }

  /** One cache operation: its result, the cache afterwards, and whether the provider was asked. */
  datatype CacheStep = CacheStep(result: Result<real, RateError>, cache: Cache, fetched: bool)

  /** getExchangeRate as a function of the cache it reads and writes. */
  function LookupRate(c: Cache, from: string, to: string, now: int, provider: Provider): (r: CacheStep)
    ensures r.fetched <==> !IsFresh(c, CacheKey(from, to), now)
    ensures !r.fetched ==> r.cache == c && r.result == Success(c.rates[CacheKey(from, to)])
    ensures r.fetched ==> r.result == RateFromReply(provider(from, to))
    ensures r.result.Failure? ==> r.cache == c
    ensures r.fetched && r.result.Success? ==>
      r.cache == Cache(c.rates[CacheKey(from, to) := r.result.value], c.fetchedAt[CacheKey(from, to) := now])
    ensures Consistent(c) ==> Consistent(r.cache)
  {
    var key := CacheKey(from, to);
    if IsFresh(c, key, now) then CacheStep(Success(c.rates[key]), c, false)
    else
      var fetched := RateFromReply(provider(from, to));
      if fetched.Success? then
        CacheStep(fetched, Cache(c.rates[key := fetched.value], c.fetchedAt[key := now]), true)
      else
        CacheStep(fetched, c, true)
  }

  /** convertAmount as a function of the cache: identity for equal currencies, else amount times the rate. */
  function Convert(c: Cache, amount: real, from: string, to: string, now: int, provider: Provider): (r: CacheStep)
    ensures from == to ==> r == CacheStep(Success(amount), c, false)
    ensures from != to ==>
      var lookup := LookupRate(c, from, to, now, provider);
      && r.cache == lookup.cache
      && r.fetched == lookup.fetched
      && r.result.Success? == lookup.result.Success?
      && (r.result.Success? ==> r.result.value == amount * lookup.result.value)
      && (r.result.Failure? ==> r.result.error == lookup.result.error)
  {
    if from == to then CacheStep(Success(amount), c, false)
    else
      var lookup := LookupRate(c, from, to, now, provider);
      if lookup.result.Success? then CacheStep(Success(amount * lookup.result.value), lookup.cache, lookup.fetched)
      else CacheStep(Failure(lookup.result.error), lookup.cache, lookup.fetched)
  }

  /**
   * A rate fetched at `t` is served from the cache, unchanged and without a
   * request, for every lookup less than an hour later, and fetched afresh
   * from the hour on.
   */
  lemma {:induction false} CacheTtl(c: Cache, from: string, to: string, t: int, later: int, provider: Provider)
    requires t <= later
    requires !IsFresh(c, CacheKey(from, to), t)
    requires RateFromReply(provider(from, to)).Success?
    requires RateFromReply(provider(from, to)).value != 0.0
    ensures var first := LookupRate(c, from, to, t, provider);
      var second := LookupRate(first.cache, from, to, later, provider);
      && first.fetched
      && (later - t < CacheTtlMillis ==> !second.fetched && second.result == first.result && second.cache == first.cache)
      && (later - t >= CacheTtlMillis ==> second.fetched)
  {
    var key := CacheKey(from, to);
    var first := LookupRate(c, from, to, t, provider);
    assert key in first.cache.rates && key in first.cache.fetchedAt;
    assert first.cache.fetchedAt[key] == t;
    assert first.cache.rates[key] == first.result.value;
  }

  /** A stored rate of 0 is falsy: the key is looked up again at the provider, however recent. */
  lemma {:induction false} ZeroRateIsMiss(c: Cache, from: string, to: string, now: int, provider: Provider)
    requires CacheKey(from, to) in c.rates && c.rates[CacheKey(from, to)] == 0.0
    ensures LookupRate(c, from, to, now, provider).fetched
  {
  }

  /**
   * A failed fetch leaves the pair a miss, so the next lookup of that pair
   * asks the provider again, however soon it comes.
   */
  lemma {:induction false} FailureStaysMiss(c: Cache, from: string, to: string, now: int, later: int, provider: Provider)
    requires LookupRate(c, from, to, now, provider).result.Failure?
    requires later >= now
    ensures LookupRate(LookupRate(c, from, to, now, provider).cache, from, to, later, provider).fetched
  {
    var key := CacheKey(from, to);
    assert LookupRate(c, from, to, now, provider).fetched;
    assert !IsFresh(c, key, now);
  }

  /** A lookup writes at most its own key: every other entry keeps its rate and timestamp. */
  lemma {:induction false} LookupTouchesOnlyItsKey(c: Cache, from: string, to: string, now: int, provider: Provider, key: string)
    requires key != CacheKey(from, to)
    ensures var c' := LookupRate(c, from, to, now, provider).cache;
      (key in c'.rates <==> key in c.rates) && (key in c.rates ==> c'.rates[key] == c.rates[key])
      && (key in c'.fetchedAt <==> key in c.fetchedAt) && (key in c.fetchedAt ==> c'.fetchedAt[key] == c.fetchedAt[key])
  {
  }

  /**
   * For one source currency, `c` answers every lookup as `c0` does. Within one
   * bill split all lookups share the source currency and the instant, so this
   * is what every step of the split preserves.
   */
  ghost predicate AnswersAs(c0: Cache, c: Cache, from: string, now: int, provider: Provider) {
    forall to :: LookupRate(c, from, to, now, provider).result == LookupRate(c0, from, to, now, provider).result
  }

  /** A lookup leaves a cache that answers every pair from the same source as the cache before it. */
  lemma {:induction false} LookupKeepsAnswers(c: Cache, from: string, to: string, now: int, provider: Provider)
    ensures AnswersAs(c, LookupRate(c, from, to, now, provider).cache, from, now, provider)
  {
    var step := LookupRate(c, from, to, now, provider);
    var c' := step.cache;
    forall to' ensures LookupRate(c', from, to', now, provider).result == LookupRate(c, from, to', now, provider).result {
      if c' != c {
        if to' == to {
          var rate := step.result.value;
          if rate != 0.0 {
            assert IsFresh(c', CacheKey(from, to), now);
          }
        } else {
          CacheKeyTargetInjective(from, to, to');
          LookupTouchesOnlyItsKey(c, from, to, now, provider, CacheKey(from, to'));
          assert IsFresh(c', CacheKey(from, to'), now) <==> IsFresh(c, CacheKey(from, to'), now);
        }
      }
    }
  }

  /** A conversion from `from` against a cache that answers as `c0` gives what it gives against `c0`. */
  lemma {:induction false} ConvertAnswersAs(c0: Cache, c: Cache, amount: real, from: string, to: string, now: int, provider: Provider)
    requires AnswersAs(c0, c, from, now, provider)
    ensures Convert(c, amount, from, to, now, provider).result == Convert(c0, amount, from, to, now, provider).result
  {
    if from != to {
      var l, l0 := LookupRate(c, from, to, now, provider), LookupRate(c0, from, to, now, provider);
      var r, r0 := Convert(c, amount, from, to, now, provider), Convert(c0, amount, from, to, now, provider);
      assert l.result == l0.result;
      if l.result.Success? {
        assert r.result.value == amount * l.result.value == r0.result.value;
      }
    }
  }

  /** A falsy fee: undefined, null or NaN (None) and 0. */
  predicate IsFalsyFee(feePercentage: Option<real>) {
    feePercentage.None? || feePercentage.value == 0.0
  }

  /** applyCardFee: the amount unchanged for a falsy fee, otherwise surcharged by fee percent. */
  function ApplyCardFee(amount: real, feePercentage: Option<real>): (r: real)
    ensures IsFalsyFee(feePercentage) ==> r == amount
    ensures !IsFalsyFee(feePercentage) ==> r - amount == amount * feePercentage.value / 100.0
  {
    if IsFalsyFee(feePercentage) then amount
    else amount * (1.0 + feePercentage.value / 100.0)
  }

  /** A positive fee on a positive amount strictly raises it; a negative fee (not rejected) lowers it. */
  lemma {:induction false} FeeDirection(amount: real, fee: real)
    requires amount > 0.0 && fee != 0.0
    ensures fee > 0.0 ==> ApplyCardFee(amount, Some(fee)) > amount
    ensures fee < 0.0 ==> ApplyCardFee(amount, Some(fee)) < amount
  {
    var surcharge := amount * fee / 100.0;
    assert ApplyCardFee(amount, Some(fee)) - amount == surcharge;
    if fee > 0.0 {
      assert amount * fee > 0.0;
    } else {
      assert amount * fee < 0.0;
    }
  }

  /**
   * The process-wide rate cache (`rateCache`, `lastFetchTime`). The ghost
   * `Requests` records the pairs sent to the provider, oldest first, so that
   * "no network access" can be stated.
   */
  class RateService {
    var rateCache: map<string, real>
    var lastFetchTime: map<string, int>
    ghost var Requests: seq<(string, string)>

    function State(): Cache
      reads this
    {
      Cache(rateCache, lastFetchTime)
    }

    /** Both dictionaries start empty when the process starts. */
    constructor ()
      ensures State() == Cache(map[], map[]) && Requests == []
    {
      rateCache := map[];
      lastFetchTime := map[];
      Requests := [];
    }

    /** getExchangeRate(from, to) at instant `now` (the value of Date.now() on entry). */
    method GetExchangeRate(from: string, to: string, now: int, provider: Provider) returns (rate: Result<real, RateError>)
      modifies this
      ensures var step := LookupRate(old(State()), from, to, now, provider);
        && rate == step.result
        && State() == step.cache
        && Requests == old(Requests) + (if step.fetched then [(from, to)] else [])
    {
      var key := CacheKey(from, to);
      if IsFresh(State(), key, now) {
        return Success(rateCache[key]);
      }
      Requests := Requests + [(from, to)];
      var reply := provider(from, to);
      match reply {
        case Unreachable =>
          return Failure(RequestFailed);
        case Reply(ok, status, result, conversionRate) =>
          if !ok {
            return Failure(ApiError(status));
          }
          if result == "success" {
            rateCache := rateCache[key := conversionRate];
            lastFetchTime := lastFetchTime[key := now];
            return Success(conversionRate);
          }
          return Failure(FetchFailed);
      }
    }

    /** convertAmount: equal currencies return the amount with no cache read and no request. */
    method ConvertAmount(amount: real, from: string, to: string, now: int, provider: Provider)
      returns (converted: Result<real, RateError>)
      modifies this
      ensures var step := Convert(old(State()), amount, from, to, now, provider);
        && converted == step.result
        && State() == step.cache
        && Requests == old(Requests) + (if step.fetched then [(from, to)] else [])
      ensures from == to ==> converted == Success(amount) && State() == old(State()) && Requests == old(Requests)
    {
      if from == to {
        return Success(amount);
      }
      ghost var step := Convert(State(), amount, from, to, now, provider);
      var rate := GetExchangeRate(from, to, now, provider);
      if rate.Success? {
        converted := Success(amount * rate.value);
        assert step.result.value == converted.value;
      } else {
        converted := Failure(rate.error);
      }
    }
  }
}
