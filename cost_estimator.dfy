/**
 * The cost estimator: the price of storing a number of bytes (or the
 * contents of a path) in winstons, in AR and in US dollars, composed from a
 * price oracle, a fixed unit conversion and an exchange-rate oracle.
 *
 * Amounts are exact reals. The oracles are given as data: the size of each
 * path, the price quoted for each byte count and the rate response, each of
 * which may be a network failure. Every estimate also records the oracle
 * calls it made, in order, so that what is asked of each oracle can be stated.
 */
module CostEstimator {
  import opened Results
  import opened Constants

  /** Winstons per AR, as a real. */
  const Ratio: real := WinstonsPerAr as real

  /** The AR amount worth `winstons` winstons. */
  function WinstonsToAr(winstons: real): (ar: real)
    ensures ar * Ratio == winstons
    ensures ar == winstons / 1_000_000_000_000.0
  {
    winstons / Ratio
  }

  /** The amount in winstons that `ar` AR is worth: the inverse of `WinstonsToAr`. */
  function ArToWinstons(ar: real): (winstons: real)
    ensures WinstonsToAr(winstons) == ar
  {
    ar * Ratio
  }

  /** The dollar value of `ar` AR at `usdPerAr` dollars each. */
  function ArToDollars(ar: real, usdPerAr: real): (dollars: real)
    ensures usdPerAr != 0.0 ==> dollars / usdPerAr == ar
    ensures ar == 0.0 || usdPerAr == 0.0 ==> dollars == 0.0
    ensures ar >= 0.0 && usdPerAr >= 0.0 ==> dollars >= 0.0
  {
    ar * usdPerAr
  }

  /** The `arweave.usd` part of the exchange-rate response. */
  datatype UsdRate = UsdRate(usd: real)
  datatype RateResponse = RateResponse(arweave: UsdRate)

  /** A call into one of the oracles. */
  datatype Call = ResolveSize(path: string) | QueryPrice(bytes: nat) | QueryRate

  /** The size of each path, the price (in winstons) quoted for each byte count, and the rate response. */
  datatype Oracles = Oracles(sizeOf: string -> nat, price: nat -> Result<real>, rate: Result<RateResponse>)

  /** An amount (or the failure that stopped it) and the oracle calls made for it. */
  datatype Estimate = Estimate(amount: Result<real>, calls: seq<Call>)

  /** The dollar value of one AR. */
  function GetCostOfArInDollars(o: Oracles): (e: Estimate)
    ensures e.calls == [QueryRate]
    ensures o.rate.Ok? ==> e.amount == Ok(o.rate.value.arweave.usd)
    ensures o.rate.Err? ==> e.amount == Err(o.rate.error)
  {
    Estimate(if o.rate.Ok? then Ok(o.rate.value.arweave.usd) else Err(o.rate.error), [QueryRate])
  }

  /** One price query for `bytes` bytes. */
  function PriceInWinstons(o: Oracles, bytes: nat): (e: Estimate)
    ensures e.calls == [QueryPrice(bytes)]
    ensures e.amount == o.price(bytes)
  {
    Estimate(o.price(bytes), [QueryPrice(bytes)])
  }

  /** An estimate in winstons converted to AR; a failure passes through. */
  function InAr(e: Estimate): (r: Estimate)
    ensures r.calls == e.calls
    ensures r.amount.Ok? <==> e.amount.Ok?
    ensures e.amount.Err? ==> r.amount == e.amount
    ensures e.amount.Ok? ==> ArToWinstons(r.amount.value) == e.amount.value
  {
    if e.amount.Ok? then e.(amount := Ok(WinstonsToAr(e.amount.value))) else e
  }

  /** An estimate in AR converted to dollars with a rate query made after it; a failure stops before the query. */
  function InDollars(o: Oracles, e: Estimate): (r: Estimate)
    ensures e.amount.Err? ==> r == e
    ensures e.amount.Ok? ==> r.calls == e.calls + [QueryRate]
    ensures e.amount.Ok? && o.rate.Err? ==> r.amount == Err(o.rate.error)
    ensures e.amount.Ok? && o.rate.Ok? ==> r.amount == Ok(ArToDollars(e.amount.value, o.rate.value.arweave.usd))
  {
    if e.amount.Err? then e
    else
      var rate := GetCostOfArInDollars(o);
      if rate.amount.Ok? then Estimate(Ok(ArToDollars(e.amount.value, rate.amount.value)), e.calls + rate.calls)
      else Estimate(rate.amount, e.calls + rate.calls)
  }

  /**
   * The cost, in winstons, of storing the contents of `path`: the size is
   * resolved once and the price is asked for exactly that many bytes and
   * returned unchanged.
   */
  function GetCostToSavePathToArweaveInWinstons(o: Oracles, path: string): (e: Estimate)
    ensures e.calls == [ResolveSize(path), QueryPrice(o.sizeOf(path))]
    ensures e.amount == o.price(o.sizeOf(path))
  {
    var bytes := o.sizeOf(path);
    var quote := PriceInWinstons(o, bytes);
    Estimate(quote.amount, [ResolveSize(path)] + quote.calls)
  }

  /** The cost, in AR, of storing the contents of `path`. */
  function GetCostToSavePathToArweaveInAr(o: Oracles, path: string): (e: Estimate)
    ensures e.calls == [ResolveSize(path), QueryPrice(o.sizeOf(path))]
    ensures o.price(o.sizeOf(path)).Err? ==> e.amount == o.price(o.sizeOf(path))
    ensures o.price(o.sizeOf(path)).Ok? ==> e.amount == Ok(WinstonsToAr(o.price(o.sizeOf(path)).value))
  {
    InAr(GetCostToSavePathToArweaveInWinstons(o, path))
  }

  /** The cost, in dollars, of storing the contents of `path`: (winstons / 10^12) * rate. */
  function GetCostToSavePathToArweaveInDollars(o: Oracles, path: string): (e: Estimate)
    ensures var bytes := o.sizeOf(path);
      && (o.price(bytes).Err? ==>
            e == Estimate(Err(o.price(bytes).error), [ResolveSize(path), QueryPrice(bytes)]))
      && (o.price(bytes).Ok? && o.rate.Err? ==>
            e == Estimate(Err(o.rate.error), [ResolveSize(path), QueryPrice(bytes), QueryRate]))
      && (o.price(bytes).Ok? && o.rate.Ok? ==>
            e == Estimate(Ok(ArToDollars(o.price(bytes).value / 1_000_000_000_000.0, o.rate.value.arweave.usd)),
                          [ResolveSize(path), QueryPrice(bytes), QueryRate]))
  {
    InDollars(o, GetCostToSavePathToArweaveInAr(o, path))
  }

  /** The cost, in AR, of storing `bytes` bytes: the price is asked for exactly `bytes`. */
  function GetCostToSaveBytesToArweaveInAr(o: Oracles, bytes: nat): (e: Estimate)
    ensures e.calls == [QueryPrice(bytes)]
    ensures o.price(bytes).Err? ==> e.amount == o.price(bytes)
    ensures o.price(bytes).Ok? ==> e.amount == Ok(WinstonsToAr(o.price(bytes).value))
  {
    InAr(PriceInWinstons(o, bytes))
  }

  /** The cost, in dollars, of storing `bytes` bytes: (price(bytes) / 10^12) * rate. */
  function GetCostToSaveBytesToArweaveInDollars(o: Oracles, bytes: nat): (e: Estimate)
    ensures o.price(bytes).Err? ==> e == Estimate(Err(o.price(bytes).error), [QueryPrice(bytes)])
    ensures o.price(bytes).Ok? && o.rate.Err? ==> e == Estimate(Err(o.rate.error), [QueryPrice(bytes), QueryRate])
    ensures o.price(bytes).Ok? && o.rate.Ok? ==>
      e == Estimate(Ok(ArToDollars(o.price(bytes).value / 1_000_000_000_000.0, o.rate.value.arweave.usd)), [QueryPrice(bytes), QueryRate])
  {
    InDollars(o, GetCostToSaveBytesToArweaveInAr(o, bytes))
  }

  // ---------------------------------------------------------------------------
  // How the variants relate
  // ---------------------------------------------------------------------------

  /** The AR cost of a path is `WinstonsToAr` of its winston cost, with the same calls. */
  lemma PathInArIsWinstonsToAr(o: Oracles, path: string)
    ensures var w := GetCostToSavePathToArweaveInWinstons(o, path);
      var ar := GetCostToSavePathToArweaveInAr(o, path);
      && ar.calls == w.calls
      && (w.amount.Ok? ==> ar.amount == Ok(WinstonsToAr(w.amount.value)))
      && (w.amount.Err? ==> ar.amount == w.amount)
  {
  }

  /** The dollar cost is the AR cost times the dollar value of one AR. */
  lemma DollarsIsArTimesRate(o: Oracles, path: string, bytes: nat)
    requires o.price(o.sizeOf(path)).Ok? && o.price(bytes).Ok? && o.rate.Ok?
    ensures GetCostToSavePathToArweaveInDollars(o, path).amount
         == Ok(ArToDollars(GetCostToSavePathToArweaveInAr(o, path).amount.value, GetCostOfArInDollars(o).amount.value))
    ensures GetCostToSaveBytesToArweaveInDollars(o, bytes).amount
         == Ok(ArToDollars(GetCostToSaveBytesToArweaveInAr(o, bytes).amount.value, GetCostOfArInDollars(o).amount.value))
  {
  }

  /**
   * A path costs what its resolved size costs: the estimate is one size
   * resolution followed by the byte-count estimate for that size.
   */
  lemma PathCostIsSizeCost(o: Oracles, path: string)
    ensures var bytes := o.sizeOf(path);
      && GetCostToSavePathToArweaveInAr(o, path)
           == Estimate(GetCostToSaveBytesToArweaveInAr(o, bytes).amount,
                       [ResolveSize(path)] + GetCostToSaveBytesToArweaveInAr(o, bytes).calls)
      && GetCostToSavePathToArweaveInDollars(o, path)
           == Estimate(GetCostToSaveBytesToArweaveInDollars(o, bytes).amount,
                       [ResolveSize(path)] + GetCostToSaveBytesToArweaveInDollars(o, bytes).calls)
  {
  }

  /** The winston and AR costs do not depend on the exchange rate. */
  lemma CostsWithoutRateIgnoreRate(o: Oracles, rate: Result<RateResponse>, path: string, bytes: nat)
    ensures GetCostToSavePathToArweaveInWinstons(o.(rate := rate), path) == GetCostToSavePathToArweaveInWinstons(o, path)
    ensures GetCostToSavePathToArweaveInAr(o.(rate := rate), path) == GetCostToSavePathToArweaveInAr(o, path)
    ensures GetCostToSaveBytesToArweaveInAr(o.(rate := rate), bytes) == GetCostToSaveBytesToArweaveInAr(o, bytes)
  {
  }

  /** The values the tests use: 100 bytes, a quote of 50000 or 99999 winstons, 30 dollars per AR. */
  lemma TestValues(path: string)
    ensures WinstonsToAr(500000.0) == 0.0000005
    ensures var o := Oracles(p => 100, b => Ok(99999.0), Ok(RateResponse(UsdRate(30.0))));
      && GetCostOfArInDollars(o).amount == Ok(30.0)
      && GetCostToSavePathToArweaveInWinstons(o, path) == Estimate(Ok(99999.0), [ResolveSize(path), QueryPrice(100)])
      && GetCostToSavePathToArweaveInAr(o, path).amount == Ok(0.000000099999)
      && GetCostToSaveBytesToArweaveInAr(o, 100) == Estimate(Ok(0.000000099999), [QueryPrice(100)])
    ensures var o := Oracles(p => 100, b => Ok(50000.0), Ok(RateResponse(UsdRate(30.0))));
      && GetCostToSavePathToArweaveInDollars(o, path).amount == Ok(0.0000015)
      && GetCostToSaveBytesToArweaveInDollars(o, 100).amount == Ok(0.0000015)
  {
  }
}
