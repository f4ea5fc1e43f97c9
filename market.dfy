/** One market: a base/quote token pair, on chain two offer lists, the asks
    (offers that give base and want quote) and the bids (offers that give
    quote and want base).  All prices are quote per base and all volumes are
    in base.  This module holds the pure side, price and gas helpers and the
    `Market` object: its one-shot initialisation, the guards on its book and
    the subscription table through which book changes are republished. */
module Market {
  import opened Common
  import opened OrderedMap

  /** Upper bound on the gas of a market order. */
  const MAX_MARKET_ORDER_GAS: nat := 10000000

  datatype BA = Bids | Asks
  datatype BS = Buy | Sell
  datatype BaseOrQuote = Base | Quote

  function Opposite(ba: BA): BA {
    if ba == Bids then Asks else Bids
  }

  /** A token, reduced to what the core uses: its on-chain address and the
      number of decimals of its display unit. */
  datatype Token = Token(name: string, address: Address, decimals: nat)

  /** The compact form of an offer; `price` is absent when the offer has no
      base volume. */
  datatype OfferSlim = OfferSlim(
    id: nat,
    prev: Option<nat>,
    gasprice: nat,
    maker: Address,
    gasreq: nat,
    wants: real,
    gives: real,
    volume: real,
    price: Option<real>)

  /** The full form also knows its successor and the list's gas base. */
  datatype Offer = Offer(slim: OfferSlim, next: Option<nat>, offerGasbase: nat)

  datatype OutboundInbound = OutboundInbound(outbound: Token, inbound: Token)

  datatype BaseQuoteVolumes = BaseQuoteVolumes(baseVolume: real, quoteVolume: real)

  datatype GivesWants = GivesWants(gives: real, wants: real)

  /* ------------------------------------------------------------------ */
  /* Side, volume and price helpers                                      */
  /* ------------------------------------------------------------------ */

  /** Asks send the base token out and take the quote token in; bids the
      other way round. */
  function GetOutboundInbound(ba: BA, base: Token, quote: Token): OutboundInbound {
    if ba == Asks then OutboundInbound(base, quote) else OutboundInbound(quote, base)
  }

  /** Switching side swaps the outbound and inbound tokens. */
  lemma OutboundInboundSwap(ba: BA, base: Token, quote: Token)
    ensures GetOutboundInbound(Opposite(ba), base, quote)
         == OutboundInbound(GetOutboundInbound(ba, base, quote).inbound,
                            GetOutboundInbound(ba, base, quote).outbound)
    ensures GetOutboundInbound(Asks, base, quote).outbound == base
    ensures GetOutboundInbound(Bids, base, quote).inbound == base
  {
  }

  /** Of an offer's gives and wants, the base volume is the amount that is
      paid in the base token. */
  function GetBaseQuoteVolumes(ba: BA, gives: real, wants: real): (r: BaseQuoteVolumes)
    ensures ba == Asks ==> r == BaseQuoteVolumes(gives, wants)
    ensures ba == Bids ==> r == BaseQuoteVolumes(wants, gives)
  {
    if ba == Asks then BaseQuoteVolumes(gives, wants) else BaseQuoteVolumes(wants, gives)
  }

  /** Quote per base; absent when the base volume is not positive. */
  function GetPrice(ba: BA, gives: real, wants: real): (r: Option<real>)
    ensures var v := GetBaseQuoteVolumes(ba, gives, wants);
      && (r.None? <==> v.baseVolume <= 0.0)
      && (r.Some? ==> r.value * v.baseVolume == v.quoteVolume)
  {
    var v := GetBaseQuoteVolumes(ba, gives, wants);
    if v.baseVolume > 0.0 then Some(v.quoteVolume / v.baseVolume) else None
  }

  /** What an offer giving `gives` must want to be at `price`.  A bid divides
      by the price, which throws on a zero price. */
  function GetWantsForPrice(ba: BA, gives: real, price: real): (r: Result<real>)
    ensures r.Err? <==> ba == Bids && price == 0.0
    ensures r.Err? ==> r.msg == "[big.js] Division by zero"
  {
    if ba.Asks? then Ok(gives * price)
    else if price == 0.0 then Err("[big.js] Division by zero")
    else Ok(gives / price)
  }

  /** What an offer wanting `wants` must give to be at `price`.  An ask
      divides by the price, which throws on a zero price. */
  function GetGivesForPrice(ba: BA, wants: real, price: real): (r: Result<real>)
    ensures r.Err? <==> ba == Asks && price == 0.0
    ensures r.Err? ==> r.msg == "[big.js] Division by zero"
  {
    if ba.Bids? then Ok(wants * price)
    else if price == 0.0 then Err("[big.js] Division by zero")
    else Ok(wants / price)
  }

  lemma MulDivCancel(x: real, y: real)
    requires y != 0.0
    ensures (x * y) / y == x
    ensures (x / y) * y == x
  {
  }

  /** An offer with positive base volume whose wants were computed for
      `price` is at `price`. */
  lemma WantsForPriceIsAtPrice(ba: BA, gives: real, price: real)
    requires GetWantsForPrice(ba, gives, price).Ok?
    requires GetBaseQuoteVolumes(ba, gives, GetWantsForPrice(ba, gives, price).value).baseVolume > 0.0
    ensures GetPrice(ba, gives, GetWantsForPrice(ba, gives, price).value) == Some(price)
  {
    if ba == Asks {
      MulDivCancel(price, gives);
      assert gives * price == price * gives;
    } else {
      MulDivCancel(gives, price);
      assert gives / (gives / price) == price;
    }
  }

  /** The same for gives computed from wants. */
  lemma GivesForPriceIsAtPrice(ba: BA, wants: real, price: real)
    requires GetGivesForPrice(ba, wants, price).Ok?
    requires GetBaseQuoteVolumes(ba, GetGivesForPrice(ba, wants, price).value, wants).baseVolume > 0.0
    ensures GetPrice(ba, GetGivesForPrice(ba, wants, price).value, wants) == Some(price)
  {
    if ba == Bids {
      MulDivCancel(price, wants);
      assert wants * price == price * wants;
    } else {
      MulDivCancel(wants, price);
      assert wants / (wants / price) == price;
    }
  }

  /** For a non-zero price, the gives recovered from the wants computed for
      some gives are those gives. */
  lemma GivesForPriceOfBid(wants: real, price: real)
    ensures GetGivesForPrice(Bids, wants, price) == Ok(wants * price)
  {
  }

  lemma WantsGivesRoundTrip(ba: BA, gives: real, price: real)
    requires price != 0.0
    ensures GetWantsForPrice(ba, gives, price).Ok?
    ensures GetGivesForPrice(ba, GetWantsForPrice(ba, gives, price).value, price) == Ok(gives)
  {
    var w := GetWantsForPrice(ba, gives, price).value;
    if ba.Asks? {
      assert GetGivesForPrice(ba, w, price) == Ok(w / price);
      assert w == gives * price;
    } else {
      assert ba == Bids;
      GivesForPriceOfBid(w, price);
      assert w == gives / price;
      MulDivCancel(gives, price);
      assert w * price == gives;
    }
    MulDivCancel(gives, price);
  }

  /** The gives and wants of an offer of `volume` base at `price`: its base
      volume is `volume` and its quote volume `volume * price`. */
  function GetGivesWantsForVolumeAtPrice(ba: BA, volume: real, price: real): (r: GivesWants)
    ensures GetBaseQuoteVolumes(ba, r.gives, r.wants).baseVolume == volume
    ensures GetBaseQuoteVolumes(ba, r.gives, r.wants).quoteVolume == volume * price
  {
    var gives := if ba == Asks then volume else volume * price;
    var wants := if ba == Asks then volume * price else volume;
    GivesWants(gives, wants)
  }

  /** For a positive volume, that offer is at `price`. */
  lemma VolumeAtPriceIsAtPrice(ba: BA, volume: real, price: real)
    requires volume > 0.0
    ensures var gw := GetGivesWantsForVolumeAtPrice(ba, volume, price);
      GetPrice(ba, gw.gives, gw.wants) == Some(price)
  {
    MulDivCancel(price, volume);
    assert volume * price == price * volume;
  }

  /** An offer is live while it gives something. */
  predicate IsLiveOffer(offer: Offer): (r: bool)
    ensures r <==> GetPrice(Asks, offer.slim.gives, offer.slim.wants).Some?
  {
    offer.slim.gives > 0.0
  }

  /** A live ask whose price was derived from its gives and wants has one. */
  lemma LiveAskHasPrice(offer: Offer)
    requires IsLiveOffer(offer)
    requires offer.slim.price == GetPrice(Asks, offer.slim.gives, offer.slim.wants)
    ensures offer.slim.price.Some?
    ensures offer.slim.price.value * offer.slim.gives == offer.slim.wants
  {
  }

  /** Configuration of one offer list, in display units. */
  datatype LocalConfig = LocalConfig(
    active: bool,
    fee: nat,
    density: real,
    offerGasbase: nat,
    lock: bool,
    best: Option<nat>,
    last: Option<nat>)

  /** A market is active when both of its offer lists are. */
  function IsActive(asks: LocalConfig, bids: LocalConfig): (r: bool)
    ensures r <==> asks.active && bids.active
  {
    asks.active && bids.active
  }

  /* ------------------------------------------------------------------ */
  /* Gas estimates                                                       */
  /* ------------------------------------------------------------------ */

  function Min(a: nat, b: nat): nat {
    if a < b then a else b
  }

  /** The estimate before the cap: gas base, one unit per `density` of
      volume, the largest gas requirement plus the 64/63 share forwarded to
      the maker, all boosted by 10%.  Operands are unsigned on chain, so the
      library's truncating division is Dafny's `/` here. */
  function BoostedGasEstimate(density: nat, offerGasbase: nat, maxGasreq: nat, volume: nat): nat
    requires density > 0
  {
    (offerGasbase + volume / density + maxGasreq + maxGasreq * 64 / 63) * 11 / 10
  }

  /** The boost only adds: the estimate is at least the gas base, the
      volume share and twice the gas requirement. */
  lemma BoostedGasEstimateLowerBound(density: nat, offerGasbase: nat, maxGasreq: nat, volume: nat)
    requires density > 0
    ensures BoostedGasEstimate(density, offerGasbase, maxGasreq, volume) >= offerGasbase + volume / density + 2 * maxGasreq
  {
    var s := offerGasbase + volume / density + maxGasreq + maxGasreq * 64 / 63;
    assert maxGasreq * 64 / 63 >= maxGasreq;
    assert s * 11 / 10 >= s;
  }

  /** Gas estimate for a market order against a list whose configuration
      has `density` and `offerGasbase`, and whose largest offer gas
      requirement is `maxGasreq` (none for an empty list). */
  function EstimateGas(density: nat, offerGasbase: nat, maxGasreq: Option<nat>, volume: nat): (r: nat)
    ensures r <= MAX_MARKET_ORDER_GAS
    ensures density == 0 ==> r == MAX_MARKET_ORDER_GAS
    ensures density > 0 ==>
      var g := if maxGasreq.Some? then maxGasreq.value else 0;
      r == MAX_MARKET_ORDER_GAS || r >= offerGasbase + volume / density + 2 * g
    ensures density > 0 ==>
      var g := if maxGasreq.Some? then maxGasreq.value else 0;
      r == Min(BoostedGasEstimate(density, offerGasbase, g, volume), MAX_MARKET_ORDER_GAS)
  {
    var g := if maxGasreq.Some? then maxGasreq.value else 0;
    if density == 0 then MAX_MARKET_ORDER_GAS
    else
      BoostedGasEstimateLowerBound(density, offerGasbase, g, volume);
      Min(BoostedGasEstimate(density, offerGasbase, g, volume), MAX_MARKET_ORDER_GAS)
  }

  lemma DivMonotone(a: nat, b: nat, d: nat)
    requires a <= b && d > 0
    ensures a / d <= b / d
  {
    var qa, ra := a / d, a % d;
    var qb, rb := b / d, b % d;
    assert a == qa * d + ra && b == qb * d + rb;
    if qa > qb {
      MulMonotone(qb + 1, qa, d);
    }
  }

  lemma MulMonotone(x: nat, y: nat, d: nat)
    requires x <= y
    ensures x * d <= y * d
  {
  }

  /** More volume never lowers the estimate. */
  lemma EstimateGasMonotone(density: nat, offerGasbase: nat, maxGasreq: Option<nat>, v1: nat, v2: nat)
    requires v1 <= v2
    ensures EstimateGas(density, offerGasbase, maxGasreq, v1) <= EstimateGas(density, offerGasbase, maxGasreq, v2)
  {
    if density > 0 {
      var g := if maxGasreq.Some? then maxGasreq.value else 0;
      DivMonotone(v1, v2, density);
      var s1 := offerGasbase + v1 / density + g + g * 64 / 63;
      var s2 := offerGasbase + v2 / density + g + g * 64 / 63;
      MulMonotone(s1, s2, 11);
      DivMonotone(s1 * 11, s2 * 11, 10);
    }
  }

  /** A simulated market order's gas, boosted by 50% and capped. */
  function SimulateGas(gas: nat): (r: nat)
    ensures r <= MAX_MARKET_ORDER_GAS
    ensures r == MAX_MARKET_ORDER_GAS || (r * 10 <= gas * 15 < r * 10 + 10)
    ensures gas * 15 / 10 >= MAX_MARKET_ORDER_GAS ==> r == MAX_MARKET_ORDER_GAS
    ensures gas * 15 / 10 < MAX_MARKET_ORDER_GAS ==> r == gas * 15 / 10
  {
    Min(gas * 15 / 10, MAX_MARKET_ORDER_GAS)
  }

  /* ------------------------------------------------------------------ */
  /* Volume estimation routing                                           */
  /* ------------------------------------------------------------------ */

  /** `given` units of the `what` token, bought or sold by the taker. */
  datatype VolumeParams = VolumeParams(given: real, what: BaseOrQuote, to: BS)

  /** The token the taker receives in such a trade. */
  function TakerReceives(p: VolumeParams): BaseOrQuote {
    if p.to == Buy then p.what else if p.what == Base then Quote else Base
  }

  /** The book whose offers are consulted to estimate a volume. */
  function EstimateVolumeBook(p: VolumeParams): (ba: BA)
    ensures ba == Asks <==> (p.what == Base && p.to == Buy) || (p.what == Quote && p.to == Sell)
  {
    if (p.what == Base && p.to == Buy) || (p.what == Quote && p.to == Sell) then Asks else Bids
  }

  /** The consulted book is the one whose offers send out the token the
      taker receives. */
  lemma EstimateVolumeBookSendsWhatTakerReceives(p: VolumeParams, base: Token, quote: Token)
    ensures GetOutboundInbound(EstimateVolumeBook(p), base, quote).outbound
         == (if TakerReceives(p) == Base then base else quote)
  {
  }

  /** Estimate the volume received when spending `given` of `what`. */
  function EstimateVolumeToReceive(given: real, what: BaseOrQuote): (p: VolumeParams)
    ensures p.to == Sell && p.given == given && p.what == what
  {
    VolumeParams(given, what, Sell)
  }

  /** Estimate the volume to spend to receive `given` of `what`. */
  function EstimateVolumeToSpend(given: real, what: BaseOrQuote): (p: VolumeParams)
    ensures p.to == Buy && p.given == given && p.what == what
  {
    VolumeParams(given, what, Buy)
  }

  /** Receiving and spending the same token consult opposite books. */
  lemma ReceiveAndSpendUseOppositeBooks(given: real, what: BaseOrQuote)
    ensures EstimateVolumeBook(EstimateVolumeToReceive(given, what))
         == Opposite(EstimateVolumeBook(EstimateVolumeToSpend(given, what)))
  {
  }

  /* ------------------------------------------------------------------ */
  /* Smallest visible price difference                                   */
  /* ------------------------------------------------------------------ */

  function Abs(x: real): real {
    if x < 0.0 then -x else x
  }

  /** Neighbours i and i+1 both have a price, and the prices differ. */
  ghost predicate HasPriceDiff(prices: seq<Option<real>>, i: int) {
    0 <= i < |prices| - 1 && prices[i].Some? && prices[i + 1].Some?
    && prices[i].value != prices[i + 1].value
  }

  ghost function PriceDiff(prices: seq<Option<real>>, i: int): real
    requires 0 <= i < |prices| - 1 && prices[i].Some? && prices[i + 1].Some?
  {
    Abs(prices[i].value - prices[i + 1].value)
  }

  /** The smallest non-zero absolute difference between the prices of
      neighbouring offers (pairs with a missing price are skipped); absent
      when there is none, in particular for fewer than two offers.  The
      number of display decimals is then -floor(log10 of it). */
  method MinPriceDifference(prices: seq<Option<real>>) returns (m: Option<real>)
    ensures m.None? <==> forall i :: !HasPriceDiff(prices, i)
    ensures m.Some? ==> m.value > 0.0
    ensures m.Some? ==> exists i :: HasPriceDiff(prices, i) && PriceDiff(prices, i) == m.value
    ensures m.Some? ==> forall i :: HasPriceDiff(prices, i) ==> m.value <= PriceDiff(prices, i)
  {
    m := None;
    if |prices| <= 1 {
      return;
    }
    var prevPrice := prices[0];
    var i := 0;
    while i < |prices| - 1
      invariant 0 <= i <= |prices| - 1
      invariant prevPrice == prices[i]
      invariant m.None? <==> forall j :: 0 <= j < i ==> !HasPriceDiff(prices, j)
      invariant m.Some? ==> m.value > 0.0
      invariant m.Some? ==> exists j :: 0 <= j < i && HasPriceDiff(prices, j) && PriceDiff(prices, j) == m.value
      invariant m.Some? ==> forall j :: 0 <= j < i && HasPriceDiff(prices, j) ==> m.value <= PriceDiff(prices, j)
    {
      var o := prices[i + 1];
      if prevPrice.Some? && o.Some? {
        var d := Abs(prevPrice.value - o.value);
        assert HasPriceDiff(prices, i) <==> d != 0.0;
        if d != 0.0 && (m.None? || d < m.value) {
          m := Some(d);
        }
      } else {
        assert !HasPriceDiff(prices, i);
      }
      prevPrice := o;
      i := i + 1;
    }
  }

  function Reverse<T>(s: seq<T>): (r: seq<T>)
    ensures |r| == |s|
    ensures forall i :: 0 <= i < |s| ==> r[i] == s[|s| - 1 - i]
  {
    if s == [] then [] else Reverse(s[1..]) + [s[0]]
  }

  /** The prices in the order the book is displayed: asks from best to
      worst, then bids from worst to best, so that neighbours in the
      sequence are neighbours in price. */
  function DisplayedPrices(asks: seq<Option<real>>, bids: seq<Option<real>>): (r: seq<Option<real>>)
    ensures |r| == |asks| + |bids|
    ensures r[..|asks|] == asks
    ensures r[|asks|..] == Reverse(bids)
    ensures forall i :: |asks| <= i < |r| ==> r[i] == bids[|asks| + |bids| - 1 - i]
  {
    asks + Reverse(bids)
  }

  /* ------------------------------------------------------------------ */
  /* Book options                                                        */
  /* ------------------------------------------------------------------ */

  /** What the cache of each side fetches; a field that is `Some` is a key
      present in the options object. */
  datatype BookOptions = BookOptions(
    maxOffers: Option<int>,
    desiredPrice: Option<real>,
    desiredVolume: Option<VolumeParams>,
    chunkSize: Option<int>)

  /** The options one side's cache is connected with. */
  datatype SemibookOptions =
    | DesiredVolume(volume: Option<(real, BS)>, chunkSize: Option<int>)
    | DesiredPrice(price: real, chunkSize: Option<int>)
    | MaxOffers(maxOffers: int, chunkSize: Option<int>)
    | ChunkSizeOnly(chunkSize: Option<int>)

  /** Options for one side, in order of precedence: a desired volume that
      concerns this side (`volumeDesired`), then a desired price, then a
      maximum number of offers.  The chunk size always passes through. */
  function GetSemibookOpts(opts: BookOptions, volumeDesired: bool): (r: SemibookOptions)
    ensures r.chunkSize == opts.chunkSize
    ensures r.DesiredVolume? <==> volumeDesired
    ensures r.DesiredPrice? <==> !volumeDesired && opts.desiredPrice.Some?
    ensures r.MaxOffers? <==> !volumeDesired && opts.desiredPrice.None? && opts.maxOffers.Some?
    ensures r.DesiredVolume? && opts.desiredVolume.Some? ==>
      r.volume == Some((opts.desiredVolume.value.given, opts.desiredVolume.value.to))
    ensures r.DesiredVolume? && opts.desiredVolume.None? ==> r.volume.None?
    ensures r.DesiredPrice? ==> r.price == opts.desiredPrice.value
    ensures r.MaxOffers? ==> r.maxOffers == opts.maxOffers.value
  {
    var volume := if opts.desiredVolume.Some?
      then Some((opts.desiredVolume.value.given, opts.desiredVolume.value.to)) else None;
    if volumeDesired then DesiredVolume(volume, opts.chunkSize)
    else if opts.desiredPrice.Some? then DesiredPrice(opts.desiredPrice.value, opts.chunkSize)
    else if opts.maxOffers.Some? then MaxOffers(opts.maxOffers.value, opts.chunkSize)
    else ChunkSizeOnly(opts.chunkSize)
  }

  /* ------------------------------------------------------------------ */
  /* Subscriptions                                                       */
  /* ------------------------------------------------------------------ */

  datatype BookEventKind =
    | OfferWriteKind
    | OfferFailKind(taker: Address, takerWants: real, takerGives: real, mgvData: string)
    | OfferSuccessKind(taker: Address, takerWants: real, takerGives: real)
    | OfferRetractKind
    | SetGasbaseKind

  /** What subscribers receive for one book change; `offer` is absent when
      the offer is not in the local cache. */
  datatype Notification = Notification(ba: BA, offerId: Option<nat>, offer: Option<Offer>, kind: BookEventKind)

  /** A callback is known by its identity. */
  type CallbackKey = nat

  /** A persistent subscription, or a one-shot one with an optional filter
      (an async filter is modelled by its eventual answer). */
  datatype SubscriptionParam = Multiple | Once(filter: Option<Notification -> bool>)

  type Subscriptions = Table<CallbackKey, SubscriptionParam>

  predicate FilterSatisfied(p: SubscriptionParam, n: Notification)
    requires p.Once?
  {
    p.filter.None? || p.filter.value(n)
  }

  /** A one-shot subscription that this notification settles. */
  predicate Consumed(p: SubscriptionParam, n: Notification) {
    p.Once? && FilterSatisfied(p, n)
  }

  /** Whether the callback is called for this notification. */
  predicate Notified(p: SubscriptionParam, n: Notification) {
    p.Multiple? || Consumed(p, n)
  }

  /** The table after one notification: the consumed one-shot entries are
      gone, the others stay in their order. */
  function Survivors(subs: Subscriptions, n: Notification): Subscriptions {
    if subs == [] then []
    else
      var last := subs[|subs| - 1];
      Survivors(subs[..|subs| - 1], n) + (if Consumed(last.value, n) then [] else [last])
  }

  /** The callbacks called, in table order. */
  function Invoked(subs: Subscriptions, n: Notification): seq<CallbackKey> {
    if subs == [] then []
    else
      var last := subs[|subs| - 1];
      Invoked(subs[..|subs| - 1], n) + (if Notified(last.value, n) then [last.key] else [])
  }

  /** The one-shot callbacks settled, each with the value its promise
      resolves to, in table order. */
  function Resolved<V>(subs: Subscriptions, n: Notification, run: (CallbackKey, Notification) -> V): seq<(CallbackKey, V)> {
    if subs == [] then []
    else
      var last := subs[|subs| - 1];
      Resolved(subs[..|subs| - 1], n, run)
        + (if Consumed(last.value, n) then [(last.key, run(last.key, n))] else [])
  }

  /** An entry survives a notification exactly when it is not a one-shot
      entry that the notification settles. */
  lemma {:induction false} SurvivorsExact(subs: Subscriptions, n: Notification)
    ensures forall e :: e in Survivors(subs, n) <==> e in subs && !Consumed(e.value, n)
  {
    if subs != [] {
      var init := subs[..|subs| - 1];
      SurvivorsExact(init, n);
      assert subs == init + [subs[|subs| - 1]];
    }
  }

  /** Every callback that is called is in the table, and every persistent
      callback in the table is called. */
  lemma {:induction false} InvokedExact(subs: Subscriptions, n: Notification)
    ensures forall k :: k in Invoked(subs, n) <==>
      exists i :: 0 <= i < |subs| && subs[i].key == k && Notified(subs[i].value, n)
  {
    if subs != [] {
      var init := subs[..|subs| - 1];
      InvokedExact(init, n);
      forall k | k in Invoked(subs, n)
        ensures exists i :: 0 <= i < |subs| && subs[i].key == k && Notified(subs[i].value, n)
      {
        if k in Invoked(init, n) {
          var i :| 0 <= i < |init| && init[i].key == k && Notified(init[i].value, n);
          assert subs[i] == init[i];
        }
      }
      forall k | exists i :: 0 <= i < |subs| && subs[i].key == k && Notified(subs[i].value, n)
        ensures k in Invoked(subs, n)
      {
        var i :| 0 <= i < |subs| && subs[i].key == k && Notified(subs[i].value, n);
        if i < |init| {
          assert init[i] == subs[i];
        }
      }
    }
  }

  /** Appending an entry with a fresh key keeps keys unique. */
  lemma AppendUnique(s: Subscriptions, e: Entry<CallbackKey, SubscriptionParam>)
    requires UniqueKeys(s)
    requires forall x :: x in s ==> x.key != e.key
    ensures UniqueKeys(s + [e])
  {
    var r := s + [e];
    forall i, j | 0 <= i < j < |r| ensures r[i].key != r[j].key {
      if j == |s| {
        assert r[i] in s;
      } else {
        assert r[i] == s[i] && r[j] == s[j];
      }
    }
  }

  /** Dispatch keeps the keys of the table unique. */
  lemma {:induction false} SurvivorsUnique(subs: Subscriptions, n: Notification)
    requires UniqueKeys(subs)
    ensures UniqueKeys(Survivors(subs, n))
  {
    if subs != [] {
      var init := subs[..|subs| - 1];
      var last := subs[|subs| - 1];
      assert UniqueKeys(init) by {
        forall i, j | 0 <= i < j < |init| ensures init[i].key != init[j].key {
          assert init[i] == subs[i] && init[j] == subs[j];
        }
      }
      SurvivorsUnique(init, n);
      SurvivorsExact(init, n);
      var s := Survivors(init, n);
      forall x | x in s ensures x.key != last.key {
        var i :| 0 <= i < |init| && init[i] == x;
        assert subs[i] == x;
      }
      if !Consumed(last.value, n) {
        AppendUnique(s, last);
      }
    }
  }

  /** Every entry either survives or is settled. */
  lemma {:induction false} SurvivorsResolvedSize<V>(subs: Subscriptions, n: Notification, run: (CallbackKey, Notification) -> V)
    ensures |Survivors(subs, n)| + |Resolved(subs, n, run)| == |subs|
  {
    if subs != [] {
      SurvivorsResolvedSize(subs[..|subs| - 1], n, run);
    }
  }

  /** The table shrinks by exactly the settled entries, and with unique keys
      a settled callback is no longer subscribed. */
  lemma ResolvedAreRemoved<V>(subs: Subscriptions, n: Notification, run: (CallbackKey, Notification) -> V)
    requires UniqueKeys(subs)
    ensures UniqueKeys(Survivors(subs, n))
    ensures |Survivors(subs, n)| + |Resolved(subs, n, run)| == |subs|
    ensures forall r :: r in Resolved(subs, n, run) ==> r.0 !in Keys(Survivors(subs, n))
  {
    SurvivorsUnique(subs, n);
    SurvivorsResolvedSize(subs, n, run);
    SurvivorsExact(subs, n);
    ResolvedKeysIn(subs, n, run);
    var s := Survivors(subs, n);
    forall r | r in Resolved(subs, n, run) ensures r.0 !in Keys(s) {
      var i :| 0 <= i < |subs| && subs[i].key == r.0 && Consumed(subs[i].value, n);
      forall j | 0 <= j < |s| ensures Keys(s)[j] != r.0 {
        assert s[j] in s;
        var k :| 0 <= k < |subs| && subs[k] == s[j];
      }
    }
  }

  /** Settled callbacks come from the table. */
  lemma {:induction false} ResolvedKeysIn<V>(subs: Subscriptions, n: Notification, run: (CallbackKey, Notification) -> V)
    ensures forall r :: r in Resolved(subs, n, run) ==>
      exists i :: 0 <= i < |subs| && subs[i].key == r.0 && Consumed(subs[i].value, n)
  {
    if subs != [] {
      var init := subs[..|subs| - 1];
      ResolvedKeysIn(init, n, run);
      forall r | r in Resolved(subs, n, run)
        ensures exists i :: 0 <= i < |subs| && subs[i].key == r.0 && Consumed(subs[i].value, n)
      {
        if r in Resolved(init, n, run) {
          var i :| 0 <= i < |init| && init[i].key == r.0 && Consumed(init[i].value, n);
          assert subs[i] == init[i];
        }
      }
    }
  }

  /** A semibook, the cache of one side (its contents are not modelled);
      `listening` says whether the market's event listener is attached. */
  datatype Semibook = Semibook(ba: BA, options: SemibookOptions, listening: bool)

  /** What `initialize` will run: the options and, per side, whether the
      desired volume concerns it. */
  datatype InitArgs = InitArgs(opts: BookOptions, volumeDesiredForAsks: bool, volumeDesiredForBids: bool)

  class Market {
    const base: Token
    const quote: Token
    var subscriptions: Subscriptions
    var initClosure: Option<InitArgs>
    var asksSemibook: Option<Semibook>
    var bidsSemibook: Option<Semibook>

    ghost predicate Valid()
      reads this
    {
      && UniqueKeys(subscriptions)
      && (asksSemibook.Some? <==> bidsSemibook.Some?)
      && (asksSemibook.Some? ==> asksSemibook.value.ba == Asks && bidsSemibook.value.ba == Bids)
      && (initClosure.Some? ==> asksSemibook.None?)
    }

    predicate Initialized()
      reads this
    {
      asksSemibook.Some? && bidsSemibook.Some?
    }

    /** `Market.connect`: with `noInit` the initialisation is kept for a
        later `initialize`, otherwise both sides are connected now. */
    constructor Connect(base: Token, quote: Token, args: InitArgs, noInit: bool)
      ensures Valid()
      ensures this.base == base && this.quote == quote && subscriptions == []
      ensures noInit ==> initClosure == Some(args) && !Initialized()
      ensures !noInit ==> initClosure.None? && Initialized()
      ensures !noInit ==> asksSemibook.value == Semibook(Asks, GetSemibookOpts(args.opts, args.volumeDesiredForAsks), true)
      ensures !noInit ==> bidsSemibook.value == Semibook(Bids, GetSemibookOpts(args.opts, args.volumeDesiredForBids), true)
    {
      this.base := base;
      this.quote := quote;
      subscriptions := [];
      if noInit {
        initClosure := Some(args);
        asksSemibook := None;
        bidsSemibook := None;
      } else {
        initClosure := None;
        asksSemibook := Some(Semibook(Asks, GetSemibookOpts(args.opts, args.volumeDesiredForAsks), true));
        bidsSemibook := Some(Semibook(Bids, GetSemibookOpts(args.opts, args.volumeDesiredForBids), true));
      }
    }

    /** Runs the kept initialisation once; a second call throws. */
    method Initialize() returns (r: Outcome)
      requires Valid()
      modifies this
      ensures Valid()
      ensures subscriptions == old(subscriptions)
      ensures old(initClosure).None? ==>
        r == Fail("Cannot initialize already initialized market.")
        && initClosure == old(initClosure) && asksSemibook == old(asksSemibook) && bidsSemibook == old(bidsSemibook)
      ensures old(initClosure).Some? ==>
        var args := old(initClosure).value;
        && r == Pass && initClosure.None? && Initialized()
        && asksSemibook.value == Semibook(Asks, GetSemibookOpts(args.opts, args.volumeDesiredForAsks), true)
        && bidsSemibook.value == Semibook(Bids, GetSemibookOpts(args.opts, args.volumeDesiredForBids), true)
    {
      if initClosure.None? {
        r := Fail("Cannot initialize already initialized market.");
      } else {
        var args := initClosure.value;
        initClosure := None;
        asksSemibook := Some(Semibook(Asks, GetSemibookOpts(args.opts, args.volumeDesiredForAsks), true));
        bidsSemibook := Some(Semibook(Bids, GetSemibookOpts(args.opts, args.volumeDesiredForBids), true));
        r := Pass;
      }
    }

    /** Detaches the listeners of both sides; throws before initialisation. */
    method Close() returns (r: Outcome)
      requires Valid()
      modifies this
      ensures Valid()
      ensures subscriptions == old(subscriptions) && initClosure == old(initClosure)
      ensures !old(Initialized()) ==>
        r == Fail("Market is not initialized")
        && asksSemibook == old(asksSemibook) && bidsSemibook == old(bidsSemibook)
      ensures old(Initialized()) ==>
        && r == Pass
        && asksSemibook == Some(old(asksSemibook).value.(listening := false))
        && bidsSemibook == Some(old(bidsSemibook).value.(listening := false))
    {
      if asksSemibook.None? || bidsSemibook.None? {
        r := Fail("Market is not initialized");
      } else {
        asksSemibook := Some(asksSemibook.value.(listening := false));
        bidsSemibook := Some(bidsSemibook.value.(listening := false));
        r := Pass;
      }
    }

    /** Both semibooks, asks first; throws before initialisation. */
    function GetBook(): (r: Result<(Semibook, Semibook)>)
      reads this
      requires Valid()
      ensures r.Ok? <==> Initialized()
      ensures r.Ok? ==> r.value.0.ba == Asks && r.value.1.ba == Bids
      ensures r.Ok? ==> r.value == (asksSemibook.value, bidsSemibook.value)
      ensures r.Err? ==> r.msg == "Market is not initialized"
    {
      if asksSemibook.None? || bidsSemibook.None? then Err("Market is not initialized")
      else Ok((asksSemibook.value, bidsSemibook.value))
    }

    /** The semibook of one side; throws before initialisation. */
    function GetSemibook(ba: BA): (r: Result<Semibook>)
      reads this
      requires Valid()
      ensures r.Ok? <==> Initialized()
      ensures r.Ok? ==> r.value.ba == ba
      ensures r.Ok? ==> r.value == if ba == Asks then asksSemibook.value else bidsSemibook.value
      ensures r.Err? ==> r.msg == "Market is not initialized"
    {
      if asksSemibook.None? || bidsSemibook.None? then Err("Market is not initialized")
      else if ba == Asks then Ok(asksSemibook.value) else Ok(bidsSemibook.value)
    }

    /** The prefix reads `requestBook` issues, one per side with the same
        options; throws before initialisation. */
    function RequestBook(opts: BookOptions): (r: Result<seq<(Semibook, BookOptions)>>)
      reads this
      requires Valid()
      ensures r.Ok? <==> Initialized()
      ensures r.Ok? ==> |r.value| == 2 && r.value[0].0.ba == Asks && r.value[1].0.ba == Bids
      ensures r.Ok? ==> r.value[0].1 == opts && r.value[1].1 == opts
      ensures r.Ok? ==> r.value[0].0 == asksSemibook.value && r.value[1].0 == bidsSemibook.value
      ensures r.Err? ==> r.msg == "Market is not initialized"
    {
      if asksSemibook.None? || bidsSemibook.None? then Err("Market is not initialized")
      else Ok([(asksSemibook.value, opts), (bidsSemibook.value, opts)])
    }

    /** Adds (or turns into) a persistent subscription. */
    method Subscribe(cb: CallbackKey)
      requires Valid()
      modifies this`subscriptions
      ensures Valid()
      ensures subscriptions == Set(old(subscriptions), cb, Multiple)
      ensures Get(subscriptions, cb) == Some(Multiple)
      ensures forall k :: k != cb ==> Get(subscriptions, k) == Get(old(subscriptions), k)
    {
      SetGet(subscriptions, cb, Multiple);
      subscriptions := Set(subscriptions, cb, Multiple);
    }

    /** Adds a one-shot subscription; its promise settles in the dispatch
        that consumes it. */
    method Once(cb: CallbackKey, filter: Option<Notification -> bool>)
      requires Valid()
      modifies this`subscriptions
      ensures Valid()
      ensures subscriptions == Set(old(subscriptions), cb, SubscriptionParam.Once(filter))
      ensures Get(subscriptions, cb) == Some(SubscriptionParam.Once(filter))
      ensures forall k :: k != cb ==> Get(subscriptions, k) == Get(old(subscriptions), k)
    {
      SetGet(subscriptions, cb, SubscriptionParam.Once(filter));
      subscriptions := Set(subscriptions, cb, SubscriptionParam.Once(filter));
    }

    /** Removes one callback and nothing else. */
    method Unsubscribe(cb: CallbackKey)
      requires Valid()
      modifies this`subscriptions
      ensures Valid()
      ensures subscriptions == Delete(old(subscriptions), cb)
      ensures Get(subscriptions, cb).None?
      ensures forall k :: k != cb ==> Get(subscriptions, k) == Get(old(subscriptions), k)
    {
      DeleteGet(subscriptions, cb);
      subscriptions := Delete(subscriptions, cb);
    }

    /** Republishes one book change: walks the table in insertion order,
        calls every persistent callback, and for a one-shot entry whose
        filter holds (or that has none) deletes it, calls it and settles its
        promise with the callback's result.  `run` stands for calling a
        callback. */
    method SemibookEventCallback<V>(n: Notification, run: (CallbackKey, Notification) -> V)
      returns (invoked: seq<CallbackKey>, resolved: seq<(CallbackKey, V)>)
      requires Valid()
      modifies this`subscriptions
      ensures Valid()
      ensures subscriptions == Survivors(old(subscriptions), n)
      ensures invoked == Invoked(old(subscriptions), n)
      ensures resolved == Resolved(old(subscriptions), n, run)
    {
      var subs := subscriptions;
      var kept: Subscriptions := [];
      invoked, resolved := [], [];
      var i := 0;
      while i < |subs|
        invariant 0 <= i <= |subs|
        invariant kept == Survivors(subs[..i], n)
        invariant invoked == Invoked(subs[..i], n)
        invariant resolved == Resolved(subs[..i], n, run)
      {
        assert subs[..i + 1][..i] == subs[..i];
        var cb, params := subs[i].key, subs[i].value;
        if params.Once? {
          var isFilterSatisfied := params.filter.None? || params.filter.value(n);
          if isFilterSatisfied {
            resolved := resolved + [(cb, run(cb, n))];
            invoked := invoked + [cb];
          } else {
            kept := kept + [subs[i]];
          }
        } else {
          invoked := invoked + [cb];
          kept := kept + [subs[i]];
        }
        i := i + 1;
      }
      assert subs[..i] == subs;
      ResolvedAreRemoved(subs, n, run);
      subscriptions := kept;
    }
  }
}
