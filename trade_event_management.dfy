/** Reconciliation of a trade transaction: the logs of its receipt are
    filtered down to those of one contract (Mangrove itself, or the
    MangroveOrder contract) and folded, in order, into an order result that
    collects per-offer successes, failures, posthook failures, the offers
    written during the trade, a summary and an optional resting order.

    Raw amounts are integer token units; they are shown in display units of
    the token concerned through `FromUnits`. */
module TradeEventManagement {
  import opened Common
  import opened Market

  /** An offer as an `OfferWrite` event carries it, amounts in raw units. */
  datatype RawOfferData = RawOfferData(
    id: nat,
    prev: nat,
    gasprice: nat,
    maker: Address,
    gasreq: nat,
    wants: nat,
    gives: nat)

  /** The decoded arguments of the events the reconciliation looks at. */
  datatype EventBody =
    | OrderComplete(takerGot: nat, takerGave: nat, penalty: nat, feePaid: Option<nat>)
    | OfferSuccess(id: nat, takerWants: nat, takerGives: nat)
    | OfferFail(id: nat, takerWants: nat, takerGives: nat, mgvData: string)
    | PosthookFail(offerId: nat, posthookData: string)
    | OfferWrite(outboundTkn: Address, inboundTkn: Address, raw: RawOfferData)
    | OrderSummary(takerGot: nat, takerGave: nat, bounty: nat, fee: Option<nat>)
    | NewOwnedOffer(offerId: nat, owner: Address)
    | OtherEvent(name: string)

  /** An event, with its `taker` argument when it has one. */
  datatype Event = Event(taker: Option<Address>, body: EventBody)

  /** A log entry: the emitting contract and the decoded event. */
  datatype Log = Log(address: Address, event: Event)

  /** The parts of a transaction receipt that are read: the sender, the
      called contract, the events decoded against the called contract's
      interface (when present) and all raw logs. */
  datatype Receipt = Receipt(from: Address, to: Address, events: Option<seq<Log>>, logs: seq<Log>)

  datatype Summary = Summary(got: real, gave: real, partialFill: bool, bounty: real, feePaid: real)
  datatype Success = Success(offerId: nat, got: real, gave: real)
  datatype TradeFailure = TradeFailure(offerId: nat, reason: string, failToDeliver: real, volumeGiven: real)
  datatype PosthookFailure = PosthookFailure(offerId: nat, reason: string)
  datatype OfferWriteEntry = OfferWriteEntry(ba: BA, offer: OfferSlim)

  /** The order result under construction; the summary is optional until
      a terminal event was seen. */
  datatype OrderResultState = OrderResultState(
    summary: Option<Summary>,
    successes: seq<Success>,
    tradeFailures: seq<TradeFailure>,
    posthookFailures: seq<PosthookFailure>,
    offerWrites: seq<OfferWriteEntry>,
    restingOrder: Option<OfferSlim>)

  /** What the partial-fill test compares against. */
  datatype PartialFillParams = PartialFillParams(fillWants: bool, takerWants: nat, takerGives: nat)

  /** Everything a fold step needs besides the event: the sender of the
      transaction, the side traded and the market's tokens. */
  datatype Context = Context(from: Address, ba: BA, pf: PartialFillParams, base: Token, quote: Token)

  /** Which contract's events are folded. */
  datatype Core = MangroveCore | OrderCore

  /* ------------------------------------------------------------------ */
  /* Converters                                                          */
  /* ------------------------------------------------------------------ */

  /** On chain, id 0 means "no offer". */
  function RawIdToId(rawId: nat): (r: Option<nat>)
    ensures r.None? <==> rawId == 0
    ensures r.Some? ==> r.value == rawId && r.value > 0
  {
    if rawId == 0 then None else Some(rawId)
  }

  /** An offer in display units; a zero id throws. */
  function RawOfferToOffer(base: Token, quote: Token, ba: BA, raw: RawOfferData): (r: Result<OfferSlim>)
    ensures r.Err? <==> raw.id == 0
    ensures r.Err? ==> r.msg == "Offer ID is 0"
    ensures r.Ok? ==>
      var oi := GetOutboundInbound(ba, base, quote);
      && r.value.id == raw.id
      && r.value.prev == RawIdToId(raw.prev)
      && (raw.prev == 0 <==> r.value.prev.None?)
      && r.value.gives == FromUnits(raw.gives, oi.outbound.decimals)
      && r.value.wants == FromUnits(raw.wants, oi.inbound.decimals)
      && r.value.volume == GetBaseQuoteVolumes(ba, r.value.gives, r.value.wants).baseVolume
      && r.value.price == GetPrice(ba, r.value.gives, r.value.wants)
      && r.value.gasprice == raw.gasprice && r.value.gasreq == raw.gasreq && r.value.maker == raw.maker
  {
    var oi := GetOutboundInbound(ba, base, quote);
    var gives := FromUnits(raw.gives, oi.outbound.decimals);
    var wants := FromUnits(raw.wants, oi.inbound.decimals);
    var id := RawIdToId(raw.id);
    if id.None? then Err("Offer ID is 0")
    else
      Ok(OfferSlim(id.value, RawIdToId(raw.prev), raw.gasprice, raw.maker, raw.gasreq,
                   wants, gives, GetBaseQuoteVolumes(ba, gives, wants).baseVolume, GetPrice(ba, gives, wants)))
  }

  /** A live ask converted from raw data has a price that, for an ask,
      is its wants per gives. */
  lemma RawAskHasPrice(base: Token, quote: Token, raw: RawOfferData)
    requires raw.id != 0 && raw.gives > 0
    ensures RawOfferToOffer(base, quote, Asks, raw).Ok?
    ensures RawOfferToOffer(base, quote, Asks, raw).value.price.Some?
    ensures RawOfferToOffer(base, quote, Asks, raw).value.volume > 0.0
  {
    var o := RawOfferToOffer(base, quote, Asks, raw).value;
    assert o.gives * (Pow10(base.decimals) as real) == raw.gives as real;
  }

  /** Whether the fill was partial, from the amount received (fee
      included) and the amount given. */
  function PartialFill(p: PartialFillParams, takerGotWithFee: nat, takerGave: nat): (r: bool)
    ensures p.fillWants ==> (r <==> takerGotWithFee < p.takerWants)
    ensures !p.fillWants ==> (r <==> takerGave < p.takerGives)
  {
    if p.fillWants then takerGotWithFee < p.takerWants else takerGave < p.takerGives
  }

  /** A summary from the raw totals of a terminal event: `got` is in the
      `got` token, `gave` in the `gave` token, bounty and fee both converted
      with the native token's 18 decimals; a missing fee counts as zero, in the summary and in the
      partial-fill test alike. */
  function CreateSummaryFromEvent(takerGot: nat, takerGave: nat, penalty: nat, feePaid: Option<nat>,
                                  got: Token, gave: Token, pf: PartialFillParams): (s: Summary)
    ensures feePaid.None? ==> s.feePaid == 0.0
    ensures pf.fillWants ==>
      (s.partialFill <==> takerGot + (if feePaid.Some? then feePaid.value else 0) < pf.takerWants)
    ensures !pf.fillWants ==> (s.partialFill <==> takerGave < pf.takerGives)
  {
    var fee := if feePaid.Some? then feePaid.value else 0;
    Summary(
      FromUnits(takerGot, got.decimals),
      FromUnits(takerGave, gave.decimals),
      PartialFill(pf, takerGot + fee, takerGave),
      FromUnits(penalty, NATIVE_DECIMALS),
      if feePaid.Some? then FromUnits(feePaid.value, NATIVE_DECIMALS) else 0.0)
  }

  /** The summary's amounts convert back to the event's raw amounts. */
  lemma SummaryInDisplayUnits(takerGot: nat, takerGave: nat, penalty: nat, feePaid: Option<nat>,
                              got: Token, gave: Token, pf: PartialFillParams)
    ensures var s := CreateSummaryFromEvent(takerGot, takerGave, penalty, feePaid, got, gave, pf);
      && ToUnits(s.got, got.decimals) == takerGot as real
      && ToUnits(s.gave, gave.decimals) == takerGave as real
      && ToUnits(s.bounty, NATIVE_DECIMALS) == penalty as real
      && (feePaid.Some? ==> ToUnits(s.feePaid, NATIVE_DECIMALS) == feePaid.value as real)
  {
    UnitsRoundTrip(takerGot, got.decimals);
    UnitsRoundTrip(takerGave, gave.decimals);
    UnitsRoundTrip(penalty, NATIVE_DECIMALS);
    if feePaid.Some? {
      UnitsRoundTrip(feePaid.value, NATIVE_DECIMALS);
    }
  }

  /** The summary of an `OrderComplete` event of the Mangrove contract. */
  function CreateSummaryFromOrderCompleteEvent(e: EventBody, got: Token, gave: Token, pf: PartialFillParams): (s: Summary)
    requires e.OrderComplete?
    ensures s == CreateSummaryFromEvent(e.takerGot, e.takerGave, e.penalty, e.feePaid, got, gave, pf)
  {
    CreateSummaryFromEvent(e.takerGot, e.takerGave, e.penalty, e.feePaid, got, gave, pf)
  }

  /** The summary of an `OrderSummary` event of the MangroveOrder
      contract: read as an `OrderComplete` whose penalty is the bounty and
      whose fee paid is the fee. */
  function CreateSummaryFromOrderSummaryEvent(e: EventBody, got: Token, gave: Token, pf: PartialFillParams): (s: Summary)
    requires e.OrderSummary?
    ensures s == CreateSummaryFromOrderCompleteEvent(OrderComplete(e.takerGot, e.takerGave, e.bounty, e.fee), got, gave, pf)
  {
    CreateSummaryFromEvent(e.takerGot, e.takerGave, e.bounty, e.fee, got, gave, pf)
  }

  function CreateSuccessFromEvent(e: EventBody, got: Token, gave: Token): (s: Success)
    requires e.OfferSuccess?
    ensures s.offerId == e.id
    ensures ToUnits(s.got, got.decimals) == e.takerWants as real
    ensures ToUnits(s.gave, gave.decimals) == e.takerGives as real
  {
    UnitsRoundTrip(e.takerWants, got.decimals);
    UnitsRoundTrip(e.takerGives, gave.decimals);
    Success(e.id, FromUnits(e.takerWants, got.decimals), FromUnits(e.takerGives, gave.decimals))
  }

  function CreateTradeFailureFromEvent(e: EventBody, got: Token, gave: Token): (f: TradeFailure)
    requires e.OfferFail?
    ensures f.offerId == e.id && f.reason == e.mgvData
    ensures ToUnits(f.failToDeliver, got.decimals) == e.takerWants as real
    ensures ToUnits(f.volumeGiven, gave.decimals) == e.takerGives as real
  {
    UnitsRoundTrip(e.takerWants, got.decimals);
    UnitsRoundTrip(e.takerGives, gave.decimals);
    TradeFailure(e.id, e.mgvData, FromUnits(e.takerWants, got.decimals), FromUnits(e.takerGives, gave.decimals))
  }

  function CreatePosthookFailureFromEvent(e: EventBody): (f: PosthookFailure)
    requires e.PosthookFail?
    ensures f.offerId == e.offerId && f.reason == e.posthookData
  {
    PosthookFailure(e.offerId, e.posthookData)
  }

  /** The side a written offer belongs to, found by comparing token
      addresses: asks first, then the flipped pair; absent for another
      market. */
  function OfferWriteSide(base: Token, quote: Token, outboundTkn: Address, inboundTkn: Address): (r: Option<BA>)
    ensures r == Some(Asks) <==> outboundTkn == base.address && inboundTkn == quote.address
    ensures r == Some(Bids) <==> outboundTkn == quote.address && inboundTkn == base.address && outboundTkn != base.address
    ensures r.Some? ==>
      && GetOutboundInbound(r.value, base, quote).outbound.address == outboundTkn
      && GetOutboundInbound(r.value, base, quote).inbound.address == inboundTkn
  {
    var oi := if GetOutboundInbound(Asks, base, quote).outbound.address != outboundTkn
      then GetOutboundInbound(Bids, base, quote) else GetOutboundInbound(Asks, base, quote);
    var ba := if GetOutboundInbound(Asks, base, quote).outbound.address != outboundTkn then Bids else Asks;
    if oi.outbound.address != outboundTkn || oi.inbound.address != inboundTkn then None
    else Some(ba)
  }

  /** An `OfferWrite` as an entry of the result: absent for another market,
      an error when the written offer has id 0. */
  function CreateOfferWriteFromEvent(base: Token, quote: Token, e: EventBody): (r: Result<Option<OfferWriteEntry>>)
    requires e.OfferWrite?
    ensures r.Err? <==> OfferWriteSide(base, quote, e.outboundTkn, e.inboundTkn).Some? && e.raw.id == 0
    ensures r.Ok? && r.value.Some? ==>
      && Some(r.value.value.ba) == OfferWriteSide(base, quote, e.outboundTkn, e.inboundTkn)
      && r.value.value.offer.id == e.raw.id
      && RawOfferToOffer(base, quote, r.value.value.ba, e.raw) == Ok(r.value.value.offer)
    ensures r.Ok? && r.value.None? <==> OfferWriteSide(base, quote, e.outboundTkn, e.inboundTkn).None?
  {
    var side := OfferWriteSide(base, quote, e.outboundTkn, e.inboundTkn);
    if side.None? then Ok(None)
    else
      var offer := RawOfferToOffer(base, quote, side.value, e.raw);
      if offer.Err? then Err(offer.msg) else Ok(Some(OfferWriteEntry(side.value, offer.value)))
  }

  /** The offer of the first written entry on side `ba` with id `id`. */
  function FindOfferWrite(writes: seq<OfferWriteEntry>, ba: BA, id: Option<nat>): (r: Option<OfferSlim>)
    ensures r.None? <==> forall i :: 0 <= i < |writes| ==> !(writes[i].ba == ba && Some(writes[i].offer.id) == id)
    ensures r.Some? ==> exists i :: (0 <= i < |writes| && writes[i].ba == ba && Some(writes[i].offer.id) == id
      && writes[i].offer == r.value
      && forall j :: 0 <= j < i ==> !(writes[j].ba == ba && Some(writes[j].offer.id) == id))
  {
    if writes == [] then None
    else if writes[0].ba == ba && Some(writes[0].offer.id) == id then
      Some(writes[0].offer)
    else
      var r := FindOfferWrite(writes[1..], ba, id);
      assert forall i :: 1 <= i < |writes| ==> writes[i] == writes[1..][i - 1];
      r
  }

  /** Entry i is the first written offer on side `ba` with id `id`. */
  predicate IsFirstWrite(writes: seq<OfferWriteEntry>, ba: BA, id: nat, i: nat)
    requires i < |writes|
  {
    && writes[i].ba == ba && writes[i].offer.id == id
    && forall j :: 0 <= j < i ==> !(writes[j].ba == ba && writes[j].offer.id == id)
  }

  /** FindOfferWrite finds the first write with the id. */
  lemma FindOfferWriteFirst(writes: seq<OfferWriteEntry>, ba: BA, id: nat)
    ensures id != 0 ==> forall i :: 0 <= i < |writes| && IsFirstWrite(writes, ba, id, i) ==>
      FindOfferWrite(writes, ba, Some(id)) == Some(writes[i].offer)
  {
    if id != 0 {
      var found := FindOfferWrite(writes, ba, Some(id));
      forall i | 0 <= i < |writes| && IsFirstWrite(writes, ba, id, i)
        ensures found == Some(writes[i].offer)
      {
        assert found.Some?;
        var k :| 0 <= k < |writes| && writes[k].ba == ba && Some(writes[k].offer.id) == Some(id)
          && writes[k].offer == found.value
          && forall j :: 0 <= j < k ==> !(writes[j].ba == ba && Some(writes[j].offer.id) == Some(id));
        assert !(k < i) && !(i < k);
      }
    }
  }

  /** A `NewOwnedOffer` owned by the taker designates the resting order:
      the written offer on the side opposite to the trade with that id, if
      any; otherwise the current resting order stays. */
  function CreateRestingOrderFromEvent(ba: BA, e: EventBody, taker: Address,
                                       current: Option<OfferSlim>, writes: seq<OfferWriteEntry>): (r: Option<OfferSlim>)
    requires e.NewOwnedOffer?
    ensures e.owner != taker ==> r == current
    ensures e.offerId == 0 ==> r == current
    ensures r != current ==>
      exists i :: 0 <= i < |writes| && writes[i].ba == Opposite(ba) && writes[i].offer.id == e.offerId
        && r == Some(writes[i].offer)
    ensures e.owner == taker && e.offerId != 0 ==>
      forall i :: 0 <= i < |writes| && IsFirstWrite(writes, Opposite(ba), e.offerId, i) ==>
        r == Some(writes[i].offer)
    ensures (forall i :: 0 <= i < |writes| ==> !(writes[i].ba == Opposite(ba) && writes[i].offer.id == e.offerId))
      ==> r == current
  {
    if e.owner == taker then
      var found := FindOfferWrite(writes, Opposite(ba), RawIdToId(e.offerId));
      FindOfferWriteFirst(writes, Opposite(ba), e.offerId);
      if found.Some? then found else current
    else current
  }

  /* ------------------------------------------------------------------ */
  /* One event                                                           */
  /* ------------------------------------------------------------------ */

  /** An event of another taker: its `taker` argument is set, not empty,
      and not the sender of the transaction. */
  predicate IsForeign(from: Address, e: Event) {
    e.taker.Some? && e.taker.value != "" && e.taker.value != from
  }

  /** The Mangrove contract's events: `OrderComplete` replaces the summary,
      the three per-offer events append to their lists, an `OfferWrite`
      for this market appends to the written offers; anything else, and
      any event of another taker, changes nothing. */
  function MangroveStep(ctx: Context, st: OrderResultState, e: Event): (r: Result<OrderResultState>)
    ensures r.Err? ==> r.msg == "Offer ID is 0"
    ensures r.Ok? ==> r.value.restingOrder == st.restingOrder
    ensures r.Ok? ==> |r.value.offerWrites| >= |st.offerWrites| && r.value.offerWrites[..|st.offerWrites|] == st.offerWrites
  {
    var oi := GetOutboundInbound(ctx.ba, ctx.base, ctx.quote);
    if IsForeign(ctx.from, e) then Ok(st)
    else match e.body
      case OrderComplete(_, _, _, _) =>
        Ok(st.(summary := Some(CreateSummaryFromOrderCompleteEvent(e.body, oi.outbound, oi.inbound, ctx.pf))))
      case OfferSuccess(_, _, _) =>
        Ok(st.(successes := st.successes + [CreateSuccessFromEvent(e.body, oi.outbound, oi.inbound)]))
      case OfferFail(_, _, _, _) =>
        Ok(st.(tradeFailures := st.tradeFailures + [CreateTradeFailureFromEvent(e.body, oi.outbound, oi.inbound)]))
      case PosthookFail(_, _) =>
        Ok(st.(posthookFailures := st.posthookFailures + [CreatePosthookFailureFromEvent(e.body)]))
      case OfferWrite(_, _, _) =>
        var w := CreateOfferWriteFromEvent(ctx.base, ctx.quote, e.body);
        if w.Err? then Err(w.msg)
        else if w.value.Some? then Ok(st.(offerWrites := st.offerWrites + [w.value.value]))
        else Ok(st)
      case _ => Ok(st)
  }

  /** The MangroveOrder contract's events: `OrderSummary` replaces the
      summary and `NewOwnedOffer` may set the resting order. */
  function OrderStep(ctx: Context, st: OrderResultState, e: Event): (r: OrderResultState)
    ensures r.successes == st.successes && r.tradeFailures == st.tradeFailures
    ensures r.posthookFailures == st.posthookFailures && r.offerWrites == st.offerWrites
  {
    var oi := GetOutboundInbound(ctx.ba, ctx.base, ctx.quote);
    if IsForeign(ctx.from, e) then st
    else match e.body
      case OrderSummary(_, _, _, _) =>
        st.(summary := Some(CreateSummaryFromOrderSummaryEvent(e.body, oi.outbound, oi.inbound, ctx.pf)))
      case NewOwnedOffer(_, _) =>
        st.(restingOrder := CreateRestingOrderFromEvent(ctx.ba, e.body, ctx.from, st.restingOrder, st.offerWrites))
      case _ => st
  }

  function Step(core: Core, ctx: Context, st: OrderResultState, e: Event): Result<OrderResultState> {
    if core == MangroveCore then MangroveStep(ctx, st, e) else Ok(OrderStep(ctx, st, e))
  }

  /** An event of the sender never changes a result it does not concern:
      a foreign event is a no-op for both contracts. */
  lemma ForeignIsNoOp(core: Core, ctx: Context, st: OrderResultState, e: Event)
    requires IsForeign(ctx.from, e)
    ensures Step(core, ctx, st, e) == Ok(st)
  {
  }

  /* ------------------------------------------------------------------ */
  /* The fold                                                            */
  /* ------------------------------------------------------------------ */

  /** One more event after a partial fold: nothing once an error was
      recorded, otherwise the step, recording its error if it throws. */
  function Next(core: Core, ctx: Context, prev: (OrderResultState, Option<string>), e: Event): (OrderResultState, Option<string>) {
    if prev.1.Some? then prev
    else
      var r := Step(core, ctx, prev.0, e);
      if r.Err? then (prev.0, Some(r.msg)) else (r.value, None)
  }

  /** The result after processing `evs` in order, and the error that
      stopped processing, if any; the state is the one reached before the
      throwing event. */
  function Fold(core: Core, ctx: Context, st: OrderResultState, evs: seq<Event>): (OrderResultState, Option<string>) {
    if evs == [] then (st, None)
    else Next(core, ctx, Fold(core, ctx, st, evs[..|evs| - 1]), evs[|evs| - 1])
  }

  lemma FoldSnoc(core: Core, ctx: Context, st: OrderResultState, init: seq<Event>, e: Event)
    ensures Fold(core, ctx, st, init + [e]) == Next(core, ctx, Fold(core, ctx, st, init), e)
  {
    assert (init + [e])[..|init|] == init;
  }

  /** The events of the sender. */
  function OwnEvents(from: Address, evs: seq<Event>): (r: seq<Event>)
    ensures |r| <= |evs|
    ensures forall i :: 0 <= i < |r| ==> !IsForeign(from, r[i])
  {
    if evs == [] then []
    else OwnEvents(from, evs[..|evs| - 1]) + (if IsForeign(from, evs[|evs| - 1]) then [] else [evs[|evs| - 1]])
  }

  /** Filtering out the events of other takers does not change the fold. */
  lemma {:induction false} FoldIgnoresForeign(core: Core, ctx: Context, st: OrderResultState, evs: seq<Event>)
    ensures Fold(core, ctx, st, OwnEvents(ctx.from, evs)) == Fold(core, ctx, st, evs)
  {
    if evs != [] {
      var init := evs[..|evs| - 1];
      var last := evs[|evs| - 1];
      FoldIgnoresForeign(core, ctx, st, init);
      var f := Fold(core, ctx, st, init);
      assert Fold(core, ctx, st, evs) == Next(core, ctx, f, last);
      if IsForeign(ctx.from, last) {
        assert OwnEvents(ctx.from, evs) == OwnEvents(ctx.from, init);
        ForeignIsNoOp(core, ctx, f.0, last);
      } else {
        assert OwnEvents(ctx.from, evs) == OwnEvents(ctx.from, init) + [last];
        FoldSnoc(core, ctx, st, OwnEvents(ctx.from, init), last);
      }
    }
  }

  /** Processing a concatenation processes its parts one after the other. */
  lemma {:induction false} FoldAppend(core: Core, ctx: Context, st: OrderResultState, a: seq<Event>, b: seq<Event>)
    ensures Fold(core, ctx, st, a + b) ==
      (var fa := Fold(core, ctx, st, a); if fa.1.Some? then fa else Fold(core, ctx, fa.0, b))
  {
    if b != [] {
      var bInit := b[..|b| - 1];
      assert (a + b)[..|a + b| - 1] == a + bInit;
      FoldAppend(core, ctx, st, a, bInit);
    } else {
      assert a + b == a;
    }
  }

  /** An own `OfferWrite` for this market whose offer has id 0. */
  predicate ThrowingEvent(core: Core, ctx: Context, e: Event) {
    && core == MangroveCore
    && !IsForeign(ctx.from, e)
    && e.body.OfferWrite?
    && OfferWriteSide(ctx.base, ctx.quote, e.body.outboundTkn, e.body.inboundTkn).Some?
    && e.body.raw.id == 0
  }

  lemma StepErrIff(core: Core, ctx: Context, st: OrderResultState, e: Event)
    ensures Step(core, ctx, st, e).Err? <==> ThrowingEvent(core, ctx, e)
  {
  }

  /** Processing stops with "Offer ID is 0" exactly when some event throws. */
  lemma {:induction false} FoldErrIff(core: Core, ctx: Context, st: OrderResultState, evs: seq<Event>)
    ensures Fold(core, ctx, st, evs).1.Some? <==> exists i :: 0 <= i < |evs| && ThrowingEvent(core, ctx, evs[i])
    ensures Fold(core, ctx, st, evs).1.Some? ==> Fold(core, ctx, st, evs).1.value == "Offer ID is 0"
  {
    if evs != [] {
      var init := evs[..|evs| - 1];
      FoldErrIff(core, ctx, st, init);
      StepErrIff(core, ctx, Fold(core, ctx, st, init).0, evs[|evs| - 1]);
      if exists i :: 0 <= i < |init| && ThrowingEvent(core, ctx, init[i]) {
        var i :| 0 <= i < |init| && ThrowingEvent(core, ctx, init[i]);
        assert evs[i] == init[i];
      }
      if exists i :: 0 <= i < |evs| && ThrowingEvent(core, ctx, evs[i]) {
        var i :| 0 <= i < |evs| && ThrowingEvent(core, ctx, evs[i]);
        if i < |init| {
          assert init[i] == evs[i];
        }
      }
    }
  }

  /* Independent descriptions of each list: the own events of each kind,
     converted, in receipt order. */

  function SuccessOf(ctx: Context, e: Event): seq<Success> {
    var oi := GetOutboundInbound(ctx.ba, ctx.base, ctx.quote);
    if !IsForeign(ctx.from, e) && e.body.OfferSuccess? then [CreateSuccessFromEvent(e.body, oi.outbound, oi.inbound)] else []
  }

  function TradeFailureOf(ctx: Context, e: Event): seq<TradeFailure> {
    var oi := GetOutboundInbound(ctx.ba, ctx.base, ctx.quote);
    if !IsForeign(ctx.from, e) && e.body.OfferFail? then [CreateTradeFailureFromEvent(e.body, oi.outbound, oi.inbound)] else []
  }

  function PosthookFailureOf(ctx: Context, e: Event): seq<PosthookFailure> {
    if !IsForeign(ctx.from, e) && e.body.PosthookFail? then [CreatePosthookFailureFromEvent(e.body)] else []
  }

  /** The side and id of an own offer write for this market. */
  function OfferWriteOf(ctx: Context, e: Event): seq<(BA, nat)> {
    var side := if e.body.OfferWrite? then OfferWriteSide(ctx.base, ctx.quote, e.body.outboundTkn, e.body.inboundTkn) else None;
    if !IsForeign(ctx.from, e) && side.Some? then [(side.value, e.body.raw.id)] else []
  }

  function SuccessesOf(ctx: Context, evs: seq<Event>): seq<Success> {
    if evs == [] then [] else SuccessesOf(ctx, evs[..|evs| - 1]) + SuccessOf(ctx, evs[|evs| - 1])
  }

  function TradeFailuresOf(ctx: Context, evs: seq<Event>): seq<TradeFailure> {
    if evs == [] then [] else TradeFailuresOf(ctx, evs[..|evs| - 1]) + TradeFailureOf(ctx, evs[|evs| - 1])
  }

  function PosthookFailuresOf(ctx: Context, evs: seq<Event>): seq<PosthookFailure> {
    if evs == [] then [] else PosthookFailuresOf(ctx, evs[..|evs| - 1]) + PosthookFailureOf(ctx, evs[|evs| - 1])
  }

  function OfferWritesOf(ctx: Context, evs: seq<Event>): seq<(BA, nat)> {
    if evs == [] then [] else OfferWritesOf(ctx, evs[..|evs| - 1]) + OfferWriteOf(ctx, evs[|evs| - 1])
  }

  function WriteKeys(ws: seq<OfferWriteEntry>): (r: seq<(BA, nat)>)
    ensures |r| == |ws|
    ensures forall i :: 0 <= i < |ws| ==> r[i] == (ws[i].ba, ws[i].offer.id)
  {
    if ws == [] then [] else WriteKeys(ws[..|ws| - 1]) + [(ws[|ws| - 1].ba, ws[|ws| - 1].offer.id)]
  }

  lemma WriteKeysAppend(ws: seq<OfferWriteEntry>, w: OfferWriteEntry)
    ensures WriteKeys(ws + [w]) == WriteKeys(ws) + [(w.ba, w.offer.id)]
  {
    assert (ws + [w])[..|ws|] == ws;
  }

  /** One Mangrove event that does not throw extends each per-offer list
      by its own contribution and nothing else. */
  lemma MangroveStepLists(ctx: Context, p: OrderResultState, e: Event)
    requires MangroveStep(ctx, p, e).Ok?
    ensures var r := MangroveStep(ctx, p, e).value;
      && r.successes == p.successes + SuccessOf(ctx, e)
      && r.tradeFailures == p.tradeFailures + TradeFailureOf(ctx, e)
      && r.posthookFailures == p.posthookFailures + PosthookFailureOf(ctx, e)
  {
  }

  /** One Mangrove event that does not throw adds its own offer write, if
      any, and leaves the resting order alone. */
  lemma MangroveStepWrites(ctx: Context, p: OrderResultState, e: Event)
    requires MangroveStep(ctx, p, e).Ok?
    ensures var r := MangroveStep(ctx, p, e).value;
      && WriteKeys(r.offerWrites) == WriteKeys(p.offerWrites) + OfferWriteOf(ctx, e)
      && r.restingOrder == p.restingOrder
  {
    if !IsForeign(ctx.from, e) && e.body.OfferWrite? {
      var w := CreateOfferWriteFromEvent(ctx.base, ctx.quote, e.body);
      if w.value.Some? {
        WriteKeysAppend(p.offerWrites, w.value.value);
      }
    }
  }

  /** The last step of a fold that did not throw. */
  lemma FoldLastStep(core: Core, ctx: Context, st: OrderResultState, evs: seq<Event>)
    requires evs != [] && Fold(core, ctx, st, evs).1.None?
    ensures Fold(core, ctx, st, evs[..|evs| - 1]).1.None?
    ensures Step(core, ctx, Fold(core, ctx, st, evs[..|evs| - 1]).0, evs[|evs| - 1]).Ok?
    ensures Fold(core, ctx, st, evs).0 == Step(core, ctx, Fold(core, ctx, st, evs[..|evs| - 1]).0, evs[|evs| - 1]).value
  {
  }

  /** Each own `OfferSuccess` appends one entry to the successes, in
      receipt order. */
  lemma {:induction false} MangroveFoldSuccesses(ctx: Context, st: OrderResultState, evs: seq<Event>)
    requires Fold(MangroveCore, ctx, st, evs).1.None?
    ensures Fold(MangroveCore, ctx, st, evs).0.successes == st.successes + SuccessesOf(ctx, evs)
  {
    if evs != [] {
      var init := evs[..|evs| - 1];
      FoldLastStep(MangroveCore, ctx, st, evs);
      MangroveFoldSuccesses(ctx, st, init);
      MangroveStepLists(ctx, Fold(MangroveCore, ctx, st, init).0, evs[|evs| - 1]);
      assert st.successes + SuccessesOf(ctx, init) + SuccessOf(ctx, evs[|evs| - 1])
          == st.successes + (SuccessesOf(ctx, init) + SuccessOf(ctx, evs[|evs| - 1]));
    }
  }

  /** Each own `OfferFail` appends one entry to the trade failures. */
  lemma {:induction false} MangroveFoldTradeFailures(ctx: Context, st: OrderResultState, evs: seq<Event>)
    requires Fold(MangroveCore, ctx, st, evs).1.None?
    ensures Fold(MangroveCore, ctx, st, evs).0.tradeFailures == st.tradeFailures + TradeFailuresOf(ctx, evs)
  {
    if evs != [] {
      var init := evs[..|evs| - 1];
      FoldLastStep(MangroveCore, ctx, st, evs);
      MangroveFoldTradeFailures(ctx, st, init);
      MangroveStepLists(ctx, Fold(MangroveCore, ctx, st, init).0, evs[|evs| - 1]);
      assert st.tradeFailures + TradeFailuresOf(ctx, init) + TradeFailureOf(ctx, evs[|evs| - 1])
          == st.tradeFailures + (TradeFailuresOf(ctx, init) + TradeFailureOf(ctx, evs[|evs| - 1]));
    }
  }

  /** Each own `PosthookFail` appends one entry to the posthook failures. */
  lemma {:induction false} MangroveFoldPosthookFailures(ctx: Context, st: OrderResultState, evs: seq<Event>)
    requires Fold(MangroveCore, ctx, st, evs).1.None?
    ensures Fold(MangroveCore, ctx, st, evs).0.posthookFailures == st.posthookFailures + PosthookFailuresOf(ctx, evs)
  {
    if evs != [] {
      var init := evs[..|evs| - 1];
      FoldLastStep(MangroveCore, ctx, st, evs);
      MangroveFoldPosthookFailures(ctx, st, init);
      MangroveStepLists(ctx, Fold(MangroveCore, ctx, st, init).0, evs[|evs| - 1]);
      assert st.posthookFailures + PosthookFailuresOf(ctx, init) + PosthookFailureOf(ctx, evs[|evs| - 1])
          == st.posthookFailures + (PosthookFailuresOf(ctx, init) + PosthookFailureOf(ctx, evs[|evs| - 1]));
    }
  }

  /** Each own `OfferWrite` for this market appends one written offer with
      its side and id, and none other is written; the resting order is not
      touched. */
  lemma {:induction false} MangroveFoldOfferWrites(ctx: Context, st: OrderResultState, evs: seq<Event>)
    requires Fold(MangroveCore, ctx, st, evs).1.None?
    ensures WriteKeys(Fold(MangroveCore, ctx, st, evs).0.offerWrites) == WriteKeys(st.offerWrites) + OfferWritesOf(ctx, evs)
    ensures Fold(MangroveCore, ctx, st, evs).0.restingOrder == st.restingOrder
  {
    if evs != [] {
      var init := evs[..|evs| - 1];
      FoldLastStep(MangroveCore, ctx, st, evs);
      MangroveFoldOfferWrites(ctx, st, init);
      MangroveStepWrites(ctx, Fold(MangroveCore, ctx, st, init).0, evs[|evs| - 1]);
      assert WriteKeys(st.offerWrites) + OfferWritesOf(ctx, init) + OfferWriteOf(ctx, evs[|evs| - 1])
          == WriteKeys(st.offerWrites) + (OfferWritesOf(ctx, init) + OfferWriteOf(ctx, evs[|evs| - 1]));
    }
  }

  /** The MangroveOrder events leave every list alone. */
  lemma {:induction false} OrderFoldKeepsLists(ctx: Context, st: OrderResultState, evs: seq<Event>)
    ensures Fold(OrderCore, ctx, st, evs).1.None?
    ensures var r := Fold(OrderCore, ctx, st, evs).0;
      && r.successes == st.successes && r.tradeFailures == st.tradeFailures
      && r.posthookFailures == st.posthookFailures && r.offerWrites == st.offerWrites
  {
    if evs != [] {
      OrderFoldKeepsLists(ctx, st, evs[..|evs| - 1]);
    }
  }

  /** The event that sets the summary for a contract. */
  predicate IsTerminal(core: Core, ctx: Context, e: Event) {
    !IsForeign(ctx.from, e) && (if core == MangroveCore then e.body.OrderComplete? else e.body.OrderSummary?)
  }

  function SummaryOf(core: Core, ctx: Context, e: Event): Summary
    requires IsTerminal(core, ctx, e)
  {
    var oi := GetOutboundInbound(ctx.ba, ctx.base, ctx.quote);
    if core == MangroveCore then CreateSummaryFromOrderCompleteEvent(e.body, oi.outbound, oi.inbound, ctx.pf)
    else CreateSummaryFromOrderSummaryEvent(e.body, oi.outbound, oi.inbound, ctx.pf)
  }

  /** The summary left by a run of events: the one of the last terminal
      event, or `s0` when there is none. */
  function SummaryAfter(core: Core, ctx: Context, s0: Option<Summary>, evs: seq<Event>): Option<Summary> {
    if evs == [] then s0
    else if IsTerminal(core, ctx, evs[|evs| - 1]) then Some(SummaryOf(core, ctx, evs[|evs| - 1]))
    else SummaryAfter(core, ctx, s0, evs[..|evs| - 1])
  }

  /** Processing leaves the summary that SummaryAfter describes. */
  lemma {:induction false} FoldSummary(core: Core, ctx: Context, st: OrderResultState, evs: seq<Event>)
    requires Fold(core, ctx, st, evs).1.None?
    ensures Fold(core, ctx, st, evs).0.summary == SummaryAfter(core, ctx, st.summary, evs)
  {
    if evs != [] {
      var init := evs[..|evs| - 1];
      FoldLastStep(core, ctx, st, evs);
      FoldSummary(core, ctx, st, init);
      StepSummary(core, ctx, Fold(core, ctx, st, init).0, evs[|evs| - 1]);
    }
  }

  /** Without a terminal event the summary stays `s0`. */
  lemma {:induction false} SummaryAfterNone(core: Core, ctx: Context, s0: Option<Summary>, evs: seq<Event>)
    requires forall i :: 0 <= i < |evs| ==> !IsTerminal(core, ctx, evs[i])
    ensures SummaryAfter(core, ctx, s0, evs) == s0
  {
    if evs != [] {
      var init := evs[..|evs| - 1];
      assert forall i :: 0 <= i < |init| ==> init[i] == evs[i];
      SummaryAfterNone(core, ctx, s0, init);
    }
  }

  /** With a last terminal event at position i, the summary is its own. */
  lemma {:induction false} SummaryAfterTerminal(core: Core, ctx: Context, s0: Option<Summary>, evs: seq<Event>, i: nat)
    requires i < |evs| && IsTerminal(core, ctx, evs[i])
    requires forall j :: i < j < |evs| ==> !IsTerminal(core, ctx, evs[j])
    ensures SummaryAfter(core, ctx, s0, evs) == Some(SummaryOf(core, ctx, evs[i]))
  {
    if i < |evs| - 1 {
      var init := evs[..|evs| - 1];
      assert forall j :: 0 <= j < |init| ==> init[j] == evs[j];
      SummaryAfterTerminal(core, ctx, s0, init, i);
    }
  }

  /** The last terminal event wins: without one the summary is unchanged,
      otherwise it is the summary of the last one. */
  lemma FoldLastSummaryWins(core: Core, ctx: Context, st: OrderResultState, evs: seq<Event>)
    requires Fold(core, ctx, st, evs).1.None?
    ensures (forall i :: 0 <= i < |evs| ==> !IsTerminal(core, ctx, evs[i])) ==>
      Fold(core, ctx, st, evs).0.summary == st.summary
    ensures forall i :: (0 <= i < |evs| && IsTerminal(core, ctx, evs[i])
        && (forall j :: i < j < |evs| ==> !IsTerminal(core, ctx, evs[j]))) ==>
      Fold(core, ctx, st, evs).0.summary == Some(SummaryOf(core, ctx, evs[i]))
  {
    FoldSummary(core, ctx, st, evs);
    if forall i :: 0 <= i < |evs| ==> !IsTerminal(core, ctx, evs[i]) {
      SummaryAfterNone(core, ctx, st.summary, evs);
    }
    forall i | 0 <= i < |evs| && IsTerminal(core, ctx, evs[i])
        && (forall j :: i < j < |evs| ==> !IsTerminal(core, ctx, evs[j]))
      ensures Fold(core, ctx, st, evs).0.summary == Some(SummaryOf(core, ctx, evs[i]))
    {
      SummaryAfterTerminal(core, ctx, st.summary, evs, i);
    }
  }

  /** One step sets the summary exactly when its event is terminal. */
  lemma StepSummary(core: Core, ctx: Context, p: OrderResultState, e: Event)
    requires Step(core, ctx, p, e).Ok?
    ensures Step(core, ctx, p, e).value.summary == if IsTerminal(core, ctx, e) then Some(SummaryOf(core, ctx, e)) else p.summary
  {
  }

  /** The resting order is one of the written offers. */
  ghost predicate RestingOrderWritten(st: OrderResultState) {
    st.restingOrder.Some? ==> exists i :: 0 <= i < |st.offerWrites| && st.offerWrites[i].offer == st.restingOrder.value
  }

  lemma StepKeepsRestingOrderWritten(core: Core, ctx: Context, st: OrderResultState, e: Event)
    requires RestingOrderWritten(st)
    requires Step(core, ctx, st, e).Ok?
    ensures RestingOrderWritten(Step(core, ctx, st, e).value)
  {
    var r := Step(core, ctx, st, e).value;
    if core == MangroveCore && r.restingOrder.Some? {
      var i :| 0 <= i < |st.offerWrites| && st.offerWrites[i].offer == st.restingOrder.value;
      assert r.offerWrites[i] == st.offerWrites[i];
    } else if core == OrderCore && !IsForeign(ctx.from, e) && e.body.NewOwnedOffer? && r.restingOrder != st.restingOrder {
      assert r.offerWrites == st.offerWrites;
    }
  }

  /** Starting from a result whose resting order was written (in
      particular from one without a resting order), folding either
      contract's events keeps it so. */
  lemma {:induction false} FoldKeepsRestingOrderWritten(core: Core, ctx: Context, st: OrderResultState, evs: seq<Event>)
    requires RestingOrderWritten(st)
    ensures RestingOrderWritten(Fold(core, ctx, st, evs).0)
  {
    if evs != [] {
      var init := evs[..|evs| - 1];
      FoldKeepsRestingOrderWritten(core, ctx, st, init);
      var p := Fold(core, ctx, st, init);
      if p.1.None? && Step(core, ctx, p.0, evs[|evs| - 1]).Ok? {
        StepKeepsRestingOrderWritten(core, ctx, p.0, evs[|evs| - 1]);
      }
    }
  }

  /** An own `NewOwnedOffer` whose offer was written on the side opposite
      to the trade makes that written offer (the first one with its id) the
      resting order. */
  lemma NewOwnedOfferSetsRestingOrder(ctx: Context, st: OrderResultState, e: Event, i: nat)
    requires !IsForeign(ctx.from, e) && e.body.NewOwnedOffer?
    requires e.body.owner == ctx.from && e.body.offerId != 0
    requires i < |st.offerWrites| && IsFirstWrite(st.offerWrites, Opposite(ctx.ba), e.body.offerId, i)
    ensures OrderStep(ctx, st, e).restingOrder == Some(st.offerWrites[i].offer)
  {
  }

  /** A result is complete once it has a summary. */
  predicate IsOrderResult(st: OrderResultState): (r: bool)
    ensures r <==> st.summary.Some?
  {
    st.summary.Some?
  }

  /** After an own terminal event is processed, the result is complete. */
  lemma FoldWithTerminalIsOrderResult(core: Core, ctx: Context, st: OrderResultState, evs: seq<Event>, i: nat)
    requires Fold(core, ctx, st, evs).1.None?
    requires i < |evs| && IsTerminal(core, ctx, evs[i])
    ensures IsOrderResult(Fold(core, ctx, st, evs).0)
  {
    var k := i;
    while k + 1 < |evs| && exists j :: k < j < |evs| && IsTerminal(core, ctx, evs[j])
      invariant i <= k < |evs| && IsTerminal(core, ctx, evs[k])
      decreases |evs| - k
    {
      var j :| k < j < |evs| && IsTerminal(core, ctx, evs[j]);
      k := j;
    }
    FoldLastSummaryWins(core, ctx, st, evs);
  }

  /* ------------------------------------------------------------------ */
  /* Receipt filtering                                                   */
  /* ------------------------------------------------------------------ */

  /** The events of the logs emitted by `contract`, in order. */
  function EventsAt(logs: seq<Log>, contract: Address): (r: seq<Event>)
    ensures |r| <= |logs|
    ensures forall e :: e in r <==> exists l :: l in logs && l.address == contract && l.event == e
  {
    if logs == [] then []
    else
      var last := logs[|logs| - 1];
      var init := logs[..|logs| - 1];
      assert forall l :: l in logs <==> l in init || l == last;
      EventsAt(init, contract) + (if last.address == contract then [last.event] else [])
  }

  /** Logs of the receipt emitted by `contract`: from the decoded events
      when the transaction called `contract` directly, otherwise from the
      raw logs. */
  function GetContractEventsFromReceipt(receipt: Receipt, contract: Address): (r: seq<Event>)
    ensures receipt.to == contract ==>
      var evs := if receipt.events.Some? then receipt.events.value else [];
      forall e :: e in r <==> exists l :: l in evs && l.address == contract && l.event == e
    ensures receipt.to != contract ==>
      forall e :: e in r <==> exists l :: l in receipt.logs && l.address == contract && l.event == e
  {
    if receipt.to == contract then
      EventsAt(if receipt.events.Some? then receipt.events.value else [], contract)
    else EventsAt(receipt.logs, contract)
  }

  /** Filtering a concatenation filters each part. */
  lemma {:induction false} EventsAtAppend(a: seq<Log>, b: seq<Log>, contract: Address)
    ensures EventsAt(a + b, contract) == EventsAt(a, contract) + EventsAt(b, contract)
  {
    if b == [] {
      assert a + b == a;
    } else {
      assert (a + b)[..|a + b| - 1] == a + b[..|b| - 1];
      EventsAtAppend(a, b[..|b| - 1], contract);
    }
  }

  /* ------------------------------------------------------------------ */
  /* The result object                                                   */
  /* ------------------------------------------------------------------ */

  /** The order result, whose lists the handlers push to in place. */
  class OrderResult {
    var summary: Option<Summary>
    var successes: seq<Success>
    var tradeFailures: seq<TradeFailure>
    var posthookFailures: seq<PosthookFailure>
    var offerWrites: seq<OfferWriteEntry>
    var restingOrder: Option<OfferSlim>

    function State(): OrderResultState
      reads this
    {
      OrderResultState(summary, successes, tradeFailures, posthookFailures, offerWrites, restingOrder)
    }

    /** An empty result. */
    constructor ()
      ensures State() == OrderResultState(None, [], [], [], [], None)
      ensures RestingOrderWritten(State())
    {
      summary, successes, tradeFailures, posthookFailures, offerWrites, restingOrder := None, [], [], [], [], None;
    }

    /** Handles one event of the Mangrove contract; an offer write with id
        0 throws before anything changes. */
    method ResultOfMangroveEventCore(ctx: Context, e: Event) returns (r: Outcome)
      modifies this
      ensures MangroveStep(ctx, old(State()), e).Ok? ==> r == Pass && State() == MangroveStep(ctx, old(State()), e).value
      ensures MangroveStep(ctx, old(State()), e).Err? ==> r == Fail("Offer ID is 0") && State() == old(State())
    {
      r := Pass;
      if IsForeign(ctx.from, e) {
        return;
      }
      var oi := GetOutboundInbound(ctx.ba, ctx.base, ctx.quote);
      match e.body {
        case OrderComplete(_, _, _, _) =>
          summary := Some(CreateSummaryFromOrderCompleteEvent(e.body, oi.outbound, oi.inbound, ctx.pf));
        case OfferSuccess(_, _, _) =>
          successes := successes + [CreateSuccessFromEvent(e.body, oi.outbound, oi.inbound)];
        case OfferFail(_, _, _, _) =>
          tradeFailures := tradeFailures + [CreateTradeFailureFromEvent(e.body, oi.outbound, oi.inbound)];
        case PosthookFail(_, _) =>
          posthookFailures := posthookFailures + [CreatePosthookFailureFromEvent(e.body)];
        case OfferWrite(_, _, _) =>
          var w := CreateOfferWriteFromEvent(ctx.base, ctx.quote, e.body);
          if w.Err? {
            r := Fail(w.msg);
          } else if w.value.Some? {
            offerWrites := offerWrites + [w.value.value];
          }
        case _ =>
      }
    }

    /** Handles one event of the MangroveOrder contract. */
    method ResultOfMangroveOrderEventCore(ctx: Context, e: Event)
      modifies this
      ensures State() == OrderStep(ctx, old(State()), e)
    {
      if IsForeign(ctx.from, e) {
        return;
      }
      var oi := GetOutboundInbound(ctx.ba, ctx.base, ctx.quote);
      match e.body {
        case OrderSummary(_, _, _, _) =>
          summary := Some(CreateSummaryFromOrderSummaryEvent(e.body, oi.outbound, oi.inbound, ctx.pf));
        case NewOwnedOffer(_, _) =>
          restingOrder := CreateRestingOrderFromEvent(ctx.ba, e.body, ctx.from, restingOrder, offerWrites);
        case _ =>
      }
    }

    /** Folds the Mangrove contract's events of the receipt into this
        result; a throw stops the loop and leaves what was done so far. */
    method ProcessMangroveEvents(receipt: Receipt, ba: BA, fillWants: bool, wants: nat, gives: nat,
                                 base: Token, quote: Token, mangrove: Address) returns (r: Outcome)
      modifies this
      ensures var ctx := Context(receipt.from, ba, PartialFillParams(fillWants, wants, gives), base, quote);
        var f := Fold(MangroveCore, ctx, old(State()), GetContractEventsFromReceipt(receipt, mangrove));
        State() == f.0 && (r == Pass <==> f.1.None?) && (f.1.Some? ==> r == Fail(f.1.value))
    {
      var ctx := Context(receipt.from, ba, PartialFillParams(fillWants, wants, gives), base, quote);
      var evs := GetContractEventsFromReceipt(receipt, mangrove);
      ghost var st0 := State();
      r := Pass;
      var i := 0;
      while i < |evs|
        invariant 0 <= i <= |evs|
        invariant Fold(MangroveCore, ctx, st0, evs[..i]) == (State(), None)
        invariant r == Pass
      {
        assert evs[..i + 1][..i] == evs[..i];
        r := ResultOfMangroveEventCore(ctx, evs[i]);
        if r.Fail? {
          FoldAppend(MangroveCore, ctx, st0, evs[..i + 1], evs[i + 1..]);
          assert evs[..i + 1] + evs[i + 1..] == evs;
          return;
        }
        i := i + 1;
      }
      assert evs[..i] == evs;
    }

    /** Folds the MangroveOrder contract's events of the receipt into this
        result. */
    method ProcessMangroveOrderEvents(receipt: Receipt, ba: BA, fillWants: bool, wants: nat, gives: nat,
                                      base: Token, quote: Token, orderContract: Address)
      modifies this
      ensures var ctx := Context(receipt.from, ba, PartialFillParams(fillWants, wants, gives), base, quote);
        State() == Fold(OrderCore, ctx, old(State()), GetContractEventsFromReceipt(receipt, orderContract)).0
    {
      var ctx := Context(receipt.from, ba, PartialFillParams(fillWants, wants, gives), base, quote);
      var evs := GetContractEventsFromReceipt(receipt, orderContract);
      ghost var st0 := State();
      var i := 0;
      while i < |evs|
        invariant 0 <= i <= |evs|
        invariant Fold(OrderCore, ctx, st0, evs[..i]) == (State(), None)
      {
        assert evs[..i + 1][..i] == evs[..i];
        ResultOfMangroveOrderEventCore(ctx, evs[i]);
        i := i + 1;
      }
      assert evs[..i] == evs;
    }
  }
}
