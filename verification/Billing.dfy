/**
 Proration, tier rates and the plan-change quote.

 Instants are nanoseconds on one clock and amounts are whole fen. The source divides
 durations down to whole seconds before it multiplies by an amount; so does the model.
 */
module Billing {
  import opened Wrappers

  type Instant = int
  type Fen = int

  const SECOND: int := 1_000_000_000
  const DAY: int := 86_400 * SECOND
  const MONTH_SECONDS: int := 2_592_000
  const FULL_BPS: int := 10_000

  function Later(a: Instant, b: Instant): Instant {
    if a < b then b else a
  }

  /** Whole seconds between two instants; the source's Duration division on a positive span. */
  function Seconds(from: Instant, to: Instant): int {
    if to <= from then 0 else (to - from) / SECOND
  }

  function ProrateFen(amount: Fen, totalStart: Instant, totalEnd: Instant, from: Instant): Fen {
    if totalEnd <= totalStart || totalEnd <= from then 0
    else
      var total := Seconds(totalStart, totalEnd);
      var remaining := Seconds(Later(from, totalStart), totalEnd);
      if amount <= 0 || total <= 0 || remaining <= 0 then 0
      else amount * remaining / total
  }

  function ProrateMonthlyFen(monthly: Fen, start: Instant, end: Instant): Fen {
    if monthly <= 0 || end <= start then 0
    else monthly * Seconds(start, end) / MONTH_SECONDS
  }

  function PlanChangeTierMonths(start: Instant, end: Instant): nat {
    var days := Seconds(start, end) / 86_400;
    if days >= 360 then 12 else if days >= 180 then 6 else if days >= 90 then 3 else 1
  }

  function PlanChangeOrderRefundFen(paid: Fen, start: Instant, end: Instant, now: Instant): Fen {
    if paid <= 0 || end <= start then 0 else ProrateFen(paid, start, end, now)
  }

  // ---------- arithmetic the laws below rest on ----------

  lemma DivMonotone(x: int, y: int, d: int)
    requires d > 0 && x <= y
    ensures x / d <= y / d
  {
    if y / d < x / d {
      assert x == d * (x / d) + x % d && y == d * (y / d) + y % d;
      assert d * (y / d) + d <= d * (x / d) by { MulLe(d, y / d + 1, x / d); }
      assert false;
    }
  }

  lemma MulLe(d: int, x: int, y: int)
    requires d >= 0 && x <= y
    ensures d * x <= d * y
  {
    assert d * (y - x) >= 0;
    assert d * (y - x) == d * y - d * x;
  }

  /** A truncating share of an amount never exceeds it. */
  lemma ShareBounds(amount: int, part: int, whole: int)
    requires amount >= 0 && 0 <= part <= whole && whole > 0
    ensures 0 <= amount * part / whole <= amount
    ensures part == whole ==> amount * part / whole == amount
  {
    MulLe(amount, 0, part);
    MulLe(amount, part, whole);
    DivMonotone(0, amount * part, whole);
    DivMonotone(amount * part, amount * whole, whole);
    assert amount * whole / whole == amount by { DivExact(amount, whole); }
  }

  lemma DivExact(q: int, d: int)
    requires d > 0
    ensures q * d / d == q
  {
    var x := q * d;
    assert x == d * (x / d) + x % d && 0 <= x % d < d;
    if x / d < q {
      MulLe(d, x / d + 1, q);
    }
  }

  /** Splitting a window loses at most one fen to truncation. */
  lemma FloorSplit(m: int, x: int, y: int)
    requires m >= 0 && x >= 0 && y >= 0
    ensures m * x / MONTH_SECONDS + m * y / MONTH_SECONDS <= m * (x + y) / MONTH_SECONDS
    ensures m * (x + y) / MONTH_SECONDS <= m * x / MONTH_SECONDS + m * y / MONTH_SECONDS + 1
  {
    assert m * (x + y) == m * x + m * y;
  }

  lemma SecondsSplit(a: Instant, b: Instant, c: Instant)
    requires a <= b <= c
    ensures Seconds(a, b) + Seconds(b, c) <= Seconds(a, c)
    ensures (b - a) % SECOND == 0 ==> Seconds(a, b) + Seconds(b, c) == Seconds(a, c)
  {
  }

  // ---------- laws of proration ----------

  /** Never negative, never more than the price; the whole price while nothing is used. */
  lemma ProrationBounds(amount: Fen, start: Instant, end: Instant, from: Instant)
    ensures 0 <= ProrateFen(amount, start, end, from)
    ensures ProrateFen(amount, start, end, from) <= (if amount > 0 then amount else 0)
    ensures amount >= 0 && from <= start && start + SECOND <= end ==> ProrateFen(amount, start, end, from) == amount
    ensures end <= from ==> ProrateFen(amount, start, end, from) == 0
  {
    if start < end && from < end && amount > 0 {
      var total, remaining := Seconds(start, end), Seconds(Later(from, start), end);
      DivMonotone(end - Later(from, start), end - start, SECOND);
      if total > 0 && remaining > 0 {
        ShareBounds(amount, remaining, total);
      }
    }
  }

  /** A later start is never worth more. */
  lemma ProrationAntitone(amount: Fen, start: Instant, end: Instant, early: Instant, late: Instant)
    requires early <= late
    ensures ProrateFen(amount, start, end, late) <= ProrateFen(amount, start, end, early)
  {
    ProrationBounds(amount, start, end, early);
    if start < end && late < end && amount > 0 {
      var total := Seconds(start, end);
      var r0, r1 := Seconds(Later(early, start), end), Seconds(Later(late, start), end);
      DivMonotone(end - Later(late, start), end - Later(early, start), SECOND);
      if total > 0 && r1 > 0 {
        MulLe(amount, r1, r0);
        DivMonotone(amount * r1, amount * r0, total);
      }
    }
  }

  lemma MonthlyBounds(monthly: Fen, start: Instant, end: Instant)
    ensures 0 <= ProrateMonthlyFen(monthly, start, end)
  {
    if monthly > 0 && start < end {
      MulLe(monthly, 0, Seconds(start, end));
    }
  }

  /** A month is thirty days: exactly one monthly price for them, and only whole seconds are charged. */
  lemma MonthIsThirtyDays(monthly: Fen, start: Instant)
    requires monthly >= 0
    ensures ProrateMonthlyFen(monthly, start, start + 30 * 86_400 * 1_000_000_000) == monthly
    ensures ProrateMonthlyFen(monthly, start, start + 30 * 86_400 * 1_000_000_000 + 999_999_999) == monthly
  {
    DivExact(monthly, MONTH_SECONDS);
  }

  /** The longest of the four tiers whose thirty-day months the remaining service reaches. */
  ghost predicate ReachedTier(t: nat, start: Instant, end: Instant) {
    t in {1, 3, 6, 12}
    && (3 <= t <==> start + 90 * 86_400 * 1_000_000_000 <= end)
    && (6 <= t <==> start + 180 * 86_400 * 1_000_000_000 <= end)
    && (12 <= t <==> start + 360 * 86_400 * 1_000_000_000 <= end)
  }

  lemma TierIsTheLongestReached(start: Instant, end: Instant)
    ensures forall t: nat :: ReachedTier(t, start, end) <==> t == PlanChangeTierMonths(start, end)
  {
  }

  /** 64-bit multiplication with two's-complement wrap-around, as the source computes it. */
  function Wrap64(x: int): int {
    var m := x % 0x1_0000_0000_0000_0000;
    if m < 0x8000_0000_0000_0000 then m else m - 0x1_0000_0000_0000_0000
  }

  /** The signed 64-bit value that agrees with the product modulo 2^64. */
  lemma WrapsAround(x: int)
    ensures -0x8000_0000_0000_0000 <= Wrap64(x) < 0x8000_0000_0000_0000
    ensures (x - Wrap64(x)) % 0x1_0000_0000_0000_0000 == 0
  {
  }

  lemma WrapFits(x: int)
    requires 0 <= x < 0x8000_0000_0000_0000
    ensures Wrap64(x) == x
  {
  }

  function ProrateFen64(amount: Fen, totalStart: Instant, totalEnd: Instant, from: Instant): Fen {
    if totalEnd <= totalStart || totalEnd <= from then 0
    else
      var total := Seconds(totalStart, totalEnd);
      var remaining := Seconds(Later(from, totalStart), totalEnd);
      if amount <= 0 || total <= 0 || remaining <= 0 then 0
      else
        var product := Wrap64(amount * remaining);
        if product >= 0 then product / total else -((-product) / total)
  }

  /** For amounts below 2^31 and spans below 2^32 seconds the wrapping computation is exact. */
  lemma ProrationFitsInt64(amount: Fen, start: Instant, end: Instant, from: Instant)
    requires amount < 0x8000_0000
    requires end - start < 0x1_0000_0000 * SECOND
    ensures ProrateFen64(amount, start, end, from) == ProrateFen(amount, start, end, from)
  {
    hide Wrap64;
    if start < end && from < end && amount > 0 {
      var remaining := Seconds(Later(from, start), end);
      if remaining > 0 {
        assert remaining <= 0x1_0000_0000;
        MulLe(amount, remaining, 0x1_0000_0000);
        MulLe(0x1_0000_0000, amount, 0x7fff_ffff);
        MulLe(amount, 0, remaining);
        WrapFits(amount * remaining);
      }
    }
  }

  function ProrateMonthlyFen64(monthly: Fen, start: Instant, end: Instant): Fen {
    if monthly <= 0 || end <= start || Seconds(start, end) <= 0 then 0
    else
      var product := Wrap64(monthly * Seconds(start, end));
      if product >= 0 then product / MONTH_SECONDS else -((-product) / MONTH_SECONDS)
  }

  lemma MonthlyFitsInt64(monthly: Fen, start: Instant, end: Instant)
    requires monthly < 0x8000_0000
    requires end - start < 0x1_0000_0000 * SECOND
    ensures ProrateMonthlyFen64(monthly, start, end) == ProrateMonthlyFen(monthly, start, end)
  {
    hide Wrap64;
    if monthly > 0 && start < end {
      var seconds := Seconds(start, end);
      if seconds > 0 {
        assert seconds <= 0x1_0000_0000;
        MulLe(monthly, seconds, 0x1_0000_0000);
        MulLe(0x1_0000_0000, monthly, 0x7fff_ffff);
        MulLe(monthly, 0, seconds);
        WrapFits(monthly * seconds);
      }
    }
  }

  // ---------- plan-change quote ----------

  /** One row of the quote's order query: an active order that has not ended. */
  datatype SourceOrder = SourceOrder(id: int, paid: Fen, start: Instant, end: Instant)

  datatype QuoteItem = QuoteItem(order: int, paid: Fen, refund: Fen, charge: Fen,
                                 sourceStart: Instant, sourceEnd: Instant, start: Instant, end: Instant)

  datatype Quote = Quote(cutoff: Instant, items: seq<QuoteItem>, charge: Fen, refund: Fen, tierMonths: nat,
                         tierBps: int)

  /** The plan of the instance's latest active order, and whether the instance is running or stopped. */
  datatype CurrentPlan = CurrentPlan(id: int, serving: bool)

  datatype QuoteError = NoCurrentPlan | NotInService | PlanUnavailable | NegativeMonthlyPrice | SamePlan
                      | NoUnfinishedOrder | TierOutOfRange | NegativeLine

  /**
   The refusals before the orders are read, in the order they are made; `price` is None for a plan
   that is not offered.
   */
  function QuoteRefusal(current: Option<CurrentPlan>, target: int, price: Option<Fen>,
                        sources: seq<SourceOrder>): (e: Option<QuoteError>)
    ensures e.None? <==>
              current.Some? && current.value.serving && price.Some? && price.value >= 0
              && current.value.id != target && sources != []
  {
    if current.None? then Some(NoCurrentPlan)
    else if !current.value.serving then Some(NotInService)
    else if price.None? then Some(PlanUnavailable)
    else if price.value < 0 then Some(NegativeMonthlyPrice)
    else if current.value.id == target then Some(SamePlan)
    else if sources == [] then Some(NoUnfinishedOrder)
    else None
  }

  function ItemFor(o: SourceOrder, now: Instant, rate: Fen): QuoteItem {
    var start := Later(now, o.start);
    QuoteItem(o.id, o.paid, PlanChangeOrderRefundFen(o.paid, o.start, o.end, now),
              ProrateMonthlyFen(rate, start, o.end), o.start, o.end, start, o.end)
  }

  function ItemsFor(sources: seq<SourceOrder>, now: Instant, rate: Fen): (items: seq<QuoteItem>)
    ensures |items| == |sources|
  {
    seq(|sources|, k requires 0 <= k < |sources| => ItemFor(sources[k], now, rate))
  }

  function SumCharges(items: seq<QuoteItem>): int {
    if items == [] then 0 else SumCharges(items[..|items| - 1]) + items[|items| - 1].charge
  }

  function SumRefunds(items: seq<QuoteItem>): int {
    if items == [] then 0 else SumRefunds(items[..|items| - 1]) + items[|items| - 1].refund
  }

  lemma SumChargesNonNegative(items: seq<QuoteItem>)
    requires forall k :: 0 <= k < |items| ==> items[k].charge >= 0
    ensures SumCharges(items) >= 0
  {
    if items != [] {
      SumChargesNonNegative(items[..|items| - 1]);
    }
  }

  function LatestEnd(sources: seq<SourceOrder>, now: Instant): Instant {
    if sources == [] then now
    else Later(LatestEnd(sources[..|sources| - 1], now), sources[|sources| - 1].end)
  }

  /** The tier's rate in basis points; a plan without that tier pays the full price. */
  function TierBps(tiers: map<nat, int>, months: nat): Option<int> {
    if months !in tiers then Some(FULL_BPS)
    else if 0 <= tiers[months] <= FULL_BPS then Some(tiers[months])
    else None
  }

  /** What the quote builder guarantees about every quote that reaches the create transaction. */
  predicate Balanced(q: Quote) {
    && q.items != []
    && q.charge == SumCharges(q.items)
    && q.refund == SumRefunds(q.items)
    && (forall k :: 0 <= k < |q.items| ==> q.items[k].charge >= 0 && 0 <= q.items[k].refund)
    && (forall k :: 0 <= k < |q.items| ==> q.items[k].paid >= 0 ==> q.items[k].refund <= q.items[k].paid)
  }

  /** `q` is `x / d` rounded down. */
  ghost predicate IsFloor(q: int, x: int, d: int) {
    q * d <= x < (q + 1) * d
  }

  /**
   One line of the quote in figures: what is left of the order's price by whole seconds, and the
   new rate for the same seconds by the thirty-day month.
   */
  ghost predicate Exchanges(item: QuoteItem, o: SourceOrder, now: Instant, rate: Fen) {
    var left := (o.end - item.start) / 1_000_000_000;
    var all := (o.end - o.start) / 1_000_000_000;
    && item.order == o.id && item.paid == o.paid && item.sourceStart == o.start && item.sourceEnd == o.end
    && item.end == o.end && item.start == (if now < o.start then o.start else now)
    && (if o.paid > 0 && item.start < o.end && o.start < o.end && left > 0 then IsFloor(item.refund, o.paid * left, all)
        else item.refund == 0)
    && (if rate > 0 && item.start < o.end then IsFloor(item.charge, rate * left, 30 * 86_400) else item.charge == 0)
  }

  lemma FloorIsDivision(x: int, d: int)
    requires d > 0
    ensures IsFloor(x / d, x, d)
  {
    assert x == d * (x / d) + x % d;
    assert (x / d + 1) * d == d * (x / d) + d;
  }

  lemma ItemExchanges(o: SourceOrder, now: Instant, rate: Fen)
    ensures Exchanges(ItemFor(o, now, rate), o, now, rate)
  {
    hide IsFloor;
    var start := Later(now, o.start);
    var left, all := Seconds(start, o.end), Seconds(o.start, o.end);
    if start < o.end {
      FloorIsDivision(rate * left, MONTH_SECONDS);
      if o.start < o.end {
        DivMonotone(o.end - start, o.end - o.start, SECOND);
        if all > 0 {
          FloorIsDivision(o.paid * left, all);
        }
      }
    }
  }

  lemma ItemBounds(o: SourceOrder, now: Instant, rate: Fen)
    ensures var item := ItemFor(o, now, rate);
            item.charge >= 0 && item.refund >= 0 && (item.paid >= 0 ==> item.refund <= item.paid)
  {
    MonthlyBounds(rate, Later(now, o.start), o.end);
    ProrationBounds(o.paid, o.start, o.end, now);
  }

  /** The whole quote in figures: the tier reached, its rate rounded down once, and every line at that rate. */
  ghost predicate QuotedInFigures(q: Quote, monthly: Fen, sources: seq<SourceOrder>, tiers: map<nat, int>,
                                  now: Instant) {
    && ReachedTier(q.tierMonths, now, LatestEnd(sources, now))
    && (if q.tierMonths in tiers then q.tierBps == tiers[q.tierMonths] && 0 <= q.tierBps <= 10_000
        else q.tierBps == 10_000)
    && q.cutoff == now && |q.items| == |sources|
    && exists rate :: IsFloor(rate, monthly * q.tierBps, 10_000)
                      && forall k :: 0 <= k < |sources| ==> Exchanges(q.items[k], sources[k], now, rate)
  }

  lemma RefusedTier(tiers: map<nat, int>, months: nat)
    requires TierBps(tiers, months).None?
    ensures months in tiers && !(0 <= tiers[months] <= 10_000)
  {
  }

  lemma FiguresOfQuote(q: Quote, monthly: Fen, sources: seq<SourceOrder>, tiers: map<nat, int>)
    requires q.tierMonths == PlanChangeTierMonths(q.cutoff, LatestEnd(sources, q.cutoff))
    requires TierBps(tiers, q.tierMonths) == Some(q.tierBps)
    requires q.items == ItemsFor(sources, q.cutoff, monthly * q.tierBps / FULL_BPS)
    ensures QuotedInFigures(q, monthly, sources, tiers, q.cutoff)
  {
    hide ItemFor, PlanChangeTierMonths, Exchanges, ReachedTier, IsFloor;
    var rate := monthly * q.tierBps / FULL_BPS;
    TierIsTheLongestReached(q.cutoff, LatestEnd(sources, q.cutoff));
    FloorIsDivision(monthly * q.tierBps, FULL_BPS);
    forall k | 0 <= k < |sources| ensures Exchanges(q.items[k], sources[k], q.cutoff, rate) {
      ItemExchanges(sources[k], q.cutoff, rate);
    }
  }

  method PeriodEnd(sources: seq<SourceOrder>, now: Instant) returns (end: Instant)
    ensures end == LatestEnd(sources, now)
  {
    end := now;
    for k := 0 to |sources|
      invariant end == LatestEnd(sources[..k], now)
    {
      assert sources[..k + 1][..k] == sources[..k];
      if end < sources[k].end {
        end := sources[k].end;
      }
    }
    assert sources[..|sources|] == sources;
  }

  /** The accumulator loop over the unfinished orders; no line is ever negative. */
  method PriceItems(sources: seq<SourceOrder>, now: Instant, rate: Fen)
    returns (ok: bool, items: seq<QuoteItem>, charge: Fen, refund: Fen)
    ensures ok && items == ItemsFor(sources, now, rate)
    ensures charge == SumCharges(items) && refund == SumRefunds(items)
    ensures forall k :: 0 <= k < |items| ==> items[k].charge >= 0 && 0 <= items[k].refund
    ensures forall k :: 0 <= k < |items| ==> items[k].paid >= 0 ==> items[k].refund <= items[k].paid
  {
    hide ItemFor;
    items, charge, refund := [], 0, 0;
    for k := 0 to |sources|
      invariant items == ItemsFor(sources, now, rate)[..k]
      invariant charge == SumCharges(items) && refund == SumRefunds(items)
      invariant forall j :: 0 <= j < k ==> items[j].charge >= 0 && 0 <= items[j].refund
      invariant forall j :: 0 <= j < k ==> items[j].paid >= 0 ==> items[j].refund <= items[j].paid
    {
      var item := ItemFor(sources[k], now, rate);
      ItemBounds(sources[k], now, rate);
      if item.charge < 0 || item.refund < 0 {
        return false, items, charge, refund;
      }
      assert (items + [item])[..k] == items;
      items, charge, refund := items + [item], charge + item.charge, refund + item.refund;
    }
    ok := true;
  }

  /** The quote endpoint: the refusals in their order, the tier, and the lines at its rate. */
  method BuildPlanChangeQuote(current: Option<CurrentPlan>, target: int, price: Option<Fen>, sources: seq<SourceOrder>,
                              tiers: map<nat, int>, now: Instant)
    returns (r: Result<Quote, QuoteError>)
    ensures var refusal := QuoteRefusal(current, target, price, sources);
            if refusal.Some? then r == Failure(refusal.value)
            else
              var months := PlanChangeTierMonths(now, LatestEnd(sources, now));
              var bps := TierBps(tiers, months);
              if bps.None? then r == Failure(TierOutOfRange)
              else
                r.Success?
                && r.value.items == ItemsFor(sources, now, price.value * bps.value / FULL_BPS)
                && r.value.cutoff == now && r.value.tierMonths == months && r.value.tierBps == bps.value
    ensures r.Success? ==> Balanced(r.value)
    ensures r.Success? ==> QuotedInFigures(r.value, price.value, sources, tiers, now)
    ensures r == Failure(TierOutOfRange) ==>
              exists t: nat :: ReachedTier(t, now, LatestEnd(sources, now)) && t in tiers && !(0 <= tiers[t] <= 10_000)
  {
    hide ItemFor, PlanChangeTierMonths, TierBps, QuotedInFigures, ReachedTier;
    if current.None? {
      return Failure(NoCurrentPlan);
    }
    if !current.value.serving {
      return Failure(NotInService);
    }
    if price.None? {
      return Failure(PlanUnavailable);
    }
    var monthly := price.value;
    if monthly < 0 {
      return Failure(NegativeMonthlyPrice);
    }
    if current.value.id == target {
      return Failure(SamePlan);
    }
    if sources == [] {
      return Failure(NoUnfinishedOrder);
    }
    var periodEnd := PeriodEnd(sources, now);
    var months := PlanChangeTierMonths(now, periodEnd);
    var bps := TierBps(tiers, months);
    if bps.None? {
      TierIsTheLongestReached(now, periodEnd);
      RefusedTier(tiers, months);
      return Failure(TierOutOfRange);
    }
    var rate := monthly * bps.value / FULL_BPS;
    var ok, items, charge, refund := PriceItems(sources, now, rate);
    if !ok {
      return Failure(NegativeLine);
    }
    r := Success(Quote(now, items, charge, refund, months, bps.value));
    FiguresOfQuote(r.value, monthly, sources, tiers);
  }

  /** Orders that follow each other without a gap. */
  ghost predicate Contiguous(sources: seq<SourceOrder>) {
    && (forall k :: 0 <= k < |sources| ==> sources[k].start < sources[k].end)
    && (forall k :: 0 < k < |sources| ==> sources[k].start == sources[k - 1].end)
  }

  ghost predicate Unfinished(sources: seq<SourceOrder>, now: Instant) {
    forall k :: 0 <= k < |sources| ==> now < sources[k].end
  }

  lemma OrderedChain(sources: seq<SourceOrder>, k: nat)
    requires Contiguous(sources) && k < |sources|
    ensures sources[0].start < sources[k].end
    ensures k > 0 ==> sources[0].end <= sources[k].start
  {
    if k > 0 {
      OrderedChain(sources, k - 1);
    }
  }

  /** The exchange keeps the service window: contiguous, from the cutoff to the same end. */
  lemma ExchangeKeepsTheChain(sources: seq<SourceOrder>, now: Instant, rate: Fen, k: nat)
    requires Contiguous(sources) && Unfinished(sources, now) && k < |sources|
    ensures var items := ItemsFor(sources, now, rate);
            && items[0].start == Later(now, sources[0].start)
            && items[k].start < items[k].end
            && (k > 0 ==> items[k].start == items[k - 1].end == sources[k].start)
            && items[|sources| - 1].end == sources[|sources| - 1].end
  {
    if k > 0 {
      OrderedChain(sources, k);
    }
  }

  /** Splitting one window at an instant inside it. */
  lemma MonthlySplit(rate: Fen, a: Instant, b: Instant, c: Instant)
    requires a < b < c && rate >= 0
    ensures var parts := ProrateMonthlyFen(rate, a, b) + ProrateMonthlyFen(rate, b, c);
            && parts <= ProrateMonthlyFen(rate, a, c)
            && ((b - a) % SECOND == 0 ==> ProrateMonthlyFen(rate, a, c) <= parts + 1)
  {
    var x, y, z := Seconds(a, b), Seconds(b, c), Seconds(a, c);
    SecondsSplit(a, b, c);
    FloorSplit(rate, x, y);
    MulLe(rate, x + y, z);
    DivMonotone(rate * (x + y), rate * z, MONTH_SECONDS);
  }

  ghost predicate SecondAligned(sources: seq<SourceOrder>, now: Instant) {
    && now % SECOND == 0
    && forall k :: 0 <= k < |sources| ==> sources[k].start % SECOND == 0 && sources[k].end % SECOND == 0
  }

  function Sum(xs: seq<int>): int {
    if xs == [] then 0 else Sum(xs[..|xs| - 1]) + xs[|xs| - 1]
  }

  /** Pieces that telescope: each whole is the previous whole plus the next piece, short by at most one fen. */
  lemma {:induction false} Telescope(pieces: seq<int>, wholes: seq<int>, n: nat, tight: bool)
    requires 0 < n <= |pieces| == |wholes| && wholes[0] == pieces[0]
    requires forall k :: 0 < k < |pieces| ==> wholes[k - 1] + pieces[k] <= wholes[k]
    requires tight ==> forall k :: 0 < k < |pieces| ==> wholes[k] <= wholes[k - 1] + pieces[k] + 1
    ensures Sum(pieces[..n]) <= wholes[n - 1] && (tight ==> wholes[n - 1] < Sum(pieces[..n]) + n)
  {
    assert pieces[..n][..n - 1] == pieces[..n - 1];
    if n == 1 {
      assert Sum(pieces[..0]) == 0;
    } else {
      Telescope(pieces, wholes, n - 1, tight);
    }
  }

  function Charges(items: seq<QuoteItem>): (xs: seq<int>)
    ensures |xs| == |items| && Sum(xs) == SumCharges(items)
  {
    if items == [] then []
    else
      var init := items[..|items| - 1];
      var xs := Charges(init) + [items[|items| - 1].charge];
      assert xs[..|xs| - 1] == Charges(init);
      xs
  }

  lemma ChargesAt(items: seq<QuoteItem>, k: nat)
    requires k < |items|
    ensures Charges(items)[k] == items[k].charge
  {
  }

  function Wholes(sources: seq<SourceOrder>, now: Instant, rate: Fen): (xs: seq<int>)
    ensures |xs| == |sources|
  {
    seq(|sources|, k requires 0 <= k < |sources| =>
      ProrateMonthlyFen(rate, Later(now, sources[0].start), sources[k].end))
  }

  lemma WindowSplit(sources: seq<SourceOrder>, now: Instant, rate: Fen, k: nat)
    requires Contiguous(sources) && Unfinished(sources, now) && 0 < k < |sources| && rate >= 0
    ensures var w, c := Wholes(sources, now, rate), ItemFor(sources[k], now, rate).charge;
            && w[k - 1] + c <= w[k]
            && (SecondAligned(sources, now) ==> w[k] <= w[k - 1] + c + 1)
  {
    ExchangeKeepsTheChain(sources, now, rate, k);
    OrderedChain(sources, k - 1);
    MonthlySplit(rate, Later(now, sources[0].start), sources[k - 1].end, sources[k].end);
    if SecondAligned(sources, now) {
      AlignedDifference(sources[k - 1].end, Later(now, sources[0].start));
    }
  }

  lemma AlignedDifference(a: Instant, b: Instant)
    requires a % SECOND == 0 && b % SECOND == 0
    ensures (a - b) % SECOND == 0
  {
  }

  /** Charging the chain piece by piece, compared with charging the whole window at once. */
  lemma PiecewiseCharge(sources: seq<SourceOrder>, now: Instant, rate: Fen)
    requires Contiguous(sources) && Unfinished(sources, now) && sources != [] && rate >= 0
    ensures var n := |sources|;
            var whole := ProrateMonthlyFen(rate, Later(now, sources[0].start), sources[n - 1].end);
            var pieces := SumCharges(ItemsFor(sources, now, rate));
            pieces <= whole && (SecondAligned(sources, now) ==> whole < pieces + n)
  {
    var items, n := ItemsFor(sources, now, rate), |sources|;
    var pieces, wholes := Charges(items), Wholes(sources, now, rate);
    forall k | 0 <= k < n ensures pieces[k] == ItemFor(sources[k], now, rate).charge {
      ChargesAt(items, k);
    }
    forall k | 0 < k < n
      ensures wholes[k - 1] + pieces[k] <= wholes[k]
      ensures SecondAligned(sources, now) ==> wholes[k] <= wholes[k - 1] + pieces[k] + 1
    {
      WindowSplit(sources, now, rate, k);
    }
    Telescope(pieces, wholes, n, SecondAligned(sources, now));
    assert pieces[..n] == pieces;
  }
}
