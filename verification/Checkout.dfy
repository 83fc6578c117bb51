/**
 Buying and renewing as one transaction: the quote, the charge, the order and the benefit it spends.
 */
module Checkout {
  import opened Wrappers
  import opened Billing
  import opened Schema
  import opened Evolution
  import opened TaskQueue
  import opened Commerce
  import opened Accounting
  import opened Benefits
  import opened Budgets

  /** A plan as the catalogue has it. */
  datatype Offer = Offer(enabled: bool, monthly: Fen, tiers: map<int, int>, resources: Resources)

  /** A promotion code that was typed in, and the code row its hash found. */
  datatype Promo = NoCode | Typed(found: Option<CodeId>)

  /** `ids` are the programs in query order and `monthsEnd` is the calendar's end of the paid months. */
  datatype Basket = Basket(buyer: Buyer, offer: Offer, promo: Promo, ids: seq<ProgramId>, monthsEnd: Instant)

  /** The tables, the benefit desk, and the list price column of the orders. */
  datatype Shop = Shop(db: Db, desk: Desk, lists: map<OrderId, Fen>)

  // ---------- the quote ----------

  datatype Sale = Sale(quote: BenefitQuote, code: Option<CodeId>, grant: bool)

  predicate ValidMonths(months: int) {
    months in {1, 3, 6, 12}
  }

  datatype Pick = Refused | Unaided | Aided(program: ProgramId, code: Option<CodeId>)

  /** The program the order gets: the code's, or the best of those that need none. */
  function PickFor(desk: Desk, b: Basket, list: int): Pick {
    if b.promo.Typed? then
      if b.promo.found.Some? && QuotedCode(desk, b.promo.found.value, b.buyer, list)
      then Aided(desk.codes[b.promo.found.value].program, b.promo.found) else Refused
    else
      var best := StableSorted(desk.programs, list, Matching(desk, b.ids, b.buyer, list));
      if best == [] then Unaided else Aided(best[0], None)
  }

  /** The quote; None refuses the order. */
  function SaleFor(desk: Desk, b: Basket): Option<Sale> {
    var list := TierPrice(b.offer.tiers, b.buyer.months, b.offer.monthly);
    if !b.offer.enabled || !ValidMonths(b.buyer.months) || list.None? then None
    else
      match PickFor(desk, b, list.value)
      case Refused => None
      case Unaided => Some(Sale(Price(desk.programs, list.value, None), None, false))
      case Aided(id, code) =>
        if id !in desk.programs then None
        else Some(Sale(Price(desk.programs, list.value, Some(id)), code, NeedsGrant(desk.programs[id])))
  }

  method PickProgram(desk: Desk, b: Basket, list: int) returns (pick: Pick)
    ensures pick == PickFor(desk, b, list)
    ensures pick.Aided? ==> pick.program in desk.programs
  {
    hide Eligible, Matching, StableSorted, Better, OutranksOrTies, Leads;
    if b.promo.NoCode? {
      var best := ChooseAutomatic(desk, b.ids, b.buyer, list);
      HeadOfMatches(desk, b.ids, b.buyer, list);
      return if best.None? then Unaided else Aided(best.value, None);
    }
    var code := b.promo.found;
    if code.None? || code.value !in desk.codes {
      return Refused;
    }
    var row := desk.codes[code.value];
    if !row.enabled || (row.starts.Some? && desk.now < row.starts.value)
       || (row.ends.Some? && row.ends.value <= desk.now) {
      return Refused;
    }
    var eligible := ProgramEligible(desk, row.program, b.buyer, list);
    if !eligible {
      return Refused;
    }
    EligibleIsKnown(desk, row.program, b.buyer, list);
    return if desk.programs[row.program].trigger == PromoCode then Aided(row.program, code) else Refused;
  }

  /** The quote with its code or without one: the tier's price, the program, and what it takes off. */
  method QuoteBenefit(desk: Desk, b: Basket) returns (sale: Option<Sale>)
    ensures sale == SaleFor(desk, b)
  {
    hide PickFor, BenefitDiscount;
    var m := b.buyer.months;
    if (m != 1 && m != 3 && m != 6 && m != 12) || !b.offer.enabled {
      return None;
    }
    var list := b.offer.monthly * m;
    if m in b.offer.tiers {
      if b.offer.tiers[m] < 0 || b.offer.tiers[m] > 10_000 {
        return None;
      }
      list := b.offer.monthly * m * b.offer.tiers[m] / 10_000;
    }
    var pick := PickProgram(desk, b, list);
    match pick {
      case Refused => return None;
      case Unaided => return Some(Sale(BenefitQuote(list, 0, list, 0, None), None, false));
      case Aided(id, code) =>
        var p := desk.programs[id];
        var discount, days := DiscountOf(p, list);
        return Some(Sale(BenefitQuote(list, discount, list - discount, days, Some(id)), code,
                         p.trigger == Targeted || p.audience == Chosen));
    }
  }

  /** The head of the sorted matches is a candidate that none of the others outranks. */
  lemma HeadOfMatches(desk: Desk, ids: seq<ProgramId>, b: Buyer, list: int)
    ensures var best := StableSorted(desk.programs, list, Matching(desk, ids, b, list));
            && (best == [] <==> forall k :: 0 <= k < |ids| ==> !Candidate(desk, ids[k], b, list))
            && (best != [] ==>
                  best[0] in desk.programs && Candidate(desk, best[0], b, list)
                  && forall k :: 0 <= k < |ids| && Candidate(desk, ids[k], b, list) ==>
                       ids[k] in desk.programs
                       && OutranksOrTies(desk.programs[best[0]], desk.programs[ids[k]], list))
  {
    hide Candidate, Better, OutranksOrTies, StableSorted, Leads;
    var matches := Matching(desk, ids, b, list);
    CandidatesAreKnown(desk, matches, b, list);
    SortIsStablePermutation(desk.programs, list, matches);
    forall k | 0 <= k < |ids| && Candidate(desk, ids[k], b, list) ensures ids[k] in matches {
      MatchingFinds(desk, ids, b, list, k);
    }
    MatchesAreListed(desk, ids, b, list);
    if matches != [] {
      BestIsNotOutranked(desk, matches, list, StableSorted(desk.programs, list, matches)[0]);
      assert matches[0] in ids;
    }
  }

  lemma {:induction false} MatchesAreListed(desk: Desk, ids: seq<ProgramId>, b: Buyer, list: int)
    ensures forall k :: 0 <= k < |Matching(desk, ids, b, list)| ==> Matching(desk, ids, b, list)[k] in ids
  {
    hide Candidate;
    if ids != [] {
      MatchesAreListed(desk, ids[..|ids| - 1], b, list);
    }
  }

  function RedemptionFor(s: Sale, owner: UserId, o: OrderId): Redemption
    requires s.quote.program.Some?
  {
    Redemption(s.quote.program.value, s.code, s.grant, owner, o, s.quote.discount, s.quote.days)
  }

  predicate CanConsume(desk: Desk, s: Sale, owner: UserId, o: OrderId) {
    s.quote.program.Some? ==> CanRedeem(desk, RedemptionFor(s, owner, o))
  }

  function Consumed(desk: Desk, s: Sale, owner: UserId, o: OrderId): Desk {
    if s.quote.program.Some? then Redeem(desk, RedemptionFor(s, owner, o)) else desk
  }

  // ---------- the two transactions ----------

  datatype NewIds = NewIds(order: OrderId, instance: InstanceId, task: TaskId)

  function PurchaseOf(b: Basket, s: Sale, ids: NewIds, node: NodeId): Purchase {
    Purchase(b.buyer.owner, ids.order, ids.instance, ids.task, node, b.offer.resources, s.quote.amount,
             b.monthsEnd + s.quote.days * DAY)
  }

  predicate Sells(shop: Shop, b: Basket, ids: NewIds, node: NodeId) {
    b.buyer.request.ForPurchase?
    && var sale := SaleFor(shop.desk, b);
       sale.Some? && CanPurchase(shop.db, PurchaseOf(b, sale.value, ids, node))
       && CanConsume(shop.desk, sale.value, b.buyer.owner, ids.order)
  }

  /** All of it or nothing. */
  function Buying(shop: Shop, b: Basket, ids: NewIds, node: NodeId): Shop {
    if !Sells(shop, b, ids, node) then shop
    else
      var sale := SaleFor(shop.desk, b).value;
      Shop(PurchaseWithWallet(shop.db, PurchaseOf(b, sale, ids, node)),
           Consumed(shop.desk, sale, b.buyer.owner, ids.order), shop.lists[ids.order := sale.quote.list])
  }

  function RenewalOf(b: Basket, s: Sale, source: OrderId, ids: NewIds): Renewal {
    Renewal(source, ids.order, ids.task, s.quote.amount, b.monthsEnd + s.quote.days * DAY)
  }

  predicate Extends(shop: Shop, b: Basket, source: OrderId, ids: NewIds) {
    b.buyer.request.ForRenewal? && source in shop.db.orders && shop.db.orders[source].owner == b.buyer.owner
    && var sale := SaleFor(shop.desk, b);
       sale.Some? && CanRenew(shop.db, RenewalOf(b, sale.value, source, ids))
       && CanConsume(shop.desk, sale.value, b.buyer.owner, ids.order)
  }

  function Extending(shop: Shop, b: Basket, source: OrderId, ids: NewIds): Shop {
    if !Extends(shop, b, source, ids) then shop
    else
      var sale := SaleFor(shop.desk, b).value;
      Shop(RenewWithWallet(shop.db, RenewalOf(b, sale, source, ids)),
           Consumed(shop.desk, sale, b.buyer.owner, ids.order), shop.lists[ids.order := sale.quote.list])
  }

  // ---------- what a sale asks for ----------

  ghost predicate Unused(limit: int, used: int, more: int) {
    limit > 0 ==> used + more <= limit
  }

  /** What a program's row, its limits and its audience ask of an order that is given its benefit. */
  ghost predicate MeetsTerms(desk: Desk, b: Buyer, list: int, r: Redemption) {
    r.program in desk.programs && r.owner == b.owner
    && var p := desk.programs[r.program];
       && (p.status == Active || p.status == Scheduled)
       && (p.starts.Some? ==> p.starts.value <= desk.now) && (p.ends.Some? ==> desk.now < p.ends.value)
       && p.scope != (if b.request.ForRenewal? then OnPurchase else OnRenewal)
       && p.minAmount <= list && (p.plans != [] ==> b.plan in p.plans) && (p.months != [] ==> b.months in p.months)
       && Unused(p.totalLimit, p.used, 1) && Unused(p.cashBudget, p.cashSpent, r.discount)
       && Unused(p.daysLimit, p.daysUsed, r.days)
       && Unused(p.perUser, Tally(desk.redemptions, ByUser(r.program, b.owner), Uses), 1)
       && (p.audience == FirstPaid ==> b.paidOrders == 0) && (p.audience == FirstPlan ==> b.paidForPlan == 0)
       && (p.audience == Lapsed ==> b.expiry.Some? && b.expiry.value <= desk.now)
       && (p.audience == Expiring ==>
             b.expiry.Some? && desk.now < b.expiry.value <= desk.now + 7 * 86_400 * 1_000_000_000)
       && (r.grant <==> p.trigger == Targeted || p.audience == Chosen)
       && (r.grant ==> (r.program, b.owner) in desk.grants
                       && var grant := desk.grants[(r.program, b.owner)];
                          grant.status == Available && (grant.expires.Some? ==> desk.now < grant.expires.value))
       && TakesOff(p, list, r.discount, r.days)
  }

  /** The promotion code that was typed in, or none and then nothing better that needs none. */
  ghost predicate RightlyChosen(desk: Desk, b: Basket, list: int, r: Redemption)
    requires r.program in desk.programs
  {
    if b.promo.Typed? then
      r.code.Some? && r.code == b.promo.found && r.code.value in desk.codes
      && var code := desk.codes[r.code.value];
         code.program == r.program && code.enabled && desk.programs[r.program].trigger == PromoCode
         && (code.starts.Some? ==> code.starts.value <= desk.now) && (code.ends.Some? ==> desk.now < code.ends.value)
    else
      r.code.None? && desk.programs[r.program].trigger != PromoCode
      && forall k :: 0 <= k < |b.ids| && Candidate(desk, b.ids[k], b.buyer, list) ==>
           b.ids[k] in desk.programs && OutranksOrTies(desk.programs[r.program], desk.programs[b.ids[k]], list)
  }

  /** Without a benefit no code was typed in and no program was to be had. */
  ghost predicate NothingToHave(desk: Desk, b: Basket, list: int) {
    b.promo.NoCode? && forall k :: 0 <= k < |b.ids| ==> !Candidate(desk, b.ids[k], b.buyer, list)
  }

  lemma EligibleMeetsTerms(desk: Desk, id: ProgramId, b: Buyer, list: int, code: Option<CodeId>, o: OrderId)
    requires Eligible(desk, id, b, list) && ValidProgram(desk.programs[id]) && list >= 0
    requires b.paidOrders >= 0 && b.paidForPlan >= 0
    ensures var q := Price(desk.programs, list, Some(id));
            MeetsTerms(desk, b, list,
                       Redemption(id, code, NeedsGrant(desk.programs[id]), b.owner, o, q.discount, q.days))
  {
    hide BenefitDiscount, TakesOff, ValidProgram;
    DiscountInFigures(desk.programs[id], list);
  }

  lemma SaleMeetsTerms(desk: Desk, b: Basket, o: OrderId)
    requires ValidDesk(desk) && b.offer.monthly >= 0 && SaleFor(desk, b).Some?
    requires b.buyer.paidOrders >= 0 && b.buyer.paidForPlan >= 0
    ensures var sale := SaleFor(desk, b).value;
            var list := sale.quote.list;
            if sale.quote.program.None? then NothingToHave(desk, b, list)
            else
              var r := RedemptionFor(sale, b.buyer.owner, o);
              MeetsTerms(desk, b.buyer, list, r) && RightlyChosen(desk, b, list, r)
  {
    hide Eligible, Matching, StableSorted, NeedsGrant, BenefitDiscount, TierPrice, ValidProgram, ValidDesk;
    hide MeetsTerms, OutranksOrTies;
    SalePrices(desk, b);
    var sale := SaleFor(desk, b).value;
    var list := sale.quote.list;
    HeadOfMatches(desk, b.ids, b.buyer, list);
    if b.promo.Typed? {
      EligibleIsKnown(desk, desk.codes[b.promo.found.value].program, b.buyer, list);
    }
    if sale.quote.program.Some? {
      var id := sale.quote.program.value;
      ProgramIsValid(desk, id);
      EligibleMeetsTerms(desk, id, b.buyer, list, sale.code, o);
    }
  }

  // ---------- what a sale costs ----------

  /** Programs are checked when they are saved (src/commercial_benefits.go:127). */
  predicate ValidDesk(desk: Desk) {
    forall id :: id in desk.programs ==> ValidProgram(desk.programs[id])
  }

  /** Plan prices are checked when they are saved, and the counts are counts. */
  predicate ValidBasket(b: Basket) {
    b.offer.monthly >= 0 && b.buyer.paidOrders >= 0 && b.buyer.paidForPlan >= 0
  }

  lemma ChosenIsValid(desk: Desk, chosen: Option<ProgramId>)
    requires ValidDesk(desk)
    ensures chosen.Some? && chosen.value in desk.programs ==> ValidProgram(desk.programs[chosen.value])
  {
    if chosen.Some? && chosen.value in desk.programs {
      ProgramIsValid(desk, chosen.value);
    }
  }

  lemma ProgramIsValid(desk: Desk, id: ProgramId)
    requires ValidDesk(desk) && id in desk.programs
    ensures ValidProgram(desk.programs[id])
  {
  }

  lemma SalePrices(desk: Desk, b: Basket)
    requires ValidDesk(desk) && b.offer.monthly >= 0 && SaleFor(desk, b).Some?
    ensures var q := SaleFor(desk, b).value.quote;
            && TierPrice(b.offer.tiers, b.buyer.months, b.offer.monthly) == Some(q.list)
            && IsListPrice(q.list, b.offer.tiers, b.buyer.months, b.offer.monthly)
            && q.amount + q.discount == q.list && 0 <= q.amount && 0 <= q.discount && 0 <= q.days
            && q.list <= b.offer.monthly * b.buyer.months
            && (q.program.None? ==> q.discount == 0 && q.days == 0)
            && (q.program.Some? ==> q.program.value in desk.programs)
  {
    hide Eligible, Matching, StableSorted, NeedsGrant, BenefitDiscount, TierPrice, ValidProgram, ValidDesk;
    hide IsListPrice;
    MulLe(b.buyer.months, 0, b.offer.monthly);
    assert b.offer.monthly * b.buyer.months == b.buyer.months * b.offer.monthly;
    TierNeverRaises(b.offer.tiers, b.buyer.months, b.offer.monthly);
    TierInFigures(b.offer.tiers, b.buyer.months, b.offer.monthly);
    var q := SaleFor(desk, b).value.quote;
    assert q.list == TierPrice(b.offer.tiers, b.buyer.months, b.offer.monthly).value;
    assert q == Price(desk.programs, q.list, q.program);
    ChosenIsValid(desk, q.program);
    PriceSplits(desk.programs, q.list, q.program);
  }

  /**
   What an order cost the wallet and what it cost the benefit add up to its list price; the benefit
   is the one its code names, or the best there was, and its program's terms are met.
   */
  ghost predicate SplitsPrice(before: Shop, after: Shop, b: Basket, o: OrderId) {
    o in after.db.orders && o !in before.db.orders
    && var user := b.buyer.owner;
       var paid := after.db.orders[o].amount;
       user in before.db.wallets && after.db.wallets == before.db.wallets[user := before.db.wallets[user] - paid]
       && o in after.lists
       && var list := after.lists[o];
          && IsListPrice(list, b.offer.tiers, b.buyer.months, b.offer.monthly) && after.lists == before.lists[o := list]
          && 0 <= paid <= list <= b.offer.monthly * b.buyer.months
          && ((after.desk == before.desk && paid == list && after.db.orders[o].end == b.monthsEnd
               && NothingToHave(before.desk, b, list))
              || exists r: Redemption ::
                   after.desk.redemptions == before.desk.redemptions + [r] && r.order == o && r.owner == user
                   && paid + r.discount == list
                   && after.db.orders[o].end == b.monthsEnd + r.days * (86_400 * 1_000_000_000)
                   && MeetsTerms(before.desk, b.buyer, list, r) && RightlyChosen(before.desk, b, list, r))
  }

  lemma ConsumptionRecords(desk: Desk, s: Sale, owner: UserId, o: OrderId)
    requires CanConsume(desk, s, owner, o)
    ensures s.quote.program.None? ==> Consumed(desk, s, owner, o) == desk
    ensures Consumed(desk, s, owner, o).redemptions
            == if s.quote.program.Some? then desk.redemptions + [RedemptionFor(s, owner, o)] else desk.redemptions
  {
    hide CanSpend, CanUseCode;
  }

  lemma PurchasePays(db: Db, p: Purchase)
    requires CanPurchase(db, p)
    ensures var after := PurchaseWithWallet(db, p);
            p.order !in db.orders && p.user in db.wallets
            && after.wallets == db.wallets[p.user := db.wallets[p.user] - p.amount]
            && after.orders == db.orders[p.order := Order(p.user, p.instance, p.amount, OrderDeploying, db.now, p.end)]
  {
    hide EvolvesQuietly, QueueOnly;
    assert p.amount == 0 ==> db.wallets[p.user := db.wallets[p.user] - p.amount] == db.wallets;
  }

  lemma RenewalPays(db: Db, r: Renewal)
    requires CanRenew(db, r)
    ensures var after := RenewWithWallet(db, r);
            var user := db.orders[r.source].owner;
            r.order !in db.orders && user in db.wallets
            && after.wallets == db.wallets[user := db.wallets[user] - r.amount]
            && r.order in after.orders && after.orders[r.order].amount == r.amount && after.orders[r.order].end == r.end
            && forall o :: o in db.orders ==> o in after.orders && after.orders[o] == db.orders[o]
  {
    hide EvolvesQuietly, RenewWithWallet, BlocksRenewal, LockFree;
    RenewEffect(db, r);
    var user := db.orders[r.source].owner;
    assert r.amount == 0 ==> db.wallets[user := db.wallets[user] - r.amount] == db.wallets;
  }

  /**
   A purchase commits with its charge, its order and its benefit or not at all; the wallet pays the
   list price of the tier less the discount, and the service gets the bonus days.
   */
  lemma BuyingSplitsThePrice(shop: Shop, b: Basket, ids: NewIds, node: NodeId)
    requires ValidDesk(shop.desk) && ValidBasket(b)
    ensures var after := Buying(shop, b, ids, node);
            if Sells(shop, b, ids, node) then b.buyer.request.ForPurchase? && SplitsPrice(shop, after, b, ids.order)
            else after == shop
  {
    hide SaleFor, CanPurchase, PurchaseWithWallet, CanRedeem, Redeem, TierPrice;
    hide IsListPrice, MeetsTerms, RightlyChosen, NothingToHave;
    if Sells(shop, b, ids, node) {
      var sale := SaleFor(shop.desk, b).value;
      SalePrices(shop.desk, b);
      SaleMeetsTerms(shop.desk, b, ids.order);
      PurchasePays(shop.db, PurchaseOf(b, sale, ids, node));
      ConsumptionRecords(shop.desk, sale, b.buyer.owner, ids.order);
    }
  }

  lemma ExtendingSplitsThePrice(shop: Shop, b: Basket, source: OrderId, ids: NewIds)
    requires ValidDesk(shop.desk) && ValidBasket(b)
    ensures var after := Extending(shop, b, source, ids);
            if Extends(shop, b, source, ids) then b.buyer.request.ForRenewal? && SplitsPrice(shop, after, b, ids.order)
            else after == shop
  {
    hide SaleFor, CanRenew, RenewWithWallet, CanRedeem, Redeem, TierPrice;
    hide IsListPrice, MeetsTerms, RightlyChosen, NothingToHave;
    if Extends(shop, b, source, ids) {
      var sale := SaleFor(shop.desk, b).value;
      SalePrices(shop.desk, b);
      SaleMeetsTerms(shop.desk, b, ids.order);
      RenewalPays(shop.db, RenewalOf(b, sale, source, ids));
      ConsumptionRecords(shop.desk, sale, b.buyer.owner, ids.order);
    }
  }

  // ---------- over runs ----------

  /** `Elsewhere` is anything else that happens to the tables; it may do whatever a step may. */
  datatype Deal =
    | Purchasing(b: Basket, ids: NewIds, node: NodeId)
    | Renewing(b: Basket, source: OrderId, ids: NewIds)
    | Editing(e: Edit)
    | Elsewhere(next: Db)

  predicate ValidDeal(d: Deal) {
    match d
    case Purchasing(b, _, _) => ValidBasket(b)
    case Renewing(b, _, _) => ValidBasket(b)
    case Editing(e) => e.SaveProgram? ==> ValidProgram(e.row)
    case Elsewhere(_) => true
  }

  ghost function Trade(shop: Shop, d: Deal): Shop {
    match d
    case Purchasing(b, ids, node) => Buying(shop, b, ids, node)
    case Renewing(b, source, ids) => Extending(shop, b, source, ids)
    case Editing(e) => shop.(desk := ApplyEdit(shop.desk, e))
    case Elsewhere(next) => if Evolves(shop.db, next) then shop.(db := next) else shop
  }

  ghost function TradeAll(shop: Shop, deals: seq<Deal>): Shop
    decreases |deals|
  {
    if deals == [] then shop else TradeAll(Trade(shop, deals[0]), deals[1..])
  }

  /** The price of the order has been paid: by the wallet alone, or together with its redemption. */
  ghost predicate Settles(shop: Shop, o: OrderId)
    requires o in shop.lists
  {
    o in shop.db.orders
    && ((exists k :: 0 <= k < |shop.desk.redemptions| && shop.desk.redemptions[k].order == o
                     && shop.db.orders[o].amount + shop.desk.redemptions[k].discount == shop.lists[o])
        || shop.db.orders[o].amount == shop.lists[o])
  }

  /** Every redemption took its discount off the list price of an order, and nothing else was ever taken off. */
  ghost predicate Paid(shop: Shop) {
    && ValidDesk(shop.desk)
    && (forall o :: o in shop.lists ==> Settles(shop, o))
    && (forall k :: 0 <= k < |shop.desk.redemptions| ==>
          var r := shop.desk.redemptions[k];
          r.order in shop.lists && r.order in shop.db.orders
          && shop.db.orders[r.order].amount + r.discount == shop.lists[r.order])
  }

  /** No order loses its row or changes its price. */
  ghost predicate SamePrices(a: Db, b: Db) {
    forall o :: o in a.orders ==> o in b.orders && b.orders[o].amount == a.orders[o].amount
  }

  lemma EvolutionKeepsPrices(a: Db, b: Db)
    requires Evolves(a, b)
    ensures SamePrices(a, b)
  {
  }

  lemma ElsewhereKeepsPaid(shop: Shop, next: Db)
    requires Paid(shop) && SamePrices(shop.db, next)
    ensures Paid(shop.(db := next))
  {
    var after := shop.(db := next);
    forall o | o in after.lists ensures Settles(after, o) {
      assert Settles(shop, o);
    }
  }

  lemma SaleKeepsPaid(before: Shop, after: Shop, b: Basket, o: OrderId)
    requires Paid(before) && SplitsPrice(before, after, b, o)
    requires SamePrices(before.db, after.db) && ValidDesk(after.desk)
    ensures Paid(after)
  {
    hide ValidDesk;
    var earlier, later := before.desk.redemptions, after.desk.redemptions;
    assert forall k :: 0 <= k < |earlier| ==> later[k] == earlier[k];
    forall p | p in after.lists ensures Settles(after, p) {
      if p in before.lists {
        assert Settles(before, p) && p != o;
        if k :| 0 <= k < |earlier| && earlier[k].order == p
                && before.db.orders[p].amount + earlier[k].discount == before.lists[p] {
          assert later[k].order == p;
        }
      } else if |later| > |earlier| {
        assert later[|earlier|].order == o;
      }
    }
    forall k | 0 <= k < |later|
      ensures later[k].order in after.lists && later[k].order in after.db.orders
              && after.db.orders[later[k].order].amount + later[k].discount == after.lists[later[k].order]
    {
      if k < |earlier| {
        assert earlier[k].order in before.lists && Settles(before, earlier[k].order);
      }
    }
  }

  lemma ConsumptionKeepsPrograms(desk: Desk, s: Sale, owner: UserId, o: OrderId)
    requires ValidDesk(desk)
    ensures ValidDesk(Consumed(desk, s, owner, o))
  {
    hide CanUseCode;
  }

  lemma EditKeepsPrograms(desk: Desk, e: Edit)
    requires ValidDesk(desk) && (e.SaveProgram? ==> ValidProgram(e.row))
    ensures ValidDesk(ApplyEdit(desk, e)) && ApplyEdit(desk, e).redemptions == desk.redemptions
  {
  }

  lemma DealKeepsPaid(shop: Shop, d: Deal)
    requires Paid(shop) && ValidDeal(d)
    ensures Paid(Trade(shop, d))
  {
    hide Paid, SplitsPrice, Evolves, SamePrices, Sells, Extends, ApplyEdit, Consumed;
    hide PurchaseWithWallet, RenewWithWallet;
    PaidPrograms(shop);
    match d
    case Purchasing(b, ids, node) =>
      BuyingSplitsThePrice(shop, b, ids, node);
      if Sells(shop, b, ids, node) {
        SoldApart(shop, b, ids, node);
        SaleKeepsPaid(shop, Buying(shop, b, ids, node), b, ids.order);
      }
    case Renewing(b, source, ids) =>
      ExtendingSplitsThePrice(shop, b, source, ids);
      if Extends(shop, b, source, ids) {
        ExtendedApart(shop, b, source, ids);
        SaleKeepsPaid(shop, Extending(shop, b, source, ids), b, ids.order);
      }
    case Editing(e) =>
      EditKeepsPrograms(shop.desk, e);
      EditKeepsPaid(shop, ApplyEdit(shop.desk, e));
    case Elsewhere(next) =>
      if Evolves(shop.db, next) {
        EvolutionKeepsPrices(shop.db, next);
        ElsewhereKeepsPaid(shop, next);
      }
  }

  lemma PaidPrograms(shop: Shop)
    requires Paid(shop)
    ensures ValidDesk(shop.desk)
  {
  }

  lemma SoldApart(shop: Shop, b: Basket, ids: NewIds, node: NodeId)
    requires ValidDesk(shop.desk) && Sells(shop, b, ids, node)
    ensures SamePrices(shop.db, Buying(shop, b, ids, node).db) && ValidDesk(Buying(shop, b, ids, node).desk)
  {
    hide ValidDesk, Evolves, PurchaseWithWallet, Consumed, SaleFor, SamePrices;
    var sale := SaleFor(shop.desk, b).value;
    EvolutionKeepsPrices(shop.db, PurchaseWithWallet(shop.db, PurchaseOf(b, sale, ids, node)));
    ConsumptionKeepsPrograms(shop.desk, sale, b.buyer.owner, ids.order);
  }

  lemma ExtendedApart(shop: Shop, b: Basket, source: OrderId, ids: NewIds)
    requires ValidDesk(shop.desk) && Extends(shop, b, source, ids)
    ensures SamePrices(shop.db, Extending(shop, b, source, ids).db) && ValidDesk(Extending(shop, b, source, ids).desk)
  {
    hide ValidDesk, Evolves, RenewWithWallet, Consumed, SaleFor, SamePrices;
    var sale := SaleFor(shop.desk, b).value;
    EvolutionKeepsPrices(shop.db, RenewWithWallet(shop.db, RenewalOf(b, sale, source, ids)));
    ConsumptionKeepsPrograms(shop.desk, sale, b.buyer.owner, ids.order);
  }

  lemma EditKeepsPaid(shop: Shop, desk: Desk)
    requires Paid(shop) && ValidDesk(desk) && desk.redemptions == shop.desk.redemptions
    ensures Paid(shop.(desk := desk))
  {
    hide ValidDesk;
    var after := shop.(desk := desk);
    forall o | o in after.lists ensures Settles(after, o) {
      assert Settles(shop, o);
    }
  }

  /**
   Over any run of purchases, renewals, edits of programs and codes, and whatever else happens to
   the tables: each order's list price is what its owner was charged plus what its redemption took
   off, and no redemption took anything off anywhere else.
   */
  lemma {:induction false} PricesSplitOverRuns(shop: Shop, deals: seq<Deal>)
    requires Paid(shop) && forall k :: 0 <= k < |deals| ==> ValidDeal(deals[k])
    ensures Paid(TradeAll(shop, deals))
    decreases |deals|
  {
    hide Paid, Trade, ValidDeal;
    if deals != [] {
      DealKeepsPaid(shop, deals[0]);
      PricesSplitOverRuns(Trade(shop, deals[0]), deals[1..]);
    }
  }
}
