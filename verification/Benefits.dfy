/**
 Commercial benefits: the tier price, the automatic choice, and the budgets a redemption spends.
 */
module Benefits {
  import opened Wrappers
  import opened Billing
  import opened Schema

  type ProgramId = int
  type CodeId = int

  datatype Kind = FixedDiscount | PercentDiscount | BonusDays
  datatype Trigger = Automatic | PromoCode | Targeted
  datatype Scope = OnPurchase | OnRenewal | OnBoth
  datatype Audience = Everyone | FirstPaid | FirstPlan | Expiring | Lapsed | Chosen
  datatype ProgramStatus = Draft | Scheduled | Active | Paused | Ended

  /** Limits of zero are no limits. */
  datatype Program = Program(
    status: ProgramStatus, trigger: Trigger, scope: Scope, kind: Kind, value: int, minAmount: int,
    plans: seq<int>, months: seq<int>, audience: Audience, starts: Option<Instant>, ends: Option<Instant>,
    perUser: int, totalLimit: int, used: int, cashBudget: int, cashSpent: int, daysLimit: int, daysUsed: int,
    priority: int)

  datatype Code = Code(program: ProgramId, enabled: bool, starts: Option<Instant>, ends: Option<Instant>,
                       totalLimit: int, perUser: int, used: int)

  datatype GrantStatus = Available | Used | Voided

  datatype Grant = Grant(status: GrantStatus, expires: Option<Instant>)

  datatype Redemption = Redemption(program: ProgramId, code: Option<CodeId>, grant: bool, owner: UserId, order: OrderId,
                                   discount: int, days: int)

  /** Grants are unique per program and user; redemptions are unique per order. */
  datatype Desk = Desk(now: Instant, programs: map<ProgramId, Program>, codes: map<CodeId, Code>,
                       grants: map<(ProgramId, UserId), Grant>, redemptions: seq<Redemption>)

  // ---------- prices ----------

  /** The tier's price, or the full one when the plan has no such tier. */
  function TierPrice(tiers: map<int, int>, months: int, monthly: int): Option<int> {
    if months !in tiers then Some(monthly * months)
    else if 0 <= tiers[months] <= FULL_BPS then Some(monthly * months * tiers[months] / FULL_BPS)
    else None
  }

  /** The list price in figures: the listed share of the full price, rounded down once, or all of it. */
  ghost predicate IsListPrice(list: int, tiers: map<int, int>, months: int, monthly: int) {
    if months in tiers
    then 0 <= tiers[months] <= 10_000 && IsFloor(list, monthly * months * tiers[months], 10_000)
    else list == monthly * months
  }

  lemma TierInFigures(tiers: map<int, int>, months: int, monthly: int)
    ensures var price := TierPrice(tiers, months, monthly);
            && (price.None? <==> months in tiers && (tiers[months] < 0 || 10_000 < tiers[months]))
            && (price.Some? ==> IsListPrice(price.value, tiers, months, monthly))
  {
    hide IsFloor;
    if months in tiers {
      FloorIsDivision(monthly * months * tiers[months], FULL_BPS);
    }
  }

  lemma TierNeverRaises(tiers: map<int, int>, months: int, monthly: int)
    requires 0 <= monthly * months && TierPrice(tiers, months, monthly).Some?
    ensures 0 <= TierPrice(tiers, months, monthly).value <= monthly * months
  {
    if months in tiers {
      ShareBounds(monthly * months, tiers[months], FULL_BPS);
    }
  }

  /** The limits and windows a program is saved with. */
  predicate ValidProgram(p: Program) {
    && p.value > 0 && (p.kind.PercentDiscount? ==> p.value <= FULL_BPS)
    && p.minAmount >= 0 && p.perUser >= 0 && p.totalLimit >= 0 && p.cashBudget >= 0 && p.daysLimit >= 0
    && (p.starts.Some? && p.ends.Some? ==> p.starts.value < p.ends.value)
  }

  method CheckProgram(p: Program) returns (ok: bool)
    ensures ok <==> ValidProgram(p)
  {
    if p.value <= 0 || (p.kind.PercentDiscount? && p.value > 10_000) {
      return false;
    }
    if p.minAmount < 0 || p.perUser < 0 || p.totalLimit < 0 || p.cashBudget < 0 || p.daysLimit < 0 {
      return false;
    }
    if p.ends.Some? && p.starts.Some? && p.ends.value <= p.starts.value {
      return false;
    }
    return true;
  }

  /** Discount and bonus days of a program on a list price; never more than the price. */
  function BenefitDiscount(p: Program, list: int): (int, int) {
    var discount := match p.kind
                    case FixedDiscount => p.value
                    case PercentDiscount => list * p.value / FULL_BPS
                    case BonusDays => 0;
    (if discount > list then list else discount, if p.kind.BonusDays? then p.value else 0)
  }

  method DiscountOf(p: Program, list: int) returns (discount: int, days: int)
    ensures (discount, days) == BenefitDiscount(p, list)
  {
    discount, days := 0, 0;
    match p.kind {
      case FixedDiscount => discount := p.value;
      case PercentDiscount => discount := list * p.value / 10_000;
      case BonusDays => days := p.value;
    }
    if discount > list {
      discount := list;
    }
  }

  /** The discount in figures: the fixed sum up to the price, or the rounded-down share, or days instead. */
  ghost predicate TakesOff(p: Program, list: int, discount: int, days: int) {
    match p.kind
    case FixedDiscount => discount == (if p.value < list then p.value else list) && days == 0
    case PercentDiscount => IsFloor(discount, list * p.value, 10_000) && days == 0
    case BonusDays => discount == 0 && days == p.value
  }

  lemma DiscountInFigures(p: Program, list: int)
    requires ValidProgram(p) && list >= 0
    ensures var (discount, days) := BenefitDiscount(p, list);
            TakesOff(p, list, discount, days) && 0 <= discount <= list
  {
    hide IsFloor;
    if p.kind.PercentDiscount? {
      FloorIsDivision(list * p.value, FULL_BPS);
      ShareBounds(list, p.value, FULL_BPS);
    }
  }

  datatype BenefitQuote = BenefitQuote(list: int, discount: int, amount: int, days: int, program: Option<ProgramId>)

  function Price(programs: map<ProgramId, Program>, list: int, chosen: Option<ProgramId>): BenefitQuote {
    if chosen.Some? && chosen.value in programs then
      var (discount, days) := BenefitDiscount(programs[chosen.value], list);
      BenefitQuote(list, discount, list - discount, days, chosen)
    else BenefitQuote(list, 0, list, 0, None)
  }

  /** Payable plus discount is the list price, and neither is negative. */
  lemma PriceSplits(programs: map<ProgramId, Program>, list: int, chosen: Option<ProgramId>)
    requires list >= 0 && (chosen.Some? && chosen.value in programs ==> ValidProgram(programs[chosen.value]))
    ensures var q := Price(programs, list, chosen);
            q.amount + q.discount == list && q.amount >= 0 && q.discount >= 0 && q.days >= 0
  {
    if chosen.Some? && chosen.value in programs && programs[chosen.value].kind.PercentDiscount? {
      ShareBounds(list, programs[chosen.value].value, FULL_BPS);
    }
  }

  // ---------- who may use what ----------

  datatype Request = ForPurchase | ForRenewal | ForPlanChange

  /** The order being quoted, and what the queries say about its owner. */
  datatype Buyer = Buyer(owner: UserId, request: Request, plan: int, months: int, paidOrders: int, paidForPlan: int,
                         expiry: Option<Instant>)

  predicate Listed(items: seq<int>, x: int) {
    items == [] || x in items
  }

  predicate InWindow(starts: Option<Instant>, ends: Option<Instant>, now: Instant) {
    (starts.Some? ==> starts.value <= now) && (ends.Some? ==> now < ends.value)
  }

  predicate InScope(scope: Scope, request: Request) {
    match scope
    case OnBoth => true
    case OnPurchase => !request.ForRenewal?
    case OnRenewal => request.ForRenewal?
  }

  predicate InAudience(a: Audience, b: Buyer, now: Instant) {
    match a
    case FirstPaid => b.paidOrders <= 0
    case FirstPlan => b.paidForPlan <= 0
    case Expiring => b.expiry.Some? && now < b.expiry.value <= now + 7 * DAY
    case Lapsed => b.expiry.Some? && b.expiry.value <= now
    case _ => true
  }

  predicate HasGrant(desk: Desk, id: ProgramId, owner: UserId) {
    (id, owner) in desk.grants && desk.grants[(id, owner)].status == Available
    && (desk.grants[(id, owner)].expires.Some? ==> desk.now < desk.grants[(id, owner)].expires.value)
  }

  predicate NeedsGrant(p: Program) {
    p.trigger.Targeted? || p.audience.Chosen?
  }

  predicate Fits(limit: int, used: int, more: int) {
    limit <= 0 || used + more <= limit
  }

  /** What the program's own row says about an order. */
  predicate Suits(p: Program, b: Buyer, list: int, now: Instant) {
    (p.status.Active? || p.status.Scheduled?) && InScope(p.scope, b.request) && InWindow(p.starts, p.ends, now)
    && list >= p.minAmount && Listed(p.plans, b.plan) && Listed(p.months, b.months)
  }

  predicate HasRoom(desk: Desk, id: ProgramId, p: Program, owner: UserId, discount: int, days: int) {
    && Fits(p.totalLimit, p.used, 1) && Fits(p.cashBudget, p.cashSpent, discount) && Fits(p.daysLimit, p.daysUsed, days)
    && Fits(p.perUser, Tally(desk.redemptions, ByUser(id, owner), Uses), 1)
  }

  predicate Eligible(desk: Desk, id: ProgramId, b: Buyer, list: int) {
    id in desk.programs
    && var p := desk.programs[id];
       var (discount, days) := BenefitDiscount(p, list);
       && Suits(p, b, list, desk.now) && HasRoom(desk, id, p, b.owner, discount, days)
       && InAudience(p.audience, b, desk.now) && (NeedsGrant(p) ==> HasGrant(desk, id, b.owner))
  }

  method Contains(items: seq<int>, x: int) returns (found: bool)
    ensures found <==> Listed(items, x)
  {
    if |items| == 0 {
      return true;
    }
    for k := 0 to |items|
      invariant forall j :: 0 <= j < k ==> items[j] != x
    {
      if items[k] == x {
        return true;
      }
    }
    return false;
  }

  method CheckTerms(p: Program, b: Buyer, list: int, now: Instant) returns (ok: bool)
    ensures ok <==> Suits(p, b, list, now)
  {
    var scope := if b.request.ForRenewal? then OnRenewal else OnPurchase;
    if (p.status != Active && p.status != Scheduled) || (p.scope != OnBoth && p.scope != scope) {
      return false;
    }
    if (p.starts.Some? && now < p.starts.value) || (p.ends.Some? && p.ends.value <= now) || list < p.minAmount {
      return false;
    }
    var planListed := Contains(p.plans, b.plan);
    var monthsListed := Contains(p.months, b.months);
    return planListed && monthsListed;
  }

  method CheckAudience(p: Program, b: Buyer, now: Instant) returns (ok: bool)
    ensures ok <==> InAudience(p.audience, b, now)
  {
    if p.audience == FirstPaid && b.paidOrders > 0 {
      return false;
    }
    if p.audience == FirstPlan && b.paidForPlan > 0 {
      return false;
    }
    if p.audience == Expiring {
      return b.expiry.Some? && now < b.expiry.value && b.expiry.value <= now + 7 * 86_400 * 1_000_000_000;
    }
    if p.audience == Lapsed {
      return b.expiry.Some? && b.expiry.value <= now;
    }
    return true;
  }

  /** The eligibility check, in the order it is made. */
  method ProgramEligible(desk: Desk, id: ProgramId, b: Buyer, list: int) returns (ok: bool)
    ensures ok <==> Eligible(desk, id, b, list)
  {
    hide BenefitDiscount, Suits, InAudience;
    if id !in desk.programs {
      return false;
    }
    var p := desk.programs[id];
    var suits := CheckTerms(p, b, list, desk.now);
    if !suits || (p.totalLimit > 0 && p.used >= p.totalLimit) {
      return false;
    }
    var (discount, days) := BenefitDiscount(p, list);
    if (p.cashBudget > 0 && p.cashSpent + discount > p.cashBudget)
       || (p.daysLimit > 0 && p.daysUsed + days > p.daysLimit) {
      return false;
    }
    if p.perUser > 0 && Tally(desk.redemptions, ByUser(id, b.owner), Uses) >= p.perUser {
      return false;
    }
    var invited := CheckAudience(p, b, desk.now);
    if !invited {
      return false;
    }
    if p.trigger != Targeted && p.audience != Chosen {
      return true;
    }
    if (id, b.owner) !in desk.grants {
      return false;
    }
    var grant := desk.grants[(id, b.owner)];
    return grant.status == Available && (grant.expires.None? || desk.now < grant.expires.value);
  }

  /** Promotion codes are asked for by name; a plan change takes only automatic money. */
  predicate Candidate(desk: Desk, id: ProgramId, b: Buyer, list: int) {
    Eligible(desk, id, b, list)
    && !desk.programs[id].trigger.PromoCode?
    && (b.request.ForPlanChange? ==> desk.programs[id].trigger.Automatic? && !desk.programs[id].kind.BonusDays?)
  }

  // ---------- the automatic choice ----------

  /** A higher priority wins, then a higher discount. */
  predicate Better(programs: map<ProgramId, Program>, list: int, a: ProgramId, b: ProgramId) {
    a in programs && b in programs
    && (programs[a].priority > programs[b].priority
        || (programs[a].priority == programs[b].priority
            && BenefitDiscount(programs[a], list).0 > BenefitDiscount(programs[b], list).0))
  }

  /** The stable sort that orders the matches, by insertion from the back. */
  function Inserted(programs: map<ProgramId, Program>, list: int, s: seq<ProgramId>, x: ProgramId): seq<ProgramId> {
    if s == [] || !Better(programs, list, x, s[|s| - 1]) then s + [x]
    else Inserted(programs, list, s[..|s| - 1], x) + [s[|s| - 1]]
  }

  function StableSorted(programs: map<ProgramId, Program>, list: int, s: seq<ProgramId>): seq<ProgramId> {
    if s == [] then [] else Inserted(programs, list, StableSorted(programs, list, s[..|s| - 1]), s[|s| - 1])
  }

  ghost predicate Ordered(programs: map<ProgramId, Program>, list: int, s: seq<ProgramId>) {
    forall j, k :: 0 <= j < k < |s| ==> !Better(programs, list, s[k], s[j])
  }

  /** Ranking is a strict weak order. */
  lemma RankLaws(programs: map<ProgramId, Program>, list: int)
    ensures forall a, b :: Better(programs, list, a, b) ==> !Better(programs, list, b, a)
    ensures forall a, b, c :: c in programs && Better(programs, list, a, b) && !Better(programs, list, c, b) ==>
              Better(programs, list, a, c)
  {
    hide BenefitDiscount;
  }

  ghost predicate Known(programs: map<ProgramId, Program>, s: seq<ProgramId>) {
    forall k :: 0 <= k < |s| ==> s[k] in programs
  }

  lemma {:induction false} InsertedIsPermutation(programs: map<ProgramId, Program>, list: int, s: seq<ProgramId>,
                                                 x: ProgramId)
    ensures multiset(Inserted(programs, list, s, x)) == multiset(s) + multiset{x}
  {
    hide Better;
    if s != [] && Better(programs, list, x, s[|s| - 1]) {
      assert s == s[..|s| - 1] + [s[|s| - 1]];
      InsertedIsPermutation(programs, list, s[..|s| - 1], x);
    }
  }

  lemma {:induction false} InsertedIsOrdered(programs: map<ProgramId, Program>, list: int, s: seq<ProgramId>,
                                             x: ProgramId)
    requires Ordered(programs, list, s) && x in programs && Known(programs, s)
    ensures var r := Inserted(programs, list, s, x);
            Ordered(programs, list, r) && Known(programs, r) && r != []
            && r[0] == if s == [] || Better(programs, list, x, s[0]) then x else s[0]
  {
    hide Better;
    RankLaws(programs, list);
    if s != [] {
      var init, last := s[..|s| - 1], s[|s| - 1];
      assert s == init + [last];
      if Better(programs, list, x, last) {
        InsertedIsOrdered(programs, list, init, x);
        InsertedIsPermutation(programs, list, init, x);
        LastStaysLast(programs, list, Inserted(programs, list, init, x), init, x, last);
      } else {
        AppendedIsOrdered(programs, list, s, x);
      }
    }
  }

  lemma AppendedIsOrdered(programs: map<ProgramId, Program>, list: int, s: seq<ProgramId>, x: ProgramId)
    requires Ordered(programs, list, s) && x in programs && Known(programs, s) && s != []
             && !Better(programs, list, x, s[|s| - 1])
    ensures Ordered(programs, list, s + [x]) && Known(programs, s + [x]) && !Better(programs, list, x, s[0])
  {
    hide Better;
    RankLaws(programs, list);
    forall j | 0 <= j < |s| ensures !Better(programs, list, x, s[j]) {
      if j < |s| - 1 {
        assert !Better(programs, list, s[|s| - 1], s[j]);
      }
    }
  }

  lemma LastStaysLast(programs: map<ProgramId, Program>, list: int, r: seq<ProgramId>, init: seq<ProgramId>,
                      x: ProgramId, last: ProgramId)
    requires Ordered(programs, list, r) && Ordered(programs, list, init + [last])
             && multiset(r) == multiset(init) + multiset{x}
    requires Better(programs, list, x, last)
    ensures Ordered(programs, list, r + [last])
  {
    hide Better;
    RankLaws(programs, list);
    forall k | 0 <= k < |r| ensures !Better(programs, list, last, r[k]) {
      assert r[k] in multiset(r);
      if r[k] != x {
        assert r[k] in init;
        var j :| 0 <= j < |init| && init[j] == r[k];
        assert (init + [last])[j] == r[k] && (init + [last])[|init|] == last;
      }
    }
  }

  /** The element is the best of the sequence, and the earliest of those. */
  ghost predicate Leads(programs: map<ProgramId, Program>, list: int, s: seq<ProgramId>, h: ProgramId) {
    && (forall j :: 0 <= j < |s| ==> !Better(programs, list, s[j], h))
    && exists k :: 0 <= k < |s| && s[k] == h && forall j :: 0 <= j < k ==> Better(programs, list, h, s[j])
  }

  lemma {:induction false} SortIsStablePermutation(programs: map<ProgramId, Program>, list: int, s: seq<ProgramId>)
    requires Known(programs, s)
    ensures var r := StableSorted(programs, list, s);
            Ordered(programs, list, r) && multiset(r) == multiset(s) && Known(programs, r) && |r| == |s|
            && (s != [] ==> Leads(programs, list, s, r[0]))
  {
    hide Better, Leads;
    if s != [] {
      var init, last := s[..|s| - 1], s[|s| - 1];
      assert s == init + [last];
      SortIsStablePermutation(programs, list, init);
      var sorted := StableSorted(programs, list, init);
      InsertedIsOrdered(programs, list, sorted, last);
      InsertedIsPermutation(programs, list, sorted, last);
      assert |StableSorted(programs, list, s)| == |multiset(s)|;
      LeadMoves(programs, list, init, last, if init == [] then last else sorted[0]);
    }
  }

  lemma LeadMoves(programs: map<ProgramId, Program>, list: int, init: seq<ProgramId>, last: ProgramId, h: ProgramId)
    requires last in programs && Known(programs, init) && (init == [] ==> h == last)
             && (init != [] ==> Leads(programs, list, init, h))
    ensures Leads(programs, list, init + [last], if init == [] || Better(programs, list, last, h) then last else h)
  {
    hide Better;
    RankLaws(programs, list);
    var s := init + [last];
    if init == [] || Better(programs, list, last, h) {
      assert s[|init|] == last;
      forall j | 0 <= j < |init| ensures Better(programs, list, last, s[j]) {
        assert s[j] == init[j] && !Better(programs, list, init[j], h);
      }
    } else {
      var k :| 0 <= k < |init| && init[k] == h && forall j :: 0 <= j < k ==> Better(programs, list, h, init[j]);
      assert s[k] == h && forall j :: 0 <= j < k ==> s[j] == init[j];
    }
  }

  function Matching(desk: Desk, ids: seq<ProgramId>, b: Buyer, list: int): (m: seq<ProgramId>)
    ensures forall k :: 0 <= k < |m| ==> Candidate(desk, m[k], b, list)
  {
    if ids == [] then []
    else
      var rest := Matching(desk, ids[..|ids| - 1], b, list);
      if Candidate(desk, ids[|ids| - 1], b, list) then rest + [ids[|ids| - 1]] else rest
  }

  lemma {:induction false} MatchingFinds(desk: Desk, ids: seq<ProgramId>, b: Buyer, list: int, k: nat)
    requires k < |ids| && Candidate(desk, ids[k], b, list)
    ensures ids[k] in Matching(desk, ids, b, list)
  {
    if k < |ids| - 1 {
      MatchingFinds(desk, ids[..|ids| - 1], b, list, k);
    }
  }

  /** The quote without a promotion code: filter in query order, sort stably, take the head. */
  method ChooseAutomatic(desk: Desk, ids: seq<ProgramId>, b: Buyer, list: int) returns (chosen: Option<ProgramId>)
    ensures chosen.None? <==> forall k :: 0 <= k < |ids| ==> !Candidate(desk, ids[k], b, list)
    ensures chosen.Some? ==> chosen.value in ids && Candidate(desk, chosen.value, b, list)
                             && Leads(desk.programs, list, Matching(desk, ids, b, list), chosen.value)
                             && chosen.value == StableSorted(desk.programs, list, Matching(desk, ids, b, list))[0]
                             && forall k :: 0 <= k < |ids| && Candidate(desk, ids[k], b, list) ==>
                                  OutranksOrTies(desk.programs[chosen.value], desk.programs[ids[k]], list)
  {
    hide Eligible, Better, OutranksOrTies, StableSorted, Leads;
    var matches: seq<ProgramId> := [];
    var k := 0;
    while k < |ids|
      invariant 0 <= k <= |ids| && matches == Matching(desk, ids[..k], b, list)
      invariant forall j :: 0 <= j < |matches| ==> matches[j] in ids
    {
      assert ids[..k + 1][..k] == ids[..k];
      var eligible := ProgramEligible(desk, ids[k], b, list);
      if eligible {
        EligibleIsKnown(desk, ids[k], b, list);
        var p := desk.programs[ids[k]];
        if p.trigger != PromoCode && !(b.request.ForPlanChange? && (p.trigger != Automatic || p.kind == BonusDays)) {
          matches := matches + [ids[k]];
        }
      }
      k := k + 1;
    }
    assert ids[..|ids|] == ids;
    forall j | 0 <= j < |ids| && Candidate(desk, ids[j], b, list) ensures ids[j] in matches {
      MatchingFinds(desk, ids, b, list, j);
    }
    if matches == [] {
      return None;
    }
    CandidatesAreKnown(desk, matches, b, list);
    SortIsStablePermutation(desk.programs, list, matches);
    chosen := Some(StableSorted(desk.programs, list, matches)[0]);
    BestIsNotOutranked(desk, matches, list, chosen.value);
  }

  ghost predicate OutranksOrTies(best: Program, other: Program, list: int) {
    best.priority > other.priority
    || (best.priority == other.priority && BenefitDiscount(best, list).0 >= BenefitDiscount(other, list).0)
  }

  lemma BestIsNotOutranked(desk: Desk, matches: seq<ProgramId>, list: int, best: ProgramId)
    requires Known(desk.programs, matches) && best in desk.programs && Leads(desk.programs, list, matches, best)
    ensures best in matches
    ensures forall id :: id in matches ==> id in desk.programs
                                           && OutranksOrTies(desk.programs[best], desk.programs[id], list)
  {
    hide BenefitDiscount;
  }

  lemma EligibleIsKnown(desk: Desk, id: ProgramId, b: Buyer, list: int)
    requires Eligible(desk, id, b, list)
    ensures id in desk.programs
  {
  }

  lemma CandidatesAreKnown(desk: Desk, matches: seq<ProgramId>, b: Buyer, list: int)
    requires forall k :: 0 <= k < |matches| ==> Candidate(desk, matches[k], b, list)
    ensures Known(desk.programs, matches)
  {
  }

  // ---------- tallies ----------

  datatype Selector = ByProgram(program: ProgramId) | ByUser(program: ProgramId, owner: UserId)
                    | ByCode(code: CodeId) | ByCodeUser(code: CodeId, owner: UserId)
                    | ByGrant(program: ProgramId, owner: UserId)

  datatype Measure = Uses | Discounts | Days

  predicate Selects(sel: Selector, r: Redemption) {
    match sel
    case ByProgram(p) => r.program == p
    case ByUser(p, u) => r.program == p && r.owner == u
    case ByCode(c) => r.code == Some(c)
    case ByCodeUser(c, u) => r.code == Some(c) && r.owner == u
    case ByGrant(p, u) => r.grant && r.program == p && r.owner == u
  }

  function Amount(r: Redemption, what: Measure): int {
    match what
    case Uses => 1
    case Discounts => r.discount
    case Days => r.days
  }

  function Tally(rs: seq<Redemption>, sel: Selector, what: Measure): int {
    if rs == [] then 0
    else
      var last := rs[|rs| - 1];
      Tally(rs[..|rs| - 1], sel, what) + if Selects(sel, last) then Amount(last, what) else 0
  }

  lemma Recorded(rs: seq<Redemption>, r: Redemption)
    ensures forall sel, what ::
              Tally(rs + [r], sel, what) == Tally(rs, sel, what) + if Selects(sel, r) then Amount(r, what) else 0
  {
    assert (rs + [r])[..|rs|] == rs;
  }

  lemma {:induction false} NeverRecorded(rs: seq<Redemption>, sel: Selector, what: Measure)
    requires forall k :: 0 <= k < |rs| ==> !Selects(sel, rs[k])
    ensures Tally(rs, sel, what) == 0
  {
    if rs != [] {
      NeverRecorded(rs[..|rs| - 1], sel, what);
    }
  }
}
