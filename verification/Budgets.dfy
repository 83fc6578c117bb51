/**
 Spending benefits: counters always equal the redemptions, and limits hold while they are not
 lowered below what was already spent.
 */
module Budgets {
  import opened Wrappers
  import opened Billing
  import opened Schema
  import opened Benefits

  // ---------- one redemption ----------

  predicate CanSpend(desk: Desk, r: Redemption) {
    r.program in desk.programs
    && var p := desk.programs[r.program];
       && Fits(p.perUser, Tally(desk.redemptions, ByUser(r.program, r.owner), Uses), 1)
       && (p.status.Active? || p.status.Scheduled?) && InWindow(p.starts, p.ends, desk.now)
       && Fits(p.totalLimit, p.used, 1) && Fits(p.cashBudget, p.cashSpent, r.discount)
       && Fits(p.daysLimit, p.daysUsed, r.days)
  }

  predicate CanUseCode(desk: Desk, c: CodeId, owner: UserId) {
    c in desk.codes
    && var code := desk.codes[c];
       Fits(code.perUser, Tally(desk.redemptions, ByCodeUser(c, owner), Uses), 1)
       && code.enabled && InWindow(code.starts, code.ends, desk.now) && Fits(code.totalLimit, code.used, 1)
  }

  predicate CanRedeem(desk: Desk, r: Redemption) {
    CanSpend(desk, r)
    && (r.code.Some? ==> CanUseCode(desk, r.code.value, r.owner))
    && (r.grant ==> (r.program, r.owner) in desk.grants && desk.grants[(r.program, r.owner)].status == Available)
    && forall k :: 0 <= k < |desk.redemptions| ==> desk.redemptions[k].order != r.order
  }

  function Spent(p: Program, r: Redemption): Program {
    p.(used := p.used + 1, cashSpent := p.cashSpent + r.discount, daysUsed := p.daysUsed + r.days)
  }

  function CodeUsed(codes: map<CodeId, Code>, c: CodeId): map<CodeId, Code>
    requires c in codes
  {
    codes[c := codes[c].(used := codes[c].used + 1)]
  }

  /** The consumption transaction: program, code and grant move together with the redemption, or nothing does. */
  function Redeem(desk: Desk, r: Redemption): Desk {
    if !CanRedeem(desk, r) then desk
    else
      var key := (r.program, r.owner);
      desk.(programs := desk.programs[r.program := Spent(desk.programs[r.program], r)],
            codes := if r.code.None? then desk.codes else CodeUsed(desk.codes, r.code.value),
            grants := if r.grant then desk.grants[key := desk.grants[key].(status := Used)] else desk.grants,
            redemptions := desk.redemptions + [r])
  }

  // ---------- the administrators' edits ----------

  datatype Edit =
    | SaveProgram(program: ProgramId, row: Program)
    | SaveCode(code: CodeId, ofProgram: ProgramId, codeRow: Code)
    | Issue(grantOf: ProgramId, owner: UserId, expires: Option<Instant>)
    | Void(voidOf: ProgramId, voidOwner: UserId)
    | Pass(elapsed: nat)

  /** Saving never touches the counters; a new row starts at zero; INSERT IGNORE and conditional updates elsewhere. */
  function ApplyEdit(desk: Desk, e: Edit): Desk {
    match e
    case SaveProgram(id, row) =>
      var p := if id in desk.programs then desk.programs[id] else row.(used := 0, cashSpent := 0, daysUsed := 0);
      desk.(programs := desk.programs[id := row.(used := p.used, cashSpent := p.cashSpent, daysUsed := p.daysUsed)])
    case SaveCode(c, id, row) =>
      var code := if c in desk.codes then desk.codes[c] else row.(program := id, used := 0);
      desk.(codes := desk.codes[c := row.(program := code.program, used := code.used)])
    case Issue(id, user, expires) =>
      if (id, user) in desk.grants then desk else desk.(grants := desk.grants[(id, user) := Grant(Available, expires)])
    case Void(id, user) =>
      if (id, user) in desk.grants && desk.grants[(id, user)].status == Available
      then desk.(grants := desk.grants[(id, user) := desk.grants[(id, user)].(status := Voided)]) else desk
    case Pass(elapsed) => desk.(now := desk.now + elapsed)
  }

  datatype Act = Spend(r: Redemption) | Change(e: Edit)

  function Do(desk: Desk, a: Act): Desk {
    match a
    case Spend(r) => Redeem(desk, r)
    case Change(e) => ApplyEdit(desk, e)
  }

  function DoAll(desk: Desk, acts: seq<Act>): Desk
    decreases |acts|
  {
    if acts == [] then desk else DoAll(Do(desk, acts[0]), acts[1..])
  }

  // ---------- counters ----------

  ghost predicate ProgramCounts(desk: Desk, id: ProgramId)
    requires id in desk.programs
  {
    var p := desk.programs[id];
    p.used == Tally(desk.redemptions, ByProgram(id), Uses)
    && p.cashSpent == Tally(desk.redemptions, ByProgram(id), Discounts)
    && p.daysUsed == Tally(desk.redemptions, ByProgram(id), Days)
  }

  /** A used grant has exactly one redemption, any other none. */
  ghost predicate GrantCounts(desk: Desk, key: (ProgramId, UserId))
    requires key in desk.grants
  {
    Tally(desk.redemptions, ByGrant(key.0, key.1), Uses) == if desk.grants[key].status == Used then 1 else 0
  }

  predicate RedemptionKnown(desk: Desk, r: Redemption) {
    r.program in desk.programs && (r.code.Some? ==> r.code.value in desk.codes)
    && (r.grant ==> (r.program, r.owner) in desk.grants)
  }

  ghost predicate Counted(desk: Desk) {
    && (forall id :: id in desk.programs ==> ProgramCounts(desk, id))
    && (forall c :: c in desk.codes ==> desk.codes[c].used == Tally(desk.redemptions, ByCode(c), Uses))
    && (forall key :: key in desk.grants ==> GrantCounts(desk, key))
    && (forall k :: 0 <= k < |desk.redemptions| ==> RedemptionKnown(desk, desk.redemptions[k]))
    && (forall j, k :: 0 <= j < k < |desk.redemptions| ==> desk.redemptions[j].order != desk.redemptions[k].order)
  }

  lemma RedeemCounts(desk: Desk, r: Redemption)
    requires Counted(desk)
    ensures Counted(Redeem(desk, r))
  {
    hide CanSpend, CanUseCode, ProgramCounts, GrantCounts, RedemptionKnown, Tally;
    if CanRedeem(desk, r) {
      RedeemKnown(desk, r);
      var after := Redeem(desk, r);
      forall id | id in after.programs ensures ProgramCounts(after, id) {
        assert ProgramCounts(desk, id);
        SpendingCounts(desk, r, id);
      }
      forall key | key in after.grants ensures GrantCounts(after, key) {
        assert GrantCounts(desk, key);
        GrantingCounts(desk, r, key);
      }
      forall c | c in after.codes ensures after.codes[c].used == Tally(after.redemptions, ByCode(c), Uses) {
        CodeCounts(desk, r, c);
      }
      forall k | 0 <= k < |after.redemptions| ensures RedemptionKnown(after, after.redemptions[k]) {
        KnownAfter(desk, r, k);
      }
    }
  }

  lemma CodeCounts(desk: Desk, r: Redemption, c: CodeId)
    requires CanRedeem(desk, r) && c in desk.codes
    requires desk.codes[c].used == Tally(desk.redemptions, ByCode(c), Uses)
    ensures var after := Redeem(desk, r);
            c in after.codes && after.codes[c].used == Tally(after.redemptions, ByCode(c), Uses)
  {
    hide CanSpend;
    Recorded(desk.redemptions, r);
  }

  lemma KnownAfter(desk: Desk, r: Redemption, k: nat)
    requires CanRedeem(desk, r) && k <= |desk.redemptions|
    requires k < |desk.redemptions| ==> RedemptionKnown(desk, desk.redemptions[k])
    ensures RedemptionKnown(Redeem(desk, r), Redeem(desk, r).redemptions[k])
  {
  }

  lemma SpendingCounts(desk: Desk, r: Redemption, id: ProgramId)
    requires CanRedeem(desk, r) && id in desk.programs && ProgramCounts(desk, id)
    ensures id in Redeem(desk, r).programs && ProgramCounts(Redeem(desk, r), id)
  {
    hide CanUseCode;
    Recorded(desk.redemptions, r);
  }

  lemma GrantingCounts(desk: Desk, r: Redemption, key: (ProgramId, UserId))
    requires CanRedeem(desk, r) && key in desk.grants && GrantCounts(desk, key)
    ensures key in Redeem(desk, r).grants && GrantCounts(Redeem(desk, r), key)
  {
    hide CanUseCode;
    Recorded(desk.redemptions, r);
  }

  lemma RedeemKnown(desk: Desk, r: Redemption)
    requires CanRedeem(desk, r)
    ensures r.program in desk.programs && (r.code.Some? ==> r.code.value in desk.codes)
  {
  }

  lemma EditCounts(desk: Desk, e: Edit)
    requires Counted(desk)
    ensures Counted(ApplyEdit(desk, e))
  {
    var after := ApplyEdit(desk, e);
    match e
    case SaveProgram(id, row) =>
      if id !in desk.programs {
        assert forall k :: 0 <= k < |desk.redemptions| ==> RedemptionKnown(desk, desk.redemptions[k]);
        NeverRecorded(desk.redemptions, ByProgram(id), Uses);
        NeverRecorded(desk.redemptions, ByProgram(id), Discounts);
        NeverRecorded(desk.redemptions, ByProgram(id), Days);
      }
      forall other | other in after.programs ensures ProgramCounts(after, other) {
        assert other in desk.programs ==> ProgramCounts(desk, other);
      }
      assert forall key :: key in desk.grants ==> GrantCounts(desk, key) == GrantCounts(after, key);
    case SaveCode(c, id, row) =>
      if c !in desk.codes {
        assert forall k :: 0 <= k < |desk.redemptions| ==> RedemptionKnown(desk, desk.redemptions[k]);
        NeverRecorded(desk.redemptions, ByCode(c), Uses);
      }
      assert forall other :: other in desk.programs ==> ProgramCounts(desk, other) == ProgramCounts(after, other);
      assert forall key :: key in desk.grants ==> GrantCounts(desk, key) == GrantCounts(after, key);
    case _ => GrantEditCounts(desk, e);
  }

  lemma GrantEditCounts(desk: Desk, e: Edit)
    requires Counted(desk) && (e.Issue? || e.Void? || e.Pass?)
    ensures Counted(ApplyEdit(desk, e))
  {
    var after := ApplyEdit(desk, e);
    if e.Issue? && (e.grantOf, e.owner) !in desk.grants {
      assert forall k :: 0 <= k < |desk.redemptions| ==> RedemptionKnown(desk, desk.redemptions[k]);
      NeverRecorded(desk.redemptions, ByGrant(e.grantOf, e.owner), Uses);
    }
    forall id | id in after.programs ensures ProgramCounts(after, id) {
      assert ProgramCounts(desk, id);
    }
    forall key | key in after.grants ensures GrantCounts(after, key) {
      assert key in desk.grants ==> GrantCounts(desk, key);
    }
  }

  /** Counters equal the redemptions after any run of redemptions and edits, whatever the edits. */
  lemma {:induction false} CountersOverRuns(desk: Desk, acts: seq<Act>)
    requires Counted(desk)
    ensures Counted(DoAll(desk, acts))
    decreases |acts|
  {
    hide Counted, Redeem, ApplyEdit;
    if acts != [] {
      match acts[0] {
        case Spend(r) => RedeemCounts(desk, r);
        case Change(e) => EditCounts(desk, e);
      }
      CountersOverRuns(Do(desk, acts[0]), acts[1..]);
    }
  }

  // ---------- limits ----------

  predicate ProgramFits(p: Program) {
    Fits(p.totalLimit, p.used, 0) && Fits(p.cashBudget, p.cashSpent, 0) && Fits(p.daysLimit, p.daysUsed, 0)
  }

  ghost predicate WithinLimits(desk: Desk) {
    && (forall id :: id in desk.programs ==> ProgramFits(desk.programs[id]))
    && (forall id, u :: id in desk.programs ==>
        Fits(desk.programs[id].perUser, Tally(desk.redemptions, ByUser(id, u), Uses), 0))
    && (forall c :: c in desk.codes ==> Fits(desk.codes[c].totalLimit, desk.codes[c].used, 0))
    && (forall c, u :: c in desk.codes ==>
        Fits(desk.codes[c].perUser, Tally(desk.redemptions, ByCodeUser(c, u), Uses), 0))
  }

  /** The edit lowers no limit below what is already used. */
  ghost predicate Respects(desk: Desk, e: Edit) {
    match e
    case SaveProgram(id, row) =>
      var p := ApplyEdit(desk, e).programs[id];
      ProgramFits(p) && forall u :: Fits(p.perUser, Tally(desk.redemptions, ByUser(id, u), Uses), 0)
    case SaveCode(c, _, row) =>
      var code := ApplyEdit(desk, e).codes[c];
      && Fits(code.totalLimit, code.used, 0)
      && forall u :: Fits(code.perUser, Tally(desk.redemptions, ByCodeUser(c, u), Uses), 0)
    case _ => true
  }

  lemma RedeemFits(desk: Desk, r: Redemption)
    requires WithinLimits(desk)
    ensures WithinLimits(Redeem(desk, r))
  {
    Recorded(desk.redemptions, r);
    if CanRedeem(desk, r) {
      var after := Redeem(desk, r);
      forall id, u | id in after.programs
        ensures Fits(after.programs[id].perUser, Tally(after.redemptions, ByUser(id, u), Uses), 0) {
        assert Fits(desk.programs[id].perUser, Tally(desk.redemptions, ByUser(id, u), Uses), 0);
      }
      forall c, u | c in after.codes
        ensures Fits(after.codes[c].perUser, Tally(after.redemptions, ByCodeUser(c, u), Uses), 0) {
        assert Fits(desk.codes[c].perUser, Tally(desk.redemptions, ByCodeUser(c, u), Uses), 0);
      }
    }
  }

  /** An edit keeps the limits if and only if it lowers none of its row's below what is used. */
  lemma EditFits(desk: Desk, e: Edit)
    requires WithinLimits(desk)
    ensures WithinLimits(ApplyEdit(desk, e)) <==> Respects(desk, e)
  {
    var after := ApplyEdit(desk, e);
    assert after.redemptions == desk.redemptions;
    match e
    case SaveProgram(id, row) => assert id in after.programs;
    case SaveCode(c, id, row) => assert c in after.codes;
    case _ =>
  }

  ghost predicate RespectsAll(desk: Desk, acts: seq<Act>)
    decreases |acts|
  {
    acts == [] || ((acts[0].Change? ==> Respects(desk, acts[0].e)) && RespectsAll(Do(desk, acts[0]), acts[1..]))
  }

  /** No budget is ever exceeded: not a program's, a user's share of it, a code's, or a user's share of that. */
  lemma {:induction false} BudgetsOverRuns(desk: Desk, acts: seq<Act>)
    requires WithinLimits(desk) && RespectsAll(desk, acts)
    ensures WithinLimits(DoAll(desk, acts))
    decreases |acts|
  {
    hide WithinLimits, Redeem, ApplyEdit, Respects;
    if acts != [] {
      match acts[0] {
        case Spend(r) => RedeemFits(desk, r);
        case Change(e) => EditFits(desk, e);
      }
      BudgetsOverRuns(Do(desk, acts[0]), acts[1..]);
    }
  }

  /** What a quote found eligible, the settlement in the same transaction can consume. */
  lemma QuotedIsRedeemable(desk: Desk, id: ProgramId, b: Buyer, list: int, order: OrderId)
    requires Candidate(desk, id, b, list)
    requires forall k :: 0 <= k < |desk.redemptions| ==> desk.redemptions[k].order != order
    ensures var q := Price(desk.programs, list, Some(id));
            CanRedeem(desk, Redemption(id, None, NeedsGrant(desk.programs[id]), b.owner, order, q.discount, q.days))
  {
  }

  /** What the quote asks of a promotion code: that it is enabled and in its window, but not whether it is used up. */
  predicate QuotedCode(desk: Desk, c: CodeId, b: Buyer, list: int) {
    c in desk.codes && desk.codes[c].enabled && InWindow(desk.codes[c].starts, desk.codes[c].ends, desk.now)
    && Eligible(desk, desk.codes[c].program, b, list) && desk.programs[desk.codes[c].program].trigger.PromoCode?
  }

  /** So a quoted code can be consumed if and only if its own limits have room. */
  lemma QuotedCodeIsRedeemable(desk: Desk, c: CodeId, b: Buyer, list: int, order: OrderId)
    requires QuotedCode(desk, c, b, list)
    requires forall k :: 0 <= k < |desk.redemptions| ==> desk.redemptions[k].order != order
    ensures var code := desk.codes[c];
            var id := code.program;
            var q := Price(desk.programs, list, Some(id));
            var r := Redemption(id, Some(c), NeedsGrant(desk.programs[id]), b.owner, order, q.discount, q.days);
            CanRedeem(desk, r) <==>
              Fits(code.totalLimit, code.used, 1)
              && Fits(code.perUser, Tally(desk.redemptions, ByCodeUser(c, b.owner), Uses), 1)
  {
  }

  function Welcome(used: int, cash: int): Program {
    Program(Active, PromoCode, OnBoth, FixedDiscount, 100, 0, [], [], Everyone, None, None,
            0, 0, used, 0, cash, 0, 0, 0)
  }

  function OneUse(used: int): Code {
    Code(1, true, None, None, 1, 0, used)
  }

  const FIRST: Redemption := Redemption(1, Some(1), false, 1, 1, 100, 0)

  /** A program whose one code may be used once, before and after that use. */
  function Opened(): Desk {
    Desk(0, map[1 := Welcome(0, 0)], map[1 := OneUse(0)], map[], [])
  }

  function UsedUp(): Desk {
    Desk(0, map[1 := Welcome(1, 100)], map[1 := OneUse(1)], map[], [FIRST])
  }

  lemma FirstUse()
    ensures Do(Opened(), Spend(FIRST)) == UsedUp()
  {
    assert CanRedeem(Opened(), FIRST);
  }

  lemma Opening()
    ensures var saved := Do(Desk(0, map[], map[], map[], []), Act.Change(SaveProgram(1, Welcome(0, 0))));
            Do(saved, Act.Change(SaveCode(1, 1, OneUse(0)))) == Opened()
  {
  }

  /** A code that is used up is still quoted to the next buyer, whose order then fails. */
  lemma UsedUpCodeIsQuoted()
    ensures var acts := [Act.Change(SaveProgram(1, Welcome(0, 0))), Act.Change(SaveCode(1, 1, OneUse(0))),
                         Spend(FIRST)];
            var desk := DoAll(Desk(0, map[], map[], map[], []), acts);
            QuotedCode(desk, 1, Buyer(2, ForPurchase, 1, 1, 0, 0, None), 1000)
            && forall r: Redemption :: r.code == Some(1) ==> !CanRedeem(desk, r)
  {
    hide Do, QuotedCode, CanRedeem, Opened, UsedUp;
    var empty := Desk(0, map[], map[], map[], []);
    ThreeActs(empty, Act.Change(SaveProgram(1, Welcome(0, 0))), Act.Change(SaveCode(1, 1, OneUse(0))), Spend(FIRST));
    Opening();
    FirstUse();
    NextBuyer();
  }

  lemma ThreeActs(desk: Desk, a: Act, b: Act, c: Act)
    ensures DoAll(desk, [a, b, c]) == Do(Do(Do(desk, a), b), c)
  {
    hide Do;
    assert [a, b, c][1..] == [b, c] && [b, c][1..] == [c] && [c][1..] == [];
    assert DoAll(Do(desk, a), [b, c]) == DoAll(Do(Do(desk, a), b), [c]);
    assert DoAll(Do(Do(desk, a), b), [c]) == DoAll(Do(Do(Do(desk, a), b), c), []);
  }

  lemma NextBuyer()
    ensures QuotedCode(UsedUp(), 1, Buyer(2, ForPurchase, 1, 1, 0, 0, None), 1000)
    ensures forall r: Redemption :: r.code == Some(1) ==> !CanRedeem(UsedUp(), r)
  {
  }

  // ---------- the desk's tables ----------

  class BenefitDesk {
    var now: Instant
    var programs: map<ProgramId, Program>
    var codes: map<CodeId, Code>
    var grants: map<(ProgramId, UserId), Grant>
    var redemptions: seq<Redemption>

    function Snapshot(): Desk
      reads this
    {
      Desk(now, programs, codes, grants, redemptions)
    }

    method Spends(r: Redemption) returns (ok: bool)
      ensures ok <==> CanSpend(Snapshot(), r)
    {
      if r.program !in programs {
        return false;
      }
      var p := programs[r.program];
      if p.perUser > 0 && Tally(redemptions, ByUser(r.program, r.owner), Uses) >= p.perUser {
        return false;
      }
      if (p.status != Active && p.status != Scheduled) || (p.starts.Some? && now < p.starts.value) {
        return false;
      }
      if (p.ends.Some? && p.ends.value <= now) || (p.totalLimit > 0 && p.used >= p.totalLimit) {
        return false;
      }
      return (p.cashBudget <= 0 || p.cashSpent + r.discount <= p.cashBudget)
             && (p.daysLimit <= 0 || p.daysUsed + r.days <= p.daysLimit);
    }

    method UsesCode(c: CodeId, owner: UserId) returns (ok: bool)
      ensures ok <==> CanUseCode(Snapshot(), c, owner)
    {
      if c !in codes {
        return false;
      }
      var code := codes[c];
      if code.perUser > 0 && Tally(redemptions, ByCodeUser(c, owner), Uses) >= code.perUser {
        return false;
      }
      return code.enabled && (code.starts.None? || code.starts.value <= now)
             && (code.ends.None? || now < code.ends.value) && (code.totalLimit <= 0 || code.used < code.totalLimit);
    }

    /** Each statement checks and updates its own row; any refusal leaves every row as it was. */
    method Consume(r: Redemption) returns (ok: bool)
      modifies this
      ensures ok <==> CanRedeem(old(Snapshot()), r)
      ensures Snapshot() == Redeem(old(Snapshot()), r)
    {
      hide CanSpend, CanUseCode;
      ok := Spends(r);
      if !ok {
        return false;
      }
      SpendersAreKnown(Snapshot(), r);
      var book := codes;
      if r.code.Some? {
        ok := UsesCode(r.code.value, r.owner);
        if !ok {
          return false;
        }
        UsableCodesAreKnown(Snapshot(), r.code.value, r.owner);
        book := codes[r.code.value := codes[r.code.value].(used := codes[r.code.value].used + 1)];
      }
      var given := grants;
      if r.grant {
        if (r.program, r.owner) !in grants || grants[(r.program, r.owner)].status != Available {
          return false;
        }
        given := grants[(r.program, r.owner) := grants[(r.program, r.owner)].(status := Used)];
      }
      if exists k :: 0 <= k < |redemptions| && redemptions[k].order == r.order {
        return false;
      }
      var p := programs[r.program];
      programs := programs[r.program := p.(used := p.used + 1, cashSpent := p.cashSpent + r.discount,
                                           daysUsed := p.daysUsed + r.days)];
      codes, grants, redemptions := book, given, redemptions + [r];
      return true;
    }

    /** The administrators' save: a new row starts with nothing spent, an old one keeps its counters. */
    method AdminSave(id: ProgramId, row: Program) returns (ok: bool)
      modifies this
      ensures ok <==> ValidProgram(row)
      ensures Snapshot() == if ok then ApplyEdit(old(Snapshot()), SaveProgram(id, row)) else old(Snapshot())
    {
      hide ValidProgram;
      ok := CheckProgram(row);
      if !ok {
        return;
      }
      if id in programs {
        var p := programs[id];
        programs := programs[id := row.(used := p.used, cashSpent := p.cashSpent, daysUsed := p.daysUsed)];
      } else {
        programs := programs[id := row.(used := 0, cashSpent := 0, daysUsed := 0)];
      }
    }

    /** Saving a code never moves it to another program or changes its count. */
    method SaveCodeRow(c: CodeId, id: ProgramId, row: Code)
      modifies this
      ensures Snapshot() == ApplyEdit(old(Snapshot()), SaveCode(c, id, row))
    {
      if c in codes {
        codes := codes[c := row.(program := codes[c].program, used := codes[c].used)];
      } else {
        codes := codes[c := row.(program := id, used := 0)];
      }
    }

    /** A user has one grant of a program; issuing it again is ignored, also after it was used or voided. */
    method GrantBenefit(id: ProgramId, owner: UserId, expires: Option<Instant>) returns (created: bool)
      modifies this
      ensures created <==> id in old(programs) && old(programs)[id].trigger == Targeted && (id, owner) !in old(grants)
      ensures Snapshot() == if created then ApplyEdit(old(Snapshot()), Issue(id, owner, expires)) else old(Snapshot())
    {
      if id !in programs || programs[id].trigger != Targeted || (id, owner) in grants {
        return false;
      }
      grants := grants[(id, owner) := Grant(Available, expires)];
      return true;
    }

    method VoidGrant(id: ProgramId, owner: UserId) returns (ok: bool)
      modifies this
      ensures ok <==> (id, owner) in old(grants) && old(grants)[(id, owner)].status == Available
      ensures Snapshot() == ApplyEdit(old(Snapshot()), Void(id, owner))
    {
      if (id, owner) !in grants || grants[(id, owner)].status != Available {
        return false;
      }
      grants := grants[(id, owner) := grants[(id, owner)].(status := Voided)];
      return true;
    }
  }

  lemma SpendersAreKnown(desk: Desk, r: Redemption)
    requires CanSpend(desk, r)
    ensures r.program in desk.programs
  {
  }

  lemma UsableCodesAreKnown(desk: Desk, c: CodeId, owner: UserId)
    requires CanUseCode(desk, c, owner)
    ensures c in desk.codes
  {
  }
}
