/**
 Instance refunds: the cutoff, the quote loop, and the lines the settlement writes.
 */
module Refunds {
  import opened Wrappers
  import opened Billing

  const HOUR: int := 3_600 * SECOND
  const SHANGHAI_OFFSET: int := 8 * HOUR
  const PREPAID_DAYS: int := 3
  const RETENTION: int := 30 * DAY

  /** One order of the instance, in service order. */
  datatype Segment = Segment(id: int, active: bool, amount: Fen, start: Instant, end: Instant, wallet: bool)

  datatype RefundQuote = RefundQuote(totalDays: int, refundableDays: int, amount: Fen, cutoff: Instant,
                                     purgeAt: Instant)

  datatype RefundError = InvalidWindow | BrokenChain | NotWalletPaid | NothingRefundable

  /** Midnight in Asia/Shanghai three calendar days on; UTC+8 all year round. */
  function RefundCutoffAt(now: Instant): Instant {
    ((now + SHANGHAI_OFFSET) / DAY + PREPAID_DAYS) * DAY - SHANGHAI_OFFSET
  }

  /** The operation day and the two after it are kept: the cutoff is a local midnight, 2 to 3 days away. */
  lemma CutoffIsTheFourthDay(now: Instant)
    ensures var cutoff := RefundCutoffAt(now);
            var day := 86_400 * 1_000_000_000;
            var offset := 8 * 3_600 * 1_000_000_000;
            && now + 2 * day < cutoff <= now + 3 * day
            && (cutoff + offset) % day == 0
            && (cutoff + offset) / day == (now + offset) / day + 3
  {
    var day := (now + SHANGHAI_OFFSET) / DAY + PREPAID_DAYS;
    DivExact(day, DAY);
    assert day * DAY == DAY * (day * DAY / DAY) + day * DAY % DAY;
  }

  lemma CutoffMonotone(early: Instant, late: Instant)
    requires early <= late
    ensures RefundCutoffAt(early) <= RefundCutoffAt(late)
  {
    DivMonotone(early + SHANGHAI_OFFSET, late + SHANGHAI_OFFSET, DAY);
  }

  predicate ValidChain(segments: seq<Segment>) {
    && (forall k :: 0 <= k < |segments| ==> segments[k].start < segments[k].end)
    && (forall k :: 0 < k < |segments| ==> segments[k].start == segments[k - 1].end)
  }

  method ValidateRefundSegments(segments: seq<Segment>) returns (error: Option<RefundError>)
    ensures error.None? <==> ValidChain(segments)
    ensures error.Some? ==> error.value.InvalidWindow? || error.value.BrokenChain?
  {
    for k := 0 to |segments|
      invariant ValidChain(segments[..k])
    {
      if segments[k].end <= segments[k].start {
        return Some(InvalidWindow);
      }
      if k > 0 && segments[k].start != segments[k - 1].end {
        assert segments[..k + 1][k] == segments[k] && segments[..k + 1][k - 1] == segments[k - 1];
        return Some(BrokenChain);
      }
    }
    assert segments[..|segments|] == segments;
    return None;
  }

  /** Whole days left past the cutoff. */
  function DaysLeft(s: Segment, cutoff: Instant): int {
    if s.end <= cutoff then 0 else (s.end - Later(cutoff, s.start)) / DAY
  }

  /** What the quote loop adds for a segment: nothing unless a whole day is left. */
  function QuotedFor(s: Segment, cutoff: Instant): Fen {
    if s.active && DaysLeft(s, cutoff) > 0 then ProrateFen(s.amount, s.start, s.end, Later(cutoff, s.start)) else 0
  }

  /** The wallet line the settlement writes for an active segment. */
  function RefundAmountForSegment(s: Segment, cutoff: Instant): Fen {
    if s.amount <= 0 || s.end <= cutoff then 0
    else ProrateFen(s.amount, s.start, s.end, Later(cutoff, s.start))
  }

  function LineFor(s: Segment, cutoff: Instant): Fen {
    if s.active then RefundAmountForSegment(s, cutoff) else 0
  }

  function QuotedTotal(segments: seq<Segment>, cutoff: Instant): int {
    if segments == [] then 0
    else QuotedTotal(segments[..|segments| - 1], cutoff) + QuotedFor(segments[|segments| - 1], cutoff)
  }

  function LinesTotal(segments: seq<Segment>, cutoff: Instant): int {
    if segments == [] then 0
    else LinesTotal(segments[..|segments| - 1], cutoff) + LineFor(segments[|segments| - 1], cutoff)
  }

  function RefundableDays(segments: seq<Segment>, cutoff: Instant): int {
    if segments == [] then 0
    else
      var s := segments[|segments| - 1];
      RefundableDays(segments[..|segments| - 1], cutoff)
      + if s.active && DaysLeft(s, cutoff) > 0 then DaysLeft(s, cutoff) else 0
  }

  function TotalDays(segments: seq<Segment>): int {
    if segments == [] then 0
    else
      var s := segments[|segments| - 1];
      TotalDays(segments[..|segments| - 1]) + if s.active then (s.end - s.start) / DAY else 0
  }

  ghost predicate ActivePaidByWallet(segments: seq<Segment>) {
    forall k :: 0 <= k < |segments| && segments[k].active ==> segments[k].wallet
  }

  method QuoteInstanceRefund(segments: seq<Segment>, now: Instant) returns (r: Result<RefundQuote, RefundError>)
    ensures !ValidChain(segments) ==> r.Failure? && (r.error.InvalidWindow? || r.error.BrokenChain?)
    ensures ValidChain(segments) && !ActivePaidByWallet(segments) ==> r == Failure(NotWalletPaid)
    ensures ValidChain(segments) && ActivePaidByWallet(segments) ==>
      var cutoff := RefundCutoffAt(now);
      r == if QuotedTotal(segments, cutoff) < 1 then Failure(NothingRefundable)
           else Success(RefundQuote(TotalDays(segments), RefundableDays(segments, cutoff),
                                    QuotedTotal(segments, cutoff), cutoff,
                                    cutoff + 30 * 86_400 * 1_000_000_000))
  {
    var invalid := ValidateRefundSegments(segments);
    if invalid.Some? {
      return Failure(invalid.value);
    }
    var cutoff := RefundCutoffAt(now);
    var amount, totalDays, refundableDays, active := 0, 0, 0, 0;
    for k := 0 to |segments|
      invariant ActivePaidByWallet(segments[..k])
      invariant amount == QuotedTotal(segments[..k], cutoff)
      invariant totalDays == TotalDays(segments[..k])
      invariant refundableDays == RefundableDays(segments[..k], cutoff)
      invariant active >= 0 && (active == 0 ==> amount == 0)
    {
      var s := segments[k];
      assert segments[..k + 1][..k] == segments[..k];
      if !s.active {
        continue;
      }
      active := active + 1;
      if !s.wallet {
        return Failure(NotWalletPaid);
      }
      totalDays := totalDays + (s.end - s.start) / DAY;
      if s.end <= cutoff {
        continue;
      }
      var start := cutoff;
      if start < s.start {
        start := s.start;
      }
      var days := (s.end - start) / DAY;
      if days <= 0 {
        continue;
      }
      refundableDays := refundableDays + days;
      amount := amount + ProrateFen(s.amount, s.start, s.end, start);
    }
    assert segments[..|segments|] == segments;
    if active == 0 || amount < 1 {
      return Failure(NothingRefundable);
    }
    r := Success(RefundQuote(totalDays, refundableDays, amount, cutoff, cutoff + RETENTION));
  }

  /** A segment the quote skips because less than a day is left, though its line is worth something. */
  ghost predicate ShortTail(s: Segment, cutoff: Instant) {
    s.active && DaysLeft(s, cutoff) == 0 && RefundAmountForSegment(s, cutoff) > 0
  }

  lemma LineCoversQuote(s: Segment, cutoff: Instant)
    ensures 0 <= QuotedFor(s, cutoff) <= LineFor(s, cutoff)
    ensures LineFor(s, cutoff) <= (if s.amount > 0 then s.amount else 0)
    ensures QuotedFor(s, cutoff) == LineFor(s, cutoff) <==> !ShortTail(s, cutoff)
  {
    ProrationBounds(s.amount, s.start, s.end, Later(cutoff, s.start));
  }

  /**
   A line in figures: the price's share of the whole seconds after the cutoff, or after the order's
   own start if that is later, whether or not the quote counts a whole day of it.
   */
  lemma LineInFigures(s: Segment, cutoff: Instant)
    requires s.start < s.end
    ensures var start := if cutoff < s.start then s.start else cutoff;
            var left := (s.end - start) / 1_000_000_000;
            var all := (s.end - s.start) / 1_000_000_000;
            && (if s.active && s.amount > 0 && start < s.end && left > 0
                then IsFloor(LineFor(s, cutoff), s.amount * left, all) else LineFor(s, cutoff) == 0)
            && QuotedFor(s, cutoff) ==
                 if start + 86_400 * 1_000_000_000 <= s.end then LineFor(s, cutoff) else 0
  {
    hide IsFloor;
    var start := Later(cutoff, s.start);
    var left, all := Seconds(start, s.end), Seconds(s.start, s.end);
    if start < s.end {
      DivMonotone(s.end - start, s.end - s.start, SECOND);
      if all > 0 {
        FloorIsDivision(s.amount * left, all);
      }
    }
  }

  /** A plan change credits what is unused at an instant as a refund with that cutoff would. */
  lemma ExchangeCreditsAlike(s: Segment, cutoff: Instant)
    ensures RefundAmountForSegment(s, cutoff) == PlanChangeOrderRefundFen(s.amount, s.start, s.end, cutoff)
  {
  }

  lemma LinesCoverQuote(segments: seq<Segment>, cutoff: Instant)
    ensures 0 <= QuotedTotal(segments, cutoff) <= LinesTotal(segments, cutoff)
  {
    if segments != [] {
      LinesCoverQuote(segments[..|segments| - 1], cutoff);
      LineCoversQuote(segments[|segments| - 1], cutoff);
    }
  }

  /** The lines add up to the quote, which is when the settlement commits, exactly when no segment is a short tail. */
  lemma {:induction false} RefundAgreement(segments: seq<Segment>, cutoff: Instant)
    ensures LinesTotal(segments, cutoff) == QuotedTotal(segments, cutoff)
       <==> forall k :: 0 <= k < |segments| ==> !ShortTail(segments[k], cutoff)
  {
    if segments != [] {
      var init, last := segments[..|segments| - 1], segments[|segments| - 1];
      RefundAgreement(init, cutoff);
      LinesCoverQuote(init, cutoff);
      LineCoversQuote(last, cutoff);
      assert segments == init + [last];
    }
  }

  /** Four hours left past the cutoff: no whole day for the quote, 15 fen for the line. */
  lemma ShortTailExample(s: Segment)
    requires s.active && s.amount == 3000
    requires s.start == -30 * DAY && s.end == 2 * DAY + 20 * HOUR
    ensures ShortTail(s, RefundCutoffAt(0))
  {
    var cutoff := RefundCutoffAt(0);
    assert cutoff == 2 * DAY + 16 * HOUR;
    assert Seconds(s.start, s.end) == 2_836_800;
    assert Seconds(cutoff, s.end) == 14_400;
    assert 3000 * 14_400 / 2_836_800 == 15;
  }

  /** A renewal chain the settlement always refuses: the cutoff falls in the last day of the first order. */
  lemma ShortTailBlocksRefund(first: Segment, second: Segment)
    requires first == Segment(0, true, 3000, -30 * DAY, 2 * DAY + 20 * HOUR, true)
    requires second == Segment(1, true, 3000, 2 * DAY + 20 * HOUR, 33 * DAY, true)
    ensures var chain, cutoff := [first, second], RefundCutoffAt(0);
            && ValidChain(chain) && ActivePaidByWallet(chain)
            && QuotedTotal(chain, cutoff) >= 1
            && LinesTotal(chain, cutoff) != QuotedTotal(chain, cutoff)
  {
    var chain, cutoff := [first, second], RefundCutoffAt(0);
    ShortTailExample(first);
    assert ShortTail(chain[0], cutoff);
    RefundAgreement(chain, cutoff);
    assert QuotedFor(second, cutoff) == 3000 by {
      ProrationBounds(3000, second.start, second.end, Later(cutoff, second.start));
      assert DaysLeft(second, cutoff) > 0;
    }
    assert chain[..1] == [first] && [first][..0] == [];
    LinesCoverQuote(chain[..1], cutoff);
  }
}
