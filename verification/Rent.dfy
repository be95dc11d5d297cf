// The TTL arithmetic of `storage.rs`.
module Rent {
  import opened Prelude
  import opened Types
  import opened Accrual
  import opened StreamState

  const SECONDS_PER_LEDGER := 5
  const TTL_SAFETY_MARGIN_PERCENT := 20
  const TTL_BUFFER_SECONDS := 30 * 24 * 60 * 60
  const MIN_STREAM_TTL_LEDGERS: U32 :=
    TTL_BUFFER_SECONDS * (100 + TTL_SAFETY_MARGIN_PERCENT) / (SECONDS_PER_LEDGER * 100)

  function SecondsToLedgers(seconds: U64): U32 {
    var inflated := SaturatingU64(seconds * (100 + TTL_SAFETY_MARGIN_PERCENT)) / 100;
    var ledgers := SaturatingU64(inflated + (SECONDS_PER_LEDGER - 1)) / SECONDS_PER_LEDGER;
    if ledgers > U32_MAX then U32_MAX else ledgers
  }

  /** The wall-clock end of the schedule if no further pause happens. */
  function EffectiveEnd(s: Stream, now: U64): U64 {
    SaturatingU64(SaturatingU64(s.endTime + s.pausedTotal) +
                  match s.pausedAt case Some(at) => SaturatingU64(now - at) case None => 0)
  }

  function TtlTarget(s: Stream, now: U64, maxTtl: U32): U32 {
    var remaining := SaturatingU64(EffectiveEnd(s, now) - now);
    var target := SecondsToLedgers(SaturatingU64(remaining + TTL_BUFFER_SECONDS));
    Min(Max(target, MIN_STREAM_TTL_LEDGERS), maxTtl)
  }

  lemma SecondsToLedgersRises(a: U64, b: U64)
    requires a <= b
    ensures SecondsToLedgers(a) <= SecondsToLedgers(b)
  {
  }

  /**
   * The margin: short of saturation, 25 ledgers for every 6 seconds, to within
   * the fraction lost by flooring the inflation. `storage.rs` states it without that fraction.
   */
  lemma MarginCovers(seconds: U64)
    requires SecondsToLedgers(seconds) < U32_MAX
    ensures 25 * SecondsToLedgers(seconds) + 4 >= 6 * seconds
    ensures 5 * SecondsToLedgers(seconds) >= seconds
  {
  }

  /**
   * The margin as documented, a close time of 25/6 seconds fully covered, holds
   * for these durations and no others; nine seconds is the first that fails.
   */
  lemma StatedMarginHoldsIff(seconds: U64)
    requires SecondsToLedgers(seconds) < U32_MAX
    ensures 25 * SecondsToLedgers(seconds) >= 6 * seconds <==> seconds % 25 !in {9, 13, 17, 21}
  {
    var q, r := seconds / 25, seconds % 25;
    LedgersByPeriod(seconds, q, r);
    assert r in {9, 13, 17, 21} <==> 25 * ((r * 6 / 5 + 4) / 5) < 6 * r;
  }

  lemma LedgersByPeriod(seconds: U64, q: nat, r: nat)
    requires seconds == 25 * q + r && r < 25
    requires SecondsToLedgers(seconds) < U32_MAX
    ensures SecondsToLedgers(seconds) == 6 * q + (r * 6 / 5 + 4) / 5
  {
    assert seconds * 120 / 100 == 30 * q + r * 6 / 5;
  }

  /**
   * Unless clamped, five times the rent target covers the buffer and the time
   * until the stream clock reaches `end_time`, if no further pause happens.
   */
  lemma RentCoversTheSchedule(s: Stream, now: U64, maxTtl: U32, end: U64)
    requires Shape(s, now)
    requires TtlTarget(s, now, maxTtl) < maxTtl
    // `end` is the instant at which an unpaused clock would read `end_time`.
    requires s.endTime - StreamTime(s, now) == end - now
    ensures 5 * TtlTarget(s, now, maxTtl) >= end - now + TTL_BUFFER_SECONDS
  {
    ClockIsExact(s, now);
    assert EffectiveEnd(s, now) == end;
    var remaining := SaturatingU64(end - now);
    var total := SaturatingU64(remaining + TTL_BUFFER_SECONDS);
    MarginCovers(total);
  }

  /** Short of saturation, the fewest ledgers of five seconds that hold the seconds and a fifth more, rounded down. */
  lemma LedgersAreFewest(seconds: U64)
    requires SecondsToLedgers(seconds) < U32_MAX
    ensures var ledgers := SecondsToLedgers(seconds);
            && seconds + seconds / 5 <= 5 * ledgers
            && 5 * (ledgers - 1) < seconds + seconds / 5
  {
    assert seconds * 120 / 100 == seconds + seconds / 5;
  }

  /**
   * The target from the stored fields: what is left of the schedule on the wall clock, an open
   * pause included, and thirty days more, in ledgers; at least 622080, at most the network's limit.
   */
  lemma TargetFromFields(s: Stream, now: U64, maxTtl: U32)
    requires Shape(s, now) && s.endTime + now + 2_592_000 <= U64_MAX
    ensures var open := if s.status == Paused then now - s.pausedAt.value else 0;
            var left := Max(0, s.endTime + s.pausedTotal + open - now);
            && left + 2_592_000 <= U64_MAX
            && TtlTarget(s, now, maxTtl) == Min(Max(SecondsToLedgers(left + 2_592_000), 622_080), maxTtl)
  {
    hide SecondsToLedgers, StreamTime;
    assert MIN_STREAM_TTL_LEDGERS == 622_080;
    var open := if s.status == Paused then now - s.pausedAt.value else 0;
    assert EffectiveEnd(s, now) == Min(s.endTime + s.pausedTotal + open, U64_MAX);
  }
}
