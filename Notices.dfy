/** The per-user, per-tier notice dates kept in user meta under the key
    "pmpro_recurring_notice_<days>", and the rule by which the run rewrites them
    after each result row. */
module Notices {
  import opened Common
  import opened Tiers

  /** (user id, tier days) => the day stored as "Y-m-d 00:00:00". */
  type Ledger = map<(int, int), int>

  /** The meta value the query joins for a user and tier; None when no such meta row exists. */
  function Lookup(l: Ledger, user: int, days: int): (meta: Option<int>)
    ensures meta.Some? <==> (user, days) in l
    ensures meta.Some? ==> meta.value == l[(user, days)]
  {
    if (user, days) in l then Some(l[(user, days)]) else None
  }

  /** date("Y-m-d 00:00:00", strtotime("+(d+1) days", now)): the day d + 1 days after today. */
  function NoticeDay(now: int, d: int): (day: int)
    ensures day == DayOf(now) + d + 1
  {
    DayOfShift(now, d + 1);
    DayOf(now + (d + 1) * SecondsPerDay)
  }

  /** The notice for tier d of user u holds the value a run on day `today` writes. */
  predicate Stamped(l: Ledger, u: int, d: int, today: int) {
    (u, d) in l && l[(u, d)] == today + d + 1
  }

  /** The keys a row of user u processed at tier `days` rewrites: every tier at or above it. */
  predicate Rewritten(u: int, ts: seq<Tier>, days: int, k: (int, int)) {
    k.0 == u && k.1 in TierDays(ts) && k.1 >= days
  }

  /** The ledger after the inner `foreach ($emails as $d => $t)` for a row of user u
      at tier `days`: each tier d >= days is set to today + d + 1, nothing else changes. */
  function MarkNotices(l: Ledger, u: int, ts: seq<Tier>, days: int, now: int): (r: Ledger)
    ensures forall d :: d in TierDays(ts) && d >= days ==> Stamped(r, u, d, DayOf(now))
    ensures forall k :: k in l && !Rewritten(u, ts, days, k) ==> k in r && r[k] == l[k]
    ensures forall k :: k in r ==> k in l || Rewritten(u, ts, days, k)
    decreases |ts|
  {
    if ts == [] then l
    else
      var l1 := if ts[0].days >= days then l[(u, ts[0].days) := NoticeDay(now, ts[0].days)] else l;
      assert ts == [ts[0]] + ts[1..];
      TierDaysCons(ts[0], ts[1..]);
      MarkNotices(l1, u, ts[1..], days, now)
  }

  /** A notice already holding today's value keeps it: every write of a run on one
      day puts the same value under the same key. */
  lemma MarkNoticesKeepsStamp(l: Ledger, u: int, ts: seq<Tier>, days: int, now: int, v: int, d: int)
    requires Stamped(l, v, d, DayOf(now))
    ensures Stamped(MarkNotices(l, u, ts, days, now), v, d, DayOf(now))
  {
  }

  /** Relative to the ledger `l0` a run started from, `l` only adds stamps: every key
      of `l0` is still there, and every key that is new or holds a new value holds
      the value a run on day `today` writes for its tier. */
  predicate Grows(l0: Ledger, l: Ledger, today: int) {
    && (forall k :: k in l0 ==> k in l)
    && (forall k :: k in l && (k !in l0 || l[k] != l0[k]) ==> l[k] == today + k.1 + 1)
  }

  lemma MarkNoticesGrows(l0: Ledger, l: Ledger, u: int, ts: seq<Tier>, days: int, now: int)
    requires Grows(l0, l, DayOf(now))
    ensures Grows(l0, MarkNotices(l, u, ts, days, now), DayOf(now))
  {
    var r := MarkNotices(l, u, ts, days, now);
    forall k | k in r && (k !in l0 || r[k] != l0[k]) ensures r[k] == DayOf(now) + k.1 + 1 {
      if Rewritten(u, ts, days, k) {
        assert Stamped(r, u, k.1, DayOf(now));
      }
    }
  }

  /** The inner update loop of the run: one `update_user_meta` per tier at or above `days`. */
  method UpdateNotices(l: Ledger, u: int, tiers: seq<Tier>, days: int, now: int) returns (r: Ledger)
    ensures r == MarkNotices(l, u, tiers, days, now)
  {
    r := l;
    var j := 0;
    while j < |tiers|
      invariant 0 <= j <= |tiers|
      invariant MarkNotices(l, u, tiers, days, now) == MarkNotices(r, u, tiers[j..], days, now)
    {
      var d := tiers[j].days;
      if d >= days {
        r := r[(u, d) := NoticeDay(now, d)];
      }
      assert tiers[j..][1..] == tiers[j + 1..];
      j := j + 1;
    }
  }
}
