/** The reminder batch `pmpror_recurring_emails`: for each tier in ascending order,
    select the eligible recurring members, mail each member at most once per run,
    and after every selected row rewrite that member's notice dates for the tier
    and all larger ones. The functions below define what one run produces; the
    method `Run` is the batch itself, proved to produce exactly that. */
module Reminders {
  import opened Common
  import opened Tiers
  import opened Notices
  import opened Eligibility
  import opened Billing

  /** One call of `sendEmail`: who, for which tier (whose template the email uses),
      and the billing text in its data. */
  datatype Email = Email(user: int, tier: Tier, billingInfo: string) {
    function Template(): string {
      tier.template
    }
  }

  /** What the run reads from the site: the clock, the calendar, the rows the
      tier queries range over, the tiers whose query fails, the last order of each
      user (None when it has no id), and the two filters. `expiryTest` picks the
      billing text's expiry test: `AsWritten` is the batch as the source runs it,
      `Intended` the batch with the corrected test. */
  datatype Env = Env(
    now: int,
    cal: Calendar,
    expiryTest: ExpiryTest,
    rows: seq<Candidate>,
    failing: set<int>,
    lastOrder: int -> Option<Order>,
    tierFilter: Config -> Config,
    sendFilter: (int, Order) -> Mixed)

  /** The ledger (user meta), `$sent_emails`, and the emails sent so far. */
  datatype RunState = RunState(ledger: Ledger, sent: seq<int>, emails: seq<Email>)

  datatype Outcome = Completed | Aborted(days: int)

  datatype Report = Report(state: RunState, outcome: Outcome)

  function Today(env: Env): int {
    DayOf(env.now)
  }

  /** The tier filter applied to the default, sorted by day count. */
  function ConfiguredTiers(env: Env): (ts: seq<Tier>)
    ensures Ascending(ts)
    ensures TierDays(ts) == env.tierFilter(DefaultConfig()).Keys
  {
    SortTiers(env.tierFilter(DefaultConfig()))
  }

  /** The send filter returned exactly `true` for this user and order. */
  predicate Allowed(env: Env, u: int, o: Order) {
    IsTrue(env.sendFilter(u, o))
  }

  /** An email goes out for a row of user u exactly when u has not been mailed in
      this run, has a last order, and the send filter returns exactly `true`. */
  predicate Sends(st: RunState, u: int, env: Env) {
    u !in st.sent && env.lastOrder(u).Some? && Allowed(env, u, env.lastOrder(u).value)
  }

  /** Lines 130-215 for a row of user u: nothing happens for a user already mailed in
      this run or without a last order; otherwise the email goes out unless the
      send filter returns anything but `true`. The ledger is not touched here. */
  function Dispatched(st: RunState, u: int, tier: Tier, env: Env): (r: RunState)
    ensures r.ledger == st.ledger
    ensures Sends(st, u, env) ==>
      && r.sent == st.sent + [u]
      && r.emails == st.emails + [Email(u, tier, BillingInfo(env.lastOrder(u).value, env.now, env.cal, env.expiryTest))]
    ensures !Sends(st, u, env) ==> r == st
  {
    if u in st.sent then st
    else match env.lastOrder(u)
      case None => st
      case Some(o) =>
        if Allowed(env, u, o) then
          var mail := Email(u, tier, BillingInfo(o, env.now, env.cal, env.expiryTest));
          st.(sent := st.sent + [u], emails := st.emails + [mail])
        else st
  }

  /** One result row: dispatch, then rewrite the notices of every tier at or above
      this one, whether or not an email went out. */
  function RowProcessed(st: RunState, e: Candidate, tier: Tier, tiers: seq<Tier>, env: Env): (r: RunState)
    ensures r.ledger == MarkNotices(st.ledger, e.user, tiers, tier.days, env.now)
    ensures Sends(st, e.user, env) ==>
      && r.sent == st.sent + [e.user]
      && r.emails == st.emails + [Email(e.user, tier, BillingInfo(env.lastOrder(e.user).value, env.now, env.cal, env.expiryTest))]
    ensures !Sends(st, e.user, env) ==> r.sent == st.sent && r.emails == st.emails
  {
    var d := Dispatched(st, e.user, tier, env);
    d.(ledger := MarkNotices(d.ledger, e.user, tiers, tier.days, env.now))
  }

  function RowsProcessed(st: RunState, rows: seq<Candidate>, tier: Tier, tiers: seq<Tier>, env: Env): RunState
    decreases |rows|
  {
    if rows == [] then st
    else RowsProcessed(RowProcessed(st, rows[0], tier, tiers, env), rows[1..], tier, tiers, env)
  }

  /** One tier: its query runs against the ledger as it stands when the tier starts. */
  function TierSelection(st: RunState, tier: Tier, env: Env): seq<Candidate> {
    Select(env.rows, st.ledger, tier.days, Today(env), env.cal)
  }

  /** The tiers `ts` still to go, in order; a failing query ends the whole run at once. */
  function TiersRun(st: RunState, ts: seq<Tier>, tiers: seq<Tier>, env: Env): Report
    decreases |ts|
  {
    if ts == [] then Report(st, Completed)
    else if ts[0].days in env.failing then Report(st, Aborted(ts[0].days))
    else TiersRun(RowsProcessed(st, TierSelection(st, ts[0], env), ts[0], tiers, env), ts[1..], tiers, env)
  }

  /** A whole run from the ledger `ledger0`. */
  function RunOf(env: Env, ledger0: Ledger): Report {
    var tiers := ConfiguredTiers(env);
    TiersRun(RunState(ledger0, [], []), tiers, tiers, env)
  }

  /** The inner `foreach ($recurring_soon as $e)` of one tier. */
  method ProcessRows(found: seq<Candidate>, tier: Tier, tiers: seq<Tier>, env: Env,
                     ledger0: Ledger, sent0: seq<int>, emails0: seq<Email>)
    returns (ledger: Ledger, sent: seq<int>, emails: seq<Email>)
    ensures RunState(ledger, sent, emails) == RowsProcessed(RunState(ledger0, sent0, emails0), found, tier, tiers, env)
  {
    ledger, sent, emails := ledger0, sent0, emails0;
    var i := 0;
    while i < |found|
      invariant 0 <= i <= |found|
      invariant RowsProcessed(RunState(ledger0, sent0, emails0), found, tier, tiers, env)
             == RowsProcessed(RunState(ledger, sent, emails), found[i..], tier, tiers, env)
    {
      var e := found[i];
      if e.user !in sent {
        var order := env.lastOrder(e.user);
        if order.Some? {
          var billinginfo := BuildBillingInfo(order.value, env.now, env.cal, env.expiryTest);
          if env.sendFilter(e.user, order.value) == Bool(true) {
            emails := emails + [Email(e.user, tier, billinginfo)];
            sent := sent + [e.user];
          }
        }
      }
      ledger := UpdateNotices(ledger, e.user, tiers, tier.days, env.now);
      assert found[i..][1..] == found[i + 1..];
      i := i + 1;
    }
  }

  /** The batch itself. */
  method Run(env: Env, ledger0: Ledger) returns (ledger: Ledger, sent: seq<int>, emails: seq<Email>, outcome: Outcome)
    ensures Report(RunState(ledger, sent, emails), outcome) == RunOf(env, ledger0)
  {
    var today := DayOf(env.now);
    var tiers := SortTiers(env.tierFilter(DefaultConfig()));
    ledger, sent, emails := ledger0, [], [];
    outcome := Completed;
    var k := 0;
    while k < |tiers|
      invariant 0 <= k <= |tiers|
      invariant RunOf(env, ledger0) == TiersRun(RunState(ledger, sent, emails), tiers[k..], tiers, env)
    {
      var tier := tiers[k];
      if tier.days in env.failing {
        outcome := Aborted(tier.days);
        return;
      }
      var found := Select(env.rows, ledger, tier.days, today, env.cal);
      ledger, sent, emails := ProcessRows(found, tier, tiers, env, ledger, sent, emails);
      assert tiers[k..][1..] == tiers[k + 1..];
      k := k + 1;
    }
  }

  // ---------------------------------------------------------------------------
  // What a run guarantees

  /** `$sent_emails` lists, in order, the users the emails went to. */
  predicate Recorded(st: RunState) {
    |st.sent| == |st.emails| && forall i :: 0 <= i < |st.sent| ==> st.sent[i] == st.emails[i].user
  }

  predicate NoRepeats(s: seq<int>) {
    forall i, j :: 0 <= i < j < |s| ==> s[i] != s[j]
  }

  /** The row an email was sent for: an active recurring membership with an order
      of that user dated in the tier's window today. */
  predicate Qualifies(e: Candidate, tier: Tier, env: Env) {
    e.active && e.cycleNumber > 0 && InWindow(e.timestamp, e.cyclePeriod, e.cycleNumber, Today(env), tier.days, env.cal)
  }

  /** An email was warranted: its tier is configured, some row of its user qualified
      for that tier, the user has a last order, the send filter returned exactly
      `true`, and the billing text is the one built from that order. */
  predicate Warranted(m: Email, env: Env, tiers: seq<Tier>) {
    && m.tier in tiers
    && (exists e :: e in env.rows && e.user == m.user && Qualifies(e, m.tier, env))
    && env.lastOrder(m.user).Some?
    && Allowed(env, m.user, env.lastOrder(m.user).value)
    && m.billingInfo == BillingInfo(env.lastOrder(m.user).value, env.now, env.cal, env.expiryTest)
  }

  /** The mailed user's notices for the tier and every larger one carry today's stamp. */
  predicate NoticesWritten(l: Ledger, m: Email, tiers: seq<Tier>, today: int) {
    forall d :: d in TierDays(tiers) && d >= m.tier.days ==> Stamped(l, m.user, d, today)
  }

  predicate Good(st: RunState, env: Env, tiers: seq<Tier>) {
    && Recorded(st)
    && NoRepeats(st.sent)
    && forall m :: m in st.emails ==> Warranted(m, env, tiers) && NoticesWritten(st.ledger, m, tiers, Today(env))
  }

  lemma RowKeepsGood(st: RunState, e: Candidate, tier: Tier, tiers: seq<Tier>, env: Env)
    requires Good(st, env, tiers)
    requires tier in tiers && e in env.rows && Qualifies(e, tier, env)
    ensures Good(RowProcessed(st, e, tier, tiers, env), env, tiers)
  {
    var r := RowProcessed(st, e, tier, tiers, env);
    forall m | m in st.emails
      ensures NoticesWritten(r.ledger, m, tiers, Today(env))
    {
      forall d | d in TierDays(tiers) && d >= m.tier.days
        ensures Stamped(r.ledger, m.user, d, Today(env))
      {
        MarkNoticesKeepsStamp(st.ledger, e.user, tiers, tier.days, env.now, m.user, d);
      }
    }
    if Sends(st, e.user, env) {
      var m := Email(e.user, tier, BillingInfo(env.lastOrder(e.user).value, env.now, env.cal, env.expiryTest));
      assert r.emails == st.emails + [m];
      assert Warranted(m, env, tiers);
      forall i, j | 0 <= i < j < |r.sent| ensures r.sent[i] != r.sent[j] {
        if j == |st.sent| {
          assert r.sent[i] == st.sent[i];
        }
      }
      forall x | x in r.emails
        ensures Warranted(x, env, tiers) && NoticesWritten(r.ledger, x, tiers, Today(env))
      {
        if x != m {
          assert x in st.emails;
        }
      }
    }
  }

  lemma {:induction false} RowsKeepGood(st: RunState, rows: seq<Candidate>, tier: Tier, tiers: seq<Tier>, env: Env)
    requires Good(st, env, tiers) && tier in tiers
    requires forall e :: e in rows ==> e in env.rows && Qualifies(e, tier, env)
    ensures Good(RowsProcessed(st, rows, tier, tiers, env), env, tiers)
    decreases |rows|
  {
    if rows != [] {
      assert rows[0] in rows;
      RowKeepsGood(st, rows[0], tier, tiers, env);
      assert forall e :: e in rows[1..] ==> e in rows;
      RowsKeepGood(RowProcessed(st, rows[0], tier, tiers, env), rows[1..], tier, tiers, env);
    }
  }

  lemma {:induction false} TiersKeepGood(st: RunState, ts: seq<Tier>, tiers: seq<Tier>, env: Env)
    requires Good(st, env, tiers)
    requires forall t :: t in ts ==> t in tiers
    ensures Good(TiersRun(st, ts, tiers, env).state, env, tiers)
    decreases |ts|
  {
    if ts != [] && ts[0].days !in env.failing {
      assert ts[0] in ts;
      var found := TierSelection(st, ts[0], env);
      RowsKeepGood(st, found, ts[0], tiers, env);
      assert forall t :: t in ts[1..] ==> t in ts;
      TiersKeepGood(RowsProcessed(st, found, ts[0], tiers, env), ts[1..], tiers, env);
    }
  }

  lemma RunIsGood(env: Env, ledger0: Ledger)
    ensures Good(RunOf(env, ledger0).state, env, ConfiguredTiers(env))
  {
    var tiers := ConfiguredTiers(env);
    TiersKeepGood(RunState(ledger0, [], []), tiers, tiers, env);
  }

  /** At most one email per user per run, and `$sent_emails` holds exactly the
      users mailed, in the order they were mailed. */
  lemma AtMostOneEmailPerUser(env: Env, ledger0: Ledger)
    ensures var st := RunOf(env, ledger0).state;
      && |st.sent| == |st.emails|
      && (forall i :: 0 <= i < |st.sent| ==> st.sent[i] == st.emails[i].user)
      && (forall i, j :: 0 <= i < j < |st.emails| ==> st.emails[i].user != st.emails[j].user)
  {
    RunIsGood(env, ledger0);
    var st := RunOf(env, ledger0).state;
    forall i, j | 0 <= i < j < |st.emails| ensures st.emails[i].user != st.emails[j].user {
      assert st.sent[i] != st.sent[j];
    }
  }

  /** Every email of a run went to an active recurring member with an order dated in
      its tier's window, with a configured tier's template, after the send filter
      returned exactly `true` on that user's last order. */
  lemma EveryEmailWarranted(env: Env, ledger0: Ledger, m: Email)
    requires m in RunOf(env, ledger0).state.emails
    ensures m.tier in ConfiguredTiers(env)
    ensures m.tier.days in env.tierFilter(DefaultConfig())
    ensures m.Template() == env.tierFilter(DefaultConfig())[m.tier.days]
    ensures exists e :: e in env.rows && e.user == m.user && Qualifies(e, m.tier, env)
    ensures env.lastOrder(m.user).Some? && IsTrue(env.sendFilter(m.user, env.lastOrder(m.user).value))
  {
    RunIsGood(env, ledger0);
  }

  /** Some row of the email's user passes its tier's query against the ledger the
      run started from: the notice was absent or stale when the run began. */
  predicate DueAtStart(m: Email, env: Env, ledger0: Ledger) {
    exists e :: && e in env.rows && e.user == m.user
                && Eligible(e, Lookup(ledger0, m.user, m.tier.days), m.tier.days, Today(env), env.cal)
  }

  /** The run has only added today's stamps to `ledger0`, and every email so far
      (for a tier of at least 0 days) was due at the start. */
  predicate StartedFrom(st: RunState, env: Env, ledger0: Ledger) {
    && Grows(ledger0, st.ledger, Today(env))
    && forall m :: m in st.emails && m.tier.days >= 0 ==> DueAtStart(m, env, ledger0)
  }

  lemma RowKeepsStartedFrom(st: RunState, e: Candidate, tier: Tier, tiers: seq<Tier>, env: Env,
                            ledger0: Ledger, lt: Ledger)
    requires StartedFrom(st, env, ledger0) && Grows(ledger0, lt, Today(env))
    requires e in env.rows && Eligible(e, Lookup(lt, e.user, tier.days), tier.days, Today(env), env.cal)
    ensures StartedFrom(RowProcessed(st, e, tier, tiers, env), env, ledger0)
  {
    var r := RowProcessed(st, e, tier, tiers, env);
    MarkNoticesGrows(ledger0, st.ledger, e.user, tiers, tier.days, env.now);
    if Sends(st, e.user, env) && tier.days >= 0 {
      SelectedAgainstStart(ledger0, lt, e, tier.days, Today(env), env.cal);
      forall m | m in r.emails && m.tier.days >= 0 ensures DueAtStart(m, env, ledger0) {
        if m !in st.emails {
          assert m.user == e.user && m.tier == tier;
        }
      }
    }
  }

  lemma {:induction false} RowsKeepStartedFrom(st: RunState, rows: seq<Candidate>, tier: Tier, tiers: seq<Tier>,
                                               env: Env, ledger0: Ledger, lt: Ledger)
    requires StartedFrom(st, env, ledger0) && Grows(ledger0, lt, Today(env))
    requires forall e :: e in rows ==> e in env.rows && Eligible(e, Lookup(lt, e.user, tier.days), tier.days, Today(env), env.cal)
    ensures StartedFrom(RowsProcessed(st, rows, tier, tiers, env), env, ledger0)
    decreases |rows|
  {
    if rows != [] {
      assert rows[0] in rows;
      RowKeepsStartedFrom(st, rows[0], tier, tiers, env, ledger0, lt);
      assert forall e :: e in rows[1..] ==> e in rows;
      RowsKeepStartedFrom(RowProcessed(st, rows[0], tier, tiers, env), rows[1..], tier, tiers, env, ledger0, lt);
    }
  }

  lemma {:induction false} TiersKeepStartedFrom(st: RunState, ts: seq<Tier>, tiers: seq<Tier>, env: Env, ledger0: Ledger)
    requires StartedFrom(st, env, ledger0)
    ensures StartedFrom(TiersRun(st, ts, tiers, env).state, env, ledger0)
    decreases |ts|
  {
    if ts != [] && ts[0].days !in env.failing {
      var found := TierSelection(st, ts[0], env);
      RowsKeepStartedFrom(st, found, ts[0], tiers, env, ledger0, st.ledger);
      TiersKeepStartedFrom(RowsProcessed(st, found, ts[0], tiers, env), ts[1..], tiers, env, ledger0);
    }
  }

  /** No email without a due notice: every email of a run (for a tier of at least
      0 days) went to a user with a row that passes its tier's whole WHERE clause,
      meta test included, against the ledger the run started from. */
  lemma EmailOnlyIfNoticeDue(env: Env, ledger0: Ledger, m: Email)
    requires m in RunOf(env, ledger0).state.emails && m.tier.days >= 0
    ensures exists e :: && e in env.rows && e.user == m.user
                        && Eligible(e, Lookup(ledger0, m.user, m.tier.days), m.tier.days, Today(env), env.cal)
  {
    var tiers := ConfiguredTiers(env);
    TiersKeepStartedFrom(RunState(ledger0, [], []), tiers, tiers, env, ledger0);
  }

  /** Across runs: once a run on day T mails a user for tier t, a next run started
      from the ledger it leaves behind mails that user for no configured tier
      d >= t.days before day T + 2d + 1. */
  lemma NoEmailAgainBeforeWindow(env: Env, ledger0: Ledger, m: Email, env2: Env, m2: Email)
    requires m in RunOf(env, ledger0).state.emails
    requires m2 in RunOf(env2, RunOf(env, ledger0).state.ledger).state.emails
    requires m2.user == m.user
    requires m2.tier.days in env.tierFilter(DefaultConfig()) && m2.tier.days >= m.tier.days && m2.tier.days >= 0
    ensures Today(env2) >= Today(env) + 2 * m2.tier.days + 1
  {
    var l1 := RunOf(env, ledger0).state.ledger;
    var d := m2.tier.days;
    EmailOnlyIfNoticeDue(env2, l1, m2);
    var e :| e in env2.rows && e.user == m2.user && Eligible(e, Lookup(l1, m2.user, d), d, Today(env2), env2.cal);
    MailedUserSuppressed(env, ledger0, m, d, e, Today(env2), env2.cal);
  }

  /** Once a run on day T has mailed a user for tier t, none of that user's rows
      passes the query of any configured tier d >= t.days until day T + 2d + 1. */
  lemma MailedUserSuppressed(env: Env, ledger0: Ledger, m: Email, d: int, e: Candidate, later: int, cal: Calendar)
    requires m in RunOf(env, ledger0).state.emails
    requires d in env.tierFilter(DefaultConfig()) && d >= m.tier.days
    requires e.user == m.user
    ensures var l := RunOf(env, ledger0).state.ledger;
      Eligible(e, Lookup(l, e.user, d), d, later, cal) ==> later >= Today(env) + 2 * d + 1
  {
    RunIsGood(env, ledger0);
    var l := RunOf(env, ledger0).state.ledger;
    assert NoticesWritten(l, m, ConfiguredTiers(env), Today(env));
    assert Stamped(l, m.user, d, Today(env));
    SuppressionWindow(l, m.user, d, Today(env), later);
  }

  /** A notice holding today's value keeps it through any rows of the same run. */
  lemma {:induction false} RowsKeepStamp(st: RunState, rows: seq<Candidate>, tier: Tier, tiers: seq<Tier>, env: Env, v: int, d: int)
    requires Stamped(st.ledger, v, d, Today(env))
    ensures Stamped(RowsProcessed(st, rows, tier, tiers, env).ledger, v, d, Today(env))
    decreases |rows|
  {
    if rows != [] {
      var st1 := RowProcessed(st, rows[0], tier, tiers, env);
      MarkNoticesKeepsStamp(st.ledger, rows[0].user, tiers, tier.days, env.now, v, d);
      RowsKeepStamp(st1, rows[1..], tier, tiers, env, v, d);
    }
  }

  /** ... and through any tiers of the same run, whether or not the run completes. */
  lemma {:induction false} TiersKeepStamp(st: RunState, ts: seq<Tier>, tiers: seq<Tier>, env: Env, v: int, d: int)
    requires Stamped(st.ledger, v, d, Today(env))
    ensures Stamped(TiersRun(st, ts, tiers, env).state.ledger, v, d, Today(env))
    decreases |ts|
  {
    if ts != [] && ts[0].days !in env.failing {
      var found := TierSelection(st, ts[0], env);
      RowsKeepStamp(st, found, ts[0], tiers, env, v, d);
      TiersKeepStamp(RowsProcessed(st, found, ts[0], tiers, env), ts[1..], tiers, env, v, d);
    }
  }

  /** After the rows of a tier, every user among them carries today's stamp for that
      tier and every configured tier above it. */
  lemma {:induction false} RowsStamp(st: RunState, rows: seq<Candidate>, tier: Tier, tiers: seq<Tier>, env: Env, e: Candidate, d: int)
    requires e in rows && d in TierDays(tiers) && d >= tier.days
    ensures Stamped(RowsProcessed(st, rows, tier, tiers, env).ledger, e.user, d, Today(env))
    decreases |rows|
  {
    var st1 := RowProcessed(st, rows[0], tier, tiers, env);
    if rows[0] == e {
      RowsKeepStamp(st1, rows[1..], tier, tiers, env, e.user, d);
    } else {
      assert e in rows[1..];
      RowsStamp(st1, rows[1..], tier, tiers, env, e, d);
    }
  }

  /** When no tier before the k-th fails, the run is the run of the first k tiers
      followed by the run of the rest. */
  lemma {:induction false} TiersRunSplit(st: RunState, ts: seq<Tier>, tiers: seq<Tier>, env: Env, k: int)
    requires 0 <= k <= |ts|
    requires forall i :: 0 <= i < k ==> ts[i].days !in env.failing
    ensures TiersRun(st, ts, tiers, env) == TiersRun(TiersRun(st, ts[..k], tiers, env).state, ts[k..], tiers, env)
    decreases k
  {
    if k > 0 {
      assert ts[0].days !in env.failing;
      var st1 := RowsProcessed(st, TierSelection(st, ts[0], env), ts[0], tiers, env);
      TiersRunSplit(st1, ts[1..], tiers, env, k - 1);
      assert ts[..k][1..] == ts[1..][..k - 1];
      assert ts[1..][k - 1..] == ts[k..];
    }
  }

  /** Suppression of every processed row, as the next runs see it: when the run
      reaches the k-th tier, each row its query selects has, in the ledger the run
      leaves behind, a notice for every configured tier d at or above the k-th that
      fails the meta test before day T + 2d + 1 and passes it from then on, whether
      that user was mailed, vetoed, already mailed, or had no last order. */
  lemma ProcessedUserSuppressed(env: Env, ledger0: Ledger, k: int, e: Candidate, d: int, later: int)
    requires 0 <= k < |ConfiguredTiers(env)|
    requires forall i :: 0 <= i <= k ==> ConfiguredTiers(env)[i].days !in env.failing
    requires var tiers := ConfiguredTiers(env);
      e in TierSelection(TiersRun(RunState(ledger0, [], []), tiers[..k], tiers, env).state, tiers[k], env)
    requires d in env.tierFilter(DefaultConfig()) && d >= ConfiguredTiers(env)[k].days
    ensures NoticeDue(Lookup(RunOf(env, ledger0).state.ledger, e.user, d), d, later)
        <==> later >= Today(env) + 2 * d + 1
  {
    var tiers := ConfiguredTiers(env);
    var s0 := RunState(ledger0, [], []);
    var sk := TiersRun(s0, tiers[..k], tiers, env).state;
    TiersRunSplit(s0, tiers, tiers, env, k);
    var found := TierSelection(sk, tiers[k], env);
    var s1 := RowsProcessed(sk, found, tiers[k], tiers, env);
    assert tiers[k..][0] == tiers[k];
    assert tiers[k..][1..] == tiers[k + 1..];
    assert TiersRun(sk, tiers[k..], tiers, env) == TiersRun(s1, tiers[k + 1..], tiers, env);
    RowsStamp(sk, found, tiers[k], tiers, env, e, d);
    TiersKeepStamp(s1, tiers[k + 1..], tiers, env, e.user, d);
    var l := RunOf(env, ledger0).state.ledger;
    SuppressionWindow(l, e.user, d, Today(env), later);
  }

  /** A failing query at the k-th tier ends the run there: the tiers before it ran
      to completion and nothing after it is processed. */
  lemma {:induction false} AbortStopsRun(st: RunState, ts: seq<Tier>, tiers: seq<Tier>, env: Env, k: int)
    requires 0 <= k < |ts| && ts[k].days in env.failing
    requires forall i :: 0 <= i < k ==> ts[i].days !in env.failing
    ensures TiersRun(st, ts[..k], tiers, env).outcome == Completed
    ensures TiersRun(st, ts, tiers, env) == Report(TiersRun(st, ts[..k], tiers, env).state, Aborted(ts[k].days))
    decreases k
  {
    if k > 0 {
      assert ts[0].days !in env.failing;
      var st1 := RowsProcessed(st, TierSelection(st, ts[0], env), ts[0], tiers, env);
      AbortStopsRun(st1, ts[1..], tiers, env, k - 1);
      assert ts[..k][1..] == ts[1..][..k - 1];
    }
  }

  /** A run over tiers `ts` completes exactly when none of their queries fails. */
  lemma {:induction false} CompletesIff(st: RunState, ts: seq<Tier>, tiers: seq<Tier>, env: Env)
    ensures TiersRun(st, ts, tiers, env).outcome == Completed
        <==> forall t :: t in ts ==> t.days !in env.failing
    decreases |ts|
  {
    if ts != [] {
      assert ts[0] in ts;
      if ts[0].days !in env.failing {
        var st1 := RowsProcessed(st, TierSelection(st, ts[0], env), ts[0], tiers, env);
        CompletesIff(st1, ts[1..], tiers, env);
        assert forall t :: t in ts ==> t == ts[0] || t in ts[1..];
      }
    }
  }

  /** A run over ascending tiers that ends early ends at the smallest failing tier. */
  lemma {:induction false} AbortsAtFirstFailure(st: RunState, ts: seq<Tier>, tiers: seq<Tier>, env: Env)
    requires Ascending(ts)
    ensures var o := TiersRun(st, ts, tiers, env).outcome;
      o.Aborted? ==> o.days in env.failing && o.days in TierDays(ts)
                     && forall t :: t in ts && t.days in env.failing ==> o.days <= t.days
    decreases |ts|
  {
    if ts != [] {
      assert ts[0] in ts;
      if ts[0].days !in env.failing {
        var st1 := RowsProcessed(st, TierSelection(st, ts[0], env), ts[0], tiers, env);
        AbortsAtFirstFailure(st1, ts[1..], tiers, env);
        assert ts == [ts[0]] + ts[1..];
        TierDaysCons(ts[0], ts[1..]);
        assert forall t :: t in ts ==> t == ts[0] || t in ts[1..];
      } else {
        forall t | t in ts ensures ts[0].days <= t.days {
          var i :| 0 <= i < |ts| && ts[i] == t;
        }
      }
    }
  }

  /** The run ends early exactly when some configured tier's query fails, and then
      at the smallest such tier. */
  lemma RunOutcome(env: Env, ledger0: Ledger)
    ensures var o := RunOf(env, ledger0).outcome;
      var config := env.tierFilter(DefaultConfig());
      && (o == Completed <==> forall d :: d in config ==> d !in env.failing)
      && (o.Aborted? ==> o.days in env.failing && o.days in config
                         && forall d :: d in config && d in env.failing ==> o.days <= d)
  {
    var tiers := ConfiguredTiers(env);
    CompletesIff(RunState(ledger0, [], []), tiers, tiers, env);
    AbortsAtFirstFailure(RunState(ledger0, [], []), tiers, tiers, env);
    var config := env.tierFilter(DefaultConfig());
    forall d | d in config ensures exists t :: t in tiers && t.days == d {
      assert d in TierDays(tiers);
    }
  }
}
