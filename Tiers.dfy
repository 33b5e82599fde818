/** The reminder tiers: a map from "days before the renewal" to the email
    template sent that many days ahead, as the tier filter returns it, and the
    ascending order in which the run visits them (`ksort($emails, SORT_NUMERIC)`). */
module Tiers {

  datatype Tier = Tier(days: int, template: string)

  /** The array the tier filter returns: days => template id. Its keys are taken to
      be integers; a string key such as "07", sorted numerically but used verbatim
      in the meta key, is not modelled. */
  type Config = map<int, string>

  /** The value handed to the tier filter when nothing overrides it. */
  function DefaultConfig(): Config {
    map[7 := "membership_recurring"]
  }

  predicate Ascending(ts: seq<Tier>) {
    forall i, j :: 0 <= i < j < |ts| ==> ts[i].days < ts[j].days
  }

  function TierDays(ts: seq<Tier>): set<int> {
    set t | t in ts :: t.days
  }

  lemma HasMember(s: set<int>)
    requires s != {}
    ensures exists y :: y in s
  {
    if forall y :: y !in s {
      assert false;
    }
  }

  predicate IsMin(m: int, s: set<int>) {
    m in s && forall k :: k in s ==> m <= k
  }

  lemma {:induction false} MinExists(s: set<int>)
    requires s != {}
    ensures exists m :: IsMin(m, s)
  {
    HasMember(s);
    var x :| x in s;
    if s == {x} {
      assert IsMin(x, s);
    } else {
      MinExists(s - {x});
      var m :| IsMin(m, s - {x});
      var least := if x < m then x else m;
      forall k | k in s ensures least <= k {
        if k != x {
          assert k in s - {x};
        }
      }
      assert IsMin(least, s);
    }
  }

  function MinKey(s: set<int>): (m: int)
    requires s != {}
    ensures IsMin(m, s)
  {
    MinExists(s);
    var m :| IsMin(m, s);
    m
  }

  lemma TierDaysCons(t: Tier, ts: seq<Tier>)
    ensures TierDays([t] + ts) == {t.days} + TierDays(ts)
  {
    forall d | d in TierDays([t] + ts) ensures d in {t.days} + TierDays(ts) {
      var u :| u in [t] + ts && u.days == d;
      assert u == t || u in ts;
    }
    forall d | d in TierDays(ts) ensures d in TierDays([t] + ts) {
      var u :| u in ts && u.days == d;
      assert u in [t] + ts;
    }
  }

  lemma AboveMin(m: int, ts: seq<Tier>)
    requires m !in TierDays(ts)
    requires forall d :: d in TierDays(ts) ==> m <= d
    ensures forall t :: t in ts ==> m < t.days
  {
    forall t | t in ts ensures m < t.days {
      assert t.days in TierDays(ts);
    }
  }

  /** Putting the smallest tier in front of the sorted others sorts them all. */
  lemma SortStep(config: Config, m: int, rest: seq<Tier>)
    requires IsMin(m, config.Keys)
    requires Ascending(rest)
    requires TierDays(rest) == (config - {m}).Keys
    requires forall t :: t in rest ==> t.days in config - {m} && (config - {m})[t.days] == t.template
    ensures var ts := [Tier(m, config[m])] + rest;
      && Ascending(ts)
      && TierDays(ts) == config.Keys
      && forall t :: t in ts ==> t.days in config && config[t.days] == t.template
  {
    var ts := [Tier(m, config[m])] + rest;
    TierDaysCons(Tier(m, config[m]), rest);
    AboveMin(m, rest);
    forall t | t in ts ensures t.days in config && config[t.days] == t.template {
      if t != ts[0] {
        assert t in rest;
      }
    }
  }

  /** The tiers in ascending numeric order of their day counts, each carrying the
      template the configuration gives it, and every configured tier present. */
  function SortTiers(config: Config): (ts: seq<Tier>)
    ensures Ascending(ts)
    ensures TierDays(ts) == config.Keys
    ensures forall t :: t in ts ==> t.days in config && config[t.days] == t.template
    decreases config.Keys
  {
    if config == map[] then []
    else
      var m := MinKey(config.Keys);
      var rest := SortTiers(config - {m});
      SortStep(config, m, rest);
      [Tier(m, config[m])] + rest
  }

  /** With no filter overriding it, the run has the single tier 7 => "membership_recurring". */
  lemma DefaultTiers()
    ensures SortTiers(DefaultConfig()) == [Tier(7, "membership_recurring")]
  {
    var c := DefaultConfig();
    assert c.Keys == {7};
    assert c - {7} == map[];
  }
}
