/** What the statistics state machine promises: how one tick moves the
    counters, histories, estimates and the table, that counters never decrease
    over a run of ticks, that histories keep the newest events, and how manual
    estimates and the stats view relate to their inputs. */
module StatsLaws {
  import opened Wrappers
  import opened XpTable
  import opened Stats
  import XpTableLaws

  // ---------------------------------------------------------------------------
  // One tick

  /** The first snapshot of a session only initializes: all three snapshots
      are set to it, and no counter, history, estimate or table entry changes. */
  lemma FirstUpdateOnlyInitializes(s: Session, g: Snapshot, now: int)
    requires WellFormed(s) && s.initial.None?
    ensures var r := NextSession(s, g, now);
            && r.initial == r.previous == r.current == Some(g)
            && r.monstersKilled == s.monstersKilled && r.totalBaseXpGained == s.totalBaseXpGained
            && r.totalJobXpGained == s.totalJobXpGained && r.totalDamageTaken == s.totalDamageTaken
            && r.xpHistory == s.xpHistory && r.damageHistory == s.damageHistory
            && r.baseEstimates == s.baseEstimates && r.jobEstimates == s.jobEstimates
    ensures RecordedObservation(s, g).None?
  {
  }

  /** A base level-up confirms the XP held just before it for the level left,
      drops that level's manual estimate, counts no kill and no base XP, and
      still adds a positive job gain. */
  lemma LevelUpTick(s: Session, g: Snapshot, now: int)
    requires WellFormed(s) && s.initial.Some?
    requires LeveledUp(s.current.value, g)
    ensures var prev, r := s.current.value, NextSession(s, g, now);
            && RecordedObservation(s, g) == Some(Observation(prev.nvBase, prev.xpBase, true))
            && r.baseEstimates == s.baseEstimates - {prev.nvBase}
            && r.monstersKilled == s.monstersKilled
            && r.totalBaseXpGained == s.totalBaseXpGained
            && r.xpHistory == s.xpHistory
            && r.totalJobXpGained == s.totalJobXpGained + (if g.xpJob > prev.xpJob then g.xpJob - prev.xpJob else 0)
  {
  }

  /** Without a level-up, a moved base XP is recorded unconfirmed for the
      current level, an unmoved one records nothing, and the estimates stay. */
  lemma SteadyLevelTick(s: Session, g: Snapshot, now: int)
    requires WellFormed(s) && s.initial.Some?
    requires !LeveledUp(s.current.value, g)
    ensures var prev := s.current.value;
            && (g.xpBase != prev.xpBase ==> RecordedObservation(s, g) == Some(Observation(g.nvBase, g.xpBase, false)))
            && (g.xpBase == prev.xpBase ==> RecordedObservation(s, g).None?)
            && NextSession(s, g, now).baseEstimates == s.baseEstimates
  {
  }

  /** A positive base gain counts exactly one kill, adds the gain, and enters
      the XP history, oldest entry dropped first; anything else leaves them. */
  lemma BaseGainTick(s: Session, g: Snapshot, now: int)
    requires WellFormed(s) && s.initial.Some?
    ensures var prev, r := s.current.value, NextSession(s, g, now);
            var gain := BaseGain(prev, g);
            && (gain > 0 ==>
                  && r.monstersKilled == s.monstersKilled + 1
                  && r.totalBaseXpGained == s.totalBaseXpGained + gain
                  && r.xpHistory == Push(s.xpHistory, XpEvent(gain, g.xpJob - prev.xpJob, now))
                  && |r.xpHistory| <= MaxHistorySize
                  && r.xpHistory[|r.xpHistory| - 1] == XpEvent(gain, g.xpJob - prev.xpJob, now))
            && (gain <= 0 ==>
                  && r.monstersKilled == s.monstersKilled
                  && r.totalBaseXpGained == s.totalBaseXpGained
                  && r.xpHistory == s.xpHistory)
  {
  }

  /** Every later snapshot shifts the diffing window (the old current data
      becomes the previous data, the initial data stays) and adds a positive
      job gain, whether or not the base level went up; the job estimates stay. */
  lemma JobGainTick(s: Session, g: Snapshot, now: int)
    requires WellFormed(s) && s.initial.Some?
    ensures var prev, r := s.current.value, NextSession(s, g, now);
            && r.initial == s.initial && r.previous == s.current && r.current == Some(g)
            && r.totalJobXpGained == s.totalJobXpGained + (if g.xpJob > prev.xpJob then g.xpJob - prev.xpJob else 0)
            && r.jobEstimates == s.jobEstimates
  {
  }

  /** A drop in HP is added to the damage total and enters the damage history;
      no drop changes neither. */
  lemma DamageTick(s: Session, g: Snapshot, now: int)
    requires WellFormed(s) && s.initial.Some?
    ensures var prev, r := s.current.value, NextSession(s, g, now);
            && (prev.hp > g.hp ==>
                  && r.totalDamageTaken == s.totalDamageTaken + (prev.hp - g.hp)
                  && r.damageHistory == Push(s.damageHistory, DamageEvent(prev.hp - g.hp, now)))
            && (prev.hp <= g.hp ==>
                  r.totalDamageTaken == s.totalDamageTaken && r.damageHistory == s.damageHistory)
  {
  }

  /** A level-up from 9800 XP at level 10 to 0 XP at level 11 confirms 9800 for
      level 10 and counts no kill. */
  lemma LevelUpExample(s: Session)
    requires WellFormed(s) && s.initial.Some?
    requires s.current.value == Snapshot(9800, 500, 10, 20, 100)
    ensures RecordedObservation(s, Snapshot(0, 500, 11, 20, 100)) == Some(Observation(10, 9800, true))
    ensures BaseGain(Snapshot(9800, 500, 10, 20, 100), Snapshot(0, 500, 11, 20, 100)) == 0
    ensures NextSession(s, Snapshot(0, 500, 11, 20, 100), 7).monstersKilled == s.monstersKilled
  {
  }

  // ---------------------------------------------------------------------------
  // Runs of ticks

  /** The four counters of `b` are at least those of `a`. */
  predicate CountersBelow(a: Session, b: Session) {
    && a.monstersKilled <= b.monstersKilled
    && a.totalBaseXpGained <= b.totalBaseXpGained
    && a.totalJobXpGained <= b.totalJobXpGained
    && a.totalDamageTaken <= b.totalDamageTaken
  }

  /** One polled snapshot and the time it arrived. */
  datatype Tick = Tick(snapshot: Snapshot, now: int)

  /** The session after a run of `update` calls. */
  function Run(s: Session, ticks: seq<Tick>): (r: Session)
    requires WellFormed(s)
    ensures WellFormed(r)
    decreases |ticks|
  {
    if ticks == [] then s
    else Run(NextSession(s, ticks[0].snapshot, ticks[0].now), ticks[1..])
  }

  /** No single update lowers a counter. */
  lemma CountersNeverDecrease(s: Session, g: Snapshot, now: int)
    requires WellFormed(s)
    ensures CountersBelow(s, NextSession(s, g, now))
  {
  }

  /** Between resets, the counters never decrease however many updates run. */
  lemma {:induction false} CountersMonotoneOverRun(s: Session, ticks: seq<Tick>)
    requires WellFormed(s)
    ensures CountersBelow(s, Run(s, ticks))
    decreases |ticks|
  {
    if ticks != [] {
      var next := NextSession(s, ticks[0].snapshot, ticks[0].now);
      CountersNeverDecrease(s, ticks[0].snapshot, ticks[0].now);
      CountersMonotoneOverRun(next, ticks[1..]);
    }
  }

  /** The histories stay within capacity however many updates run. */
  lemma HistoriesStayBounded(s: Session, ticks: seq<Tick>)
    requires WellFormed(s)
    ensures |Run(s, ticks).xpHistory| <= MaxHistorySize
    ensures |Run(s, ticks).damageHistory| <= MaxHistorySize
  {
  }

  // ---------------------------------------------------------------------------
  // Bounded histories

  /** A history after pushing events one at a time. */
  function PushAll<T>(h: seq<T>, es: seq<T>): seq<T>
    decreases |es|
  {
    if es == [] then h else PushAll(Push(h, es[0]), es[1..])
  }

  /** The reference for a bounded history: the newest `MaxHistorySize` items
      of a sequence, or all of them when there are no more. */
  function Newest<T>(xs: seq<T>): (r: seq<T>)
    ensures |r| <= MaxHistorySize
  {
    if |xs| <= MaxHistorySize then xs else xs[|xs| - MaxHistorySize..]
  }

  /** A history within capacity, after any number of pushes, holds exactly the
      newest events, in order: the oldest are dropped first. */
  lemma {:induction false} HistoryKeepsNewest<T>(h: seq<T>, es: seq<T>)
    requires |h| <= MaxHistorySize
    ensures PushAll(h, es) == Newest(h + es)
    decreases |es|
  {
    if es != [] {
      var h' := Push(h, es[0]);
      HistoryKeepsNewest(h', es[1..]);
      if |h| < MaxHistorySize {
        assert h' + es[1..] == h + es;
      } else {
        assert h' + es[1..] == (h + es)[1..];
        NewestOfTail(h + es);
      }
    }
  }

  /** Dropping the oldest item of a sequence longer than the capacity does not
      change its newest items. */
  lemma NewestOfTail<T>(xs: seq<T>)
    requires |xs| > MaxHistorySize
    ensures Newest(xs[1..]) == Newest(xs)
  {
    assert xs[1..][|xs| - 1 - MaxHistorySize..] == xs[|xs| - MaxHistorySize..];
  }

  // ---------------------------------------------------------------------------
  // Manual estimates

  /** The estimate from a percentage strictly between 0 and 100 is at least the
      current XP, and is the truncation of `current * 100 / percentage`. */
  lemma EstimateBounds(currentXp: int, percentage: real)
    requires 0 <= currentXp && 0.0 < percentage < 100.0
    ensures var e := EstimateTotal(currentXp, percentage);
            && currentXp <= e
            && e as real * percentage <= currentXp as real * 100.0
            && currentXp as real * 100.0 < (e + 1) as real * percentage
  {
    var e := EstimateTotal(currentXp, percentage);
    var x := currentXp as real;
    var q := x / (percentage / 100.0);
    QuotientTimesDivisor(x, percentage);
    assert e as real <= q < e as real + 1.0;
    ScaleLe(x * percentage, x * 100.0, 1.0 / percentage);
    ScaleLe(x, q, percentage);
    ScaleLe(e as real, q, percentage);
    ScaleLt(q, e as real + 1.0, percentage);
  }

  /** `x / (p / 100)` times `p` is `x * 100`. */
  lemma QuotientTimesDivisor(x: real, p: real)
    requires 0.0 < p
    ensures x / (p / 100.0) * p == x * 100.0
    ensures x / (p / 100.0) == x * 100.0 / p
  {
  }

  /** Multiplying by a positive factor keeps `<=`, both ways. */
  lemma ScaleLe(a: real, b: real, c: real)
    requires 0.0 < c
    ensures a <= b <==> a * c <= b * c
  {
  }

  /** Multiplying by a positive factor keeps `<`. */
  lemma ScaleLt(a: real, b: real, c: real)
    requires 0.0 < c && a < b
    ensures a * c < b * c
  {
  }

  /** Setting an estimate from a percentage and then asking for progress shows
      the estimate, and a percentage no lower than the one entered. */
  lemma EstimateRoundTrip(t: Table, level: int, currentXp: int, percentage: real)
    requires 0 < currentXp && 0.0 < percentage < 100.0
    ensures var p := GetBaseProgress(t, level, currentXp, Some(EstimateTotal(currentXp, percentage)));
            && p.manualEstimate && !p.confirmed
            && percentage <= p.percentage.value <= 100.0
  {
    var e := EstimateTotal(currentXp, percentage);
    EstimateBounds(currentXp, percentage);
    if currentXp < e {
      var shown := currentXp as real * 100.0 / e as real;
      assert shown * e as real == currentXp as real * 100.0;
      assert percentage * e as real <= shown * e as real;
    }
  }

  /** 4500 XP entered as 45% of the level gives an estimate of 10000. */
  lemma EstimateExample()
    ensures EstimateTotal(4500, 45.0) == 10000
  {
    assert 4500 as real / (45.0 / 100.0) == 10000.0;
  }

  // ---------------------------------------------------------------------------
  // The stats view

  /** `_format_time` gives the only split into hours and minutes and seconds
      below 60 that adds back up to the duration. */
  lemma FormatTimeIsUnique(seconds: int, c: Clock)
    requires c.hours * 3600 + c.minutes * 60 + c.seconds == seconds
    requires 0 <= c.minutes < 60 && 0 <= c.seconds < 60
    ensures FormatTime(seconds) == c
  {
    var f := FormatTime(seconds);
    assert c.minutes * 60 + c.seconds == f.minutes * 60 + f.seconds;
  }

  // ---------------------------------------------------------------------------
  // Three snapshots through both classes

  /** Base XP 1000 then 1500 at level 5, then 0 at level 6: one kill after the
      second snapshot; after the third the table holds level 5 confirmed at
      1500 and the progress of level 6 is unknown. */
  lemma ScenarioThreeSnapshots()
    ensures var g1, g2, g3 := Snapshot(1000, 0, 5, 1, 100), Snapshot(1500, 0, 5, 1, 100), Snapshot(0, 0, 6, 1, 100);
            var s0 := FreshSession(0);
            var s1 := NextSession(s0, g1, 1);
            var s2 := NextSession(s1, g2, 2);
            var s3 := NextSession(s2, g3, 3);
            var t1 := TableAfter(map[], Missing, RecordedObservation(s0, g1), true);
            var t2 := TableAfter(t1.table, t1.disk, RecordedObservation(s1, g2), true);
            var t3 := TableAfter(t2.table, t2.disk, RecordedObservation(s2, g3), true);
            && s2.monstersKilled == 1 && s2.totalBaseXpGained == 500
            && s3.monstersKilled == 1 && s3.totalBaseXpGained == 500
            && t3.table == map[5 := Entry(1500, true)]
            && GetBaseProgress(t3.table, 6, 0, Lookup(s3.baseEstimates, 6)) == Unknown
  {
    var g1, g2, g3 := Snapshot(1000, 0, 5, 1, 100), Snapshot(1500, 0, 5, 1, 100), Snapshot(0, 0, 6, 1, 100);
    var s0 := FreshSession(0);
    var s1 := NextSession(s0, g1, 1);
    var s2 := NextSession(s1, g2, 2);
    var s3 := NextSession(s2, g3, 3);
    assert RecordedObservation(s0, g1) == None;
    assert RecordedObservation(s1, g2) == Some(Observation(5, 1500, false));
    assert RecordedObservation(s2, g3) == Some(Observation(5, 1500, true));
    assert s3.baseEstimates == map[];
    ScenarioTable();
  }

  /** The table half of `ScenarioThreeSnapshots`: an unconfirmed 1500 for level 5 saved to
      a missing file, then its confirmation. */
  lemma ScenarioTable()
    ensures var t1 := TableAfter(map[], Missing, None, true);
            var t2 := TableAfter(t1.table, t1.disk, Some(Observation(5, 1500, false)), true);
            var t3 := TableAfter(t2.table, t2.disk, Some(Observation(5, 1500, true)), true);
            && t2.table == map[5 := Entry(1500, false)]
            && t2.disk == Json(Some(Encode(map[5 := Entry(1500, false)])))
            && t3.table == map[5 := Entry(1500, true)]
  {
    var e, c := Entry(1500, false), Entry(1500, true);
    assert MergeInto(map[5 := e], PersistedTable(Missing)) == map[5 := e] by {
      XpTableLaws.MergeWithEmpty(map[5 := e]);
    }
    assert MergeInto(map[5 := c], ToNewFormat(Encode(map[5 := e]))) == map[5 := c] by {
      XpTableLaws.ReadBackEncoded(map[5 := e]);
    }
  }
}
