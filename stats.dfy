/** The session statistics of stats_calculator.py: each new snapshot is compared
    with the previous one to count kills, gained XP and damage taken, to keep two
    bounded histories, and to feed observations into the level-XP table. The
    clock is a parameter (`now`, whole seconds), as is the outcome of each lock
    acquisition on the shared table file. */
module Stats {
  import opened Wrappers
  import opened XpTable

  /** The fields of a memory snapshot that the calculator reads. */
  datatype Snapshot = Snapshot(xpBase: int, xpJob: int, nvBase: int, nvJob: int, hp: int)

  /** An entry of `xp_history`: the tick's base gain, its raw job difference and its time. */
  datatype XpEvent = XpEvent(baseXp: int, jobXp: int, timestamp: int)

  /** An entry of `damage_history`. */
  datatype DamageEvent = DamageEvent(damage: int, timestamp: int)

  /** `max_history_size`. */
  const MaxHistorySize: nat := 60

  /** `append` followed by `pop(0)` when the list grew beyond its capacity. */
  function Push<T>(h: seq<T>, e: T): (r: seq<T>)
    ensures |h| < MaxHistorySize ==> r == h + [e]
    ensures |h| >= MaxHistorySize ==> r == h[1..] + [e]
    ensures |h| <= MaxHistorySize ==> |r| <= MaxHistorySize
  {
    var appended := h + [e];
    if |appended| > MaxHistorySize then appended[1..] else appended
  }

  /** A table observation: `update_base_xp(level, xp, confirmed)`. */
  datatype Observation = Observation(level: int, xp: int, confirmed: bool)

  predicate LeveledUp(prev: Snapshot, cur: Snapshot) {
    cur.nvBase > prev.nvBase
  }

  /** The base gain the counters see: the raw difference, or 0 across a level-up. */
  function BaseGain(prev: Snapshot, cur: Snapshot): (g: int)
    ensures LeveledUp(prev, cur) ==> g == 0
    ensures !LeveledUp(prev, cur) ==> g == cur.xpBase - prev.xpBase
  {
    if LeveledUp(prev, cur) then 0 else cur.xpBase - prev.xpBase
  }

  /** What `_detect_xp_gain` records in the table: on a level-up the XP held
      just before it, confirmed, for the level left; otherwise the current XP,
      unconfirmed, when it moved; otherwise nothing. */
  function TableObservation(prev: Snapshot, cur: Snapshot): (o: Option<Observation>)
    ensures LeveledUp(prev, cur) ==> o == Some(Observation(prev.nvBase, prev.xpBase, true))
    ensures !LeveledUp(prev, cur) && cur.xpBase != prev.xpBase ==>
              o == Some(Observation(cur.nvBase, cur.xpBase, false))
    ensures !LeveledUp(prev, cur) && cur.xpBase == prev.xpBase ==> o.None?
  {
    if LeveledUp(prev, cur) then Some(Observation(prev.nvBase, prev.xpBase, true))
    else if cur.xpBase != prev.xpBase then Some(Observation(cur.nvBase, cur.xpBase, false))
    else None
  }

  /** Everything the calculator holds apart from the table manager. */
  datatype Session = Session(
    initial: Option<Snapshot>,
    previous: Option<Snapshot>,
    current: Option<Snapshot>,
    monstersKilled: nat,
    totalBaseXpGained: nat,
    totalJobXpGained: nat,
    totalDamageTaken: nat,
    xpHistory: seq<XpEvent>,
    damageHistory: seq<DamageEvent>,
    baseEstimates: map<int, int>,
    jobEstimates: map<int, int>,
    startTime: int,
    lastUpdate: int)

  /** The invariant the calculator keeps: the three snapshots are set and
      cleared together, the histories stay within capacity and hold only
      gains and damage that were positive. */
  predicate WellFormed(s: Session) {
    && (s.initial.Some? <==> s.previous.Some?)
    && (s.initial.Some? <==> s.current.Some?)
    && |s.xpHistory| <= MaxHistorySize
    && |s.damageHistory| <= MaxHistorySize
    && (forall i :: 0 <= i < |s.xpHistory| ==> s.xpHistory[i].baseXp > 0)
    && (forall i :: 0 <= i < |s.damageHistory| ==> s.damageHistory[i].damage > 0)
  }

  /** A fresh or reset session at time `now`. */
  function FreshSession(now: int): (s: Session)
    ensures WellFormed(s) && s.current.None?
  {
    Session(None, None, None, 0, 0, 0, 0, [], [], map[], map[], now, now)
  }

  /** `initialize`: the snapshot becomes initial, previous and current data and
      the session clock restarts. */
  function Initialized(s: Session, g: Snapshot, now: int): (r: Session)
    requires WellFormed(s)
    ensures WellFormed(r)
    ensures r.initial == r.previous == r.current == Some(g)
    ensures r.startTime == r.lastUpdate == now
    ensures r.(initial := s.initial, previous := s.previous, current := s.current,
               startTime := s.startTime, lastUpdate := s.lastUpdate) == s
  {
    s.(initial := Some(g), previous := Some(g), current := Some(g), startTime := now, lastUpdate := now)
  }

  /** The counting half of `_detect_xp_gain`: only a positive base gain counts
      a kill and enters the history; only a positive job gain is added. */
  function CountGains(s: Session, baseDiff: int, jobDiff: int, now: int): (r: Session)
    requires WellFormed(s)
    ensures WellFormed(r)
    ensures baseDiff > 0 ==>
              && r.monstersKilled == s.monstersKilled + 1
              && r.totalBaseXpGained == s.totalBaseXpGained + baseDiff
              && r.xpHistory == Push(s.xpHistory, XpEvent(baseDiff, jobDiff, now))
    ensures baseDiff <= 0 ==>
              r.monstersKilled == s.monstersKilled && r.totalBaseXpGained == s.totalBaseXpGained
              && r.xpHistory == s.xpHistory
    ensures r.totalJobXpGained == s.totalJobXpGained + (if jobDiff > 0 then jobDiff else 0)
    ensures r.(monstersKilled := s.monstersKilled, totalBaseXpGained := s.totalBaseXpGained,
               totalJobXpGained := s.totalJobXpGained, xpHistory := s.xpHistory) == s
  {
    s.(monstersKilled := if baseDiff > 0 then s.monstersKilled + 1 else s.monstersKilled,
       totalBaseXpGained := if baseDiff > 0 then s.totalBaseXpGained + baseDiff else s.totalBaseXpGained,
       xpHistory := if baseDiff > 0 then Push(s.xpHistory, XpEvent(baseDiff, jobDiff, now)) else s.xpHistory,
       totalJobXpGained := if jobDiff > 0 then s.totalJobXpGained + jobDiff else s.totalJobXpGained)
  }

  /** `_detect_xp_gain` on the session (the table part is `TableObservation`):
      a level-up drops the estimate of the level left and counts no base gain. */
  function AfterXpGain(s: Session, now: int): (r: Session)
    requires WellFormed(s) && s.previous.Some? && s.current.Some?
    ensures WellFormed(r)
    ensures LeveledUp(s.previous.value, s.current.value) ==>
              r.baseEstimates == s.baseEstimates - {s.previous.value.nvBase}
    ensures !LeveledUp(s.previous.value, s.current.value) ==> r.baseEstimates == s.baseEstimates
    ensures r == CountGains(s.(baseEstimates := r.baseEstimates),
                            BaseGain(s.previous.value, s.current.value),
                            s.current.value.xpJob - s.previous.value.xpJob, now)
  {
    var prev, cur := s.previous.value, s.current.value;
    var dropped := if LeveledUp(prev, cur) then s.(baseEstimates := s.baseEstimates - {prev.nvBase}) else s;
    CountGains(dropped, BaseGain(prev, cur), cur.xpJob - prev.xpJob, now)
  }

  /** `_detect_damage_taken` on the session. */
  function AfterDamage(s: Session, now: int): (r: Session)
    requires WellFormed(s) && s.previous.Some? && s.current.Some?
    ensures WellFormed(r)
    ensures s.previous.value.hp > s.current.value.hp ==>
              && r.totalDamageTaken == s.totalDamageTaken + (s.previous.value.hp - s.current.value.hp)
              && r.damageHistory == Push(s.damageHistory, DamageEvent(s.previous.value.hp - s.current.value.hp, now))
    ensures s.previous.value.hp <= s.current.value.hp ==> r == s
    ensures r.(totalDamageTaken := s.totalDamageTaken, damageHistory := s.damageHistory) == s
  {
    var hpDiff := s.previous.value.hp - s.current.value.hp;
    if hpDiff > 0 then
      s.(totalDamageTaken := s.totalDamageTaken + hpDiff,
         damageHistory := Push(s.damageHistory, DamageEvent(hpDiff, now)))
    else s
  }

  /** `update` on the session: the first snapshot only initializes; later ones
      shift current to previous and run both detectors. */
  function NextSession(s: Session, g: Snapshot, now: int): (r: Session)
    requires WellFormed(s)
    ensures WellFormed(r) && r.current == Some(g)
    ensures s.initial.None? ==> r == Initialized(s, g, now)
    ensures s.initial.Some? ==>
              && r.initial == s.initial && r.previous == s.current
              && r.startTime == s.startTime && r.lastUpdate == now
  {
    if s.initial.None? then Initialized(s, g, now)
    else
      var shifted := s.(previous := s.current, current := Some(g), lastUpdate := now);
      AfterDamage(AfterXpGain(shifted, now), now)
  }

  /** The observation an `update` hands to the table, if any. */
  function RecordedObservation(s: Session, g: Snapshot): (o: Option<Observation>)
    requires WellFormed(s)
    ensures s.initial.None? ==> o.None?
    ensures s.initial.Some? ==> o == TableObservation(s.current.value, g)
  {
    if s.initial.None? then None else TableObservation(s.current.value, g)
  }

  /** The table manager's memory and file after an observation (or none). */
  function TableAfter(mem: Table, disk: Stored, o: Option<Observation>, lockAcquired: bool): (r: Saved)
    ensures o.None? ==> r == Saved(mem, disk)
    ensures o.Some? ==> && o.value.level in r.table && r.table[o.value.level].xp >= o.value.xp
                        && (o.value.confirmed ==> r.table[o.value.level].confirmed)
    ensures o.Some? ==> forall k :: k in mem && k != o.value.level ==> k in r.table && Below(mem[k], r.table[k])
  {
    match o
    case None => Saved(mem, disk)
    case Some(obs) => RecordOutcome(mem, disk, obs.level, obs.xp, obs.confirmed, lockAcquired)
  }

  // ---------------------------------------------------------------------------
  // Manual estimates and the integer parts of `get_stats`

  /** Python's `int(x)` on a real: truncation toward zero. */
  function Truncate(x: real): (r: int)
    ensures 0.0 <= x ==> r as real <= x < r as real + 1.0
    ensures x < 0.0 ==> r as real - 1.0 < x <= r as real
  {
    if x >= 0.0 then x.Floor else -((-x).Floor)
  }

  /** `int(current_xp / (percentage / 100))`, in exact arithmetic. */
  function EstimateTotal(currentXp: int, percentage: real): (r: int)
    requires 0.0 < percentage
    ensures 0 <= currentXp ==> 0 <= r
    ensures currentXp == 0 ==> r == 0
  {
    Truncate(currentXp as real / (percentage / 100.0))
  }

  /** A duration split as `_format_time` does: hours, minutes, seconds. */
  datatype Clock = Clock(hours: int, minutes: int, seconds: int)

  /** `_format_time` on whole seconds (the zero-padded text is not modelled). */
  function FormatTime(seconds: int): (c: Clock)
    ensures c.hours * 3600 + c.minutes * 60 + c.seconds == seconds
    ensures 0 <= c.minutes < 60 && 0 <= c.seconds < 60
  {
    Clock(seconds / 3600, (seconds % 3600) / 60, seconds % 60)
  }

  /** `int(total / (elapsed / period))` when the elapsed time is positive, else 0:
      the largest rate that does not exceed the total over the elapsed periods. */
  function RatePer(total: nat, elapsed: int, period: nat): (r: nat)
    ensures elapsed <= 0 ==> r == 0
    ensures 0 < elapsed ==> r * elapsed <= total * period < (r + 1) * elapsed
  {
    if elapsed > 0 then (total * period) / elapsed else 0
  }

  /** `int(total / monsters_killed)` when something was killed, else 0. */
  function AveragePerMob(total: nat, killed: nat): (r: nat)
    ensures killed == 0 ==> r == 0
    ensures 0 < killed ==> r * killed <= total < (r + 1) * killed
  {
    if killed > 0 then total / killed else 0
  }

  /** The estimate stored for a level, if any (`dict.get`). */
  function Lookup(m: map<int, int>, level: int): (r: Option<int>)
    ensures r.Some? <==> level in m
    ensures r.Some? ==> r.value == m[level]
  {
    if level in m then Some(m[level]) else None
  }

  /** The record `get_stats` returns. */
  datatype StatsView = StatsView(
    monstersKilled: nat,
    totalBaseXpGained: nat,
    totalJobXpGained: nat,
    totalDamageTaken: nat,
    sessionTime: int,
    sessionTimeFormatted: Clock,
    baseXpPerHour: nat,
    jobXpPerHour: nat,
    damagePerMinute: nat,
    avgBaseXpPerMob: nat,
    avgJobXpPerMob: nat,
    currentData: Snapshot,
    baseProgress: Progress,
    jobProgress: Progress)

  // ---------------------------------------------------------------------------
  // The stateful calculator

  /** `StatsCalculator`. */
  class StatsCalculator {
    var startTime: int
    var lastUpdate: int
    var initialData: Option<Snapshot>
    var previousData: Option<Snapshot>
    var currentData: Option<Snapshot>
    var monstersKilled: nat
    var totalBaseXpGained: nat
    var totalJobXpGained: nat
    var totalDamageTaken: nat
    var xpHistory: seq<XpEvent>
    var damageHistory: seq<DamageEvent>
    const xpTable: XpTableManager
    var tempBaseXpEstimate: map<int, int>
    var tempJobXpEstimate: map<int, int>

    /** The calculator's fields as one value. */
    function State(): Session
      reads this
    {
      Session(initialData, previousData, currentData, monstersKilled, totalBaseXpGained,
              totalJobXpGained, totalDamageTaken, xpHistory, damageHistory,
              tempBaseXpEstimate, tempJobXpEstimate, startTime, lastUpdate)
    }

    predicate Valid()
      reads this
    {
      WellFormed(State())
    }

    /** `__init__`: an empty session and a table manager over the shared file. */
    constructor (file: SharedFile, autoDownload: bool, remote: Stored, downloadLock: bool, loadLock: bool, now: int)
      modifies file
      ensures Valid() && State() == FreshSession(now)
      ensures fresh(xpTable) && xpTable.file == file
      ensures var disk := if autoDownload && old(file.contents).Missing?
                          then DownloadOutcome(remote, old(file.contents), downloadLock).disk
                          else old(file.contents);
              file.contents == disk && xpTable.baseTable == LoadedTable(disk, loadLock)
    {
      startTime := now;
      lastUpdate := now;
      initialData, previousData, currentData := None, None, None;
      monstersKilled, totalBaseXpGained, totalJobXpGained, totalDamageTaken := 0, 0, 0, 0;
      xpHistory, damageHistory := [], [];
      xpTable := new XpTableManager(file, autoDownload, remote, downloadLock, loadLock);
      tempBaseXpEstimate, tempJobXpEstimate := map[], map[];
    }

    /** `initialize`. */
    method Initialize(gameData: Snapshot, now: int)
      requires Valid()
      modifies this`initialData, this`previousData, this`currentData, this`startTime, this`lastUpdate
      ensures Valid() && State() == Initialized(old(State()), gameData, now)
    {
      initialData := Some(gameData);
      previousData := Some(gameData);
      currentData := Some(gameData);
      startTime := now;
      lastUpdate := now;
    }

    /** `update`: initialize on the first snapshot, otherwise detect the tick's
        events; the table receives the observation the tick yields. */
    method Update(gameData: Snapshot, now: int, lockAcquired: bool)
      requires Valid()
      modifies this, xpTable, xpTable.file
      ensures Valid() && State() == NextSession(old(State()), gameData, now)
      ensures Saved(xpTable.baseTable, xpTable.file.contents)
           == TableAfter(old(xpTable.baseTable), old(xpTable.file.contents),
                         RecordedObservation(old(State()), gameData), lockAcquired)
    {
      if initialData.None? {
        Initialize(gameData, now);
        return;
      }
      previousData := currentData;
      currentData := Some(gameData);
      lastUpdate := now;
      DetectXpGain(now, lockAcquired);
      DetectDamageTaken(now);
    }

    /** The table half of `_detect_xp_gain`: hand the tick's observation, if
        any, to `update_base_xp`. */
    method RecordObservation(o: Option<Observation>, lockAcquired: bool)
      modifies xpTable, xpTable.file
      ensures Saved(xpTable.baseTable, xpTable.file.contents)
           == TableAfter(old(xpTable.baseTable), old(xpTable.file.contents), o, lockAcquired)
    {
      if o.Some? {
        var changed := xpTable.UpdateBaseXp(o.value.level, o.value.xp, o.value.confirmed, lockAcquired);
      }
    }

    /** `_detect_xp_gain`. */
    method DetectXpGain(now: int, lockAcquired: bool)
      requires Valid() && previousData.Some? && currentData.Some?
      modifies this, xpTable, xpTable.file
      ensures Valid() && State() == AfterXpGain(old(State()), now)
      ensures Saved(xpTable.baseTable, xpTable.file.contents)
           == TableAfter(old(xpTable.baseTable), old(xpTable.file.contents),
                         TableObservation(old(previousData).value, old(currentData).value), lockAcquired)
    {
      var prev, cur := previousData.value, currentData.value;
      var baseXpDiff := cur.xpBase - prev.xpBase;
      var jobXpDiff := cur.xpJob - prev.xpJob;
      var baseLevelUp := cur.nvBase > prev.nvBase;
      if baseLevelUp {
        RecordObservation(Some(Observation(prev.nvBase, prev.xpBase, true)), lockAcquired);
        if prev.nvBase in tempBaseXpEstimate {
          tempBaseXpEstimate := tempBaseXpEstimate - {prev.nvBase};
        }
        baseXpDiff := 0;
      } else if baseXpDiff != 0 {
        RecordObservation(Some(Observation(cur.nvBase, cur.xpBase, false)), lockAcquired);
      }
      CountXpGains(baseXpDiff, jobXpDiff, now);
    }

    /** The counting half of `_detect_xp_gain`. */
    method CountXpGains(baseXpDiff: int, jobXpDiff: int, now: int)
      requires Valid()
      modifies this`monstersKilled, this`totalBaseXpGained, this`totalJobXpGained, this`xpHistory
      ensures Valid() && State() == CountGains(old(State()), baseXpDiff, jobXpDiff, now)
    {
      if baseXpDiff > 0 {
        totalBaseXpGained := totalBaseXpGained + baseXpDiff;
        monstersKilled := monstersKilled + 1;
        xpHistory := xpHistory + [XpEvent(baseXpDiff, jobXpDiff, now)];
        if |xpHistory| > MaxHistorySize {
          xpHistory := xpHistory[1..];
        }
      }
      if jobXpDiff > 0 {
        totalJobXpGained := totalJobXpGained + jobXpDiff;
      }
    }

    /** `_detect_damage_taken`. */
    method DetectDamageTaken(now: int)
      requires Valid() && previousData.Some? && currentData.Some?
      modifies this`totalDamageTaken, this`damageHistory
      ensures Valid() && State() == AfterDamage(old(State()), now)
    {
      var hpDiff := previousData.value.hp - currentData.value.hp;
      if hpDiff > 0 {
        totalDamageTaken := totalDamageTaken + hpDiff;
        damageHistory := damageHistory + [DamageEvent(hpDiff, now)];
        if |damageHistory| > MaxHistorySize {
          damageHistory := damageHistory[1..];
        }
      }
    }

    /** `get_stats`: the counters, the rates over the session so far, the
        per-kill averages and the progress of both tracks. Python raises on a
        calculator that has no current data. */
    function GetStats(now: int): (v: StatsView)
      requires currentData.Some?
      reads this, xpTable
      ensures v.monstersKilled == monstersKilled && v.totalBaseXpGained == totalBaseXpGained
      ensures v.totalJobXpGained == totalJobXpGained && v.totalDamageTaken == totalDamageTaken
      ensures v.sessionTime == now - startTime && v.currentData == currentData.value
      ensures v.sessionTimeFormatted == FormatTime(v.sessionTime)
      ensures v.sessionTimeFormatted.hours * 3600 + v.sessionTimeFormatted.minutes * 60
              + v.sessionTimeFormatted.seconds == v.sessionTime
      ensures 0 <= v.sessionTimeFormatted.minutes < 60 && 0 <= v.sessionTimeFormatted.seconds < 60
      ensures monstersKilled == 0 ==> v.avgBaseXpPerMob == 0 && v.avgJobXpPerMob == 0
      ensures 0 < monstersKilled ==>
                && v.avgBaseXpPerMob * monstersKilled <= totalBaseXpGained < (v.avgBaseXpPerMob + 1) * monstersKilled
                && v.avgJobXpPerMob * monstersKilled <= totalJobXpGained < (v.avgJobXpPerMob + 1) * monstersKilled
      ensures v.sessionTime <= 0 ==> v.baseXpPerHour == v.jobXpPerHour == v.damagePerMinute == 0
      ensures 0 < v.sessionTime ==>
                && v.baseXpPerHour * v.sessionTime <= totalBaseXpGained * 3600 < (v.baseXpPerHour + 1) * v.sessionTime
                && v.jobXpPerHour * v.sessionTime <= totalJobXpGained * 3600 < (v.jobXpPerHour + 1) * v.sessionTime
                && v.damagePerMinute * v.sessionTime <= totalDamageTaken * 60 < (v.damagePerMinute + 1) * v.sessionTime
      ensures v.baseProgress == GetBaseProgress(xpTable.baseTable, currentData.value.nvBase,
                                                currentData.value.xpBase,
                                                Lookup(tempBaseXpEstimate, currentData.value.nvBase))
      ensures v.jobProgress == GetJobProgress(currentData.value.nvJob, currentData.value.xpJob,
                                              Lookup(tempJobXpEstimate, currentData.value.nvJob))
    {
      var sessionTime := now - startTime;
      var cur := currentData.value;
      StatsView(
        monstersKilled, totalBaseXpGained, totalJobXpGained, totalDamageTaken,
        sessionTime, FormatTime(sessionTime),
        RatePer(totalBaseXpGained, sessionTime, 3600),
        RatePer(totalJobXpGained, sessionTime, 3600),
        RatePer(totalDamageTaken, sessionTime, 60),
        AveragePerMob(totalBaseXpGained, monstersKilled),
        AveragePerMob(totalJobXpGained, monstersKilled),
        cur,
        GetBaseProgress(xpTable.baseTable, cur.nvBase, cur.xpBase, Lookup(tempBaseXpEstimate, cur.nvBase)),
        GetJobProgress(cur.nvJob, cur.xpJob, Lookup(tempJobXpEstimate, cur.nvJob)))
    }

    /** `set_base_xp_estimate_from_percentage`. */
    method SetBaseXpEstimateFromPercentage(percentage: real) returns (ok: bool)
      modifies this`tempBaseXpEstimate
      ensures ok <==> currentData.Some? && 0.0 < percentage < 100.0
      ensures ok ==> tempBaseXpEstimate == old(tempBaseXpEstimate)[currentData.value.nvBase :=
                                             EstimateTotal(currentData.value.xpBase, percentage)]
      ensures !ok ==> tempBaseXpEstimate == old(tempBaseXpEstimate)
    {
      if currentData.None? || percentage <= 0.0 || percentage >= 100.0 {
        return false;
      }
      var currentLevel := currentData.value.nvBase;
      var currentXp := currentData.value.xpBase;
      var estimatedTotalXp := EstimateTotal(currentXp, percentage);
      tempBaseXpEstimate := tempBaseXpEstimate[currentLevel := estimatedTotalXp];
      return true;
    }

    /** `set_job_xp_estimate_from_percentage`. */
    method SetJobXpEstimateFromPercentage(percentage: real) returns (ok: bool)
      modifies this`tempJobXpEstimate
      ensures ok <==> currentData.Some? && 0.0 < percentage < 100.0
      ensures ok ==> tempJobXpEstimate == old(tempJobXpEstimate)[currentData.value.nvJob :=
                                            EstimateTotal(currentData.value.xpJob, percentage)]
      ensures !ok ==> tempJobXpEstimate == old(tempJobXpEstimate)
    {
      if currentData.None? || percentage <= 0.0 || percentage >= 100.0 {
        return false;
      }
      var currentLevel := currentData.value.nvJob;
      var currentXp := currentData.value.xpJob;
      var estimatedTotalXp := EstimateTotal(currentXp, percentage);
      tempJobXpEstimate := tempJobXpEstimate[currentLevel := estimatedTotalXp];
      return true;
    }

    /** `reset`: a fresh session; the table manager is not touched. */
    method Reset(now: int)
      modifies this
      ensures Valid() && State() == FreshSession(now)
      ensures xpTable.baseTable == old(xpTable.baseTable)
    {
      ClearSnapshots(now);
      ClearTotals();
      xpHistory, damageHistory := [], [];
      tempBaseXpEstimate, tempJobXpEstimate := map[], map[];
    }

    /** The first half of `reset`: the clock restarts and the snapshots go. */
    method ClearSnapshots(now: int)
      modifies this`startTime, this`lastUpdate, this`initialData, this`previousData, this`currentData
      ensures startTime == lastUpdate == now
      ensures initialData == previousData == currentData == None
    {
      startTime := now;
      lastUpdate := now;
      initialData, previousData, currentData := None, None, None;
    }

    /** The counters of `reset`. */
    method ClearTotals()
      modifies this`monstersKilled, this`totalBaseXpGained, this`totalJobXpGained, this`totalDamageTaken
      ensures monstersKilled == totalBaseXpGained == totalJobXpGained == totalDamageTaken == 0
    {
      monstersKilled, totalBaseXpGained, totalJobXpGained, totalDamageTaken := 0, 0, 0, 0;
    }
  }
}
