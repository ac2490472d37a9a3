/** The level-XP table of xp_table_manager.py: for every base level, the largest
    XP value seen while at that level and whether a level-up confirmed it as the
    level's total requirement. The table lives in memory and in a JSON file that
    several running instances share; every write merges the file into memory first. */
module XpTable {
  import opened Wrappers

  /** One row of the table: `{"xp": ..., "confirmed": ...}`. */
  datatype Entry = Entry(xp: int, confirmed: bool)

  /** The in-memory `base_table`, keyed by level (the source keys by `str(level)`,
      which is injective on integers). */
  type Table = map<int, Entry>

  /** A value under "base" in the JSON document: the legacy bare integer or the
      newer record. A record without a "confirmed" key reads as unconfirmed. */
  datatype RawValue = Bare(xp: int) | Record(entry: Entry)

  type RawTable = map<int, RawValue>

  /** What reading a JSON document (the shared file, or the download) yields: no
      document, a document that does not parse, or a parsed document with or
      without its top-level "base" key. */
  datatype Stored = Missing | Unreadable | Json(base: Option<RawTable>)

  /** The information order on entries: `b` knows at least as much as `a`. */
  predicate Below(a: Entry, b: Entry) {
    a.xp <= b.xp && (a.confirmed ==> b.confirmed)
  }

  /** Every entry of `s` is present in `t` and below its counterpart there. */
  predicate TableBelow(s: Table, t: Table) {
    forall k :: k in s ==> k in t && Below(s[k], t[k])
  }

  // ---------------------------------------------------------------------------
  // Format conversion

  /** How one stored value is read: a bare integer becomes an unconfirmed entry. */
  function Upgrade(v: RawValue): (e: Entry)
    ensures v.Bare? ==> e == Entry(v.xp, false)
    ensures v.Record? ==> e == v.entry
  {
    match v
    case Bare(x) => Entry(x, false)
    case Record(r) => r
  }

  /** `_convert_to_new_format`: same levels, legacy integers become unconfirmed
      entries, records are kept as they are. */
  function ToNewFormat(raw: RawTable): (t: Table)
    ensures t.Keys == raw.Keys
    ensures forall k :: k in raw && raw[k].Bare? ==> t[k] == Entry(raw[k].xp, false)
    ensures forall k :: k in raw && raw[k].Record? ==> t[k] == raw[k].entry
  {
    map k | k in raw :: Upgrade(raw[k])
  }

  /** The "base" object that `json.dump` writes for an in-memory table. */
  function Encode(t: Table): (raw: RawTable)
    ensures raw.Keys == t.Keys
    ensures forall k :: k in t ==> raw[k].Record? && raw[k].entry == t[k]
  {
    map k | k in t :: Record(t[k])
  }

  /** The table a readable document holds under "base" (`data.get('base', {})`). */
  function PersistedTable(s: Stored): (t: Table)
    ensures !s.Json? ==> t == map[]
    ensures s.Json? && s.base.None? ==> t == map[]
    ensures s.Json? && s.base.Some? ==> t == ToNewFormat(s.base.value)
  {
    match s
    case Json(b) => ToNewFormat(b.GetOr(map[]))
    case _ => map[]
  }

  /** A non-empty set of levels has a level to pick. */
  lemma HasElement(s: set<int>)
    requires s != {}
    ensures exists x :: x in s
  {
    if forall x :: x !in s {
      assert false;
    }
  }

  // ---------------------------------------------------------------------------
  // Merging

  /** The per-level merge rule of `save` and `download_from_github`: the larger
      xp, and confirmed when either side is confirmed. */
  function Join(a: Entry, b: Entry): (r: Entry)
    ensures r.xp == (if a.xp < b.xp then b.xp else a.xp)
    ensures r.confirmed == (a.confirmed || b.confirmed)
    ensures Below(a, r) && Below(b, r)
  {
    Entry(if a.xp < b.xp then b.xp else a.xp, a.confirmed || b.confirmed)
  }

  /** The table the merge loops leave behind when `incoming` is merged into
      `target`: levels of either side are kept, shared levels are joined. */
  function MergeInto(target: Table, incoming: Table): (r: Table)
    ensures r.Keys == target.Keys + incoming.Keys
    ensures forall k :: k in target && k in incoming ==> r[k] == Join(target[k], incoming[k])
    ensures forall k :: k in target && k !in incoming ==> r[k] == target[k]
    ensures forall k :: k !in target && k in incoming ==> r[k] == incoming[k]
    ensures TableBelow(target, r) && TableBelow(incoming, r)
  {
    map k | k in target.Keys + incoming.Keys ::
      if k in target && k in incoming then Join(target[k], incoming[k])
      else if k in target then target[k]
      else incoming[k]
  }

  /** The loop shared by `save` and `download_from_github`: walk the incoming
      levels one at a time and fold each into the target table. */
  method MergeEntries(target: Table, incoming: Table) returns (merged: Table)
    ensures merged == MergeInto(target, incoming)
  {
    merged := target;
    var pending := incoming.Keys;
    while pending != {}
      invariant pending <= incoming.Keys
      invariant merged == MergeInto(target, incoming - pending)
      decreases pending
    {
      HasElement(pending);
      var level :| level in pending;
      var entry := incoming[level];
      ghost var done := incoming - pending;
      if level !in merged {
        merged := merged[level := entry];
      } else {
        var current := merged[level];
        if entry.xp > current.xp {
          current := current.(xp := entry.xp);
        }
        if entry.confirmed || current.confirmed {
          current := current.(confirmed := true);
        }
        merged := merged[level := current];
      }
      pending := pending - {level};
      assert incoming - pending == done[level := entry];
      MergeOneMore(target, done, level, entry);
    }
    assert incoming - pending == incoming;
  }

  /** Merging one more level changes only that level of the merged table. */
  lemma MergeOneMore(target: Table, done: Table, level: int, entry: Entry)
    requires level !in done
    ensures MergeInto(target, done[level := entry])
         == MergeInto(target, done)[level := if level in target then Join(target[level], entry) else entry]
  {
  }

  // ---------------------------------------------------------------------------
  // Observations

  /** The in-memory effect of `update_base_xp`, and whether it reports a change. */
  datatype Observed = Observed(table: Table, changed: bool)

  /** `update_base_xp` before its `save`: a new level or a larger xp stores
      exactly the observation; a confirmation of a stored, unconfirmed level only
      raises the flag; anything else changes nothing and reports no change. */
  function Observe(t: Table, level: int, xp: int, confirmed: bool): (r: Observed)
    ensures r.changed <==> (level !in t || xp > t[level].xp || (confirmed && !t[level].confirmed))
    ensures (level !in t || xp > t[level].xp) ==> r.table == t[level := Entry(xp, confirmed)]
    ensures level in t && xp <= t[level].xp && confirmed && !t[level].confirmed ==>
              r.table == t[level := Entry(t[level].xp, true)]
    ensures !r.changed ==> r.table == t
    ensures r.table.Keys == t.Keys + {level}
    ensures forall k :: k in t && k != level ==> r.table[k] == t[k]
    ensures level in t ==> t[level].xp <= r.table[level].xp
  {
    if level !in t || xp > t[level].xp then
      Observed(t[level := Entry(xp, confirmed)], true)
    else if confirmed && !t[level].confirmed then
      Observed(t[level := t[level].(confirmed := true)], true)
    else
      Observed(t, false)
  }

  // ---------------------------------------------------------------------------
  // Persistence

  /** The memory table and the shared file after a `save`. */
  datatype Saved = Saved(table: Table, disk: Stored)

  /** `save`: without the lock (a `FileLock` timeout) or with an unparsable file,
      the exception is swallowed and nothing changes. Otherwise the file's table
      is merged into memory and the merged table is written back. */
  function SaveOutcome(mem: Table, disk: Stored, lockAcquired: bool): (r: Saved)
    ensures !lockAcquired || disk.Unreadable? ==> r == Saved(mem, disk)
    ensures lockAcquired && !disk.Unreadable? ==>
              r.table == MergeInto(mem, PersistedTable(disk)) && r.disk == Json(Some(Encode(r.table)))
    ensures TableBelow(mem, r.table)
  {
    if !lockAcquired then Saved(mem, disk)
    else match disk
      case Missing => Saved(mem, Json(Some(Encode(mem))))
      case Unreadable => Saved(mem, disk)
      case Json(b) =>
        var merged := MergeInto(mem, ToNewFormat(b.GetOr(map[])));
        Saved(merged, Json(Some(Encode(merged))))
  }

  /** `update_base_xp` as a whole: observe, and save only when the observation
      changed the in-memory table. */
  function RecordOutcome(mem: Table, disk: Stored, level: int, xp: int, confirmed: bool, lockAcquired: bool): (r: Saved)
    ensures !Observe(mem, level, xp, confirmed).changed ==> r == Saved(mem, disk)
    ensures level in r.table && r.table[level].xp >= xp
    ensures confirmed ==> r.table[level].confirmed
    ensures forall k :: k in mem && k != level ==> k in r.table && Below(mem[k], r.table[k])
    ensures !lockAcquired ==> r.disk == disk
  {
    var o := Observe(mem, level, xp, confirmed);
    if o.changed then SaveOutcome(o.table, disk, lockAcquired) else Saved(mem, disk)
  }

  /** The result of `download_from_github` and the shared file afterwards. */
  datatype Downloaded = Downloaded(ok: bool, disk: Stored)

  /** `download_from_github`: a failed download or a document without "base"
      fails; so does a lock timeout or an unparsable local file. Without a local
      file the download is written as it came; otherwise it is merged into the
      local file's table with the same rule as `save`. */
  function DownloadOutcome(remote: Stored, disk: Stored, lockAcquired: bool): (r: Downloaded)
    ensures !r.ok ==> r.disk == disk
    ensures r.ok <==> remote.Json? && remote.base.Some? && lockAcquired && !disk.Unreadable?
    ensures r.ok ==> PersistedTable(r.disk) == MergeInto(PersistedTable(disk), PersistedTable(remote))
    ensures r.ok && disk.Missing? ==> r.disk == remote
    ensures r.ok && disk.Json? ==>
              && r.disk.Json? && r.disk.base.Some?
              && r.disk.base.value.Keys == PersistedTable(r.disk).Keys
              && (forall k :: k in r.disk.base.value ==> r.disk.base.value[k].Record?)
  {
    if !remote.Json? || remote.base.None? || !lockAcquired then Downloaded(false, disk)
    else match disk
      case Missing => Downloaded(true, remote)
      case Unreadable => Downloaded(false, disk)
      case Json(lb) =>
        var local := ToNewFormat(lb.GetOr(map[]));
        Downloaded(true, Json(Some(Encode(MergeInto(local, ToNewFormat(remote.base.value))))))
  }

  /** `load`: a readable file's table, read under the lock; an absent or
      unparsable file, or a lock timeout, leaves an empty table. */
  function LoadedTable(disk: Stored, lockAcquired: bool): (t: Table)
    ensures lockAcquired ==> t == PersistedTable(disk)
    ensures !lockAcquired ==> t == map[]
  {
    if lockAcquired && disk.Json? then PersistedTable(disk) else map[]
  }

  // ---------------------------------------------------------------------------
  // Queries

  /** `get_base_xp_required`: the stored xp of a level, if the level is known. */
  function GetBaseXpRequired(t: Table, level: int): (r: Option<int>)
    ensures r.Some? <==> level in t
    ensures r.Some? ==> r.value == t[level].xp
  {
    if level in t then Some(t[level].xp) else None
  }

  /** The progress record returned by `get_base_progress` / `get_job_progress`. */
  datatype Progress = Progress(
    xpRequired: Option<int>,
    xpRemaining: Option<int>,
    percentage: Option<real>,
    confirmed: bool,
    manualEstimate: bool)

  /** `min(100, current / required * 100)`, or 0 when `required` is not positive. */
  function Percentage(currentXp: int, required: int): (p: real)
    ensures p <= 100.0
    ensures required <= 0 ==> p == 0.0
    ensures 0 <= currentXp && 0 < required ==> 0.0 <= p
    ensures 0 < required <= currentXp ==> p == 100.0
    ensures 0 < required && currentXp < required ==> p == currentXp as real * 100.0 / required as real
  {
    var raw := if required > 0 then currentXp as real / required as real * 100.0 else 0.0;
    if raw < 100.0 then raw else 100.0
  }

  /** Progress against a known requirement. */
  function KnownProgress(required: int, currentXp: int, confirmed: bool, manual: bool): (p: Progress)
    ensures p.xpRequired == Some(required)
    ensures p.xpRemaining == Some(if required - currentXp < 0 then 0 else required - currentXp)
    ensures p.percentage == Some(Percentage(currentXp, required))
    ensures p.confirmed == confirmed && p.manualEstimate == manual
  {
    Progress(Some(required), Some(if required - currentXp < 0 then 0 else required - currentXp),
             Some(Percentage(currentXp, required)), confirmed, manual)
  }

  /** "No data available". */
  const Unknown := Progress(None, None, None, false, false)

  /** The shape every progress record keeps: the three numbers are present
      together; the remaining xp is the clamped difference; the percentage is at
      most 100 and is 0 for a non-positive requirement. */
  predicate WellShaped(p: Progress, currentXp: int) {
    && (p.xpRequired.Some? <==> p.xpRemaining.Some?)
    && (p.xpRequired.Some? <==> p.percentage.Some?)
    && (p.xpRequired.Some? ==>
          && p.xpRemaining.value >= 0
          && p.xpRemaining.value >= p.xpRequired.value - currentXp
          && (p.xpRemaining.value == 0 || p.xpRemaining.value == p.xpRequired.value - currentXp)
          && p.percentage.value <= 100.0
          && (p.xpRequired.value <= 0 ==> p.percentage.value == 0.0)
          && (0 < p.xpRequired.value <= currentXp ==> p.percentage.value == 100.0))
    && (p.xpRequired.None? ==> !p.confirmed && !p.manualEstimate)
  }

  /** `get_base_progress`: a manual estimate wins; otherwise only a confirmed
      entry of the current level is shown; otherwise the progress is unknown. */
  function GetBaseProgress(t: Table, level: int, currentXp: int, tempEstimate: Option<int>): (p: Progress)
    ensures tempEstimate.Some? ==>
              p.manualEstimate && !p.confirmed && p.xpRequired == tempEstimate
    ensures tempEstimate.None? && level in t && t[level].confirmed ==>
              p.confirmed && !p.manualEstimate && p.xpRequired == Some(t[level].xp)
    ensures tempEstimate.None? && (level !in t || !t[level].confirmed) ==> p == Unknown
    ensures tempEstimate.Some? ==> p == KnownProgress(tempEstimate.value, currentXp, false, true)
    ensures tempEstimate.None? && level in t && t[level].confirmed ==>
              p == KnownProgress(t[level].xp, currentXp, true, false)
    ensures WellShaped(p, currentXp)
  {
    if tempEstimate.Some? then KnownProgress(tempEstimate.value, currentXp, false, true)
    else if level in t && t[level].confirmed then KnownProgress(t[level].xp, currentXp, true, false)
    else Unknown
  }

  /** `get_job_progress`: there is no job table, so only a manual estimate gives
      progress. */
  function GetJobProgress(level: int, currentXp: int, tempEstimate: Option<int>): (p: Progress)
    ensures tempEstimate.Some? ==>
              p.manualEstimate && !p.confirmed && p.xpRequired == tempEstimate
    ensures tempEstimate.None? ==> p == Unknown
    ensures tempEstimate.Some? ==> p == KnownProgress(tempEstimate.value, currentXp, false, true)
    ensures WellShaped(p, currentXp)
  {
    if tempEstimate.Some? then KnownProgress(tempEstimate.value, currentXp, false, true)
    else Unknown
  }

  // ---------------------------------------------------------------------------
  // Table statistics

  /** The least of a finite non-empty set of levels. */
  ghost function LeastLevel(s: set<int>): (m: int)
    requires s != {}
    ensures m in s && forall y :: y in s ==> m <= y
    decreases |s|
  {
    HasElement(s);
    var x :| x in s;
    if s == {x} then x
    else
      var rest := s - {x};
      var m := LeastLevel(rest);
      assert forall y :: y in s ==> y == x || y in rest;
      if x < m then x else m
  }

  /** `sorted(int(k) for k in keys)`: the levels in increasing order. */
  ghost function SortedLevels(s: set<int>): (r: seq<int>)
    ensures |r| == |s|
    ensures forall i, j :: 0 <= i < j < |r| ==> r[i] < r[j]
    ensures forall x :: x in r <==> x in s
    decreases |s|
  {
    if s == {} then []
    else
      var m := LeastLevel(s);
      [m] + SortedLevels(s - {m})
  }

  /** The record `get_stats` returns. */
  datatype TableStats = TableStats(baseLevelsKnown: nat, baseLevels: seq<int>)

  /** `get_stats`: how many levels are known, and the known levels in order. */
  ghost function GetStats(t: Table): (r: TableStats)
    ensures r.baseLevelsKnown == |t|
    ensures |r.baseLevels| == |t|
    ensures forall i, j :: 0 <= i < j < |r.baseLevels| ==> r.baseLevels[i] < r.baseLevels[j]
    ensures forall x :: x in r.baseLevels <==> x in t
  {
    TableStats(|t|, SortedLevels(t.Keys))
  }

  // ---------------------------------------------------------------------------
  // The stateful manager

  /** The shared JSON file, visible to every instance that holds a reference to it. */
  class SharedFile {
    var contents: Stored

    constructor (contents: Stored)
      ensures this.contents == contents
    {
      this.contents := contents;
    }
  }

  /** `XPTableManager`: the in-memory table and the file it is synchronised with.
      The outcome of each lock acquisition is a parameter, as is the downloaded
      document. */
  class XpTableManager {
    var baseTable: Table
    const file: SharedFile

    /** `__init__`: download when asked to and no local file exists, then load. */
    constructor (file: SharedFile, autoDownload: bool, remote: Stored, downloadLock: bool, loadLock: bool)
      modifies file
      ensures this.file == file
      ensures var disk := if autoDownload && old(file.contents).Missing?
                          then DownloadOutcome(remote, old(file.contents), downloadLock).disk
                          else old(file.contents);
              file.contents == disk && baseTable == LoadedTable(disk, loadLock)
    {
      this.file := file;
      baseTable := map[];
      new;
      if autoDownload && file.contents.Missing? {
        var downloaded := DownloadFromGithub(remote, downloadLock);
      }
      Load(loadLock);
    }

    /** `load`: replace the in-memory table with the file's. */
    method Load(lockAcquired: bool)
      modifies this`baseTable
      ensures baseTable == LoadedTable(file.contents, lockAcquired)
    {
      if lockAcquired && file.contents.Json? {
        baseTable := ToNewFormat(file.contents.base.GetOr(map[]));
      } else {
        baseTable := map[];
      }
    }

    /** `save`: read-merge-write under the lock. */
    method Save(lockAcquired: bool)
      modifies this`baseTable, file
      ensures Saved(baseTable, file.contents) == SaveOutcome(old(baseTable), old(file.contents), lockAcquired)
    {
      if !lockAcquired {
        return;
      }
      var disk := file.contents;
      if disk.Json? {
        var existing := ToNewFormat(disk.base.GetOr(map[]));
        baseTable := MergeEntries(baseTable, existing);
        file.contents := Json(Some(Encode(baseTable)));
      } else if disk.Missing? {
        file.contents := Json(Some(Encode(baseTable)));
      }
    }

    /** `update_base_xp`: record an observation and save when it changed the table. */
    method UpdateBaseXp(level: int, currentXp: int, confirmed: bool, lockAcquired: bool) returns (changed: bool)
      modifies this`baseTable, file
      ensures changed == Observe(old(baseTable), level, currentXp, confirmed).changed
      ensures Saved(baseTable, file.contents)
           == RecordOutcome(old(baseTable), old(file.contents), level, currentXp, confirmed, lockAcquired)
    {
      if level !in baseTable || currentXp > baseTable[level].xp {
        baseTable := baseTable[level := Entry(currentXp, confirmed)];
        Save(lockAcquired);
        return true;
      } else if confirmed && !baseTable[level].confirmed {
        baseTable := baseTable[level := baseTable[level].(confirmed := true)];
        Save(lockAcquired);
        return true;
      }
      return false;
    }

    /** `download_from_github`: merge a downloaded table into the shared file. */
    method DownloadFromGithub(remote: Stored, lockAcquired: bool) returns (ok: bool)
      modifies file
      ensures Downloaded(ok, file.contents) == DownloadOutcome(remote, old(file.contents), lockAcquired)
    {
      if !remote.Json? || remote.base.None? || !lockAcquired {
        return false;
      }
      var disk := file.contents;
      if disk.Missing? {
        file.contents := remote;
        return true;
      } else if disk.Unreadable? {
        return false;
      }
      var githubBase := ToNewFormat(remote.base.value);
      var localBase := ToNewFormat(disk.base.GetOr(map[]));
      localBase := MergeEntries(localBase, githubBase);
      file.contents := Json(Some(Encode(localBase)));
      return true;
    }
  }
}
