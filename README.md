# ROLens session statistics and level-XP table, in Dafny

ROLens reads a Ragnarok Online client's memory and shows session statistics.
This project models its two core classes, `XPTableManager` and `StatsCalculator`,
and proves properties of them.

`XPTableManager` (`xp_table.dfy`, module `XpTable`) keeps one entry per base
level: the largest XP seen at that level, and whether a level-up confirmed it as
the level's total. The table lives in memory and in a JSON file that several
running instances share. Each `save` re-reads the file and merges it into memory
before writing. The merge keeps the larger XP and ORs the confirmation flags.
`download_from_github` merges a downloaded table into the file by the same rule.
A legacy file stores bare integers instead of records; those are read as
unconfirmed entries.

- The shared file is a `SharedFile` object with one `Stored` field: missing,
  unparsable, or a parsed document with or without its `"base"` key.
- Every lock acquisition is a `bool` parameter: `false` models a `FileLock`
  timeout.
- The downloaded document is a `Stored` parameter.
- The merge loop is one method, `MergeEntries`, used by `Save` and
  `DownloadFromGithub`. It is proved equal to the function `MergeInto`.
- `MergeInto` is proved to be a semilattice join (`xp_table_laws.dfy`). From that
  follow the properties of the table over time:
  - the file never loses information, as long as each operation runs atomically
    against other instances (see "## Left out");
  - saves are idempotent;
  - two instances saving in either order leave the same file;
  - a confirmation on disk survives an in-memory overwrite.

`StatsCalculator` (`stats.dfy`, module `Stats`) is a class with the Python
object's fields. `State()` gathers them into the value `Session`. Every method is
proved against a function on that value:

| method | function |
|---|---|
| `Update` | `NextSession(old(State()), snapshot, now)` |
| `DetectXpGain` | `AfterXpGain` |
| `DetectDamageTaken` | `AfterDamage` |
| `Reset` | `FreshSession` |

Each method also preserves `Valid()`:

- the three snapshots are set or cleared together;
- both histories hold at most 60 events;
- every event in them is positive.

The observation that each tick hands to the table manager is the function
`TableObservation`. The table state after `Update` is stated through
`TableAfter`. `stats_laws.dfy` proves:

- what one tick does to each counter, history, estimate and the table;
- counters never decrease over any run of updates;
- a history holds exactly the newest 60 events;
- bounds on the estimate derived from a percentage;
- a worked scenario that combines both classes.

The clock is a parameter `now`, in whole seconds. Percentages are exact reals.

## Model

| member | source | states |
|---|---|---|
| XpTable.Upgrade | xp_table_manager.py:81-87 | a bare integer becomes an unconfirmed entry; a record is kept |
| XpTable.ToNewFormat | xp_table_manager.py:78-88 | same levels as the input; each bare integer becomes an unconfirmed entry of that xp; each record is kept unchanged |
| XpTable.Encode | xp_table_manager.py:69-74 | the written "base" object has the same levels and stores every entry as a record |
| XpTable.PersistedTable | xp_table_manager.py:51-54 | a readable document gives its converted "base" table; no "base" or no readable file gives the empty table |
| XpTable.Join | xp_table_manager.py:62-67 | merged entry has the larger xp and is confirmed iff either side is; it dominates both |
| XpTable.MergeInto | xp_table_manager.py:56-67 | keys are the union; shared levels joined, others kept; the result dominates both tables |
| XpTable.MergeEntries | xp_table_manager.py:58-67 | the per-level merge loop computes exactly `MergeInto(target, incoming)` |
| XpTable.MergeOneMore | xp_table_manager.py:58-67 | folding one more incoming level changes only that level of the merged table |
| XpTable.Observe | xp_table_manager.py:96-108 | reports a change iff the level is new, the xp is larger, or it newly confirms; new/larger stores exactly (xp, confirmed); confirming keeps the xp; no change leaves the table; other levels untouched; stored xp never decreases |
| XpTable.SaveOutcome | xp_table_manager.py:45-76 | a lock timeout or unparsable file changes nothing; otherwise memory becomes the merge of memory and file and the file holds it; memory never loses information |
| XpTable.DownloadOutcome | xp_table_manager.py:202-258 | succeeds iff the download parsed with a "base" key, the lock was taken and the local file is not unparsable; failure leaves the file; success without a local file writes the downloaded document itself, legacy values included; success over a readable file writes records only, and its table is the local table merged with the remote one |
| XpTable.LoadedTable | xp_table_manager.py:29-43 | under the lock the in-memory table is the file's table (empty if absent or unparsable); a lock timeout leaves it empty |
| XpTable.GetBaseXpRequired | xp_table_manager.py:110-113 | some value iff the level is known, and that value is the stored xp |
| XpTable.Percentage | xp_table_manager.py:133-137 | at most 100; 0 when the requirement is not positive; 100 once reached; otherwise current*100/required; non-negative for non-negative xp |
| XpTable.KnownProgress | xp_table_manager.py:132-140 | requirement as given, remaining is the clamped difference, percentage as `Percentage`, flags as given |
| XpTable.GetBaseProgress | xp_table_manager.py:115-167 | a manual estimate gives `KnownProgress` of the estimate (manual, unconfirmed); else a confirmed entry of the current level gives `KnownProgress` of its xp (confirmed); else unknown; the record is always well shaped |
| XpTable.GetJobProgress | xp_table_manager.py:169-200 | a manual estimate gives `KnownProgress` of the estimate (manual, unconfirmed); else unknown; always well shaped |
| XpTable.LeastLevel | xp_table_manager.py:264 | a member of the set no greater than any other member |
| XpTable.SortedLevels | xp_table_manager.py:264 | strictly increasing, as long as the set, with exactly its elements |
| XpTable.GetStats | xp_table_manager.py:260-265 | the level count is the table size, and the level list is exactly the known levels in strictly increasing order |
| XpTable.SharedFile.constructor | xp_table_manager.py:12-14 | the shared file holds the given contents |
| XpTable.XpTableManager.constructor | xp_table_manager.py:12-27 | downloads only when asked to and no local file exists, then loads; states the resulting file and table |
| XpTable.XpTableManager.Load | xp_table_manager.py:29-43 | the in-memory table becomes `LoadedTable` of the file |
| XpTable.XpTableManager.Save | xp_table_manager.py:45-76 | memory and file become `SaveOutcome` of their old values |
| XpTable.RecordOutcome | xp_table_manager.py:90-108 | no change leaves memory and file as they were; afterwards the level is in memory with at least the observed xp, confirmed if the observation was; every other known level keeps or gains information; a lock timeout leaves the file |
| XpTable.XpTableManager.UpdateBaseXp | xp_table_manager.py:90-108 | returns `Observe`'s change flag; memory and file become the observation, saved only when it changed |
| XpTable.XpTableManager.DownloadFromGithub | xp_table_manager.py:202-258 | result and file become `DownloadOutcome` of the download and the old file |
| XpTableLaws.JoinCommutative | xp_table_manager.py:62-67 | the entry merge does not depend on the order of its sides |
| XpTableLaws.JoinAssociative | xp_table_manager.py:62-67 | merging three entries does not depend on grouping |
| XpTableLaws.JoinIdempotent | xp_table_manager.py:62-67 | merging an entry with itself changes nothing |
| XpTableLaws.JoinIsLeastUpperBound | xp_table_manager.py:62-67 | an entry dominates the merge iff it dominates both sides |
| XpTableLaws.MergeCommutative | xp_table_manager.py:56-67 | merging file into memory equals merging memory into file |
| XpTableLaws.MergeAssociative | xp_table_manager.py:56-67 | repeated merges do not depend on grouping |
| XpTableLaws.MergeIdempotent | xp_table_manager.py:56-67 | merging a table with itself changes nothing |
| XpTableLaws.MergeIsLeastUpperBound | xp_table_manager.py:56-67 | a table dominates the merge iff it dominates both tables |
| XpTableLaws.MergeWithEmpty | xp_table_manager.py:51-67 | merging with an empty table (missing file, no "base") changes nothing |
| XpTableLaws.ReadBackEncoded | xp_table_manager.py:69-74 | reading back what `save` wrote yields the table written |
| XpTableLaws.ConvertIsIdempotent | xp_table_manager.py:78-88 | converting an already converted table changes nothing |
| XpTableLaws.SaveNeverLosesPersisted | xp_table_manager.py:45-76 | a save never lowers an xp or clears a flag in the file or in memory, in every outcome |
| XpTableLaws.SaveSynchronises | xp_table_manager.py:45-76 | after a save under the lock, file and memory hold the same table |
| XpTableLaws.SaveIsIdempotent | xp_table_manager.py:45-76 | saving twice with nothing in between equals saving once |
| XpTableLaws.SaveRestoresConfirmation | xp_table_manager.py:99-101 | a level confirmed in the file remains confirmed, with at least its xp, after an observation that overwrote it in memory is saved |
| XpTableLaws.ConcurrentSavesConverge | xp_table_manager.py:49-74 | two instances saving in either order leave the same table in the file |
| XpTableLaws.DownloadNeverLowersLocal | xp_table_manager.py:223-241 | a download never lowers a local entry, and on success dominates every remote entry |
| XpTableLaws.DownloadRejectsMissingBase | xp_table_manager.py:213-215 | a download without "base" fails and leaves the file as it was |
| XpTableLaws.ObserveNeverLowersRequirement | xp_table_manager.py:98-108 | a known level's stored xp never decreases; other levels unchanged |
| XpTableLaws.ObserveCanDropConfirmation | xp_table_manager.py:99-100 | a larger unconfirmed observation replaces a confirmed entry in memory |
| XpTableLaws.ObserveKeepsConfirmationUnlessRaised | xp_table_manager.py:99-108 | a confirmed entry is untouched, and no change is reported, by observations not above its xp |
| XpTableLaws.RecordNeverLosesPersisted | xp_table_manager.py:90-108 | `update_base_xp` never lowers an xp or clears a flag in the file |
| XpTableLaws.RecordPersistsObservation | xp_table_manager.py:90-108 | a reported change saved under the lock is in the file with at least the observed xp, confirmed if observed so, and file equals memory |
| XpTableLaws.JobProgressIgnoresTable | xp_table_manager.py:169-200 | job progress equals base progress over an empty table |
| XpTableLaws.UnconfirmedIsNotShown | xp_table_manager.py:142-167 | without an estimate, an unconfirmed entry gives unknown progress |
| XpTableLaws.ManualEstimateOverridesConfirmed | xp_table_manager.py:130-140 | an estimate of 10000 at 4500 xp shows 5500 remaining at 45% despite a confirmed 9000 |
| Stats.Push | stats_calculator.py:92-99 | appends; drops the oldest only when full; the length never exceeds 60 |
| Stats.LeveledUp | stats_calculator.py:63 | a level-up is a strictly larger base level |
| Stats.BaseGain | stats_calculator.py:59-77 | 0 across a base level-up, else the raw difference |
| Stats.TableObservation | stats_calculator.py:63-85 | a level-up confirms the previous level's previous xp; otherwise a moved xp is observed unconfirmed at the current level; otherwise nothing |
| Stats.FreshSession | stats_calculator.py:198-212 | a fresh session is well formed and has no current data |
| Stats.Initialized | stats_calculator.py:35-41 | the three snapshots become the given one and the clock restarts at `now`; nothing else changes; well formed |
| Stats.CountGains | stats_calculator.py:87-102 | a positive base diff counts one kill, adds the diff and pushes the event; otherwise neither changes; a positive job diff is added; nothing else changes; well formed |
| Stats.AfterXpGain | stats_calculator.py:57-102 | a level-up drops the estimate of the level left, otherwise the estimates stay; the counting is `CountGains` with the level-up-adjusted base diff and the raw job diff; well formed |
| Stats.AfterDamage | stats_calculator.py:104-117 | an HP drop is added and pushed; otherwise the session is unchanged; only the damage fields change; well formed |
| Stats.NextSession | stats_calculator.py:43-55 | the first snapshot gives `Initialized`; later ones keep the initial data, make the old current data the previous data and the new snapshot the current data, and set the update time; always well formed |
| Stats.TableAfter | stats_calculator.py:66-85 | no observation leaves the table manager as it was; an observation leaves its level in memory with at least the observed xp, confirmed if observed so; other levels keep or gain information |
| Stats.RecordedObservation | stats_calculator.py:43-85 | nothing on the first snapshot, else `TableObservation` of current and new |
| Stats.Truncate | stats_calculator.py:174 | Python `int()` on reals: toward zero, within one of the argument |
| Stats.EstimateTotal | stats_calculator.py:174 | `int(xp / (pct / 100))` (also line 187): a non-negative xp gives a non-negative estimate, and 0 xp gives 0 (the bounds are `EstimateBounds`) |
| Stats.FormatTime | stats_calculator.py:191-196 | hours*3600 + minutes*60 + seconds is the duration; minutes and seconds are in [0, 60) |
| Stats.RatePer | stats_calculator.py:121-130 | 0 for a non-positive elapsed time; else the largest rate with rate*elapsed <= total*period |
| Stats.AveragePerMob | stats_calculator.py:133-134 | 0 without kills; else the largest average with average*kills <= total |
| Stats.Lookup | stats_calculator.py:140 | some value iff the level has an estimate, and that value is the estimate |
| Stats.StatsCalculator.constructor | stats_calculator.py:8-33 | the session is fresh and valid; the table manager is new over the given file and its file and table are stated |
| Stats.StatsCalculator.Initialize | stats_calculator.py:35-41 | the session becomes `Initialized` and stays valid |
| Stats.StatsCalculator.Update | stats_calculator.py:43-55 | the session becomes `NextSession`, stays valid, and the table receives exactly `RecordedObservation` |
| Stats.StatsCalculator.RecordObservation | stats_calculator.py:66-85 | the table receives the given observation, or nothing |
| Stats.StatsCalculator.DetectXpGain | stats_calculator.py:57-102 | the session becomes `AfterXpGain`; the table receives `TableObservation` |
| Stats.StatsCalculator.CountXpGains | stats_calculator.py:87-102 | the session becomes `CountGains` and stays valid |
| Stats.StatsCalculator.DetectDamageTaken | stats_calculator.py:104-117 | the session becomes `AfterDamage` and stays valid |
| Stats.StatsCalculator.GetStats | stats_calculator.py:119-163 | counters copied; session time and its clock split agree; each hourly or per-minute rate is the largest with rate*elapsed <= total*period (0 for no elapsed time); each per-kill average is the largest with average*kills <= total (0 without kills); progress records are from the table and estimates of the current levels |
| Stats.StatsCalculator.SetBaseXpEstimateFromPercentage | stats_calculator.py:165-176 | succeeds iff there is current data and the percentage is in (0, 100); then sets exactly the current base level's estimate, else changes nothing |
| Stats.StatsCalculator.SetJobXpEstimateFromPercentage | stats_calculator.py:178-189 | the same for the job level |
| Stats.StatsCalculator.Reset | stats_calculator.py:198-212 | the session becomes fresh and valid; the table manager is untouched |
| Stats.StatsCalculator.ClearSnapshots | stats_calculator.py:200-204 | clock restarted, snapshots cleared |
| Stats.StatsCalculator.ClearTotals | stats_calculator.py:205-208 | all four counters are zero |
| StatsLaws.FirstUpdateOnlyInitializes | stats_calculator.py:43-47 | the first snapshot only sets the three snapshots; nothing is counted or observed |
| StatsLaws.LevelUpTick | stats_calculator.py:63-102 | a level-up confirms the previous xp, drops that level's estimate, counts no kill or base xp, and still adds a job gain |
| StatsLaws.SteadyLevelTick | stats_calculator.py:78-85 | without a level-up, a moved xp is observed unconfirmed, an unmoved one is not; estimates stay |
| StatsLaws.BaseGainTick | stats_calculator.py:87-99 | a positive gain counts one kill, adds the gain and is the newest history event; otherwise nothing changes |
| StatsLaws.JobGainTick | stats_calculator.py:49-102 | every later snapshot keeps the initial data, makes the old current data the previous data, adds a positive job diff whether or not the base level went up, and keeps the job estimates |
| StatsLaws.DamageTick | stats_calculator.py:104-117 | an HP drop adds to the total and is pushed to the damage history; otherwise neither changes |
| StatsLaws.LevelUpExample | stats_calculator.py:63-77 | 9800 at level 10 then 0 at level 11 confirms (10, 9800) and counts no kill |
| StatsLaws.Run | stats_calculator.py:43-55 | any run of updates keeps the session well formed |
| StatsLaws.CountersNeverDecrease | stats_calculator.py:87-117 | one update never lowers a counter |
| StatsLaws.CountersMonotoneOverRun | stats_calculator.py:43-117 | no run of updates lowers a counter |
| StatsLaws.HistoriesStayBounded | stats_calculator.py:98-99 | after any run both histories hold at most 60 events |
| StatsLaws.Newest | stats_calculator.py:98-99 | reference definition of what a bounded history holds: the last 60 items, or all of them (the length bound is incidental) |
| StatsLaws.HistoryKeepsNewest | stats_calculator.py:92-99 | any number of pushes leaves exactly the newest 60 events in order |
| StatsLaws.NewestOfTail | stats_calculator.py:98-99 | dropping the oldest of more than 60 does not change the newest 60 |
| StatsLaws.EstimateBounds | stats_calculator.py:165-176 | for a percentage in (0, 100) the estimate is at least the current xp and is the truncation of xp*100/percentage |
| StatsLaws.EstimateRoundTrip | stats_calculator.py:174-175 | the progress from a percentage-derived estimate is manual and shows a percentage at least the one entered |
| StatsLaws.EstimateExample | stats_calculator.py:174 | 4500 xp at 45% gives 10000 |
| StatsLaws.FormatTimeIsUnique | stats_calculator.py:191-196 | the split is the only one with minutes and seconds below 60 |
| StatsLaws.ScenarioThreeSnapshots | stats_calculator.py:43-102 | 1000 then 1500 at level 5 then 0 at level 6: one kill of 500; level 5 is stored confirmed at 1500; level 6 progress is unknown |
| StatsLaws.ScenarioTable | xp_table_manager.py:90-108 | observing 1500 unconfirmed then confirmed for level 5, from a missing file, stores a confirmed 1500 |

## Left out

- The GUI, the process memory reader and the packaging script are not part of this model.
- JSON parsing and the text layout of the written file are not modelled. A document is already parsed: missing, unparsable, or its "base" object.
- Failed writes and the exceptions they raise are not modelled: a write under the lock always succeeds.
- Non-canonical or non-integer level keys (such as "05", which `int(k)` reads as 5 but `str(5)` never produces) and non-integer xp values are not modelled. The table is keyed by `int`, so each level has one entry.
- Network access is left out; the downloaded document is a parameter. The 5-second lock and 10-second download timeouts are the `bool` lock parameters and a `Missing` download.
- Each operation of the table manager is modelled as atomic against other instances. `download_from_github` tests for the file (xp_table_manager.py:218) before it takes the lock (lines 219 and 244). If another instance creates the file with a `save` in between, the download overwrites it with the downloaded document, and that instance's levels leave the file until it saves again. `load` also tests before it locks (lines 31 and 34), which loses nothing. These interleavings are not captured, so `DownloadNeverLowersLocal` and `SaveNeverLosesPersisted` hold only for operations that do not interleave.
- Printing and logging are left out.
- `time.time()` is the parameter `now`, in whole seconds.
- Python floats become exact reals or integers. Rounding, NaN and infinity are not modelled.
- The `%02d` text of `_format_time` is not modelled; `FormatTime` returns the three numbers.
- Snapshot fields other than base and job xp, base and job level and HP are not modelled. The calculator never reads them.
- Truthiness checks on snapshots are modelled as presence. A snapshot is never an empty dict.
- Stats.StatsCalculator.GetStats: requires current data. Python raises a `TypeError` without it.
- XpTable.GetStats: ghost function, because it picks levels from a set; Python's `sorted` has no loop to model.
- XpTable.Observe: confirmation in memory is not monotone. Lines 99-100 of xp_table_manager.py replace a confirmed entry with a larger unconfirmed one (`ObserveCanDropConfirmation`). Only the shared file keeps the flag (`SaveRestoresConfirmation`).
- XpTable.Percentage: the code applies only `min(100, ·)`, so a negative current xp gives a negative percentage.
- A record in the file without a "confirmed" key reads as unconfirmed, as every `.get('confirmed', False)` does.
