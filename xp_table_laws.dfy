/** What the level-XP table promises across operations: the merge is a
    semilattice join, the shared file only ever gains information, concurrent
    writers converge, and the progress queries follow their priority order. */
module XpTableLaws {
  import opened Wrappers
  import opened XpTable

  // ---------------------------------------------------------------------------
  // The entry merge is a semilattice join

  lemma JoinCommutative(a: Entry, b: Entry)
    ensures Join(a, b) == Join(b, a)
  {
  }

  lemma JoinAssociative(a: Entry, b: Entry, c: Entry)
    ensures Join(Join(a, b), c) == Join(a, Join(b, c))
  {
  }

  lemma JoinIdempotent(a: Entry)
    ensures Join(a, a) == a
  {
  }

  /** The merged entry is the least entry that knows what both sides know. */
  lemma JoinIsLeastUpperBound(a: Entry, b: Entry, c: Entry)
    ensures Below(Join(a, b), c) <==> Below(a, c) && Below(b, c)
  {
  }

  // ---------------------------------------------------------------------------
  // The table merge is a semilattice join

  lemma MergeCommutative(a: Table, b: Table)
    ensures MergeInto(a, b) == MergeInto(b, a)
  {
    var l, r := MergeInto(a, b), MergeInto(b, a);
    forall k | k in l
      ensures l[k] == r[k]
    {
      if k in a && k in b {
        JoinCommutative(a[k], b[k]);
      }
    }
  }

  lemma MergeAssociative(a: Table, b: Table, c: Table)
    ensures MergeInto(MergeInto(a, b), c) == MergeInto(a, MergeInto(b, c))
  {
    var l, r := MergeInto(MergeInto(a, b), c), MergeInto(a, MergeInto(b, c));
    forall k | k in l
      ensures l[k] == r[k]
    {
      if k in a && k in b && k in c {
        JoinAssociative(a[k], b[k], c[k]);
      }
    }
  }

  lemma MergeIdempotent(a: Table)
    ensures MergeInto(a, a) == a
  {
    var r := MergeInto(a, a);
    forall k | k in r
      ensures r[k] == a[k]
    {
      JoinIdempotent(a[k]);
    }
  }

  /** The merged table is the least table that dominates both sides. */
  lemma MergeIsLeastUpperBound(a: Table, b: Table, c: Table)
    ensures TableBelow(MergeInto(a, b), c) <==> TableBelow(a, c) && TableBelow(b, c)
  {
    var m := MergeInto(a, b);
    if TableBelow(a, c) && TableBelow(b, c) {
      forall k | k in m
        ensures k in c && Below(m[k], c[k])
      {
        if k in a && k in b {
          JoinIsLeastUpperBound(a[k], b[k], c[k]);
        }
      }
    }
  }

  lemma MergeWithEmpty(a: Table)
    ensures MergeInto(a, map[]) == a && MergeInto(map[], a) == a
  {
    assert MergeInto(a, map[]).Keys == a.Keys;
    assert MergeInto(map[], a).Keys == a.Keys;
  }

  // ---------------------------------------------------------------------------
  // Conversion and persistence

  /** Reading back what `save` wrote gives the table that was written. */
  lemma ReadBackEncoded(t: Table)
    ensures ToNewFormat(Encode(t)) == t
  {
    var r := ToNewFormat(Encode(t));
    assert r.Keys == t.Keys;
  }

  /** Converting twice changes nothing: a converted table has no legacy values left. */
  lemma ConvertIsIdempotent(raw: RawTable)
    ensures ToNewFormat(Encode(ToNewFormat(raw))) == ToNewFormat(raw)
  {
    ReadBackEncoded(ToNewFormat(raw));
  }

  /** A `save` never lowers an xp or clears a confirmation in the shared file,
      whatever the lock does and whatever the file holds. */
  lemma SaveNeverLosesPersisted(mem: Table, disk: Stored, lockAcquired: bool)
    ensures TableBelow(PersistedTable(disk), PersistedTable(SaveOutcome(mem, disk, lockAcquired).disk))
    ensures TableBelow(mem, SaveOutcome(mem, disk, lockAcquired).table)
  {
    var r := SaveOutcome(mem, disk, lockAcquired);
    if lockAcquired && !disk.Unreadable? {
      ReadBackEncoded(r.table);
    }
  }

  /** After a successful `save`, memory and the shared file hold the same table. */
  lemma SaveSynchronises(mem: Table, disk: Stored)
    requires !disk.Unreadable?
    ensures var r := SaveOutcome(mem, disk, true);
            PersistedTable(r.disk) == r.table && LoadedTable(r.disk, true) == r.table
  {
    ReadBackEncoded(SaveOutcome(mem, disk, true).table);
  }

  /** Saving a second time, with nothing changed in between, changes nothing. */
  lemma SaveIsIdempotent(mem: Table, disk: Stored, lockAcquired: bool)
    ensures var once := SaveOutcome(mem, disk, lockAcquired);
            SaveOutcome(once.table, once.disk, lockAcquired) == once
  {
    var once := SaveOutcome(mem, disk, lockAcquired);
    if lockAcquired && !disk.Unreadable? {
      ReadBackEncoded(once.table);
      MergeIdempotent(once.table);
    }
  }

  /** A confirmation already in the shared file survives an in-memory
      observation that dropped it, once that observation is saved. */
  lemma SaveRestoresConfirmation(t: Table, level: int, xp: int, confirmed: bool, disk: Stored)
    requires !disk.Unreadable?
    requires level in PersistedTable(disk) && PersistedTable(disk)[level].confirmed
    ensures var saved := SaveOutcome(Observe(t, level, xp, confirmed).table, disk, true);
            level in saved.table && saved.table[level].confirmed
            && saved.table[level].xp >= PersistedTable(disk)[level].xp
  {
  }

  /** Two instances that each save their own table, in either order, leave the
      same table in the shared file. */
  lemma ConcurrentSavesConverge(a: Table, b: Table, disk: Stored)
    requires !disk.Unreadable?
    ensures PersistedTable(SaveOutcome(b, SaveOutcome(a, disk, true).disk, true).disk)
         == PersistedTable(SaveOutcome(a, SaveOutcome(b, disk, true).disk, true).disk)
  {
    var d := PersistedTable(disk);
    var afterA, afterB := SaveOutcome(a, disk, true), SaveOutcome(b, disk, true);
    ReadBackEncoded(afterA.table);
    ReadBackEncoded(afterB.table);
    var ab, ba := SaveOutcome(b, afterA.disk, true), SaveOutcome(a, afterB.disk, true);
    ReadBackEncoded(ab.table);
    ReadBackEncoded(ba.table);
    calc {
      MergeInto(b, MergeInto(a, d));
    == { MergeAssociative(b, a, d); }
      MergeInto(MergeInto(b, a), d);
    == { MergeCommutative(a, b); }
      MergeInto(MergeInto(a, b), d);
    == { MergeAssociative(a, b, d); }
      MergeInto(a, MergeInto(b, d));
    }
  }

  /** The remote merge never lowers a local xp or clears a local confirmation,
      and a successful download leaves every remote entry dominated too. */
  lemma DownloadNeverLowersLocal(remote: Stored, disk: Stored, lockAcquired: bool)
    ensures var r := DownloadOutcome(remote, disk, lockAcquired);
            && TableBelow(PersistedTable(disk), PersistedTable(r.disk))
            && (r.ok ==> TableBelow(PersistedTable(remote), PersistedTable(r.disk)))
  {
    var r := DownloadOutcome(remote, disk, lockAcquired);
    if r.ok {
      assert PersistedTable(r.disk) == MergeInto(PersistedTable(disk), PersistedTable(remote));
    }
  }

  /** A downloaded document without "base" is refused and the file is left as it was. */
  lemma DownloadRejectsMissingBase(disk: Stored, lockAcquired: bool)
    ensures DownloadOutcome(Json(None), disk, lockAcquired) == Downloaded(false, disk)
  {
  }

  // ---------------------------------------------------------------------------
  // Observations

  /** The stored requirement of a level never decreases under `update_base_xp`,
      and no other level's entry changes. */
  lemma ObserveNeverLowersRequirement(t: Table, level: int, xp: int, confirmed: bool, k: int)
    requires GetBaseXpRequired(t, k).Some?
    ensures var after := GetBaseXpRequired(Observe(t, level, xp, confirmed).table, k);
            after.Some? && after.value >= GetBaseXpRequired(t, k).value
    ensures k != level ==> Observe(t, level, xp, confirmed).table[k] == t[k]
  {
  }

  /** `update_base_xp` alone can replace a confirmed entry by a larger
      unconfirmed one: the in-memory flag is not monotone. */
  lemma ObserveCanDropConfirmation()
    ensures var r := Observe(map[5 := Entry(100, true)], 5, 200, false);
            r.changed && r.table[5] == Entry(200, false)
  {
  }

  /** Once confirmed, an entry stays confirmed under observations that do not
      raise its xp. */
  lemma ObserveKeepsConfirmationUnlessRaised(t: Table, level: int, xp: int, confirmed: bool)
    requires level in t && t[level].confirmed && xp <= t[level].xp
    ensures Observe(t, level, xp, confirmed).table == t
    ensures !Observe(t, level, xp, confirmed).changed
  {
  }

  /** `update_base_xp` never lowers an xp or clears a confirmation in the
      shared file. */
  lemma RecordNeverLosesPersisted(mem: Table, disk: Stored, level: int, xp: int, confirmed: bool, lockAcquired: bool)
    ensures TableBelow(PersistedTable(disk),
                       PersistedTable(RecordOutcome(mem, disk, level, xp, confirmed, lockAcquired).disk))
  {
    var o := Observe(mem, level, xp, confirmed);
    if o.changed {
      SaveNeverLosesPersisted(o.table, disk, lockAcquired);
    }
  }

  /** A reported change that is saved reaches the shared file: the level is
      stored with at least the observed xp, confirmed if the observation was,
      and memory and file agree afterwards. */
  lemma RecordPersistsObservation(mem: Table, disk: Stored, level: int, xp: int, confirmed: bool)
    requires !disk.Unreadable? && Observe(mem, level, xp, confirmed).changed
    ensures var r := RecordOutcome(mem, disk, level, xp, confirmed, true);
            var p := PersistedTable(r.disk);
            && p == r.table
            && level in p && p[level].xp >= xp
            && (confirmed ==> p[level].confirmed)
  {
    var o := Observe(mem, level, xp, confirmed);
    SaveSynchronises(o.table, disk);
    assert Below(o.table[level], SaveOutcome(o.table, disk, true).table[level]);
  }

  // ---------------------------------------------------------------------------
  // Progress queries

  /** The job track behaves as the base track over an empty table. */
  lemma JobProgressIgnoresTable(level: int, currentXp: int, tempEstimate: Option<int>)
    ensures GetJobProgress(level, currentXp, tempEstimate) == GetBaseProgress(map[], level, currentXp, tempEstimate)
  {
  }

  /** Observations that were never confirmed are not shown as progress. */
  lemma UnconfirmedIsNotShown(t: Table, level: int, currentXp: int)
    requires level in t && !t[level].confirmed
    ensures GetBaseProgress(t, level, currentXp, None) == Unknown
  {
  }

  /** With 4500 xp and a manual estimate of 10000, the estimate is shown at 45%
      even though a confirmed requirement of 9000 is stored. */
  lemma ManualEstimateOverridesConfirmed()
    ensures GetBaseProgress(map[7 := Entry(9000, true)], 7, 4500, Some(10000))
         == Progress(Some(10000), Some(5500), Some(45.0), false, true)
  {
  }
}
