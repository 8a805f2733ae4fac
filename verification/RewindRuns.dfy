/** Rewinding the log of a run. Every reachable log records both sides of an UPDATE over the same
    columns; so rewinding recovers every earlier state exactly when each entry fits the tables its
    predecessors leave, that is, when each change was diffed against what its row showed. Sessions
    that do not overlap guarantee it, and overlapping ones do not. */
module RewindRuns {
  import opened Wrappers
  import opened Chain
  import opened Database
  import opened Replay
  import opened Sessions
  import opened Rewind
  import opened Schedules

  // ---------- Both sides of an UPDATE ----------

  predicate BothSides(e: Entry) { e.action == "UPDATE" ==> Recorded(e.oldValues).Keys == Recorded(e.newValues).Keys }

  predicate Paired(log: seq<Entry>) { forall e :: e in log ==> BothSides(e) }

  lemma EntryPaired(sha: Sha, head: Head, c: Change)
    requires Loaded(c) && Effective(c)
    ensures BothSides(EntryFor(sha, head, c))
  {
    hide EntryFor, Recorded, OldValues, NewValues;
    EntryFields(sha, head, c);
    if c.Update? { UpdateKeys(sha, head, c); }
  }

  lemma {:induction false} AppendsPaired(sha: Sha, db: Db, pin: Option<Uuid>, p: Pending, cs: seq<Change>)
    requires (forall c :: c in cs ==> Loaded(c)) && AppendAll(sha, db, pin, p, cs).Some? && Paired(p.entries)
    ensures Paired(AppendAll(sha, db, pin, p, cs).value.entries)
  {
    hide EntryFor, BothSides, Effective;
    if cs != [] {
      var n := |cs| - 1;
      assert cs[n] in cs;
      AppendsPaired(sha, db, pin, p, cs[..n]);
      var q := AppendAll(sha, db, pin, p, cs[..n]).value;
      if Effective(cs[n]) {
        EntryPaired(sha, if q.head.Some? then q.head.value else db.heads[cs[n].obj.tenant], cs[n]);
      }
    }
  }

  lemma {:induction false} OpsPaired(sha: Sha, db: Db, pin: Option<Uuid>, now: int, ops: seq<Op>)
    requires RunOps(sha, db, pin, now, ops).Some?
    ensures Paired(RunOps(sha, db, pin, now, ops).value.entries)
  {
    hide BothSides, AppendAll, WriteAll;
    if ops != [] {
      var n := |ops| - 1;
      OpsPaired(sha, db, pin, now, ops[..n]);
      if ops[n].Wrote? {
        AppendsPaired(sha, db, pin, RunOps(sha, db, pin, now, ops[..n]).value, ops[n].unit.changes);
      }
    }
  }

  /** The log of every reachable state. */
  lemma {:induction false} SerialPaired(sha: Sha, ts: seq<Txn>)
    ensures Paired(Serial(sha, EMPTY, ts).log)
  {
    hide BothSides, RunOps;
    if ts != [] {
      var t := ts[|ts| - 1];
      var db := Serial(sha, EMPTY, ts[..|ts| - 1]);
      SerialPaired(sha, ts[..|ts| - 1]);
      if t.Session? && RunOps(sha, db, t.pin, t.now, t.ops).Some? {
        OpsPaired(sha, db, t.pin, t.now, t.ops);
      }
    }
  }

  // ---------- When rewinding works ----------

  /** Rewinding from the end past any suffix recovers the tables before it. */
  ghost predicate Recoverable(t: Tables, log: seq<Entry>) {
    forall k :: 0 <= k <= |log| ==> Rewound(t, log[k..]) == Replayed(log[..k])
  }

  lemma {:induction false} RewoundFirst(t: Tables, e: Entry, es: seq<Entry>)
    ensures Rewound(t, [e] + es) == UndoEntry(Rewound(t, es), e)
    decreases |es|
  {
    hide UndoEntry;
    if es == [] {
      assert [e] + es == [e];
      assert [e][..0] == [];
    } else {
      var n := |es| - 1;
      assert ([e] + es)[..n + 1] == [e] + es[..n] && ([e] + es)[n + 1] == es[n];
      RewoundFirst(UndoEntry(t, es[n]), e, es[..n]);
    }
  }

  /** So each entry by itself is undone. */
  lemma EachUndone(log: seq<Entry>, i: nat)
    requires Recoverable(Replayed(log), log) && i < |log|
    ensures UndoEntry(Replayed(log[..i + 1]), log[i]) == Replayed(log[..i])
  {
    hide UndoEntry, Replayed, Rewound;
    assert log[i..] == [log[i]] + log[i + 1..];
    RewoundFirst(Replayed(log), log[i], log[i + 1..]);
    assert Rewound(Replayed(log), log[i + 1..]) == Replayed(log[..i + 1]);
  }

  lemma ReplayedNext(log: seq<Entry>, i: nat)
    requires i < |log|
    ensures Replayed(log[..i + 1]) == ApplyEntry(Replayed(log[..i]), log[i])
  {
    hide ApplyEntry;
    assert log[..i + 1] == log[..i] + [log[i]];
    ReplayedAppend(log[..i], log[i]);
  }

  lemma RecoverableFits(log: seq<Entry>, i: nat)
    requires Paired(log) && Recoverable(Replayed(log), log) && i < |log|
    ensures UndoableAt(log, i)
  {
    hide UndoEntry, ApplyEntry, Recorded, Fits, Replayed, Rewound, Recoverable;
    EachUndone(log, i);
    ReplayedNext(log, i);
    assert BothSides(log[i]);
    RewindsExactly(Replayed(log[..i]), log[i]);
  }

  /** Every earlier state is recovered exactly when every entry fits the tables before it. */
  lemma RecoverableExactly(log: seq<Entry>)
    requires Paired(log)
    ensures Recoverable(Replayed(log), log) <==> Undoable(log)
  {
    hide UndoableAt, Replayed, Rewound;
    if Recoverable(Replayed(log), log) {
      forall i | 0 <= i < |log|
        ensures UndoableAt(log, i)
      {
        RecoverableFits(log, i);
      }
    }
    if Undoable(log) {
      forall k | 0 <= k <= |log|
        ensures Rewound(Replayed(log), log[k..]) == Replayed(log[..k])
      {
        RewindRecovers(log, k);
      }
    }
  }

  /** In every reachable state, under every interleaving: applying old values backwards from a
      tenant's rows recovers its rows after every prefix of its log exactly when every entry fits
      the tables its predecessors leave. */
  lemma RewindUnderInterleaving(sha: Sha, evs: seq<Event>, tenant: Uuid)
    ensures var db := Run(sha, evs).db;
            var log := SelectLog(db.log, tenant);
      Recoverable(TenantTables(db.rows, tenant), log) <==> Undoable(log)
  {
    hide Recoverable, Undoable, Run, Serial, History, TenantTables, Where, SelectLog, Replayed, LogGood, BothSides;
    var db := Run(sha, evs).db;
    ReplayUnderInterleaving(sha, evs, tenant);
    Serialisable(sha, evs);
    SerialPaired(sha, History(sha, evs));
    RecoverableExactly(SelectLog(db.log, tenant));
  }

  /** And that is exactly when every committed UPDATE or DELETE of the tenant was diffed against what
      its row showed when its statement ran. */
  lemma RewindExactlyFresh(sha: Sha, evs: seq<Event>, tenant: Uuid)
    ensures var db := Run(sha, evs).db;
      Recoverable(TenantTables(db.rows, tenant), SelectLog(db.log, tenant)) <==>
        FreshRun(sha, History(sha, evs), tenant)
  {
    hide Recoverable, Undoable, Run, Serial, History, TenantTables, Where, SelectLog, Replayed, LogGood, FreshRun;
    Serialisable(sha, evs);
    FreshExactly(sha, History(sha, evs), tenant);
    ReplayUnderInterleaving(sha, evs, tenant);
    RewindUnderInterleaving(sha, evs, tenant);
  }

  /** When the tenant's sessions do not overlap and diff against what they hold, it always works,
      whatever other tenants do. */
  lemma RewindWhenSerial(sha: Sha, evs: seq<Event>, tenant: Uuid)
    requires OneAtATime(sha, evs, tenant) && HonestDiffs(sha, evs, tenant)
    ensures var db := Run(sha, evs).db; Recoverable(TenantTables(db.rows, tenant), SelectLog(db.log, tenant))
  {
    hide Recoverable, Run, History, TenantTables, SelectLog, FreshRun, OneAtATime, HonestDiffs;
    SerialIsFresh(sha, evs, tenant);
    RewindExactlyFresh(sha, evs, tenant);
  }
}
