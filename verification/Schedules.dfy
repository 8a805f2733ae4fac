/** Runs in which the sessions of one tenant do not overlap. Whatever other tenants do, there every
    session of that tenant holds in its identity map what the rows hold, so a change diffed against
    it is diffed against the row as it is. */
module Schedules {
  import opened Wrappers
  import opened Chain
  import opened Database
  import opened Replay
  import opened Sessions
  import opened Isolation
  import opened Rewind

  /** No session of the tenant begins, and it is not provisioned, while another of its sessions is
      open. */
  ghost predicate OneAtATime(sha: Sha, evs: seq<Event>, tenant: Uuid) {
    forall n :: 0 <= n < |evs| && Belongs(evs[n], tenant) && Starts(Run(sha, evs[..n]), evs[n]) ==>
      SessionsOf(Run(sha, evs[..n]), tenant) == map[]
  }

  predicate Starts(s: System, ev: Event) { ev.Provisioned? || (ev.Begun? && ev.sid !in s.sessions) }

  /** An UPDATE is diffed against what the identity map holds, and what a DELETE removes is what it holds. */
  predicate DiffsHeld(se: SessionState, f: UnitOfWork) {
    forall c :: c in f.changes && !c.Insert? ==>
      c.obj.key in se.loaded && se.loaded[c.obj.key] == Written(if c.Update? then c.loaded else c.obj.vals)
  }

  /** The tenant's sessions do so. */
  ghost predicate HonestDiffs(sha: Sha, evs: seq<Event>, tenant: Uuid) {
    forall n :: 0 <= n < |evs| && Flushing(Run(sha, evs[..n]), evs[n], tenant) ==>
      DiffsHeld(Run(sha, evs[..n]).sessions[evs[n].sid], evs[n].unit)
  }

  predicate Flushing(s: System, ev: Event, tenant: Uuid) {
    ev.Flushed? && ev.sid.pin == Some(tenant) && ev.sid in s.sessions
  }

  // ---------- What a session holds is what the rows hold ----------

  predicate HoldsCurrent(db: Db, sid: Sid, se: SessionState) {
    forall key :: key in se.loaded ==>
      var r := Current(db.rows, se.pend.writes, key);
      r.Some? && Sees(sid.pin, r.value.tenant) && r.value.cols == se.loaded[key]
  }

  /** Each of its flushes was diffed against what the rows showed. */
  predicate FreshSoFar(sha: Sha, db: Db, tenant: Uuid, se: SessionState) {
    FreshOps(sha, db, tenant, se.now, se.ops)
  }

  predicate Undisturbed(sha: Sha, s: System, tenant: Uuid) {
    && (forall a, b :: a in s.sessions && b in s.sessions && a.pin == b.pin == Some(tenant) ==> a == b)
    && (forall sid :: sid in s.sessions && sid.pin == Some(tenant) ==>
          HoldsCurrent(s.db, sid, s.sessions[sid]) && FreshSoFar(sha, s.db, tenant, s.sessions[sid]))
  }

  lemma FlushHolds(sha: Sha, db: Db, sid: Sid, se: SessionState, f: UnitOfWork, q: Pending)
    requires HoldsCurrent(db, sid, se) && FlushOn(sha, db, sid.pin, se.now, se.pend, f) == Some(q)
    ensures HoldsCurrent(db, sid, se.(loaded := Forget(se.loaded, f.changes), ops := se.ops + [Wrote(f)], pend := q))
  {
    hide AppendAll, WriteAll, Current;
    forall key | key in Forget(se.loaded, f.changes)
      ensures Current(db.rows, q.writes, key) == Current(db.rows, se.pend.writes, key)
    {
      assert forall c :: c in f.order ==> c in f.changes;
      AppendsTakeHead(sha, db, sid.pin.value, se.pend, f.changes);
      Untouched(db.rows, sid.pin.value, se.now, se.pend.writes, f.order, key);
    }
  }

  /** A diff against what the session holds is a diff against what the row shows. */
  lemma HeldIsFresh(db: Db, sid: Sid, tenant: Uuid, se: SessionState, f: UnitOfWork, c: Change)
    requires HoldsCurrent(db, sid, se) && DiffsHeld(se, f) && c in f.changes && sid.pin == Some(tenant)
    ensures Fresh(db.rows, se.pend.writes, tenant, c)
  {
    hide Current, Assigned, Effective, Shown, Written, ShowsLoaded;
    match c
    case Insert(_) =>
    case Update(_, loaded) =>
      ShownWritten(loaded);
      ShowsItself(c);
    case Delete(o) => ShownWritten(o.vals);
  }

  lemma ShowsItself(c: Change)
    requires c.Update? && Loaded(c)
    ensures ShowsLoaded(Shown(c.loaded), c)
  {}

  lemma FlushStaysFresh(sha: Sha, db: Db, sid: Sid, tenant: Uuid, se: SessionState, f: UnitOfWork)
    requires HoldsCurrent(db, sid, se) && FreshSoFar(sha, db, tenant, se) && DiffsHeld(se, f)
    requires sid.pin == Some(tenant) && Repeats(sha, db, sid, se)
    ensures FreshOps(sha, db, tenant, se.now, se.ops + [Wrote(f)])
  {
    hide RunOps, Fresh, HoldsCurrent, DiffsHeld;
    forall c | c in f.changes
      ensures Fresh(db.rows, se.pend.writes, tenant, c)
    {
      HeldIsFresh(db, sid, tenant, se, f, c);
    }
    assert (se.ops + [Wrote(f)])[..|se.ops|] == se.ops;
  }

  lemma SawStaysFresh(sha: Sha, db: Db, tenant: Uuid, now: int, ops: seq<Op>, rows: Rows)
    requires FreshOps(sha, db, tenant, now, ops)
    ensures FreshOps(sha, db, tenant, now, ops + [Saw(rows)])
  {
    hide RunOps, FreshFlush;
    assert (ops + [Saw(rows)])[..|ops|] == ops;
  }

  // ---------- The tenant's own events ----------

  lemma OnlySession(s: System, s': System, sid: Sid, tenant: Uuid)
    requires s'.sessions - {sid} == s.sessions - {sid} && sid.pin == Some(tenant)
    requires forall a, b :: a in s.sessions && b in s.sessions && a.pin == b.pin == Some(tenant) ==> a == b
    requires sid in s.sessions || SessionsOf(s, tenant) == map[]
    ensures forall a :: a in s'.sessions && a.pin == Some(tenant) ==> a == sid
  {
    assert forall a :: a in s'.sessions && a != sid ==> a in s'.sessions - {sid};
    assert forall a :: a in s.sessions && a.pin == Some(tenant) ==> a in SessionsOf(s, tenant);
  }

  lemma FlushUndisturbed(sha: Sha, s: System, sid: Sid, f: UnitOfWork, tenant: Uuid)
    requires Inv(sha, s) && Undisturbed(sha, s, tenant) && sid.pin == Some(tenant)
    requires sid in s.sessions ==> DiffsHeld(s.sessions[sid], f)
    ensures Undisturbed(sha, Step(sha, s, Flushed(sid, f)), tenant)
  {
    hide FlushOn, HoldsCurrent, FreshSoFar, Blocked, Repeats, Consistent, Exclusive, DiffsHeld;
    var s' := Step(sha, s, Flushed(sid, f));
    if s' != s {
      var se := s.sessions[sid];
      assert Repeats(sha, s.db, sid, s.sessions[sid]);
      assert HoldsCurrent(s.db, sid, se) && FreshSoFar(sha, s.db, tenant, se);
      OnlySession(s, s', sid, tenant);
      if sid in s'.sessions {
        FlushHolds(sha, s.db, sid, se, f, s'.sessions[sid].pend);
        FlushStaysFresh(sha, s.db, sid, tenant, se, f);
        FreshIs(sha, s.db, tenant, s'.sessions[sid]);
      }
    }
  }

  lemma FreshIs(sha: Sha, db: Db, tenant: Uuid, se: SessionState)
    ensures FreshSoFar(sha, db, tenant, se) <==> FreshOps(sha, db, tenant, se.now, se.ops)
  {}

  lemma GotHolds(sha: Sha, s: System, sid: Sid, key: Key, tenant: Uuid)
    requires sid in s.sessions && HoldsCurrent(s.db, sid, s.sessions[sid])
    requires FreshSoFar(sha, s.db, tenant, s.sessions[sid])
    ensures var s' := Step(sha, s, Got(sid, key));
      && sid in s'.sessions && HoldsCurrent(s'.db, sid, s'.sessions[sid])
      && FreshSoFar(sha, s'.db, tenant, s'.sessions[sid])
  {
    hide FreshOps;
  }

  lemma QueryHolds(sha: Sha, s: System, sid: Sid, tenant: Uuid)
    requires sid in s.sessions && HoldsCurrent(s.db, sid, s.sessions[sid])
    requires FreshSoFar(sha, s.db, tenant, s.sessions[sid])
    ensures var s' := Step(sha, s, Queried(sid));
      && sid in s'.sessions && HoldsCurrent(s'.db, sid, s'.sessions[sid])
      && FreshSoFar(sha, s'.db, tenant, s'.sessions[sid])
  {
    hide FreshOps, Visible;
    var se := s.sessions[sid];
    SawStaysFresh(sha, s.db, tenant, se.now, se.ops, Visible(Overlay(s.db.rows, se.pend.writes), sid.pin));
  }

  lemma BeginHolds(sha: Sha, db: Db, sid: Sid, now: int, tenant: Uuid)
    ensures HoldsCurrent(db, sid, SessionState(now, map[], [], [], NOTHING))
    ensures FreshSoFar(sha, db, tenant, SessionState(now, map[], [], [], NOTHING))
  {}

  lemma NoneOpen(s: System, tenant: Uuid)
    requires SessionsOf(s, tenant) == map[]
    ensures forall a :: a in s.sessions ==> a.pin != Some(tenant)
  {
    assert forall a :: a in s.sessions && a.pin == Some(tenant) ==> a in SessionsOf(s, tenant);
  }

  lemma BeginUndisturbed(sha: Sha, s: System, sid: Sid, now: int, tenant: Uuid)
    requires Undisturbed(sha, s, tenant) && sid.pin == Some(tenant)
    requires sid !in s.sessions ==> SessionsOf(s, tenant) == map[]
    ensures Undisturbed(sha, Step(sha, s, Begun(sid, now)), tenant)
  {
    hide HoldsCurrent, FreshSoFar, SessionsOf;
    BeginHolds(sha, s.db, sid, now, tenant);
    if sid !in s.sessions { NoneOpen(s, tenant); }
  }

  lemma ReadUndisturbed(sha: Sha, s: System, ev: Event, tenant: Uuid)
    requires Undisturbed(sha, s, tenant) && (ev.Got? || ev.Queried?) && ev.sid.pin == Some(tenant)
    ensures Undisturbed(sha, Step(sha, s, ev), tenant)
  {
    hide HoldsCurrent, FreshSoFar, SessionsOf;
    if ev.sid in s.sessions {
      if ev.Got? { GotHolds(sha, s, ev.sid, ev.key, tenant); } else { QueryHolds(sha, s, ev.sid, tenant); }
      OneSessionMoves(sha, s, ev);
      OnlySession(s, Step(sha, s, ev), ev.sid, tenant);
    }
  }

  lemma OwnUndisturbed(sha: Sha, s: System, ev: Event, tenant: Uuid)
    requires Inv(sha, s) && Undisturbed(sha, s, tenant) && Belongs(ev, tenant)
    requires Starts(s, ev) ==> SessionsOf(s, tenant) == map[]
    requires Flushing(s, ev, tenant) ==> DiffsHeld(s.sessions[ev.sid], ev.unit)
    ensures Undisturbed(sha, Step(sha, s, ev), tenant)
  {
    hide HoldsCurrent, FreshSoFar, Consistent, Exclusive, FlushOn, Blocked, DiffsHeld, SessionsOf;
    var s' := Step(sha, s, ev);
    match ev
    case Flushed(sid, f) => FlushUndisturbed(sha, s, sid, f, tenant);
    case Begun(sid, now) => BeginUndisturbed(sha, s, sid, now, tenant);
    case Got(_, _) => ReadUndisturbed(sha, s, ev, tenant);
    case Queried(_) => ReadUndisturbed(sha, s, ev, tenant);
    case Committed(sid) => if s' != s { OnlySession(s, s', sid, tenant); }
    case RolledBack(sid) => if sid in s.sessions { OnlySession(s, s', sid, tenant); }
    case Provisioned(_) => NoneOpen(s, tenant);
  }

  // ---------- Events of other tenants ----------

  /** What a row shows a tenant depends on the tenant's own rows only. */
  lemma SeenFrame(rows: Rows, rows': Rows, writes: Writes, t: Uuid, k: Key)
    requires Visible(rows, Some(t)) == Visible(rows', Some(t))
    ensures SeenRow(rows, writes, t, k) == SeenRow(rows', writes, t, k)
  {
    hide Shown, Visible;
    VisibleAt(rows, rows', t, k);
  }

  lemma FreshFlushFrame(rows: Rows, rows': Rows, writes: Writes, t: Uuid, f: UnitOfWork)
    requires Visible(rows, Some(t)) == Visible(rows', Some(t)) && FreshFlush(rows, writes, t, f)
    ensures FreshFlush(rows', writes, t, f)
  {
    hide Visible, SeenRow, ShowsLoaded, Effective, Shown;
    forall c | c in f.changes
      ensures Fresh(rows', writes, t, c)
    {
      SeenFrame(rows, rows', writes, t, c.obj.key);
      assert Fresh(rows, writes, t, c);
    }
  }

  lemma {:induction false} FreshFrame(sha: Sha, db: Db, db': Db, t: Uuid, now: int, ops: seq<Op>, keys: set<Key>)
    requires RunOps(sha, db, Some(t), now, ops).Some? && FreshOps(sha, db, t, now, ops)
    requires RunOps(sha, db, Some(t), now, ops).value.writes.Keys <= keys && Agree(db, db', t, keys)
    ensures FreshOps(sha, db', t, now, ops)
  {
    hide FlushOn, FreshFlush, Visible;
    if ops != [] {
      var n := |ops| - 1;
      var p := RunOps(sha, db, Some(t), now, ops[..n]).value;
      if ops[n].Wrote? { FlushFrame(sha, db, db, t, now, p, ops[n].unit); }
      FreshFrame(sha, db, db', t, now, ops[..n], keys);
      OpsFrame(sha, db, db', t, now, ops[..n], keys);
      if ops[n].Wrote? { FreshFlushFrame(db.rows, db'.rows, p.writes, t, ops[n].unit); }
    }
  }

  /** What a session wrote is its tenant's, in the table before another tenant's event and after. */
  lemma OwnKeysAgree(sha: Sha, s: System, s': System, sid: Sid, tenant: Uuid)
    requires Inv(sha, s) && Inv(sha, s') && SameView(s, s', tenant) && sid in s.sessions && sid.pin == Some(tenant)
    ensures sid in s'.sessions && s'.sessions[sid] == s.sessions[sid]
    ensures Agree(s.db, s'.db, tenant, Pend(s, sid).writes.Keys)
  {
    hide Repeats, Consistent, LogGood, Visible, SessionsOf, Replayed, TenantTables;
    SameSession(s, s', tenant, sid);
    SessionFacts(sha, s, sid);
    SessionFacts(sha, s', sid);
    forall k | k in Pend(s, sid).writes
      ensures k in s.db.rows <==> k in s'.db.rows
    {
      VisibleAt(s.db.rows, s'.db.rows, tenant, k);
    }
  }

  lemma HoldsFrame(db: Db, db': Db, sid: Sid, se: SessionState, tenant: Uuid)
    requires HoldsCurrent(db, sid, se) && sid.pin == Some(tenant)
    requires Visible(db.rows, Some(tenant)) == Visible(db'.rows, Some(tenant))
    ensures HoldsCurrent(db', sid, se)
  {
    hide Visible;
    forall key | key in se.loaded
      ensures Current(db'.rows, se.pend.writes, key) == Current(db.rows, se.pend.writes, key)
    {
      VisibleAt(db.rows, db'.rows, tenant, key);
    }
  }

  lemma SessionStaysFresh(sha: Sha, s: System, s': System, sid: Sid, tenant: Uuid)
    requires Inv(sha, s) && Inv(sha, s') && SameView(s, s', tenant) && sid in s.sessions && sid.pin == Some(tenant)
    requires HoldsCurrent(s.db, sid, s.sessions[sid]) && FreshSoFar(sha, s.db, tenant, s.sessions[sid])
    ensures sid in s'.sessions && s'.sessions[sid] == s.sessions[sid]
    ensures HoldsCurrent(s'.db, sid, s'.sessions[sid]) && FreshSoFar(sha, s'.db, tenant, s'.sessions[sid])
  {
    hide Consistent, Exclusive, Visible, HoldsCurrent, FreshOps, RunOps, SessionsOf;
    var se := s.sessions[sid];
    OwnKeysAgree(sha, s, s', sid, tenant);
    assert Repeats(sha, s.db, sid, s.sessions[sid]);
    HoldsFrame(s.db, s'.db, sid, se, tenant);
    FreshFrame(sha, s.db, s'.db, tenant, se.now, se.ops, se.pend.writes.Keys);
  }

  lemma OthersUndisturbed(sha: Sha, s: System, ev: Event, tenant: Uuid)
    requires Inv(sha, s) && Undisturbed(sha, s, tenant) && !Belongs(ev, tenant)
    ensures Undisturbed(sha, Step(sha, s, ev), tenant)
  {
    hide Inv, HoldsCurrent, FreshSoFar, Step, SameDb, SessionsOf, Belongs;
    var s' := Step(sha, s, ev);
    OthersInvisible(sha, s, ev, tenant);
    StepKeepsInv(sha, s, ev);
    forall sid: Sid | sid.pin == Some(tenant)
      ensures sid in s'.sessions <==> sid in s.sessions
      ensures sid in s'.sessions ==>
                HoldsCurrent(s'.db, sid, s'.sessions[sid]) && FreshSoFar(sha, s'.db, tenant, s'.sessions[sid])
    {
      SameSession(s, s', tenant, sid);
      if sid in s.sessions { SessionStaysFresh(sha, s, s', sid, tenant); }
    }
  }

  // ---------- Runs ----------

  lemma SchedulePrefix(sha: Sha, evs: seq<Event>, n: nat, tenant: Uuid)
    requires n <= |evs| && OneAtATime(sha, evs, tenant) && HonestDiffs(sha, evs, tenant)
    ensures OneAtATime(sha, evs[..n], tenant) && HonestDiffs(sha, evs[..n], tenant)
  {
    hide DiffsHeld, Starts, Run, SessionsOf, Belongs, Flushing;
    forall m | 0 <= m < n
      ensures evs[..n][..m] == evs[..m] && evs[..n][m] == evs[m]
    {}
  }

  lemma {:induction false} RunUndisturbed(sha: Sha, evs: seq<Event>, tenant: Uuid)
    requires OneAtATime(sha, evs, tenant) && HonestDiffs(sha, evs, tenant)
    ensures Undisturbed(sha, Run(sha, evs), tenant)
  {
    hide HoldsCurrent, FreshSoFar, Step, Starts, DiffsHeld, Inv, SessionsOf, Belongs, Flushing;
    if evs != [] {
      var n := |evs| - 1;
      SchedulePrefix(sha, evs, n, tenant);
      RunUndisturbed(sha, evs[..n], tenant);
      RunInv(sha, evs[..n]);
      if Belongs(evs[n], tenant) {
        OwnUndisturbed(sha, Run(sha, evs[..n]), evs[n], tenant);
      } else {
        OthersUndisturbed(sha, Run(sha, evs[..n]), evs[n], tenant);
      }
    }
  }

  lemma FreshAppend(sha: Sha, ts: seq<Txn>, t: Txn, tenant: Uuid)
    requires FreshRun(sha, ts, tenant) && FreshTxn(sha, Serial(sha, EMPTY, ts), t, tenant)
    ensures FreshRun(sha, ts + [t], tenant)
  {
    hide FreshTxn, FreshRun, Serial;
    assert (ts + [t])[..|ts|] == ts;
    FreshRunNext(sha, ts + [t], tenant);
  }

  /** When a tenant's sessions do not overlap and diff against what they hold, every committed change
      of the tenant was diffed against what its row showed. */
  lemma {:induction false} SerialIsFresh(sha: Sha, evs: seq<Event>, tenant: Uuid)
    requires OneAtATime(sha, evs, tenant) && HonestDiffs(sha, evs, tenant)
    ensures FreshRun(sha, History(sha, evs), tenant)
  {
    hide FreshOps, OneAtATime, HonestDiffs, Run, Serial, HoldsCurrent, RunOps, FreshSoFar, FreshRun;
    if evs == [] {
      NothingFresh(sha, tenant);
    } else {
      var n := |evs| - 1;
      SchedulePrefix(sha, evs, n, tenant);
      SerialIsFresh(sha, evs[..n], tenant);
      Serialisable(sha, evs[..n]);
      RunUndisturbed(sha, evs[..n], tenant);
      var s, ts := Run(sha, evs[..n]), History(sha, evs[..n]);
      if Completes(s, evs[n]) == [] {
        assert ts + [] == ts;
      } else {
        var t := Completes(s, evs[n])[0];
        if t.Session? && t.pin == Some(tenant) { FreshIs(sha, s.db, tenant, s.sessions[evs[n].sid]); }
        FreshAppend(sha, ts, t, tenant);
      }
    }
  }

  lemma NothingFresh(sha: Sha, tenant: Uuid)
    ensures FreshRun(sha, [], tenant)
  {}
}
