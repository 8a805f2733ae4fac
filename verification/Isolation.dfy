/** Tenant isolation over whole runs (`app/db/rls.py`, `app/db/session.py`).

    What a tenant can observe (its rows, its log, its head, and everything its sessions read
    or hold) is the same as in the run from which every other tenant's events are deleted.
    Primary keys are unique across tenants and uniqueness is not subject to RLS, so this needs
    inserted ids to be fresh across tenants, which uuid4 provides; SessionLeaks shows exactly
    what an id already taken elsewhere would reveal. */
module Isolation {
  import opened Wrappers
  import opened Chain
  import opened Database
  import opened Replay
  import opened Sessions

  // ---------- Unpinned sessions ----------

  lemma UnpinnedSeesNothing(rows: Rows)
    ensures Visible(rows, None) == map[]
  {}

  /** Without a pinned tenant a session reads no row and its commit changes nothing. */
  lemma UnpinnedIsInert(sha: Sha, evs: seq<Event>, sid: Sid)
    requires sid in Run(sha, evs).sessions && sid.pin.None?
    ensures CommitOn(Run(sha, evs).db, sid.pin, Pend(Run(sha, evs), sid)) == Run(sha, evs).db
    ensures Pend(Run(sha, evs), sid) == NOTHING
    ensures Visible(Overlay(Run(sha, evs).db.rows, Pend(Run(sha, evs), sid).writes), sid.pin) == map[]
  {
    RunInv(sha, evs);
    SessionFacts(sha, Run(sha, evs), sid);
    UnpinnedSeesNothing(Overlay(Run(sha, evs).db.rows, Pend(Run(sha, evs), sid).writes));
  }

  /** An audited change for an object of any other tenant raises: its head row is invisible. */
  lemma {:induction false} ForeignObjectFails(sha: Sha, db: Db, pin: Option<Uuid>, p: Pending, cs: seq<Change>, i: nat)
    requires (forall c :: c in cs ==> Loaded(c)) && i < |cs|
    requires Effective(cs[i]) && pin != Some(cs[i].obj.tenant)
    ensures AppendAll(sha, db, pin, p, cs) == None
  {
    var n := |cs| - 1;
    if i < n {
      ForeignObjectFails(sha, db, pin, p, cs[..n], i);
    }
  }

  // ---------- One tenant's view ----------

  predicate SameHead(db: Db, db': Db, t: Uuid) {
    (t in db.heads <==> t in db'.heads) && (t in db.heads ==> db.heads[t] == db'.heads[t])
  }

  predicate SameDb(db: Db, db': Db, t: Uuid) {
    && Visible(db.rows, Some(t)) == Visible(db'.rows, Some(t))
    && Where(db.log, t) == Where(db'.log, t)
    && SameHead(db, db', t)
  }

  function SessionsOf(s: System, t: Uuid): map<Sid, SessionState> {
    map sid | sid in s.sessions && sid.pin == Some(t) :: s.sessions[sid]
  }

  /** Everything tenant t can observe is the same in both states. */
  predicate SameView(s: System, s': System, t: Uuid) {
    SameDb(s.db, s'.db, t) && SessionsOf(s, t) == SessionsOf(s', t)
  }

  predicate Belongs(ev: Event, t: Uuid) {
    if ev.Provisioned? then ev.tenant == t else ev.sid.pin == Some(t)
  }

  /** The run without the events of other tenants and of unpinned sessions. */
  function Purge(evs: seq<Event>, t: Uuid): seq<Event> {
    if evs == [] then []
    else Purge(evs[..|evs| - 1], t) + if Belongs(evs[|evs| - 1], t) then [evs[|evs| - 1]] else []
  }

  // ---------- Events of others are invisible ----------

  lemma CommitElsewhere(sha: Sha, s: System, sid: Sid, t: Uuid)
    requires Inv(sha, s) && sid in s.sessions && sid.pin != Some(t)
    ensures SameDb(s.db, CommitOn(s.db, sid.pin, Pend(s, sid)), t)
  {
    var p := Pend(s, sid);
    if p.head.Some? {
      SessionFacts(sha, s, sid);
      var owner := sid.pin.value;
      VisibleOthers(s.db.rows, p.writes, owner, t);
      CommitAddsBlock(sha, s.db, owner, p, t);
      assert Where(s.db.log, t) + [] == Where(s.db.log, t);
    }
  }

  lemma OneSessionMoves(sha: Sha, s: System, ev: Event)
    requires !ev.Provisioned?
    ensures Step(sha, s, ev).sessions - {ev.sid} == s.sessions - {ev.sid}
    ensures !ev.Committed? ==> Step(sha, s, ev).db == s.db
  {}

  lemma OtherSessionsOnly(m: map<Sid, SessionState>, m': map<Sid, SessionState>, sid: Sid, t: Uuid, db: Db, db': Db)
    requires m' - {sid} == m - {sid} && sid.pin != Some(t)
    ensures SessionsOf(System(db', m'), t) == SessionsOf(System(db, m), t)
  {
    forall x: Sid | x != sid
      ensures x in m <==> x in m'
      ensures x in m ==> m[x] == m'[x]
    {
      Elsewhere(m, m', sid, x);
    }
  }

  lemma OthersInvisible(sha: Sha, s: System, ev: Event, t: Uuid)
    requires Inv(sha, s) && !Belongs(ev, t)
    ensures SameView(s, Step(sha, s, ev), t)
  {
    hide Repeats, Consistent;
    if !ev.Provisioned? {
      var s' := Step(sha, s, ev);
      OneSessionMoves(sha, s, ev);
      OtherSessionsOnly(s.sessions, s'.sessions, ev.sid, t, s.db, s'.db);
      if ev.Committed? && ev.sid in s.sessions {
        CommitElsewhere(sha, s, ev.sid, t);
      }
    }
  }

  // ---------- Fresh ids ----------

  type Home = Key -> Uuid

  /** Ids are fresh across tenants: `home` says whose each id is, and only its tenant inserts it. */
  predicate InsertsAtHome(home: Home, ev: Event) {
    ev.Flushed? && ev.sid.pin.Some? ==>
      forall c :: c in ev.unit.changes && c.Insert? ==> home(c.obj.key) == ev.sid.pin.value
  }

  predicate RowsAtHome(home: Home, rows: Rows) { forall k :: k in rows ==> home(k) == rows[k].tenant }

  predicate WritesAtHome(home: Home, pin: Option<Uuid>, writes: Writes) {
    forall k :: k in writes ==> pin == Some(home(k))
  }

  predicate AtHome(home: Home, s: System) {
    RowsAtHome(home, s.db.rows) && forall sid :: sid in s.sessions ==> WritesAtHome(home, sid.pin, Pend(s, sid).writes)
  }

  lemma FlushAtHome(sha: Sha, s: System, sid: Sid, f: UnitOfWork, q: Pending, home: Home)
    requires Inv(sha, s) && AtHome(home, s) && sid in s.sessions
    requires InsertsAtHome(home, Flushed(sid, f))
    requires FlushOn(sha, s.db, sid.pin, s.sessions[sid].now, Pend(s, sid), f) == Some(q)
    ensures WritesAtHome(home, sid.pin, q.writes)
  {
    var p := Pend(s, sid);
    if q.head.None? {
      QuietFlush(sha, s.db, sid.pin, s.sessions[sid].now, p, f, s.db);
    } else if sid.pin.Some? {
      var t := sid.pin.value;
      AppendsTakeHead(sha, s.db, t, p, f.changes);
      var r := AppendAll(sha, s.db, Some(t), p, f.changes).value;
      NewKeys(s.db.rows, t, s.sessions[sid].now, r.writes, f.order);
      forall k | k in q.writes
        ensures home(k) == t
      {
        if k !in p.writes {
          if c :| c in f.order && c.Insert? && c.obj.key == k {
            assert c in f.changes;
          }
        }
      }
    } else {
      NoPinNoFlush(sha, s.db, p, f);
      SessionFacts(sha, s, sid);
    }
  }

  lemma OverlayAtHome(home: Home, rows: Rows, writes: Writes, t: Uuid)
    requires RowsAtHome(home, rows) && WritesAtHome(home, Some(t), writes) && OwnWrites(rows, writes, t)
    ensures RowsAtHome(home, Overlay(rows, writes))
  {}

  lemma CommitAtHome(sha: Sha, s: System, sid: Sid, home: Home)
    requires Inv(sha, s) && AtHome(home, s) && sid in s.sessions
    ensures RowsAtHome(home, CommitOn(s.db, sid.pin, Pend(s, sid)).rows)
  {
    var p := Pend(s, sid);
    if p.head.Some? {
      SessionFacts(sha, s, sid);
      OverlayAtHome(home, s.db.rows, p.writes, sid.pin.value);
    }
  }

  lemma FlushedAtHome(sha: Sha, s: System, sid: Sid, f: UnitOfWork, home: Home)
    requires Inv(sha, s) && AtHome(home, s) && InsertsAtHome(home, Flushed(sid, f))
    ensures AtHome(home, Step(sha, s, Flushed(sid, f)))
  {
    hide Repeats, Consistent;
    if sid in s.sessions && !Blocked(s, sid, f) {
      var r := FlushOn(sha, s.db, sid.pin, s.sessions[sid].now, Pend(s, sid), f);
      if r.Some? { FlushAtHome(sha, s, sid, f, r.value, home); }
    }
  }

  lemma StepAtHome(sha: Sha, s: System, ev: Event, home: Home)
    requires Inv(sha, s) && AtHome(home, s) && InsertsAtHome(home, ev)
    ensures AtHome(home, Step(sha, s, ev))
  {
    hide Repeats, Consistent;
    match ev
    case Committed(sid) => if sid in s.sessions { CommitAtHome(sha, s, sid, home); }
    case Flushed(sid, f) => FlushedAtHome(sha, s, sid, f, home);
    case Provisioned(_) =>
    case _ => OneSessionMoves(sha, s, ev);
  }

  // ---------- The tenant's own events do the same ----------

  predicate Twin(sha: Sha, s: System, s': System, t: Uuid, home: Home) {
    Inv(sha, s) && Inv(sha, s') && AtHome(home, s) && AtHome(home, s') && SameView(s, s', t)
  }

  lemma SameSession(s: System, s': System, t: Uuid, sid: Sid)
    requires SameView(s, s', t) && sid.pin == Some(t)
    ensures sid in s.sessions <==> sid in s'.sessions
    ensures sid in s.sessions ==> s.sessions[sid] == s'.sessions[sid]
  {
    assert sid in SessionsOf(s, t) <==> sid in s.sessions;
    assert sid in SessionsOf(s', t) <==> sid in s'.sessions;
    assert sid in s.sessions ==> SessionsOf(s, t)[sid] == s.sessions[sid];
    assert sid in s'.sessions ==> SessionsOf(s', t)[sid] == s'.sessions[sid];
  }

  /** Only a session of the same tenant can make a statement wait. */
  lemma InsertsClashAtHome(s: System, other: Sid, sid: Sid, f: UnitOfWork, home: Home)
    requires AtHome(home, s) && other in s.sessions && Blocks(s, other, sid, f)
    requires sid.pin.Some? && InsertsAtHome(home, Flushed(sid, f))
    ensures other.pin == sid.pin
  {
    assert WritesAtHome(home, other.pin, Pend(s, other).writes);
  }

  lemma BlockedAlike(sha: Sha, s: System, s': System, t: Uuid, home: Home, sid: Sid, f: UnitOfWork)
    requires Twin(sha, s, s', t, home) && sid.pin == Some(t) && InsertsAtHome(home, Flushed(sid, f))
    requires Blocked(s, sid, f)
    ensures Blocked(s', sid, f)
  {
    var other :| other in s.sessions && Blocks(s, other, sid, f);
    InsertsClashAtHome(s, other, sid, f, home);
    SameSession(s, s', t, other);
    assert Blocks(s', other, sid, f);
  }

  lemma FlushAlike(sha: Sha, s: System, s': System, t: Uuid, home: Home, sid: Sid, f: UnitOfWork)
    requires Twin(sha, s, s', t, home) && sid.pin == Some(t) && InsertsAtHome(home, Flushed(sid, f))
    requires sid in s.sessions
    requires FlushOn(sha, s.db, sid.pin, s.sessions[sid].now, Pend(s, sid), f).Some?
    ensures FlushOn(sha, s'.db, sid.pin, s.sessions[sid].now, Pend(s, sid), f)
         == FlushOn(sha, s.db, sid.pin, s.sessions[sid].now, Pend(s, sid), f)
  {
    var q := FlushOn(sha, s.db, sid.pin, s.sessions[sid].now, Pend(s, sid), f).value;
    FlushAtHome(sha, s, sid, f, q, home);
    forall k | k in q.writes
      ensures k in s.db.rows <==> k in s'.db.rows
    {
      VisibleAt(s.db.rows, s'.db.rows, t, k);
    }
    FlushFrame(sha, s.db, s'.db, t, s.sessions[sid].now, Pend(s, sid), f);
  }

  lemma FlushOutcome(sha: Sha, s: System, s': System, t: Uuid, home: Home, sid: Sid, f: UnitOfWork)
    requires Twin(sha, s, s', t, home) && sid.pin == Some(t) && InsertsAtHome(home, Flushed(sid, f))
    requires sid in s.sessions
    ensures sid in s'.sessions && s.sessions[sid] == s'.sessions[sid]
    ensures Blocked(s, sid, f) <==> Blocked(s', sid, f)
    ensures FlushOn(sha, s'.db, sid.pin, s.sessions[sid].now, Pend(s, sid), f)
         == FlushOn(sha, s.db, sid.pin, s.sessions[sid].now, Pend(s, sid), f)
  {
    SameSession(s, s', t, sid);
    if Blocked(s, sid, f) { BlockedAlike(sha, s, s', t, home, sid, f); }
    if Blocked(s', sid, f) { BlockedAlike(sha, s', s, t, home, sid, f); }
    if FlushOn(sha, s.db, sid.pin, s.sessions[sid].now, Pend(s, sid), f).Some? {
      FlushAlike(sha, s, s', t, home, sid, f);
    } else if FlushOn(sha, s'.db, sid.pin, s.sessions[sid].now, Pend(s, sid), f).Some? {
      FlushAlike(sha, s', s, t, home, sid, f);
    }
  }

  lemma FlushedAlike(sha: Sha, s: System, s': System, t: Uuid, home: Home, sid: Sid, f: UnitOfWork)
    requires Twin(sha, s, s', t, home) && sid.pin == Some(t) && InsertsAtHome(home, Flushed(sid, f))
    ensures SameView(Step(sha, s, Flushed(sid, f)), Step(sha, s', Flushed(sid, f)), t)
  {
    hide Repeats, Consistent;
    SameSession(s, s', t, sid);
    if sid in s.sessions {
      FlushOutcome(sha, s, s', t, home, sid, f);
      OneSessionMoves(sha, s, Flushed(sid, f));
      OneSessionMoves(sha, s', Flushed(sid, f));
      SessionsAlike(s, s', t, Step(sha, s, Flushed(sid, f)), Step(sha, s', Flushed(sid, f)), sid);
    }
  }

  /** Both states changed one session of t, and alike. */
  lemma SessionsAlike(s: System, s': System, t: Uuid, u: System, u': System, sid: Sid)
    requires SameView(s, s', t)
    requires u.sessions - {sid} == s.sessions - {sid} && u'.sessions - {sid} == s'.sessions - {sid}
    requires sid in u.sessions <==> sid in u'.sessions
    requires sid in u.sessions ==> u.sessions[sid] == u'.sessions[sid]
    ensures SessionsOf(u, t) == SessionsOf(u', t)
  {
    forall x: Sid | x.pin == Some(t)
      ensures x in u.sessions <==> x in u'.sessions
      ensures x in u.sessions ==> u.sessions[x] == u'.sessions[x]
    {
      if x != sid {
        SameSession(s, s', t, x);
        Elsewhere(s.sessions, u.sessions, sid, x);
        Elsewhere(s'.sessions, u'.sessions, sid, x);
      }
    }
  }

  lemma Elsewhere(m: map<Sid, SessionState>, m': map<Sid, SessionState>, sid: Sid, x: Sid)
    requires m' - {sid} == m - {sid} && x != sid
    ensures x in m <==> x in m'
    ensures x in m ==> m[x] == m'[x]
  {
    assert x in m <==> x in m - {sid};
    assert x in m' <==> x in m' - {sid};
    assert x in m ==> (m - {sid})[x] == m[x];
    assert x in m' ==> (m' - {sid})[x] == m'[x];
  }

  lemma CommitDbAlike(sha: Sha, s: System, s': System, t: Uuid, sid: Sid)
    requires Inv(sha, s) && Inv(sha, s') && SameDb(s.db, s'.db, t) && sid.pin == Some(t)
    requires sid in s.sessions && sid in s'.sessions && s.sessions[sid] == s'.sessions[sid]
    ensures SameDb(CommitOn(s.db, sid.pin, Pend(s, sid)), CommitOn(s'.db, sid.pin, Pend(s, sid)), t)
  {
    var p := Pend(s, sid);
    if p.head.Some? {
      SawFrame(s.db.rows, s'.db.rows, t, p.writes);
      SessionFacts(sha, s, sid);
      SessionFacts(sha, s', sid);
      CommitAddsBlock(sha, s.db, t, p, t);
      CommitAddsBlock(sha, s'.db, t, p, t);
    }
  }

  lemma CommittedAlike(sha: Sha, s: System, s': System, t: Uuid, sid: Sid)
    requires Inv(sha, s) && Inv(sha, s') && SameView(s, s', t) && sid.pin == Some(t)
    ensures SameView(Step(sha, s, Committed(sid)), Step(sha, s', Committed(sid)), t)
  {
    hide Repeats, Consistent;
    SameSession(s, s', t, sid);
    if sid in s.sessions {
      CommitDbAlike(sha, s, s', t, sid);
      var u := System(CommitOn(s.db, sid.pin, Pend(s, sid)), s.sessions - {sid});
      var u' := System(CommitOn(s'.db, sid.pin, Pend(s', sid)), s'.sessions - {sid});
      SessionsAlike(s, s', t, u, u', sid);
    }
  }

  lemma GotAlike(sha: Sha, s: System, s': System, t: Uuid, ev: Event)
    requires SameView(s, s', t) && (ev.Got? || ev.Queried?) && ev.sid.pin == Some(t) && ev.sid in s.sessions
    ensures SameView(Step(sha, s, ev), Step(sha, s', ev), t)
  {
    hide Repeats, Consistent;
    SameSession(s, s', t, ev.sid);
    if ev.Got? {
      VisibleAt(s.db.rows, s'.db.rows, t, ev.key);
    } else {
      SawFrame(s.db.rows, s'.db.rows, t, Pend(s, ev.sid).writes);
    }
    OneSessionMoves(sha, s, ev);
    OneSessionMoves(sha, s', ev);
    SessionsAlike(s, s', t, Step(sha, s, ev), Step(sha, s', ev), ev.sid);
  }

  lemma ReadsAlike(sha: Sha, s: System, s': System, t: Uuid, ev: Event)
    requires SameView(s, s', t) && (ev.Begun? || ev.Got? || ev.Queried? || ev.RolledBack?) && ev.sid.pin == Some(t)
    ensures SameView(Step(sha, s, ev), Step(sha, s', ev), t)
  {
    SameSession(s, s', t, ev.sid);
    if (ev.Got? || ev.Queried?) && ev.sid in s.sessions {
      GotAlike(sha, s, s', t, ev);
    } else {
      OneSessionMoves(sha, s, ev);
      OneSessionMoves(sha, s', ev);
      SessionsAlike(s, s', t, Step(sha, s, ev), Step(sha, s', ev), ev.sid);
    }
  }

  lemma OwnAlike(sha: Sha, s: System, s': System, t: Uuid, home: Home, ev: Event)
    requires Twin(sha, s, s', t, home) && Belongs(ev, t) && InsertsAtHome(home, ev)
    ensures SameView(Step(sha, s, ev), Step(sha, s', ev), t)
  {
    match ev
    case Provisioned(_) =>
      assert SessionsOf(Step(sha, s, ev), t) == SessionsOf(s, t);
      assert SessionsOf(Step(sha, s', ev), t) == SessionsOf(s', t);
    case Committed(sid) => CommittedAlike(sha, s, s', t, sid);
    case Flushed(sid, f) => FlushedAlike(sha, s, s', t, home, sid, f);
    case _ => ReadsAlike(sha, s, s', t, ev);
  }

  lemma {:induction false} RunTwin(sha: Sha, evs: seq<Event>, t: Uuid, home: Home)
    requires forall ev :: ev in evs ==> InsertsAtHome(home, ev)
    ensures Twin(sha, Run(sha, evs), Run(sha, Purge(evs, t)), t, home)
  {
    hide Repeats, Consistent;
    RunInv(sha, evs);
    RunInv(sha, Purge(evs, t));
    if evs != [] {
      var n := |evs| - 1;
      assert evs[n] in evs;
      var s, s' := Run(sha, evs[..n]), Run(sha, Purge(evs[..n], t));
      RunTwin(sha, evs[..n], t, home);
      StepAtHome(sha, s, evs[n], home);
      if Belongs(evs[n], t) {
        StepAtHome(sha, s', evs[n], home);
        OwnAlike(sha, s, s', t, home, evs[n]);
        assert Purge(evs, t)[..|Purge(evs, t)| - 1] == Purge(evs[..n], t);
      } else {
        OthersInvisible(sha, s, evs[n], t);
        assert Purge(evs, t) == Purge(evs[..n], t);
      }
    }
  }

  /** Noninterference: deleting every other tenant's events from a run changes nothing that
      tenant t's rows, log and head contain or that t's sessions read and hold. */
  lemma Noninterference(sha: Sha, evs: seq<Event>, t: Uuid, home: Home)
    requires forall ev :: ev in evs ==> InsertsAtHome(home, ev)
    ensures SameView(Run(sha, evs), Run(sha, Purge(evs, t)), t)
  {
    RunTwin(sha, evs, t, home);
  }

  // ---------- What an id taken elsewhere reveals ----------

  /** The database as tenant t alone would have it. */
  function Restricted(db: Db, t: Uuid): Db { db.(rows := Visible(db.rows, Some(t))) }

  /** The change inserts an id another tenant holds. */
  predicate Taken(rows: Rows, t: Uuid, c: Change) {
    c.Insert? && c.obj.key in rows && rows[c.obj.key].tenant != t
  }

  predicate AnyTaken(rows: Rows, t: Uuid, cs: seq<Change>) { exists c :: c in cs && Taken(rows, t, c) }

  predicate Clashes(rows: Rows, t: Uuid, ops: seq<Op>) {
    exists i :: 0 <= i < |ops| && ops[i].Wrote? && AnyTaken(rows, t, ops[i].unit.changes)
  }

  lemma StatementLeaks(rows: Rows, t: Uuid, now: int, writes: Writes, c: Change)
    requires Loaded(c) && OwnWrites(rows, writes, t)
    ensures WriteChange(rows, Some(t), now, writes, c)
         == if Taken(rows, t, c) then None else WriteChange(Visible(rows, Some(t)), Some(t), now, writes, c)
  {
    hide Effective, Assigned, CoerceAll;
  }

  lemma {:induction false} StatementsLeak(rows: Rows, t: Uuid, now: int, writes: Writes, cs: seq<Change>)
    requires (forall c :: c in cs ==> Loaded(c)) && OwnWrites(rows, writes, t)
    ensures WriteAll(rows, Some(t), now, writes, cs)
         == if AnyTaken(rows, t, cs) then None else WriteAll(Visible(rows, Some(t)), Some(t), now, writes, cs)
    ensures WriteAll(rows, Some(t), now, writes, cs).Some? ==>
              OwnWrites(rows, WriteAll(rows, Some(t), now, writes, cs).value, t)
  {
    hide Taken, WriteChange, OwnWrites, Visible;
    if cs != [] {
      var n := |cs| - 1;
      assert cs == cs[..n] + [cs[n]];
      StatementsLeak(rows, t, now, writes, cs[..n]);
      if WriteAll(rows, Some(t), now, writes, cs[..n]).Some? {
        var w := WriteAll(rows, Some(t), now, writes, cs[..n]).value;
        StatementLeaks(rows, t, now, w, cs[n]);
        if WriteChange(rows, Some(t), now, w, cs[n]).Some? { StatementOwn(rows, now, w, cs[n], t); }
      }
    }
  }

  lemma FlushLeaks(sha: Sha, db: Db, t: Uuid, now: int, p: Pending, f: UnitOfWork)
    requires OwnWrites(db.rows, p.writes, t)
    ensures FlushOn(sha, db, Some(t), now, p, f)
         == if AnyTaken(db.rows, t, f.changes) then None else FlushOn(sha, Restricted(db, t), Some(t), now, p, f)
    ensures FlushOn(sha, db, Some(t), now, p, f).Some? ==>
              OwnWrites(db.rows, FlushOn(sha, db, Some(t), now, p, f).value.writes, t)
  {
    hide AppendAll, WriteAll, Taken, OwnWrites, Visible;
    AppendFrame(sha, db, Restricted(db, t), t, p, f.changes);
    if AppendAll(sha, db, Some(t), p, f.changes).Some? {
      AppendsTakeHead(sha, db, t, p, f.changes);
      StatementsLeak(db.rows, t, now, p.writes, f.order);
      assert AnyTaken(db.rows, t, f.order) <==> AnyTaken(db.rows, t, f.changes);
    }
  }

  lemma ClashesNext(rows: Rows, t: Uuid, ops: seq<Op>)
    requires ops != []
    ensures var n := |ops| - 1;
      Clashes(rows, t, ops) <==> Clashes(rows, t, ops[..n]) || (ops[n].Wrote? && AnyTaken(rows, t, ops[n].unit.changes))
  {
    hide AnyTaken;
    var n := |ops| - 1;
    assert forall i :: 0 <= i < n ==> ops[..n][i] == ops[i];
  }

  /** A whole session reveals of the other tenants exactly this: it raises if it inserts an id one
      of them holds. Otherwise everything it does, reads and logs comes out as it would on a
      database holding its own tenant's rows alone. */
  lemma {:induction false} SessionLeaks(sha: Sha, db: Db, t: Uuid, now: int, ops: seq<Op>)
    ensures RunOps(sha, db, Some(t), now, ops)
         == if Clashes(db.rows, t, ops) then None else RunOps(sha, Restricted(db, t), Some(t), now, ops)
    ensures RunOps(sha, db, Some(t), now, ops).Some? ==>
              OwnWrites(db.rows, RunOps(sha, db, Some(t), now, ops).value.writes, t)
  {
    hide FlushOn, AnyTaken, OwnWrites, Clashes, Visible, Overlay;
    if ops == [] {
      NothingTaken(db.rows, t);
    } else {
      var n := |ops| - 1;
      ClashesNext(db.rows, t, ops);
      SessionLeaks(sha, db, t, now, ops[..n]);
      if RunOps(sha, db, Some(t), now, ops[..n]).Some? {
        var p := RunOps(sha, db, Some(t), now, ops[..n]).value;
        match ops[n]
        case Wrote(f) => FlushLeaks(sha, db, t, now, p, f);
        case Saw(_) =>
          VisibleTwice(db.rows, t);
          SawFrame(db.rows, Visible(db.rows, Some(t)), t, p.writes);
      }
    }
  }

  lemma NothingTaken(rows: Rows, t: Uuid)
    ensures !Clashes(rows, t, []) && OwnWrites(rows, map[], t)
  {}

  lemma VisibleTwice(rows: Rows, t: Uuid)
    ensures Visible(Visible(rows, Some(t)), Some(t)) == Visible(rows, Some(t))
  {}
}
