/** Any number of sessions of any number of tenants, interleaved statement by statement.

    Assumed of PostgreSQL: READ COMMITTED reads; a head row read FOR UPDATE is the latest
    committed one and stays locked until its session ends; an INSERT waits for another
    session's uncommitted row of the same key; commit is atomic and rollback leaves nothing.
    Nothing else is assumed: sessions may flush any changes, diffed against reads however old.
    A statement that has to wait is an event that does nothing yet. */
module Sessions {
  import opened Wrappers
  import opened Chain
  import opened Database
  import opened Replay

  /** A session handle: tenant_session opens a fresh session pinned before any query; a bare
      SessionLocal() has no pin. */
  datatype Sid = Sid(pin: Option<Uuid>, serial: nat)

  /** `loaded` is what the identity map holds unchanged, `results` every query result so far, `ops` what the session
      did since it took the head row and the flushes before. */
  datatype SessionState = SessionState(now: int, loaded: map<Key, Columns>, results: seq<Rows>, ops: seq<Op>,
                                       pend: Pending)

  datatype System = System(db: Db, sessions: map<Sid, SessionState>)

  datatype Event =
    | Provisioned(tenant: Uuid)
    | Begun(sid: Sid, now: int)
    | Got(sid: Sid, key: Key)
    | Queried(sid: Sid)
    | Flushed(sid: Sid, unit: UnitOfWork)
    | Committed(sid: Sid)
    | RolledBack(sid: Sid)

  function Pend(s: System, sid: Sid): Pending
    requires sid in s.sessions
  {
    s.sessions[sid].pend
  }

  predicate Touches(f: UnitOfWork) { exists c :: c in f.changes && Effective(c) }

  /** The statement has to wait for another session: for the head row it holds, or for the
      outcome of its uncommitted row with the same key. */
  predicate Blocks(s: System, other: Sid, sid: Sid, f: UnitOfWork)
    requires other in s.sessions
  {
    && other != sid
    && ((Touches(f) && other.pin == sid.pin && Pend(s, other).head.Some?)
        || exists c :: c in f.changes && c.Insert? && c.obj.key in Pend(s, other).writes)
  }

  predicate Blocked(s: System, sid: Sid, f: UnitOfWork) {
    exists other :: other in s.sessions && Blocks(s, other, sid, f)
  }

  /** What a flush changed is read again (`db.refresh`) before it is changed again. */
  function Forget(loaded: map<Key, Columns>, cs: seq<Change>): map<Key, Columns> {
    loaded - set c | c in cs :: c.obj.key
  }

  function Step(sha: Sha, s: System, ev: Event): System {
    match ev
    case Provisioned(tenant) => s.(db := ProvisionOn(sha, s.db, tenant))
    case Begun(sid, now) =>
      if sid in s.sessions then s
      else s.(sessions := s.sessions[sid := SessionState(now, map[], [], [], NOTHING)])
    case Got(sid, key) =>
      if sid !in s.sessions then s
      else
        var r := Current(s.db.rows, Pend(s, sid).writes, key);
        if r.None? || !Sees(sid.pin, r.value.tenant) then s
        else
          var se := s.sessions[sid];
          s.(sessions := s.sessions[sid := se.(loaded := se.loaded[key := r.value.cols])])
    case Queried(sid) =>
      if sid !in s.sessions then s
      else
        var se := s.sessions[sid];
        var rows := Visible(Overlay(s.db.rows, se.pend.writes), sid.pin);
        var ops := if se.pend.head.Some? then se.ops + [Saw(rows)] else se.ops;
        s.(sessions := s.sessions[sid := se.(results := se.results + [rows], ops := ops)])
    case Flushed(sid, f) =>
      if sid !in s.sessions || Blocked(s, sid, f) then s
      else
        var se := s.sessions[sid];
        (match FlushOn(sha, s.db, sid.pin, se.now, se.pend, f)
         case None => s.(sessions := s.sessions - {sid})
         case Some(q) =>
           s.(sessions := s.sessions[sid :=
             se.(loaded := Forget(se.loaded, f.changes), ops := se.ops + [Wrote(f)], pend := q)]))
    case Committed(sid) =>
      if sid !in s.sessions then s
      else System(CommitOn(s.db, sid.pin, Pend(s, sid)), s.sessions - {sid})
    case RolledBack(sid) => s.(sessions := s.sessions - {sid})
  }

  /** COMMIT, ROLLBACK and a flush that raises end their session. Only COMMIT and provisioning change
      the database, and nobody else's session changes. */
  lemma StepFrame(sha: Sha, s: System, ev: Event)
    ensures var s' := Step(sha, s, ev);
      && (ev.Committed? || ev.RolledBack? ==> ev.sid !in s'.sessions)
      && (Raises(sha, s, ev) ==> ev.sid !in s'.sessions)
      && (!ev.Committed? && !ev.Provisioned? ==> s'.db == s.db)
      && (ev.Provisioned? ==> s'.sessions == s.sessions)
      && (!ev.Provisioned? ==> s'.sessions - {ev.sid} == s.sessions - {ev.sid})
  {
    hide FlushOn, CommitOn, Blocked;
  }

  /** A flush that need not wait and whose statements raise. */
  predicate Raises(sha: Sha, s: System, ev: Event) {
    && ev.Flushed? && ev.sid in s.sessions && !Blocked(s, ev.sid, ev.unit)
    && FlushOn(sha, s.db, ev.sid.pin, s.sessions[ev.sid].now, Pend(s, ev.sid), ev.unit).None?
  }

  const START := System(EMPTY, map[])

  function Run(sha: Sha, evs: seq<Event>): System {
    if evs == [] then START else Step(sha, Run(sha, evs[..|evs| - 1]), evs[|evs| - 1])
  }

  /** The transaction an event completes, if it does. */
  function Completes(s: System, ev: Event): seq<Txn> {
    match ev
    case Provisioned(tenant) => [Provision(tenant)]
    case Committed(sid) =>
      if sid in s.sessions then [Session(sid.pin, s.sessions[sid].now, s.sessions[sid].ops)] else []
    case _ => []
  }

  /** The committed transactions of a run, in commit order, with what each one read and wrote. */
  function History(sha: Sha, evs: seq<Event>): seq<Txn> {
    if evs == [] then []
    else History(sha, evs[..|evs| - 1]) + Completes(Run(sha, evs[..|evs| - 1]), evs[|evs| - 1])
  }

  // ---------- The frame of a session ----------

  /** All that a session pinned to t can notice of a database, given the keys it writes. */
  ghost predicate Agree(db: Db, db': Db, t: Uuid, keys: set<Key>) {
    && (t in db.heads <==> t in db'.heads)
    && (t in db.heads ==> db.heads[t] == db'.heads[t])
    && Visible(db.rows, Some(t)) == Visible(db'.rows, Some(t))
    && (forall k :: k in keys ==> (k in db.rows <==> k in db'.rows))
  }

  lemma {:induction false} AppendFrame(sha: Sha, db: Db, db': Db, t: Uuid, p: Pending, cs: seq<Change>)
    requires forall c :: c in cs ==> Loaded(c)
    requires (t in db.heads <==> t in db'.heads) && (t in db.heads ==> db.heads[t] == db'.heads[t])
    ensures AppendAll(sha, db, Some(t), p, cs) == AppendAll(sha, db', Some(t), p, cs)
  {
    if cs != [] {
      assert cs[|cs| - 1] in cs;
      AppendFrame(sha, db, db', t, p, cs[..|cs| - 1]);
    }
  }

  lemma VisibleAt(rows: Rows, rows': Rows, t: Uuid, k: Key)
    requires Visible(rows, Some(t)) == Visible(rows', Some(t))
    ensures k in rows && rows[k].tenant == t <==> k in rows' && rows'[k].tenant == t
    ensures k in rows && rows[k].tenant == t ==> rows[k] == rows'[k]
  {
    var v, v' := Visible(rows, Some(t)), Visible(rows', Some(t));
    assert k in v <==> k in rows && rows[k].tenant == t;
    assert k in v' <==> k in rows' && rows'[k].tenant == t;
    assert k in v ==> v[k] == rows[k] && v'[k] == rows'[k];
  }

  lemma StatementGrows(rows: Rows, pin: Option<Uuid>, now: int, writes: Writes, c: Change)
    requires Loaded(c) && WriteChange(rows, pin, now, writes, c).Some?
    ensures writes.Keys <= WriteChange(rows, pin, now, writes, c).value.Keys <= writes.Keys + {c.obj.key}
  {}

  lemma StatementFrame(rows: Rows, rows': Rows, t: Uuid, now: int, writes: Writes, c: Change)
    requires Loaded(c) && WriteChange(rows, Some(t), now, writes, c).Some?
    requires Visible(rows, Some(t)) == Visible(rows', Some(t))
    requires c.obj.key in WriteChange(rows, Some(t), now, writes, c).value
        ==> (c.obj.key in rows <==> c.obj.key in rows')
    ensures WriteChange(rows', Some(t), now, writes, c) == WriteChange(rows, Some(t), now, writes, c)
  {
    VisibleAt(rows, rows', t, c.obj.key);
  }

  lemma {:induction false} StatementsFrame(rows: Rows, rows': Rows, t: Uuid, now: int, writes: Writes, cs: seq<Change>,
                                           keys: set<Key>)
    requires forall c :: c in cs ==> Loaded(c)
    requires WriteAll(rows, Some(t), now, writes, cs).Some?
    requires WriteAll(rows, Some(t), now, writes, cs).value.Keys <= keys
    requires Visible(rows, Some(t)) == Visible(rows', Some(t))
    requires forall k :: k in keys ==> (k in rows <==> k in rows')
    ensures WriteAll(rows', Some(t), now, writes, cs) == WriteAll(rows, Some(t), now, writes, cs)
    ensures writes.Keys <= WriteAll(rows, Some(t), now, writes, cs).value.Keys
  {
    if cs != [] {
      var n := |cs| - 1;
      assert cs[n] in cs;
      var w := WriteAll(rows, Some(t), now, writes, cs[..n]).value;
      StatementGrows(rows, Some(t), now, w, cs[n]);
      StatementsFrame(rows, rows', t, now, writes, cs[..n], keys);
      StatementFrame(rows, rows', t, now, w, cs[n]);
    }
  }

  lemma FlushFrame(sha: Sha, db: Db, db': Db, t: Uuid, now: int, p: Pending, f: UnitOfWork)
    requires FlushOn(sha, db, Some(t), now, p, f).Some?
    requires Agree(db, db', t, FlushOn(sha, db, Some(t), now, p, f).value.writes.Keys)
    ensures FlushOn(sha, db', Some(t), now, p, f) == FlushOn(sha, db, Some(t), now, p, f)
    ensures p.writes.Keys <= FlushOn(sha, db, Some(t), now, p, f).value.writes.Keys
  {
    AppendFrame(sha, db, db', t, p, f.changes);
    AppendsTakeHead(sha, db, t, p, f.changes);
    var q := AppendAll(sha, db, Some(t), p, f.changes).value;
    var keys := FlushOn(sha, db, Some(t), now, p, f).value.writes.Keys;
    StatementsFrame(db.rows, db'.rows, t, now, q.writes, f.order, keys);
  }

  lemma SawFrame(rows: Rows, rows': Rows, t: Uuid, writes: Writes)
    requires Visible(rows, Some(t)) == Visible(rows', Some(t))
    ensures Visible(Overlay(rows, writes), Some(t)) == Visible(Overlay(rows', writes), Some(t))
  {
    forall k
      ensures k in Visible(Overlay(rows, writes), Some(t)) <==> k in Visible(Overlay(rows', writes), Some(t))
      ensures k in Visible(Overlay(rows, writes), Some(t)) ==>
                Visible(Overlay(rows, writes), Some(t))[k] == Visible(Overlay(rows', writes), Some(t))[k]
    {
      VisibleAt(rows, rows', t, k);
    }
  }

  /** A session's work comes out the same on every database that agrees on what it notices. */
  lemma {:induction false} OpsFrame(sha: Sha, db: Db, db': Db, t: Uuid, now: int, ops: seq<Op>, keys: set<Key>)
    requires RunOps(sha, db, Some(t), now, ops).Some?
    requires RunOps(sha, db, Some(t), now, ops).value.writes.Keys <= keys
    requires Agree(db, db', t, keys)
    ensures RunOps(sha, db', Some(t), now, ops) == RunOps(sha, db, Some(t), now, ops)
  {
    if ops != [] {
      var n := |ops| - 1;
      var p := RunOps(sha, db, Some(t), now, ops[..n]).value;
      match ops[n]
      case Wrote(f) =>
        FlushFrame(sha, db, db', t, now, p, f);
        OpsFrame(sha, db, db', t, now, ops[..n], keys);
      case Saw(_) =>
        OpsFrame(sha, db, db', t, now, ops[..n], keys);
        SawFrame(db.rows, db'.rows, t, p.writes);
    }
  }

  // ---------- A session that never took a head row did nothing ----------

  lemma QuietFlush(sha: Sha, db: Db, pin: Option<Uuid>, now: int, p: Pending, f: UnitOfWork, db': Db)
    requires FlushOn(sha, db, pin, now, p, f).Some?
    requires FlushOn(sha, db, pin, now, p, f).value.head.None?
    ensures FlushOn(sha, db, pin, now, p, f) == Some(p) && FlushOn(sha, db', pin, now, p, f) == Some(p)
  {
    QuietAppend(sha, db, pin, p, f.changes, db');
    forall c | c in f.order
      ensures !Effective(c)
    {
      assert c in f.changes;
    }
    NoEffectNoWrites(db.rows, pin, now, p.writes, f.order);
    NoEffectNoWrites(db'.rows, pin, now, p.writes, f.order);
  }

  lemma AppendTakesHead(sha: Sha, db: Db, pin: Option<Uuid>, p: Pending, c: Change)
    requires Loaded(c) && AppendChange(sha, db, pin, p, c).Some?
    ensures AppendChange(sha, db, pin, p, c).value.head.Some?
  {
    hide EntryFor;
  }

  lemma {:induction false} QuietAppend(sha: Sha, db: Db, pin: Option<Uuid>, p: Pending, cs: seq<Change>, db': Db)
    requires forall c :: c in cs ==> Loaded(c)
    requires AppendAll(sha, db, pin, p, cs).Some? && AppendAll(sha, db, pin, p, cs).value.head.None?
    ensures AppendAll(sha, db, pin, p, cs) == Some(p) && AppendAll(sha, db', pin, p, cs) == Some(p)
    ensures forall c :: c in cs ==> !Effective(c)
  {
    hide AppendChange, Effective;
    if cs != [] {
      var n := |cs| - 1;
      assert cs == cs[..n] + [cs[n]];
      var q := AppendAll(sha, db, pin, p, cs[..n]).value;
      if Effective(cs[n]) { AppendTakesHead(sha, db, pin, q, cs[n]); }
      QuietAppend(sha, db, pin, p, cs[..n], db');
    }
  }

  lemma {:induction false} QuietOps(sha: Sha, db: Db, pin: Option<Uuid>, now: int, ops: seq<Op>, db': Db)
    requires RunOps(sha, db, pin, now, ops).Some? && RunOps(sha, db, pin, now, ops).value.head.None?
    ensures RunOps(sha, db, pin, now, ops) == Some(NOTHING) && RunOps(sha, db', pin, now, ops) == Some(NOTHING)
  {
    if ops != [] {
      var n := |ops| - 1;
      match ops[n]
      case Wrote(f) =>
        QuietFlush(sha, db, pin, now, RunOps(sha, db, pin, now, ops[..n]).value, f, db');
        QuietOps(sha, db, pin, now, ops[..n], db');
      case Saw(_) =>
    }
  }

  // ---------- The invariant of every run ----------

  predicate Exclusive(s: System) {
    forall a, b :: a in s.sessions && b in s.sessions && a != b ==>
      && (Pend(s, a).head.Some? && Pend(s, b).head.Some? ==> a.pin != b.pin)
      && Pend(s, a).writes.Keys !! Pend(s, b).writes.Keys
  }

  /** Run now, by itself, an open session would do exactly what it has done. */
  predicate Repeats(sha: Sha, db: Db, sid: Sid, se: SessionState) {
    RunOps(sha, db, sid.pin, se.now, se.ops) == Some(se.pend)
  }

  predicate Inv(sha: Sha, s: System) {
    && Consistent(sha, s.db)
    && Exclusive(s)
    && forall sid :: sid in s.sessions ==> Repeats(sha, s.db, sid, s.sessions[sid])
  }

  /** What the invariant says of one session. */
  lemma SessionFacts(sha: Sha, s: System, sid: Sid)
    requires Inv(sha, s) && sid in s.sessions
    ensures Pend(s, sid).head.None? ==> Pend(s, sid) == NOTHING
    ensures Pend(s, sid).head.Some? ==>
              && sid.pin.Some? && sid.pin.value in s.db.heads
              && PendingGood(sha, s.db, sid.pin.value, Pend(s, sid))
  {
    var se := s.sessions[sid];
    assert Repeats(sha, s.db, sid, s.sessions[sid]);
    if se.pend.head.None? {
      QuietOps(sha, s.db, sid.pin, se.now, se.ops, s.db);
    } else if sid.pin.Some? && sid.pin.value in s.db.heads {
      OpsKeepGood(sha, s.db, sid.pin.value, se.now, se.ops);
    } else {
      NoHeadNoEffect(sha, s.db, sid.pin, se.now, se.ops);
    }
  }

  lemma VisibleOthers(rows: Rows, writes: Writes, tenant: Uuid, other: Uuid)
    requires OwnWrites(rows, writes, tenant) && other != tenant
    ensures Visible(Overlay(rows, writes), Some(other)) == Visible(rows, Some(other))
  {}

  /** A commit is invisible to every other tenant's open session. */
  lemma CommitAgrees(sha: Sha, s: System, sid: Sid, other: Sid)
    requires Inv(sha, s) && sid in s.sessions && other in s.sessions && sid != other
    requires Pend(s, sid).head.Some? && Pend(s, other).head.Some?
    ensures other.pin.Some?
    ensures Agree(s.db, CommitOn(s.db, sid.pin, Pend(s, sid)), other.pin.value, Pend(s, other).writes.Keys)
  {
    hide Repeats, Consistent, LogGood;
    SessionFacts(sha, s, sid);
    SessionFacts(sha, s, other);
    VisibleOthers(s.db.rows, Pend(s, sid).writes, sid.pin.value, other.pin.value);
  }

  /** A session that holds no head row, or notices no difference, would repeat itself. */
  lemma RepeatsOn(sha: Sha, db: Db, db': Db, sid: Sid, se: SessionState)
    requires Repeats(sha, db, sid, se)
    requires se.pend.head.Some? ==> sid.pin.Some? && Agree(db, db', sid.pin.value, se.pend.writes.Keys)
    ensures Repeats(sha, db', sid, se)
  {
    if se.pend.head.None? {
      QuietOps(sha, db, sid.pin, se.now, se.ops, db');
    } else {
      OpsFrame(sha, db, db', sid.pin.value, se.now, se.ops, se.pend.writes.Keys);
    }
  }

  lemma CommitRepeatable(sha: Sha, s: System, sid: Sid, other: Sid)
    requires Inv(sha, s) && sid in s.sessions && other in s.sessions && sid != other
    ensures Repeats(sha, CommitOn(s.db, sid.pin, Pend(s, sid)), other, s.sessions[other])
  {
    if Pend(s, sid).head.Some? && Pend(s, other).head.Some? {
      CommitAgrees(sha, s, sid, other);
      RepeatsOn(sha, s.db, CommitOn(s.db, sid.pin, Pend(s, sid)), other, s.sessions[other]);
    } else if Pend(s, other).head.None? {
      RepeatsOn(sha, s.db, CommitOn(s.db, sid.pin, Pend(s, sid)), other, s.sessions[other]);
    }
  }

  lemma CommitStep(sha: Sha, s: System, sid: Sid)
    requires Inv(sha, s) && sid in s.sessions
    ensures Inv(sha, Step(sha, s, Committed(sid)))
    ensures Step(sha, s, Committed(sid)).db == Atomic(sha, s.db, Completes(s, Committed(sid))[0])
  {
    var s' := Step(sha, s, Committed(sid));
    var t := Completes(s, Committed(sid))[0];
    assert Repeats(sha, s.db, sid, s.sessions[sid]);
    AtomicKeepsConsistent(sha, s.db, t);
    assert Exclusive(s');
    forall other | other in s'.sessions
      ensures Repeats(sha, s'.db, other, s.sessions[other])
    {
      CommitRepeatable(sha, s, sid, other);
    }
  }

  lemma ProvisionAgrees(sha: Sha, db: Db, tenant: Uuid, t: Uuid, keys: set<Key>)
    requires t in db.heads
    ensures Agree(db, ProvisionOn(sha, db, tenant), t, keys)
  {}

  lemma ProvisionRepeatable(sha: Sha, s: System, tenant: Uuid, sid: Sid)
    requires Inv(sha, s) && sid in s.sessions
    ensures Repeats(sha, ProvisionOn(sha, s.db, tenant), sid, s.sessions[sid])
  {
    SessionFacts(sha, s, sid);
    var se := s.sessions[sid];
    if se.pend.head.Some? {
      ProvisionAgrees(sha, s.db, tenant, sid.pin.value, se.pend.writes.Keys);
    }
    assert Repeats(sha, s.db, sid, se);
    RepeatsOn(sha, s.db, ProvisionOn(sha, s.db, tenant), sid, se);
  }

  lemma ProvisionStep(sha: Sha, s: System, tenant: Uuid)
    requires Inv(sha, s)
    ensures Inv(sha, Step(sha, s, Provisioned(tenant)))
  {
    ProvisionKeepsConsistent(sha, s.db, tenant);
    forall sid | sid in s.sessions
      ensures Repeats(sha, ProvisionOn(sha, s.db, tenant), sid, s.sessions[sid])
    {
      ProvisionRepeatable(sha, s, tenant, sid);
    }
    assert Exclusive(Step(sha, s, Provisioned(tenant)));
  }

  /** A key a statement adds is an inserted one, or that of a row the session could see. */
  lemma {:induction false} NewKeys(rows: Rows, t: Uuid, now: int, writes: Writes, cs: seq<Change>)
    requires forall c :: c in cs ==> Loaded(c)
    requires WriteAll(rows, Some(t), now, writes, cs).Some?
    ensures forall k :: k in WriteAll(rows, Some(t), now, writes, cs).value && k !in writes ==>
              (exists c :: c in cs && c.Insert? && c.obj.key == k) || (k in rows && rows[k].tenant == t)
  {
    if cs != [] {
      var n := |cs| - 1;
      assert cs == cs[..n] + [cs[n]];
      NewKeys(rows, t, now, writes, cs[..n]);
      var w := WriteAll(rows, Some(t), now, writes, cs[..n]).value;
      StatementGrows(rows, Some(t), now, w, cs[n]);
      StatementKey(rows, t, now, w, cs[n]);
      forall k | k in WriteAll(rows, Some(t), now, writes, cs).value && k !in writes
        ensures (exists c :: c in cs && c.Insert? && c.obj.key == k) || (k in rows && rows[k].tenant == t)
      {
        if k in w {
          if c :| c in cs[..n] && c.Insert? && c.obj.key == k {
            assert c in cs;
          }
        }
      }
    }
  }

  lemma StatementKey(rows: Rows, t: Uuid, now: int, w: Writes, c: Change)
    requires Loaded(c) && WriteChange(rows, Some(t), now, w, c).Some?
    ensures c.obj.key in WriteChange(rows, Some(t), now, w, c).value && c.obj.key !in w ==>
              c.Insert? || (c.obj.key in rows && rows[c.obj.key].tenant == t)
  {}

  lemma FlushExclusive(sha: Sha, s: System, sid: Sid, f: UnitOfWork, q: Pending, other: Sid)
    requires Inv(sha, s) && sid in s.sessions && other in s.sessions && sid != other
    requires !Blocks(s, other, sid, f)
    requires FlushOn(sha, s.db, sid.pin, s.sessions[sid].now, Pend(s, sid), f) == Some(q)
    ensures q.head.Some? && Pend(s, other).head.Some? ==> sid.pin != other.pin
    ensures q.writes.Keys !! Pend(s, other).writes.Keys
  {
    hide Repeats, Consistent, LogGood, WriteAll, AppendAll;
    SessionFacts(sha, s, sid);
    SessionFacts(sha, s, other);
    var p := Pend(s, sid);
    if q.head.None? {
      QuietFlush(sha, s.db, sid.pin, s.sessions[sid].now, p, f, s.db);
    } else if sid.pin.Some? {
      var t := sid.pin.value;
      AppendsTakeHead(sha, s.db, t, p, f.changes);
      var r := AppendAll(sha, s.db, Some(t), p, f.changes).value;
      if p.head.None? && !Touches(f) {
        NoTouchNoHead(sha, s.db, sid.pin, p, f.changes);
      }
      NewKeys(s.db.rows, t, s.sessions[sid].now, r.writes, f.order);
      forall k | k in q.writes
        ensures k !in Pend(s, other).writes
      {
        if k !in p.writes {
          if c :| c in f.order && c.Insert? && c.obj.key == k {
            assert c in f.changes;
          }
        }
      }
    } else {
      NoPinNoFlush(sha, s.db, p, f);
    }
  }

  lemma {:induction false} NoTouchNoHead(sha: Sha, db: Db, pin: Option<Uuid>, p: Pending, cs: seq<Change>)
    requires forall c :: c in cs ==> Loaded(c) && !Effective(c)
    ensures AppendAll(sha, db, pin, p, cs) == Some(p)
  {
    if cs != [] {
      assert cs[|cs| - 1] in cs;
      NoTouchNoHead(sha, db, pin, p, cs[..|cs| - 1]);
    }
  }

  lemma NoPinNoFlush(sha: Sha, db: Db, p: Pending, f: UnitOfWork)
    ensures AppendAll(sha, db, None, p, f.changes) in {None, Some(p)}
  {
    AppendNeedsHead(sha, db, None, p, f.changes);
  }

  lemma WroteRepeats(sha: Sha, db: Db, sid: Sid, se: SessionState, f: UnitOfWork, q: Pending, loaded: map<Key, Columns>)
    requires Repeats(sha, db, sid, se) && FlushOn(sha, db, sid.pin, se.now, se.pend, f) == Some(q)
    ensures Repeats(sha, db, sid, se.(loaded := loaded, ops := se.ops + [Wrote(f)], pend := q))
  {
    hide FlushOn;
    assert (se.ops + [Wrote(f)])[..|se.ops|] == se.ops;
  }

  lemma SawRepeats(sha: Sha, db: Db, sid: Sid, se: SessionState, results: seq<Rows>)
    requires Repeats(sha, db, sid, se)
    ensures Repeats(sha, db, sid, se.(results := results))
    ensures se.pend.head.Some? ==>
      Repeats(sha, db, sid,
              se.(results := results, ops := se.ops + [Saw(Visible(Overlay(db.rows, se.pend.writes), sid.pin))]))
  {
    hide FlushOn;
    var rows := Visible(Overlay(db.rows, se.pend.writes), sid.pin);
    assert (se.ops + [Saw(rows)])[..|se.ops|] == se.ops;
  }

  lemma FlushStep(sha: Sha, s: System, sid: Sid, f: UnitOfWork)
    requires Inv(sha, s)
    ensures Inv(sha, Step(sha, s, Flushed(sid, f)))
  {
    hide Repeats, Consistent, FlushOn;
    var s' := Step(sha, s, Flushed(sid, f));
    if sid in s.sessions && !Blocked(s, sid, f) {
      var se := s.sessions[sid];
      assert Repeats(sha, s.db, sid, s.sessions[sid]);
      match FlushOn(sha, s.db, sid.pin, se.now, se.pend, f)
      case None =>
        OthersStay(sha, s, s', sid);
      case Some(q) =>
        WroteRepeats(sha, s.db, sid, se, f, q, Forget(se.loaded, f.changes));
        forall other | other in s.sessions && other != sid
          ensures q.head.Some? && Pend(s, other).head.Some? ==> sid.pin != other.pin
          ensures q.writes.Keys !! Pend(s, other).writes.Keys
        {
          FlushExclusive(sha, s, sid, f, q, other);
        }
        OthersStay(sha, s, s', sid);
    }
  }

  /** The database did not move, so the other sessions' facts stand. */
  lemma OthersStay(sha: Sha, s: System, s': System, sid: Sid)
    requires Inv(sha, s) && s'.db == s.db && s'.sessions - {sid} == s.sessions - {sid}
    requires sid in s'.sessions ==> Repeats(sha, s'.db, sid, s'.sessions[sid])
    requires sid in s'.sessions ==> forall other :: other in s.sessions && other != sid ==>
               && (Pend(s', sid).head.Some? && Pend(s, other).head.Some? ==> sid.pin != other.pin)
               && Pend(s', sid).writes.Keys !! Pend(s, other).writes.Keys
    ensures Inv(sha, s')
  {
    hide Repeats, Consistent;
    forall other | other in s'.sessions && other != sid
      ensures other in s.sessions && s'.sessions[other] == s.sessions[other]
      ensures Repeats(sha, s'.db, other, s'.sessions[other])
    {
      assert other in s'.sessions - {sid};
      assert (s'.sessions - {sid})[other] == (s.sessions - {sid})[other];
      assert Repeats(sha, s.db, other, s.sessions[other]);
    }
  }

  lemma BeginStep(sha: Sha, s: System, sid: Sid, now: int)
    requires Inv(sha, s)
    ensures Inv(sha, Step(sha, s, Begun(sid, now)))
  {
    var s' := Step(sha, s, Begun(sid, now));
    if sid !in s.sessions {
      assert Repeats(sha, s'.db, sid, s'.sessions[sid]);
      OthersStay(sha, s, s', sid);
    }
  }

  lemma GetStep(sha: Sha, s: System, sid: Sid, key: Key)
    requires Inv(sha, s)
    ensures Inv(sha, Step(sha, s, Got(sid, key)))
  {
    var s' := Step(sha, s, Got(sid, key));
    if s' != s {
      Rereads(sha, s, sid, s'.sessions[sid]);
      assert s' == s.(sessions := s.sessions[sid := s'.sessions[sid]]);
    }
  }

  /** Reading into the identity map changes nothing another session relies on. */
  lemma Rereads(sha: Sha, s: System, sid: Sid, se: SessionState)
    requires Inv(sha, s) && sid in s.sessions && se == s.sessions[sid].(loaded := se.loaded)
    ensures Inv(sha, s.(sessions := s.sessions[sid := se]))
  {
    var s' := s.(sessions := s.sessions[sid := se]);
    assert Repeats(sha, s.db, sid, s.sessions[sid]);
    assert Repeats(sha, s'.db, sid, s'.sessions[sid]);
    OthersStay(sha, s, s', sid);
  }

  lemma QueryStep(sha: Sha, s: System, sid: Sid)
    requires Inv(sha, s)
    ensures Inv(sha, Step(sha, s, Queried(sid)))
  {
    hide Repeats, Consistent;
    var s' := Step(sha, s, Queried(sid));
    if sid in s.sessions {
      SawRepeats(sha, s.db, sid, s.sessions[sid], s'.sessions[sid].results);
      OthersStay(sha, s, s', sid);
    }
  }

  lemma RollbackStep(sha: Sha, s: System, sid: Sid)
    requires Inv(sha, s)
    ensures Inv(sha, Step(sha, s, RolledBack(sid)))
  {
    hide Repeats, Consistent;
    OthersStay(sha, s, s.(sessions := s.sessions - {sid}), sid);
  }

  lemma StepKeepsInv(sha: Sha, s: System, ev: Event)
    requires Inv(sha, s)
    ensures Inv(sha, Step(sha, s, ev))
  {
    hide Inv;
    match ev
    case Provisioned(tenant) => ProvisionStep(sha, s, tenant);
    case Begun(sid, now) => BeginStep(sha, s, sid, now);
    case Got(sid, key) => GetStep(sha, s, sid, key);
    case Queried(sid) => QueryStep(sha, s, sid);
    case Flushed(sid, f) => FlushStep(sha, s, sid, f);
    case Committed(sid) => if sid in s.sessions { CommitStep(sha, s, sid); }
    case RolledBack(sid) => RollbackStep(sha, s, sid);
  }

  /** The database moves only when an event completes a transaction, and then atomically. */
  lemma StepDb(sha: Sha, s: System, ev: Event)
    requires Inv(sha, s)
    ensures Step(sha, s, ev).db
         == if Completes(s, ev) == [] then s.db else Atomic(sha, s.db, Completes(s, ev)[0])
  {
    if ev.Committed? && ev.sid in s.sessions {
      CommitStep(sha, s, ev.sid);
    }
  }

  lemma {:induction false} RunInv(sha: Sha, evs: seq<Event>)
    ensures Inv(sha, Run(sha, evs))
  {
    if evs == [] {
      assert Serial(sha, EMPTY, []) == EMPTY;
      SerialConsistent(sha, []);
    } else {
      RunInv(sha, evs[..|evs| - 1]);
      StepKeepsInv(sha, Run(sha, evs[..|evs| - 1]), evs[|evs| - 1]);
    }
  }

  /** Serialisability: every interleaving commits exactly the rows, logs and heads of its
      committed transactions run one at a time in commit order, each repeating its own flushes
      and seeing again every row it saw while it held its head row. */
  lemma {:induction false} Serialisable(sha: Sha, evs: seq<Event>)
    ensures Run(sha, evs).db == Serial(sha, EMPTY, History(sha, evs))
  {
    if evs != [] {
      var n := |evs| - 1;
      var before := Run(sha, evs[..n]);
      Serialisable(sha, evs[..n]);
      RunInv(sha, evs[..n]);
      StepDb(sha, before, evs[n]);
      var ts := History(sha, evs[..n]);
      if Completes(before, evs[n]) != [] {
        var t := Completes(before, evs[n])[0];
        assert (ts + [t])[..|ts|] == ts;
      } else {
        assert ts + [] == ts;
      }
    }
  }

  /** Each of those transactions really ran: none of them raises in the serial run. */
  lemma {:induction false} HistoryRuns(sha: Sha, evs: seq<Event>, i: nat)
    requires i < |History(sha, evs)| && History(sha, evs)[i].Session?
    ensures var t := History(sha, evs)[i];
      RunOps(sha, Serial(sha, EMPTY, History(sha, evs)[..i]), t.pin, t.now, t.ops).Some?
  {
    var n := |evs| - 1;
    var ts := History(sha, evs[..n]);
    if i < |ts| {
      HistoryRuns(sha, evs[..n], i);
      assert History(sha, evs)[..i] == ts[..i];
    } else {
      assert History(sha, evs)[..i] == ts;
      Serialisable(sha, evs[..n]);
      RunInv(sha, evs[..n]);
      assert Repeats(sha, Run(sha, evs[..n]).db, evs[n].sid, Run(sha, evs[..n]).sessions[evs[n].sid]);
    }
  }

  /** In every reachable state, under every interleaving, each tenant's committed log is a
      chain numbered 1, 2, ..., last_seq whose tip is the head, and replaying it gives exactly
      the tenant's committed rows. */
  lemma ReplayUnderInterleaving(sha: Sha, evs: seq<Event>, tenant: Uuid)
    ensures var db := Run(sha, evs).db;
      && SelectLog(db.log, tenant) == Where(db.log, tenant)
      && Replayed(SelectLog(db.log, tenant)) == TenantTables(db.rows, tenant)
      && (tenant in db.heads ==> LogGood(sha, tenant, SelectLog(db.log, tenant), db.heads[tenant]))
      && (tenant !in db.heads ==> SelectLog(db.log, tenant) == [])
  {
    RunInv(sha, evs);
    var db := Run(sha, evs).db;
    if tenant in db.heads {
      assert TenantGood(sha, db, tenant);
    } else {
      UnknownTenantEmpty(db, tenant);
    }
    AscendingIsOrdered(Where(db.log, tenant));
  }

  /** verify_chain on the committed database of any run: valid, with length last_seq. */
  method VerifyReachable(sha: Sha, evs: seq<Event>, tenant: Uuid) returns (r: Option<Verdict>)
    ensures var heads := Run(sha, evs).db.heads;
      if tenant in heads
      then r.Some? && r.value.valid && r.value.length == heads[tenant].lastSeq && r.value.reason == Fine
      else r.None?
  {
    hide LogGood, Links, SelectLog, TenantTables, Replayed;
    var db := Run(sha, evs).db;
    r := VerifyChain(sha, db.log, db.heads, tenant);
    ReplayUnderInterleaving(sha, evs, tenant);
    GoodIsValid(sha, db, tenant);
  }

  lemma GoodIsValid(sha: Sha, db: Db, tenant: Uuid)
    requires tenant in db.heads ==> LogGood(sha, tenant, SelectLog(db.log, tenant), db.heads[tenant])
    requires tenant !in db.heads ==> SelectLog(db.log, tenant) == []
    ensures Links(sha, tenant, SelectLog(db.log, tenant))
    ensures tenant in db.heads ==>
      && Accepted(sha, tenant, SelectLog(db.log, tenant), db.heads[tenant])
      && db.heads[tenant].lastSeq == |SelectLog(db.log, tenant)|
  {
    hide SelectLog;
  }
}
