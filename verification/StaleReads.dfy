/** Where stale reads come from: a session's identity map holds versions committed some time
    before, and an update diffs against it. So the hypothesis of Cases.CasesSettled holds of
    every interleaving in which case updates diff against what their session read. */
module StaleReads {
  import opened Wrappers
  import opened Chain
  import opened Database
  import opened Replay
  import opened Sessions
  import opened Monitoring
  import opened Services
  import opened Compliance
  import opened Cases

  predicate CommittedAs(rows: Rows, pin: Option<Uuid>, key: Key, cols: Columns) {
    key in rows && Sees(pin, rows[key].tenant) && rows[key].cols == cols
  }

  /** The columns are those of a visible version committed at or before the end of these events. */
  ghost predicate Version(sha: Sha, evs: seq<Event>, pin: Option<Uuid>, key: Key, cols: Columns) {
    exists m :: 0 <= m <= |evs| && CommittedAs(Run(sha, evs[..m]).db.rows, pin, key, cols)
  }

  /** What a session remembers of a row it has not changed is a committed version. */
  ghost predicate Remembers(sha: Sha, evs: seq<Event>, pin: Option<Uuid>, se: SessionState) {
    forall key :: key in se.loaded && !Names(Changes(se.ops), key) ==> Version(sha, evs, pin, key, se.loaded[key])
  }

  /** A session's only change, if it updates a case, was diffed against a committed version. */
  ghost predicate DiffsPast(sha: Sha, evs: seq<Event>, pin: Option<Uuid>, se: SessionState) {
    |Changes(se.ops)| == 1 && Changes(se.ops)[0].Update? && Changes(se.ops)[0].obj.key.table == "cases" ==>
      Version(sha, evs, pin, Changes(se.ops)[0].obj.key, Written(Changes(se.ops)[0].loaded))
  }

  ghost predicate Traced(sha: Sha, evs: seq<Event>, pin: Option<Uuid>, se: SessionState) {
    Remembers(sha, evs, pin, se) && DiffsPast(sha, evs, pin, se)
  }

  /** Updates of cases diff against the identity map. */
  predicate DiffsLoaded(se: SessionState, f: UnitOfWork) {
    forall c :: c in f.changes && c.Update? && c.obj.key.table == "cases" && !Names(Changes(se.ops), c.obj.key) ==>
      c.obj.key in se.loaded && Written(c.loaded) == se.loaded[c.obj.key]
  }

  ghost predicate Honest(sha: Sha, evs: seq<Event>) {
    forall n :: 0 <= n < |evs| && evs[n].Flushed? && evs[n].sid in Run(sha, evs[..n]).sessions ==>
      DiffsLoaded(Run(sha, evs[..n]).sessions[evs[n].sid], evs[n].unit)
  }

  lemma VersionStays(sha: Sha, evs: seq<Event>, n: nat, pin: Option<Uuid>, key: Key, cols: Columns)
    requires n <= |evs| && Version(sha, evs[..n], pin, key, cols)
    ensures Version(sha, evs, pin, key, cols)
  {
    var m :| 0 <= m <= n && CommittedAs(Run(sha, evs[..n][..m]).db.rows, pin, key, cols);
    assert evs[..n][..m] == evs[..m];
  }

  lemma TracedStays(sha: Sha, evs: seq<Event>, n: nat, pin: Option<Uuid>, se: SessionState)
    requires n <= |evs| && Traced(sha, evs[..n], pin, se)
    ensures Traced(sha, evs, pin, se)
  {
    hide Version, Names;
    forall key | key in se.loaded && !Names(Changes(se.ops), key)
      ensures Version(sha, evs, pin, key, se.loaded[key])
    {
      VersionStays(sha, evs, n, pin, key, se.loaded[key]);
    }
    if |Changes(se.ops)| == 1 && Changes(se.ops)[0].Update? && Changes(se.ops)[0].obj.key.table == "cases" {
      VersionStays(sha, evs, n, pin, Changes(se.ops)[0].obj.key, Written(Changes(se.ops)[0].loaded));
    }
  }

  lemma FlushRemembers(sha: Sha, evs: seq<Event>, pin: Option<Uuid>, se: SessionState, cs: seq<Change>,
                       se': SessionState)
    requires Remembers(sha, evs, pin, se) && se'.loaded == Forget(se.loaded, cs)
    requires Changes(se'.ops) == Changes(se.ops) + cs
    ensures Remembers(sha, evs, pin, se')
  {
    hide Version, Changes;
    forall key | key in se'.loaded && !Names(Changes(se'.ops), key)
      ensures Version(sha, evs, pin, key, se'.loaded[key])
    {
      assert forall c :: c in Changes(se.ops) || c in cs ==> c in Changes(se'.ops);
      assert !Names(Changes(se.ops), key) && !Names(cs, key);
    }
  }

  lemma OneOfBoth(a: seq<Change>, b: seq<Change>)
    requires |a + b| == 1
    ensures if b == [] then |a| == 1 && (a + b)[0] == a[0] else a == [] && (a + b)[0] == b[0] && b[0] in b
  {}

  lemma FlushDiffsPast(sha: Sha, evs: seq<Event>, pin: Option<Uuid>, se: SessionState, f: UnitOfWork, se': SessionState)
    requires Traced(sha, evs, pin, se) && DiffsLoaded(se, f) && Changes(se'.ops) == Changes(se.ops) + f.changes
    ensures DiffsPast(sha, evs, pin, se')
  {
    hide Version, Written, Changes;
    if |Changes(se'.ops)| == 1 {
      OneOfBoth(Changes(se.ops), f.changes);
    }
  }

  lemma FlushTraced(sha: Sha, evs: seq<Event>, pin: Option<Uuid>, se: SessionState, f: UnitOfWork, se': SessionState)
    requires Traced(sha, evs, pin, se) && DiffsLoaded(se, f)
    requires se'.loaded == Forget(se.loaded, f.changes) && se'.ops == se.ops + [Wrote(f)]
    ensures Traced(sha, evs, pin, se')
  {
    hide Remembers, DiffsPast, DiffsLoaded;
    ChangesOf(se.ops, Wrote(f));
    FlushRemembers(sha, evs, pin, se, f.changes, se');
    FlushDiffsPast(sha, evs, pin, se, f, se');
  }

  /** A row a session reads is a committed version unless the session wrote it. */
  lemma ReadTraced(sha: Sha, evs: seq<Event>, sid: Sid, key: Key)
    requires sid in Run(sha, evs).sessions
    requires var r := Current(Run(sha, evs).db.rows, Pend(Run(sha, evs), sid).writes, key);
      r.Some? && Sees(sid.pin, r.value.tenant)
    ensures !Names(Changes(Run(sha, evs).sessions[sid].ops), key) ==>
      Version(sha, evs, sid.pin, key, Current(Run(sha, evs).db.rows, Pend(Run(sha, evs), sid).writes, key).value.cols)
  {
    hide Consistent, LogGood, RunOps, Step;
    var s := Run(sha, evs);
    var se := s.sessions[sid];
    RunInv(sha, evs);
    SessionFacts(sha, s, sid);
    assert Repeats(sha, s.db, sid, s.sessions[sid]);
    if key in se.pend.writes {
      WritesNamed(sha, s.db, sid.pin.value, se.now, se.ops, key);
    } else {
      assert evs[..|evs|] == evs;
    }
  }

  lemma GotTraced(sha: Sha, evs: seq<Event>, sid: Sid, key: Key)
    requires sid in Run(sha, evs).sessions && Traced(sha, evs, sid.pin, Run(sha, evs).sessions[sid])
    ensures sid in Step(sha, Run(sha, evs), Got(sid, key)).sessions
    ensures Traced(sha, evs, sid.pin, Step(sha, Run(sha, evs), Got(sid, key)).sessions[sid])
  {
    hide Version, Names, Run;
    var s := Run(sha, evs);
    var r := Current(s.db.rows, Pend(s, sid).writes, key);
    if r.Some? && Sees(sid.pin, r.value.tenant) {
      ReadTraced(sha, evs, sid, key);
    }
  }

  lemma OtherSession(sha: Sha, s: System, ev: Event, sid: Sid)
    requires sid in Step(sha, s, ev).sessions && (ev.Provisioned? || ev.sid != sid)
    ensures sid in s.sessions && Step(sha, s, ev).sessions[sid] == s.sessions[sid]
  {
    hide FlushOn, Blocked;
  }

  lemma NewSession(sha: Sha, s: System, ev: Event, sid: Sid)
    requires sid in Step(sha, s, ev).sessions && sid !in s.sessions
    ensures Step(sha, s, ev).sessions[sid].loaded == map[] && Step(sha, s, ev).sessions[sid].ops == []
  {
    hide FlushOn, Blocked;
  }

  lemma FlushedSession(sha: Sha, s: System, sid: Sid, f: UnitOfWork)
    requires sid in s.sessions && sid in Step(sha, s, Flushed(sid, f)).sessions
    ensures var se, se' := s.sessions[sid], Step(sha, s, Flushed(sid, f)).sessions[sid];
      se' == se || se' == se.(loaded := Forget(se.loaded, f.changes), ops := se.ops + [Wrote(f)], pend := se'.pend)
  {
    hide FlushOn, Blocked;
  }

  lemma QuietSession(sha: Sha, s: System, ev: Event, sid: Sid)
    requires sid in s.sessions && sid in Step(sha, s, ev).sessions && !ev.Provisioned? && ev.sid == sid
    requires ev.Begun? || ev.Queried? || ev.Committed? || ev.RolledBack?
    ensures var se, se' := s.sessions[sid], Step(sha, s, ev).sessions[sid];
      se'.loaded == se.loaded && (se'.ops == se.ops || exists rows :: se'.ops == se.ops + [Saw(rows)])
  {}

  /** One event leaves what a session remembers traced. */
  lemma EventTraced(sha: Sha, evs: seq<Event>, ev: Event, sid: Sid)
    requires sid in Run(sha, evs).sessions && Traced(sha, evs, sid.pin, Run(sha, evs).sessions[sid])
    requires ev.Flushed? && ev.sid == sid ==> DiffsLoaded(Run(sha, evs).sessions[sid], ev.unit)
    requires sid in Step(sha, Run(sha, evs), ev).sessions
    ensures Traced(sha, evs, sid.pin, Step(sha, Run(sha, evs), ev).sessions[sid])
  {
    hide Traced, DiffsLoaded, Step, Run;
    var s := Run(sha, evs);
    if ev.Provisioned? || ev.sid != sid {
      OtherSession(sha, s, ev, sid);
    } else if ev.Got? {
      GotTraced(sha, evs, sid, ev.key);
    } else if ev.Flushed? {
      FlushedSession(sha, s, sid, ev.unit);
      if Step(sha, s, ev).sessions[sid] != s.sessions[sid] {
        FlushTraced(sha, evs, sid.pin, s.sessions[sid], ev.unit, Step(sha, s, ev).sessions[sid]);
      }
    } else {
      QuietSession(sha, s, ev, sid);
      QueryTraced(sha, evs, sid.pin, s.sessions[sid], Step(sha, s, ev).sessions[sid]);
    }
  }

  lemma HonestAt(sha: Sha, evs: seq<Event>, n: nat)
    requires Honest(sha, evs) && n < |evs| && evs[n].Flushed? && evs[n].sid in Run(sha, evs[..n]).sessions
    ensures DiffsLoaded(Run(sha, evs[..n]).sessions[evs[n].sid], evs[n].unit)
  {}

  lemma StepTraced(sha: Sha, evs: seq<Event>, sid: Sid)
    requires evs != [] && Honest(sha, evs)
    requires sid in Run(sha, evs).sessions
    requires sid in Run(sha, evs[..|evs| - 1]).sessions ==>
               Traced(sha, evs[..|evs| - 1], sid.pin, Run(sha, evs[..|evs| - 1]).sessions[sid])
    ensures Traced(sha, evs, sid.pin, Run(sha, evs).sessions[sid])
  {
    hide Traced, DiffsLoaded, Step, Honest;
    var n := |evs| - 1;
    var s := Run(sha, evs[..n]);
    if sid in s.sessions {
      if evs[n].Flushed? && evs[n].sid == sid { HonestAt(sha, evs, n); }
      EventTraced(sha, evs[..n], evs[n], sid);
      TracedStays(sha, evs, n, sid.pin, Run(sha, evs).sessions[sid]);
    } else {
      NewSession(sha, s, evs[n], sid);
      FreshTraced(sha, evs, sid.pin, Run(sha, evs).sessions[sid]);
    }
  }

  lemma FreshTraced(sha: Sha, evs: seq<Event>, pin: Option<Uuid>, se: SessionState)
    requires se.loaded == map[] && se.ops == []
    ensures Traced(sha, evs, pin, se)
  {}

  lemma QueryTraced(sha: Sha, evs: seq<Event>, pin: Option<Uuid>, se: SessionState, se': SessionState)
    requires Traced(sha, evs, pin, se) && se'.loaded == se.loaded
    requires se'.ops == se.ops || exists rows :: se'.ops == se.ops + [Saw(rows)]
    ensures Traced(sha, evs, pin, se')
  {
    if se'.ops != se.ops {
      var rows :| se'.ops == se.ops + [Saw(rows)];
      ChangesOf(se.ops, Saw(rows));
    }
    assert Changes(se'.ops) == Changes(se.ops);
  }

  lemma HonestPrefix(sha: Sha, evs: seq<Event>, n: nat)
    requires n <= |evs| && Honest(sha, evs)
    ensures Honest(sha, evs[..n])
  {
    hide DiffsLoaded;
    forall m | 0 <= m < n && evs[..n][m].Flushed? && evs[..n][m].sid in Run(sha, evs[..n][..m]).sessions
      ensures DiffsLoaded(Run(sha, evs[..n][..m]).sessions[evs[..n][m].sid], evs[..n][m].unit)
    {
      assert evs[..n][..m] == evs[..m];
    }
  }

  lemma {:induction false} RunTraced(sha: Sha, evs: seq<Event>, sid: Sid)
    requires Honest(sha, evs) && sid in Run(sha, evs).sessions
    ensures Traced(sha, evs, sid.pin, Run(sha, evs).sessions[sid])
  {
    hide Traced, Honest, Step;
    if evs != [] {
      var n := |evs| - 1;
      HonestPrefix(sha, evs, n);
      if sid in Run(sha, evs[..n]).sessions {
        RunTraced(sha, evs[..n], sid);
      }
      StepTraced(sha, evs, sid);
    }
  }

  // ---------- From events to the committed history ----------

  lemma {:induction false} HistoryPrefix(sha: Sha, evs: seq<Event>, m: nat)
    requires m <= |evs|
    ensures |History(sha, evs[..m])| <= |History(sha, evs)|
    ensures History(sha, evs)[..|History(sha, evs[..m])|] == History(sha, evs[..m])
  {
    if m == |evs| {
      assert evs[..m] == evs;
    } else {
      var n := |evs| - 1;
      HistoryPrefix(sha, evs[..n], m);
      assert evs[..n][..m] == evs[..m];
    }
  }

  lemma VersionInHistory(sha: Sha, evs: seq<Event>, pin: Option<Uuid>, key: Key, cols: Columns)
    requires Version(sha, evs, pin, key, cols)
    ensures exists j ::
      0 <= j <= |History(sha, evs)| && CommittedAs(RowsAfter(sha, History(sha, evs)[..j]), pin, key, cols)
  {
    hide Serial, History, Run;
    var m :| 0 <= m <= |evs| && CommittedAs(Run(sha, evs[..m]).db.rows, pin, key, cols);
    HistoryPrefix(sha, evs, m);
    Serialisable(sha, evs[..m]);
    var j := |History(sha, evs[..m])|;
    assert CommittedAs(RowsAfter(sha, History(sha, evs)[..j]), pin, key, cols);
  }

  lemma {:induction false} HistoryReadsPast(sha: Sha, evs: seq<Event>, i: nat)
    requires Honest(sha, evs) && i < |History(sha, evs)| && History(sha, evs)[i].Session?
    requires var cs := Changes(History(sha, evs)[i].ops); |cs| == 1 && cs[0].Update? && cs[0].obj.key.table == "cases"
    ensures ReadPast(sha, History(sha, evs), i, Changes(History(sha, evs)[i].ops)[0])
  {
    hide Serial, Step, Honest, Changes;
    var n := |evs| - 1;
    var ts := History(sha, evs[..n]);
    HonestPrefix(sha, evs, n);
    if i < |ts| {
      HistoryReadsPast(sha, evs[..n], i);
      var c := Changes(ts[i].ops)[0];
      var j :| 0 <= j <= i && c.obj.key in RowsAfter(sha, ts[..j])
          && RowsAfter(sha, ts[..j])[c.obj.key].cols == Written(c.loaded);
      assert History(sha, evs)[..j] == ts[..j];
    } else {
      var sid := evs[n].sid;
      RunTraced(sha, evs[..n], sid);
      var c := Changes(History(sha, evs)[i].ops)[0];
      VersionInHistory(sha, evs[..n], sid.pin, c.obj.key, Written(c.loaded));
      var j :| 0 <= j <= |ts| && CommittedAs(RowsAfter(sha, ts[..j]), sid.pin, c.obj.key, Written(c.loaded));
      assert History(sha, evs)[..j] == ts[..j];
    }
  }

  lemma InterleavedReadsPast(sha: Sha, s: Settings, evs: seq<Event>, reqs: seq<Request>)
    requires Served(s, History(sha, evs), reqs) && Honest(sha, evs)
    ensures ReadsPast(sha, History(sha, evs), reqs)
  {
    hide History, Honest, ReadPast, UpdatedCase;
    var ts := History(sha, evs);
    forall i, c | 0 <= i < |ts| && ts[i].Session? && ts[i].pin.Some? && reqs[i].UpdateCase? && c in Changes(ts[i].ops)
        && c.Update?
      ensures ReadPast(sha, ts, i, c)
    {
      assert Serves(s, ts[i].pin.value, ts[i].now, reqs[i], ts[i].ops);
      assert Changes(ts[i].ops)[0] == c;
      HistoryReadsPast(sha, evs, i);
    }
  }

  /** Under every interleaving of requests whose updates diff against what they read: no case is
      ever resolved without a resolution and a time, and neither is ever taken back. */
  lemma CasesSettledInterleaved(sha: Sha, s: Settings, evs: seq<Event>, reqs: seq<Request>, k: Key)
    requires Served(s, History(sha, evs), reqs) && Honest(sha, evs)
    requires k in Run(sha, evs).db.rows && k.table == "cases"
    ensures Settled(Run(sha, evs).db.rows[k].cols)
    ensures forall m, name :: (0 <= m <= |evs| && name in {"resolution", "resolved_at"}
                               && k in Run(sha, evs[..m]).db.rows
                               && Set(Run(sha, evs[..m]).db.rows[k].cols, name)) ==>
              Set(Run(sha, evs).db.rows[k].cols, name)
  {
    hide Served, Settled, Set, Run, History, Honest, Serial;
    Serialisable(sha, evs);
    InterleavedReadsPast(sha, s, evs, reqs);
    CasesSettled(sha, s, History(sha, evs), reqs, k);
    forall m, name | 0 <= m <= |evs| && name in {"resolution", "resolved_at"}
        && k in Run(sha, evs[..m]).db.rows && Set(Run(sha, evs[..m]).db.rows[k].cols, name)
      ensures Set(Run(sha, evs).db.rows[k].cols, name)
    {
      HistoryPrefix(sha, evs, m);
      Serialisable(sha, evs[..m]);
      StaysSet(sha, s, History(sha, evs), reqs, |History(sha, evs[..m])|, k, name);
    }
  }
}
