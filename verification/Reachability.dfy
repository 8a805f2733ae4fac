/** Every serial run happens. Sessions.Serialisable and Sessions.HistoryRuns say that the committed
    transactions of an interleaving, run one at a time, go through and give its database; here is
    the converse: any transactions that go through one at a time are those of some interleaving. */
module Reachability {
  import opened Wrappers
  import opened Chain
  import opened Database
  import opened Sessions

  function EventOf(sid: Sid, op: Op): Event { if op.Wrote? then Flushed(sid, op.unit) else Queried(sid) }

  /** The events in which a session does these things. */
  function EventsOf(sid: Sid, ops: seq<Op>): seq<Event> {
    seq(|ops|, i requires 0 <= i < |ops| => EventOf(sid, ops[i]))
  }

  /** No other session has done anything yet. */
  predicate OthersIdle(s: System, sid: Sid) {
    forall other :: other in s.sessions && other != sid ==> Pend(s, other) == NOTHING
  }

  lemma RunAppend(sha: Sha, evs: seq<Event>, ev: Event)
    ensures Run(sha, evs + [ev]) == Step(sha, Run(sha, evs), ev)
    ensures History(sha, evs + [ev]) == History(sha, evs) + Completes(Run(sha, evs), ev)
  {
    hide Step, Completes;
    assert (evs + [ev])[..|evs|] == evs;
  }

  lemma IdleNeverBlock(s: System, sid: Sid, f: UnitOfWork)
    requires OthersIdle(s, sid)
    ensures !Blocked(s, sid, f)
  {
    hide Touches;
  }

  /** The session's state moved as the operation says, and nothing else did. */
  predicate Advanced(s: System, s': System, sid: Sid, ops: seq<Op>, q: Pending)
    requires sid in s.sessions
  {
    && s'.db == s.db && sid in s'.sessions && s'.sessions - {sid} == s.sessions - {sid}
    && s'.sessions[sid].now == s.sessions[sid].now && s'.sessions[sid].ops == ops && s'.sessions[sid].pend == q
  }

  lemma FlushAdvances(sha: Sha, s: System, sid: Sid, f: UnitOfWork, q: Pending)
    requires sid in s.sessions && OthersIdle(s, sid)
    requires FlushOn(sha, s.db, sid.pin, s.sessions[sid].now, Pend(s, sid), f) == Some(q)
    ensures Advanced(s, Step(sha, s, Flushed(sid, f)), sid, s.sessions[sid].ops + [Wrote(f)], q)
  {
    hide FlushOn, Blocked, Forget;
    IdleNeverBlock(s, sid, f);
  }

  lemma QueryAdvances(sha: Sha, s: System, sid: Sid)
    requires sid in s.sessions && Pend(s, sid).head.Some?
    ensures Advanced(s, Step(sha, s, Queried(sid)), sid,
                     s.sessions[sid].ops + [Saw(Visible(Overlay(s.db.rows, Pend(s, sid).writes), sid.pin))],
                     Pend(s, sid))
  {
    hide Visible, Overlay;
  }

  lemma AdvancedStaysIdle(s: System, s': System, sid: Sid, ops: seq<Op>, q: Pending)
    requires sid in s.sessions && OthersIdle(s, sid) && Advanced(s, s', sid, ops, q)
    ensures OthersIdle(s', sid)
  {
    forall other | other in s'.sessions && other != sid
      ensures Pend(s', other) == NOTHING
    {
      assert other in s'.sessions - {sid};
      assert other in s.sessions && (s'.sessions - {sid})[other] == (s.sessions - {sid})[other];
    }
  }

  lemma AdvancedTrans(s: System, s': System, s'': System, sid: Sid, ops: seq<Op>, ops': seq<Op>, p: Pending, q: Pending)
    requires sid in s.sessions && Advanced(s, s', sid, ops, p) && Advanced(s', s'', sid, ops', q)
    ensures Advanced(s, s'', sid, ops', q)
  {}

  /** A session that has only begun does all this, undisturbed. */
  lemma {:induction false} BodyRuns(sha: Sha, evs: seq<Event>, sid: Sid, ops: seq<Op>)
    requires sid in Run(sha, evs).sessions && OthersIdle(Run(sha, evs), sid)
    requires Run(sha, evs).sessions[sid].ops == [] && Pend(Run(sha, evs), sid) == NOTHING
    requires RunOps(sha, Run(sha, evs).db, sid.pin, Run(sha, evs).sessions[sid].now, ops).Some?
    ensures var s := Run(sha, evs);
      Advanced(s, Run(sha, evs + EventsOf(sid, ops)), sid, ops,
               RunOps(sha, s.db, sid.pin, s.sessions[sid].now, ops).value)
    ensures History(sha, evs + EventsOf(sid, ops)) == History(sha, evs)
    decreases |ops|
  {
    hide FlushOn, Step, Run, History, OthersIdle;
    var s := Run(sha, evs);
    if ops == [] {
      assert evs + EventsOf(sid, ops) == evs;
    } else {
      var n := |ops| - 1;
      var before := evs + EventsOf(sid, ops[..n]);
      BodyRuns(sha, evs, sid, ops[..n]);
      assert EventsOf(sid, ops) == EventsOf(sid, ops[..n]) + [EventOf(sid, ops[n])];
      assert evs + EventsOf(sid, ops) == before + [EventOf(sid, ops[n])];
      RunAppend(sha, before, EventOf(sid, ops[n]));
      var s1, p := Run(sha, before), RunOps(sha, s.db, sid.pin, s.sessions[sid].now, ops[..n]).value;
      AdvancedStaysIdle(s, s1, sid, ops[..n], p);
      var q := RunOps(sha, s.db, sid.pin, s.sessions[sid].now, ops).value;
      assert ops == ops[..n] + [ops[n]];
      if ops[n].Wrote? {
        FlushAdvances(sha, s1, sid, ops[n].unit, q);
      } else {
        QueryAdvances(sha, s1, sid);
      }
      AdvancedTrans(s, s1, Run(sha, evs + EventsOf(sid, ops)), sid, ops[..n], ops, p, q);
      assert History(sha, before) + [] == History(sha, before);
    }
  }

  /** The events of a session that does all this and commits. */
  function Serving(sid: Sid, ops: seq<Op>): seq<Event> { EventsOf(sid, ops) + [Committed(sid)] }

  /** It adds its transaction to the history, and is gone. */
  lemma ServingCommits(sha: Sha, evs: seq<Event>, sid: Sid, ops: seq<Op>)
    requires sid in Run(sha, evs).sessions && OthersIdle(Run(sha, evs), sid)
    requires Run(sha, evs).sessions[sid].ops == [] && Pend(Run(sha, evs), sid) == NOTHING
    requires RunOps(sha, Run(sha, evs).db, sid.pin, Run(sha, evs).sessions[sid].now, ops).Some?
    ensures var s, t := Run(sha, evs), Session(sid.pin, Run(sha, evs).sessions[sid].now, ops);
      && Run(sha, evs + Serving(sid, ops)) == System(Atomic(sha, s.db, t), s.sessions - {sid})
      && History(sha, evs + Serving(sid, ops)) == History(sha, evs) + [t]
  {
    hide RunOps, Run, History, CommitOn, OthersIdle, EventsOf;
    BodyRuns(sha, evs, sid, ops);
    var body := evs + EventsOf(sid, ops);
    assert evs + Serving(sid, ops) == body + [Committed(sid)];
    RunAppend(sha, body, Committed(sid));
  }

  /** None of the transactions raises. */
  predicate GoThrough(sha: Sha, ts: seq<Txn>) {
    forall i :: 0 <= i < |ts| && ts[i].Session? ==>
      RunOps(sha, Serial(sha, EMPTY, ts[..i]), ts[i].pin, ts[i].now, ts[i].ops).Some?
  }

  lemma GoThroughPrefix(sha: Sha, ts: seq<Txn>, n: nat)
    requires GoThrough(sha, ts) && n <= |ts|
    ensures GoThrough(sha, ts[..n])
  {
    hide RunOps, Serial;
    forall i | 0 <= i < n
      ensures ts[..n][..i] == ts[..i] && ts[..n][i] == ts[i]
    {}
  }

  lemma BeginsAlone(sha: Sha, evs: seq<Event>, sid: Sid, now: int)
    requires Run(sha, evs).sessions == map[]
    ensures var s := Run(sha, evs + [Begun(sid, now)]);
      && s.db == Run(sha, evs).db && OthersIdle(s, sid)
      && s.sessions == map[sid := SessionState(now, map[], [], [], NOTHING)]
    ensures History(sha, evs + [Begun(sid, now)]) == History(sha, evs)
  {
    hide Run, History;
    RunAppend(sha, evs, Begun(sid, now));
    assert History(sha, evs) + [] == History(sha, evs);
  }

  /** Transactions that go through one at a time are the history of some interleaving. */
  lemma {:induction false} EverySerialRunHappens(sha: Sha, ts: seq<Txn>) returns (evs: seq<Event>)
    requires GoThrough(sha, ts)
    ensures History(sha, evs) == ts && Run(sha, evs).sessions == map[]
  {
    hide RunOps, Run, Serial, Atomic, Serving;
    if ts == [] {
      evs := [];
      NothingHappened(sha);
    } else {
      var n := |ts| - 1;
      GoThroughPrefix(sha, ts, n);
      var before := EverySerialRunHappens(sha, ts[..n]);
      Serialisable(sha, before);
      match ts[n]
      case Provision(tenant) =>
        RunAppend(sha, before, Provisioned(tenant));
        evs := before + [Provisioned(tenant)];
      case Session(pin, now, ops) =>
        var sid := Sid(pin, 0);
        BeginsAlone(sha, before, sid, now);
        ServingCommits(sha, before + [Begun(sid, now)], sid, ops);
        evs := before + [Begun(sid, now)] + Serving(sid, ops);
    }
  }

  lemma NothingHappened(sha: Sha)
    ensures Run(sha, []) == START && History(sha, []) == []
  {}

  /** And the history of every interleaving goes through one at a time. */
  lemma HistoriesGoThrough(sha: Sha, evs: seq<Event>)
    ensures GoThrough(sha, History(sha, evs))
  {
    hide RunOps, Serial, History;
    forall i | 0 <= i < |History(sha, evs)| && History(sha, evs)[i].Session?
      ensures RunOps(sha, Serial(sha, EMPTY, History(sha, evs)[..i]), History(sha, evs)[i].pin,
                     History(sha, evs)[i].now, History(sha, evs)[i].ops).Some?
    {
      HistoryRuns(sha, evs, i);
    }
  }

  /** So the committed histories are exactly the transactions that go through one at a time. */
  lemma HistoriesExactly(sha: Sha, ts: seq<Txn>)
    ensures GoThrough(sha, ts) <==> exists evs :: History(sha, evs) == ts
  {
    hide GoThrough, History;
    if GoThrough(sha, ts) {
      var evs := EverySerialRunHappens(sha, ts);
    }
    if evs :| History(sha, evs) == ts {
      HistoriesGoThrough(sha, evs);
    }
  }
}
