/** The session object and its audit listener as `app/db/audit.py` and `app/db/session.py` write
    them, step by step, each method proved to do what the functions of module Database say. */
module AuditSession {
  import opened Wrappers
  import opened Json
  import opened Chain
  import opened Database

  /** The committed database all sessions share. */
  class SharedDatabase {
    var db: Db

    constructor ()
      ensures db == EMPTY
    {
      db := EMPTY;
    }

    /** create_tenant: a head row at sequence 0 with the genesis hash. */
    method CreateTenant(sha: Sha, tenant: Uuid)
      modifies this
      ensures db == ProvisionOn(sha, old(db), tenant)
    {
      if tenant !in db.heads {
        db := db.(heads := db.heads[tenant := Head(0, GenesisHash(sha, tenant))]);
      }
    }
  }

  /** The identity-mapped head row of one session. */
  class ChainHead {
    var lastSeq: int
    var lastHash: Digest

    constructor (head: Head)
      ensures lastSeq == head.lastSeq && lastHash == head.lastHash
    {
      lastSeq, lastHash := head.lastSeq, head.lastHash;
    }
  }

  /** _diff: the old and new values of the changed columns. */
  method Diff(columns: seq<string>, loaded: Columns, current: Columns) returns (oldDict: Members, newDict: Members)
    requires forall c :: c in columns ==> c in loaded && c in current
    ensures oldDict == Serialize(Changed(columns, loaded, current), loaded)
    ensures newDict == Serialize(Changed(columns, loaded, current), current)
  {
    oldDict, newDict := NoMembers, NoMembers;
    for i := 0 to |columns|
      invariant oldDict == Serialize(Changed(columns[..i], loaded, current), loaded)
      invariant newDict == Serialize(Changed(columns[..i], loaded, current), current)
    {
      var col := columns[i];
      var seen := columns[..i + 1];
      assert seen[..i] == columns[..i] && seen[i] == col;
      if loaded[col] != current[col] {
        var before := Changed(columns[..i], loaded, current);
        assert (before + [col])[..|before|] == before;
        oldDict := Append(oldDict, col, loaded[col]);
        newDict := Append(newDict, col, current[col]);
      }
    }
    assert columns[..|columns|] == columns;
  }

  function Inserts(news: seq<Object>): seq<Change> { seq(|news|, i requires 0 <= i < |news| => Insert(news[i])) }

  function Updates(dirty: seq<(Object, Columns)>): seq<Change> {
    seq(|dirty|, i requires 0 <= i < |dirty| => Update(dirty[i].0, dirty[i].1))
  }

  function Deletes(deleted: seq<Object>): seq<Change> {
    seq(|deleted|, i requires 0 <= i < |deleted| => Delete(deleted[i]))
  }

  lemma EntryBuilt(sha: Sha, head: Head, c: Change)
    requires Loaded(c)
    ensures Unique(OldValues(c)) && Unique(NewValues(c))
    ensures var e := Entry(head.lastSeq + 1, c.obj.tenant, Action(c), c.obj.key.table, c.obj.key.id,
                           Stored(OldValues(c)), Stored(NewValues(c)), head.lastHash, "");
      EntryFor(sha, head, c) == e.(recordHash := sha(RowInput(head.lastHash, e)))
  {
    hide RowInput, OldValues, NewValues, Stored;
    ValuesUnique(c);
  }

  /** A diff is empty exactly when the change has no effect. */
  lemma DiffEmpty(c: Change)
    requires c.Update? && Loaded(c)
    ensures var changed := ChangedColumns(c);
      && (Serialize(changed, c.loaded).Member? <==> Effective(c))
      && (Serialize(changed, c.obj.vals).Member? <==> Effective(c))
  {
    var changed := ChangedColumns(c);
    assert changed != [] ==> changed[0] in changed;
    assert Keys(NoMembers) == {};
  }

  class TenantSession {
    const sha: Sha
    const database: SharedDatabase
    const pin: Option<Uuid>
    const now: int
    var entries: seq<Entry>
    var writes: Writes
    var head: ChainHead?
    var closed: bool

    /** tenant_session: a fresh session and transaction, pinned before any query. */
    constructor (sha: Sha, database: SharedDatabase, tenant: Uuid, now: int)
      ensures this.sha == sha && this.database == database && pin == Some(tenant) && this.now == now
      ensures Pend() == NOTHING && !closed
    {
      this.sha, this.database, this.now := sha, database, now;
      pin := Some(tenant);
      entries, writes, head, closed := [], map[], null, false;
    }

    /** The uncommitted work this session holds. */
    function Pend(): Pending
      reads this, head
    {
      Pending(entries, writes, if head == null then None else Some(Head(head.lastSeq, head.lastHash)))
    }

    /** The head row the next entry links to. */
    function Tip(tenant: Uuid): Head
      requires head != null || tenant in database.db.heads
      reads this, head, database
    {
      if head != null then Head(head.lastSeq, head.lastHash) else database.db.heads[tenant]
    }

    /** SELECT ... FOR UPDATE on the head row; false: scalar_one() raised, no row being visible. */
    method TakeHead(tenant: Uuid) returns (ok: bool)
      requires !closed
      modifies this`head
      ensures ok <==> Sees(pin, tenant) && tenant in database.db.heads
      ensures !ok ==> head == old(head)
      ensures ok ==> head != null && Head(head.lastSeq, head.lastHash) == old(Tip(tenant))
      ensures head == old(head) || fresh(head)
    {
      ok := Sees(pin, tenant) && tenant in database.db.heads;
      if ok && head == null {
        head := new ChainHead(database.db.heads[tenant]);
      }
    }

    /** _append_to_chain of the values the listener serialised for change c; false: it raised. */
    method AppendToChain(key: Key, tenant: Uuid, action: string, oldValues: Value, newValues: Value, ghost c: Change)
      returns (ok: bool)
      requires Loaded(c) && !closed
      requires key == c.obj.key && tenant == c.obj.tenant && action == Action(c)
      requires oldValues == OldValues(c) && newValues == NewValues(c)
      modifies this, head
      ensures ok == AppendChange(sha, database.db, pin, old(Pend()), c).Some?
      ensures Some(Pend()) == if ok then AppendChange(sha, database.db, pin, old(Pend()), c) else Some(old(Pend()))
      ensures !closed && (head == old(head) || fresh(head))
    {
      hide EntryFor, OldValues, NewValues, RowInput, Stored, Action;
      ValuesUnique(c);
      var oldSafe, newSafe := Stored(oldValues), Stored(newValues);
      ok := TakeHead(tenant);
      if ok {
        var entry := Entry(head.lastSeq + 1, tenant, action, key.table, key.id, oldSafe, newSafe, head.lastHash, "");
        entry := entry.(recordHash := sha(RowInput(head.lastHash, entry)));
        EntryBuilt(sha, Head(head.lastSeq, head.lastHash), c);
        entries := entries + [entry];
        head.lastSeq := head.lastSeq + 1;
        head.lastHash := entry.recordHash;
      }
    }

    /** for obj in session.new */
    method CaptureNew(news: seq<Object>) returns (ok: bool)
      requires !closed
      modifies this, head
      ensures ok == AppendAll(sha, database.db, pin, old(Pend()), Inserts(news)).Some?
      ensures ok ==> AppendAll(sha, database.db, pin, old(Pend()), Inserts(news)) == Some(Pend())
      ensures !closed && (head == old(head) || fresh(head))
    {
      hide EntryFor, AppendChange;
      ghost var before, cs := Pend(), Inserts(news);
      for i := 0 to |news|
        invariant AppendAll(sha, database.db, pin, before, cs[..i]) == Some(Pend())
        invariant !closed && (head == old(head) || fresh(head))
      {
        assert cs[..i + 1][..i] == cs[..i] && cs[i] == Insert(news[i]);
        var o := news[i];
        var appended := AppendToChain(o.key, o.tenant, "INSERT", Null, Obj(Serialize(o.columns, o.vals)), cs[i]);
        if !appended {
          AppendFails(sha, database.db, pin, before, cs, i);
          return false;
        }
      }
      assert cs[..|cs|] == cs;
      return true;
    }

    /** One dirty object: appended when its diff is not empty; false: appending raised. */
    method CaptureChanged(o: Object, loaded: Columns) returns (ok: bool)
      requires Loaded(Update(o, loaded)) && !closed
      modifies this, head
      ensures ok == (Effective(Update(o, loaded)) ==>
                       AppendChange(sha, database.db, pin, old(Pend()), Update(o, loaded)).Some?)
      ensures Some(Pend()) == if ok && Effective(Update(o, loaded))
                              then AppendChange(sha, database.db, pin, old(Pend()), Update(o, loaded))
                              else Some(old(Pend()))
      ensures !closed && (head == old(head) || fresh(head))
    {
      hide Serialize, Changed, AppendChange, Effective;
      var oldDict, newDict := Diff(o.columns, loaded, o.vals);
      DiffEmpty(Update(o, loaded));
      ok := true;
      if oldDict.Member? || newDict.Member? {
        ok := AppendToChain(o.key, o.tenant, "UPDATE", Obj(oldDict), Obj(newDict), Update(o, loaded));
      }
    }

    /** for obj in session.dirty */
    method CaptureDirty(dirty: seq<(Object, Columns)>) returns (ok: bool)
      requires (forall c :: c in Updates(dirty) ==> Loaded(c)) && !closed
      modifies this, head
      ensures ok == AppendAll(sha, database.db, pin, old(Pend()), Updates(dirty)).Some?
      ensures ok ==> AppendAll(sha, database.db, pin, old(Pend()), Updates(dirty)) == Some(Pend())
      ensures !closed && (head == old(head) || fresh(head))
    {
      hide EntryFor, AppendChange, AppendAll, Effective;
      ghost var before, cs := Pend(), Updates(dirty);
      AppendNothing(sha, database.db, pin, before);
      for i := 0 to |dirty|
        invariant AppendAll(sha, database.db, pin, before, cs[..i]) == Some(Pend())
        invariant !closed && (head == old(head) || fresh(head))
      {
        assert cs[i] == Update(dirty[i].0, dirty[i].1) && cs[i] in cs;
        AppendNext(sha, database.db, pin, before, cs, i, Pend());
        var appended := CaptureChanged(dirty[i].0, dirty[i].1);
        if !appended {
          AppendFails(sha, database.db, pin, before, cs, i);
          return false;
        }
      }
      assert cs[..|cs|] == cs;
      return true;
    }

    /** for obj in session.deleted */
    method CaptureDeleted(deleted: seq<Object>) returns (ok: bool)
      requires !closed
      modifies this, head
      ensures ok == AppendAll(sha, database.db, pin, old(Pend()), Deletes(deleted)).Some?
      ensures ok ==> AppendAll(sha, database.db, pin, old(Pend()), Deletes(deleted)) == Some(Pend())
      ensures !closed && (head == old(head) || fresh(head))
    {
      hide EntryFor, AppendChange;
      ghost var before, cs := Pend(), Deletes(deleted);
      for i := 0 to |deleted|
        invariant AppendAll(sha, database.db, pin, before, cs[..i]) == Some(Pend())
        invariant !closed && (head == old(head) || fresh(head))
      {
        assert cs[..i + 1][..i] == cs[..i] && cs[i] == Delete(deleted[i]);
        var o := deleted[i];
        var appended := AppendToChain(o.key, o.tenant, "DELETE", Obj(Serialize(o.columns, o.vals)), Null, cs[i]);
        if !appended {
          AppendFails(sha, database.db, pin, before, cs, i);
          return false;
        }
      }
      assert cs[..|cs|] == cs;
      return true;
    }

    /** capture_audit_entries: new objects, then dirty ones with a nonempty diff, then deleted ones. */
    method CaptureAuditEntries(news: seq<Object>, dirty: seq<(Object, Columns)>, deleted: seq<Object>)
      returns (ok: bool)
      requires (forall c :: c in Updates(dirty) ==> Loaded(c)) && !closed
      modifies this, head
      ensures var cs := Inserts(news) + Updates(dirty) + Deletes(deleted);
        && ok == AppendAll(sha, database.db, pin, old(Pend()), cs).Some?
        && (ok ==> AppendAll(sha, database.db, pin, old(Pend()), cs) == Some(Pend()))
      ensures !closed && (head == old(head) || fresh(head))
    {
      ghost var before := Pend();
      AppendSplits(sha, database.db, pin, before, Inserts(news), Updates(dirty));
      AppendSplits(sha, database.db, pin, before, Inserts(news) + Updates(dirty), Deletes(deleted));
      ok := CaptureNew(news);
      if ok {
        ok := CaptureDirty(dirty);
      }
      if ok {
        ok := CaptureDeleted(deleted);
      }
    }

    /** The statements of one flush; false: one of them raised. */
    method WriteRows(order: seq<Change>) returns (ok: bool)
      requires (forall c :: c in order ==> Loaded(c)) && !closed
      modifies this`writes
      ensures ok == WriteAll(database.db.rows, pin, now, old(writes), order).Some?
      ensures ok ==> WriteAll(database.db.rows, pin, now, old(writes), order) == Some(writes)
    {
      for i := 0 to |order|
        invariant WriteAll(database.db.rows, pin, now, old(writes), order[..i]) == Some(writes)
      {
        assert order[..i + 1][..i] == order[..i];
        var w := WriteChange(database.db.rows, pin, now, writes, order[i]);
        if w.None? {
          WriteFails(database.db.rows, pin, now, old(writes), order, i);
          return false;
        }
        writes := w.value;
      }
      assert order[..|order|] == order;
      return true;
    }

    /** session.flush(): the listener first, then the statements; false: something raised. */
    method Flush(f: UnitOfWork, news: seq<Object>, dirty: seq<(Object, Columns)>, deleted: seq<Object>)
      returns (ok: bool)
      requires f.changes == Inserts(news) + Updates(dirty) + Deletes(deleted) && !closed
      modifies this, head
      ensures ok == FlushOn(sha, database.db, pin, now, old(Pend()), f).Some?
      ensures ok ==> FlushOn(sha, database.db, pin, now, old(Pend()), f) == Some(Pend())
      ensures !closed && (head == old(head) || fresh(head))
    {
      assert forall c :: c in Updates(dirty) ==> c in f.changes;
      ok := CaptureAuditEntries(news, dirty, deleted);
      if ok {
        ok := WriteRows(f.order);
      }
    }

    /** The end of the `with db.begin()` block: commit, or roll back after an exception; then close. */
    method Finish(failed: bool)
      requires !closed
      modifies this, database
      ensures closed && Pend() == NOTHING
      ensures database.db == if failed then old(database.db) else CommitOn(old(database.db), pin, old(Pend()))
    {
      if !failed && head != null && pin.Some? {
        var db := database.db;
        database.db := Db(Overlay(db.rows, writes), db.log + entries,
                          db.heads[pin.value := Head(head.lastSeq, head.lastHash)]);
      }
      entries, writes, head, closed := [], map[], null, true;
    }
  }

  // ---------- Loops and the functions that specify them ----------

  lemma {:induction false} AppendFails(sha: Sha, db: Db, pin: Option<Uuid>, p: Pending, cs: seq<Change>, i: nat)
    requires (forall c :: c in cs ==> Loaded(c)) && i < |cs|
    requires AppendAll(sha, db, pin, p, cs[..i + 1]).None?
    ensures AppendAll(sha, db, pin, p, cs).None?
  {
    var n := |cs| - 1;
    if i < n {
      assert cs[..n][..i + 1] == cs[..i + 1];
      AppendFails(sha, db, pin, p, cs[..n], i);
    } else {
      assert cs[..i + 1] == cs;
    }
  }

  lemma AppendNext(sha: Sha, db: Db, pin: Option<Uuid>, p: Pending, cs: seq<Change>, i: nat, q: Pending)
    requires (forall c :: c in cs ==> Loaded(c)) && i < |cs|
    requires AppendAll(sha, db, pin, p, cs[..i]) == Some(q)
    ensures AppendAll(sha, db, pin, p, cs[..i + 1])
         == if Effective(cs[i]) then AppendChange(sha, db, pin, q, cs[i]) else Some(q)
  {
    hide AppendChange, Effective;
    assert cs[..i + 1][..i] == cs[..i] && cs[..i + 1][i] == cs[i];
  }

  lemma {:induction false} WriteFails(rows: Rows, pin: Option<Uuid>, now: int, writes: Writes, cs: seq<Change>, i: nat)
    requires (forall c :: c in cs ==> Loaded(c)) && i < |cs|
    requires WriteAll(rows, pin, now, writes, cs[..i + 1]).None?
    ensures WriteAll(rows, pin, now, writes, cs).None?
  {
    var n := |cs| - 1;
    if i < n {
      assert cs[..n][..i + 1] == cs[..i + 1];
      WriteFails(rows, pin, now, writes, cs[..n], i);
    } else {
      assert cs[..i + 1] == cs;
    }
  }

  lemma {:induction false} AppendSplits(sha: Sha, db: Db, pin: Option<Uuid>, p: Pending, a: seq<Change>, b: seq<Change>)
    requires (forall c :: c in a ==> Loaded(c)) && (forall c :: c in b ==> Loaded(c))
    ensures AppendAll(sha, db, pin, p, a + b)
         == match AppendAll(sha, db, pin, p, a) case None => None case Some(q) => AppendAll(sha, db, pin, q, b)
  {
    if b == [] {
      assert a + b == a;
    } else {
      var n := |b| - 1;
      assert (a + b)[..|a + b| - 1] == a + b[..n];
      AppendSplits(sha, db, pin, p, a, b[..n]);
    }
  }
}
