/** The shared tables, what one ORM flush does to them, and a whole transaction.

    Everything here is one session's view: the database it reads, and the entries, row
    versions and chain head it has prepared but not committed. A flush first appends the
    audit entries of all its changes (`capture_audit_entries`), which takes the head row,
    and only then writes the rows, in whatever order the unit of work chooses. */
module Database {
  import opened Wrappers
  import opened Json
  import opened CanonicalJson
  import opened Chain
  import opened ColumnTypes

  datatype Key = Key(table: string, id: Uuid)

  type Columns = map<string, Value>

  /** A committed row version; created_at is the time its transaction started. */
  datatype Row = Row(tenant: Uuid, createdAt: int, cols: Columns)

  type Rows = map<Key, Row>

  datatype Db = Db(rows: Rows, log: seq<Entry>, heads: map<Uuid, Head>)

  /** Columns filled in by the server: None when the listener serialises, never diffed. */
  const SERVER_COLUMNS: set<string> :=
    {"created_at", "updated_at", "opened_at", "evaluated_at", "screened_at", "submitted_at", "checked_at"}

  function Written(m: Columns): Columns { m - SERVER_COLUMNS }

  lemma WrittenMeans(m: Columns, name: string)
    ensures name in Written(m) <==>
              && name in m && name != "created_at" && name != "updated_at" && name != "opened_at"
              && name != "evaluated_at" && name != "screened_at" && name != "submitted_at" && name != "checked_at"
    ensures name in Written(m) ==> Written(m)[name] == m[name]
  {}

  /** The values as the columns of a table keep them. */
  function CoerceAll(table: string, m: Columns): Columns { map c | c in m :: Coerce(table, c, m[c]) }

  /** Only transactions hold a column that rounds. */
  lemma CoerceElsewhere(table: string, m: Columns)
    requires table != "transactions"
    ensures CoerceAll(table, m) == m
  {}

  // ---------- Row-level security ----------

  /** USING and WITH CHECK: tenant_id = current_setting('app.current_tenant', true)::uuid.
      An unpinned session compares with NULL and sees nothing. */
  predicate Sees(pin: Option<Uuid>, tenant: Uuid) { pin == Some(tenant) }

  function Visible(rows: Rows, pin: Option<Uuid>): Rows {
    map k | k in rows && Sees(pin, rows[k].tenant) :: rows[k]
  }

  // ---------- Objects and changes ----------

  /** A mapped object: its columns in mapper order, and their values. */
  datatype Image = Image(key: Key, tenant: Uuid, columns: seq<string>, vals: Columns)

  ghost predicate Mapped(o: Image) {
    && (forall c :: c in o.columns <==> c in o.vals)
    && (forall i, j :: 0 <= i < j < |o.columns| ==> o.columns[i] != o.columns[j])
    && (forall c :: c in o.vals ==> Unique(o.vals[c]))
  }

  /** An object the mapper can flush. */
  type Object = o: Image | Mapped(o) witness Image(Key("", seq(36, _ => '0')), seq(36, _ => '0'), [], map[])

  /** One dirty, new or deleted object; `loaded` is what the session read it as. */
  datatype Change =
    | Insert(obj: Object)
    | Update(obj: Object, loaded: Columns)
    | Delete(obj: Object)

  predicate Loaded(c: Change) {
    c.Update? ==> c.loaded.Keys == c.obj.vals.Keys && forall k :: k in c.loaded ==> Unique(c.loaded[k])
  }

  /** _serialize */
  function Serialize(columns: seq<string>, vals: Columns): (r: Members)
    requires forall c :: c in columns ==> c in vals
    ensures forall c :: c in Keys(r) <==> c in columns
  {
    if columns == [] then NoMembers
    else
      var n := |columns| - 1;
      assert columns == columns[..n] + [columns[n]];
      Append(Serialize(columns[..n], vals), columns[n], vals[columns[n]])
  }

  /** The changed columns, in mapper order. */
  function Changed(columns: seq<string>, loaded: Columns, current: Columns): (r: seq<string>)
    requires forall c :: c in columns ==> c in loaded && c in current
    ensures forall c :: c in r <==> c in columns && loaded[c] != current[c]
    ensures forall c :: c in r ==> c in loaded && c in current
  {
    if columns == [] then []
    else
      var n := |columns| - 1;
      assert columns == columns[..n] + [columns[n]];
      var before := Changed(columns[..n], loaded, current);
      if loaded[columns[n]] != current[columns[n]] then before + [columns[n]] else before
  }

  function ChangedColumns(c: Change): seq<string>
    requires c.Update? && Loaded(c)
  {
    Changed(c.obj.columns, c.loaded, c.obj.vals)
  }

  /** Whether the listener records the change: an UPDATE with an empty diff is skipped. */
  predicate Effective(c: Change)
    requires Loaded(c)
  {
    c.Update? ==> ChangedColumns(c) != []
  }

  function OldValues(c: Change): Value
    requires Loaded(c)
  {
    match c
    case Insert(_) => Null
    case Update(o, loaded) => Obj(Serialize(ChangedColumns(c), loaded))
    case Delete(o) => Obj(Serialize(o.columns, o.vals))
  }

  function NewValues(c: Change): Value
    requires Loaded(c)
  {
    match c
    case Insert(o) => Obj(Serialize(o.columns, o.vals))
    case Update(o, _) => Obj(Serialize(ChangedColumns(c), o.vals))
    case Delete(_) => Null
  }

  function Action(c: Change): string {
    match c
    case Insert(_) => "INSERT"
    case Update(_, _) => "UPDATE"
    case Delete(_) => "DELETE"
  }

  lemma {:induction false} AppendLookup(ms: Members, key: string, value: Value)
    requires key !in Keys(ms)
    ensures Lookup(Append(ms, key, value), key) == value
    ensures forall k :: k in Keys(ms) ==> Lookup(Append(ms, key, value), k) == Lookup(ms, k)
    ensures UniqueMembers(ms) && Unique(value) ==> UniqueMembers(Append(ms, key, value))
  {
    if ms.Member? {
      AppendLookup(ms.rest, key, value);
    }
  }

  predicate Distinct(columns: seq<string>) {
    forall i, j :: 0 <= i < j < |columns| ==> columns[i] != columns[j]
  }

  lemma {:induction false} SerializeLookup(columns: seq<string>, vals: Columns)
    requires Distinct(columns) && forall c :: c in columns ==> c in vals
    ensures forall c :: c in columns ==> Lookup(Serialize(columns, vals), c) == vals[c]
    ensures (forall c :: c in columns ==> Unique(vals[c])) ==> UniqueMembers(Serialize(columns, vals))
  {
    if columns != [] {
      var n := |columns| - 1;
      var init := columns[..n];
      assert columns == init + [columns[n]];
      SerializeLookup(init, vals);
      assert forall i :: 0 <= i < n ==> init[i] == columns[i];
      AppendLookup(Serialize(init, vals), columns[n], vals[columns[n]]);
    }
  }

  lemma {:induction false} ChangedDistinct(columns: seq<string>, loaded: Columns, current: Columns)
    requires Distinct(columns) && forall c :: c in columns ==> c in loaded && c in current
    ensures Distinct(Changed(columns, loaded, current))
  {
    if columns != [] {
      var n := |columns| - 1;
      var init := columns[..n];
      ChangedDistinct(init, loaded, current);
      assert forall i :: 0 <= i < n ==> init[i] == columns[i];
      forall c | c in Changed(init, loaded, current)
        ensures c != columns[n]
      {
        assert c in init;
      }
    }
  }

  lemma ValuesUnique(c: Change)
    requires Loaded(c)
    ensures Unique(OldValues(c)) && Unique(NewValues(c))
  {
    SerializeLookup(c.obj.columns, c.obj.vals);
    if c.Update? {
      ChangedDistinct(c.obj.columns, c.loaded, c.obj.vals);
      SerializeLookup(ChangedColumns(c), c.loaded);
      SerializeLookup(ChangedColumns(c), c.obj.vals);
    }
  }

  /** _json_safe of a payload whose keys are unique. */
  function Stored(v: Value): (r: Jsonb)
    requires Unique(v)
    ensures r == Rendered(v)
  {
    JsonSafeStored(v);
    JsonSafe(v).value
  }

  /** The entry _append_to_chain adds under a given head. */
  function EntryFor(sha: Sha, head: Head, c: Change): (e: Entry)
    requires Loaded(c)
    ensures RowOk(sha, head.lastHash, e) && e.seqNo == head.lastSeq + 1 && |e.recordHash| == 64
  {
    ValuesUnique(c);
    var e := Entry(head.lastSeq + 1, c.obj.tenant, Action(c), c.obj.key.table, c.obj.key.id,
                   Stored(OldValues(c)), Stored(NewValues(c)), head.lastHash, "");
    e.(recordHash := sha(RowInput(head.lastHash, e)))
  }

  /** What one side of an entry shows: these columns, each with its value as JSON has it. */
  ghost predicate ShowsColumns(v: Value, columns: set<string>, vals: Columns) {
    && v.Obj? && Keys(v.members) == columns
    && forall c :: c in columns ==> c in vals && Lookup(v.members, c) == Rendered(vals[c])
  }

  lemma {:induction false} RenderedLookup(ms: Members, k: string)
    requires k in Keys(ms)
    ensures Lookup(RenderedMembers(ms), k) == Rendered(Lookup(ms, k))
  {
    if ms.key != k {
      RenderedLookup(ms.rest, k);
    }
  }

  lemma SerializedShows(columns: seq<string>, vals: Columns)
    requires Distinct(columns) && forall c :: c in columns ==> c in vals
    ensures ShowsColumns(Rendered(Obj(Serialize(columns, vals))), (set c | c in columns), vals)
  {
    hide Serialize, Lookup;
    SerializeLookup(columns, vals);
    forall c | c in columns
      ensures Lookup(RenderedMembers(Serialize(columns, vals)), c) == Rendered(vals[c])
    {
      RenderedLookup(Serialize(columns, vals), c);
    }
  }

  lemma WholeSide(o: Object)
    ensures ShowsColumns(Rendered(Obj(Serialize(o.columns, o.vals))), o.vals.Keys, o.vals)
  {
    hide ShowsColumns, Serialize, Rendered;
    SerializedShows(o.columns, o.vals);
    assert (set k | k in o.columns) == o.vals.Keys;
  }

  lemma ChangedSides(c: Change)
    requires c.Update? && Loaded(c)
    ensures var changed := set k | k in c.obj.vals && c.loaded[k] != c.obj.vals[k];
      && ShowsColumns(Rendered(OldValues(c)), changed, c.loaded)
      && ShowsColumns(Rendered(NewValues(c)), changed, c.obj.vals)
  {
    hide ShowsColumns, Serialize, Rendered;
    ChangedDistinct(c.obj.columns, c.loaded, c.obj.vals);
    SerializedShows(ChangedColumns(c), c.loaded);
    SerializedShows(ChangedColumns(c), c.obj.vals);
    assert (set k | k in ChangedColumns(c)) == set k | k in c.obj.vals && c.loaded[k] != c.obj.vals[k];
  }

  lemma EntryParts(sha: Sha, head: Head, c: Change)
    requires Loaded(c)
    ensures var e := EntryFor(sha, head, c);
      && e.seqNo == head.lastSeq + 1 && e.prevHash == head.lastHash && e.action == Action(c)
      && e.tenant == c.obj.tenant && e.table == c.obj.key.table && e.record == c.obj.key.id
      && e.oldValues == Rendered(OldValues(c)) && e.newValues == Rendered(NewValues(c))
  {
    hide OldValues, NewValues, RowInput, Rendered;
    ValuesUnique(c);
  }

  /** The entry of a change names its row and what was done; an INSERT has no old values and every new
      one, a DELETE no new values and every old one, an UPDATE both of the columns that changed. */
  lemma EntryExact(sha: Sha, head: Head, c: Change)
    requires Loaded(c)
    ensures var e, o := EntryFor(sha, head, c), c.obj;
      && e.seqNo == head.lastSeq + 1 && e.prevHash == head.lastHash
      && e.tenant == o.tenant && e.table == o.key.table && e.record == o.key.id
      && match c
         case Insert(_) => e.action == "INSERT" && e.oldValues == Null && ShowsColumns(e.newValues, o.vals.Keys, o.vals)
         case Delete(_) => e.action == "DELETE" && e.newValues == Null && ShowsColumns(e.oldValues, o.vals.Keys, o.vals)
         case Update(_, loaded) =>
           var changed := set k | k in o.vals && loaded[k] != o.vals[k];
           && e.action == "UPDATE"
           && ShowsColumns(e.oldValues, changed, loaded) && ShowsColumns(e.newValues, changed, o.vals)
  {
    hide ShowsColumns, Serialize, EntryFor;
    EntryParts(sha, head, c);
    match c
    case Update(_, _) => ChangedSides(c);
    case _ => WholeSide(c.obj);
  }

  // ---------- One session's uncommitted work ----------

  type Writes = map<Key, Option<Row>>

  /** `head` is Some exactly from the moment the head row was taken FOR UPDATE. */
  datatype Pending = Pending(entries: seq<Entry>, writes: Writes, head: Option<Head>)

  const NOTHING := Pending([], map[], None)

  function Overlay(rows: Rows, writes: Writes): Rows {
    map k | k in rows.Keys + writes.Keys && (k in writes ==> writes[k].Some?) ::
      if k in writes then writes[k].value else rows[k]
  }

  /** _append_to_chain; None: the head row is not visible, and scalar_one() raises. */
  function AppendChange(sha: Sha, db: Db, pin: Option<Uuid>, p: Pending, c: Change): Option<Pending>
    requires Loaded(c)
  {
    if !Sees(pin, c.obj.tenant) || c.obj.tenant !in db.heads then None
    else
      var head := if p.head.Some? then p.head.value else db.heads[c.obj.tenant];
      var e := EntryFor(sha, head, c);
      Some(Pending(p.entries + [e], p.writes, Some(Head(e.seqNo, e.recordHash))))
  }

  /** capture_audit_entries */
  function AppendAll(sha: Sha, db: Db, pin: Option<Uuid>, p: Pending, cs: seq<Change>): Option<Pending>
    requires forall c :: c in cs ==> Loaded(c)
  {
    if cs == [] then Some(p)
    else
      var n := |cs| - 1;
      match AppendAll(sha, db, pin, p, cs[..n])
      case None => None
      case Some(q) => if Effective(cs[n]) then AppendChange(sha, db, pin, q, cs[n]) else Some(q)
  }

  lemma AppendNothing(sha: Sha, db: Db, pin: Option<Uuid>, p: Pending)
    ensures AppendAll(sha, db, pin, p, []) == Some(p)
  {}

  /** The row a statement of this session works on: its own version, or the latest committed one. */
  function Current(rows: Rows, writes: Writes, key: Key): Option<Row> {
    if key in writes then writes[key] else if key in rows then Some(rows[key]) else None
  }

  /** The columns an UPDATE statement sets: exactly those the diff records. */
  function Assigned(c: Change): Columns
    requires c.Update? && Loaded(c)
  {
    map k | k in c.obj.vals && c.loaded[k] != c.obj.vals[k] :: c.obj.vals[k]
  }

  /** One INSERT, UPDATE or DELETE statement; None: it raises. A key is unique across tenants,
      an UPDATE that matches no visible row raises StaleDataError, such a DELETE does not. */
  function WriteChange(rows: Rows, pin: Option<Uuid>, now: int, writes: Writes, c: Change): Option<Writes>
    requires Loaded(c)
  {
    var key := c.obj.key;
    var current := Current(rows, writes, key);
    match c
    case Insert(o) =>
      if current.Some? || !Sees(pin, o.tenant) then None
      else Some(writes[key := Some(Row(o.tenant, now, CoerceAll(key.table, Written(o.vals))))])
    case Update(o, _) =>
      if !Effective(c) then Some(writes)
      else if current.None? || !Sees(pin, current.value.tenant) || !Sees(pin, o.tenant) then None
      else
        var cols := current.value.cols + CoerceAll(key.table, Written(Assigned(c)));
        Some(writes[key := Some(current.value.(cols := cols))])
    case Delete(o) =>
      if current.None? || !Sees(pin, current.value.tenant) then Some(writes)
      else Some(writes[key := None])
  }

  function WriteAll(rows: Rows, pin: Option<Uuid>, now: int, writes: Writes, cs: seq<Change>): Option<Writes>
    requires forall c :: c in cs ==> Loaded(c)
  {
    if cs == [] then Some(writes)
    else
      var n := |cs| - 1;
      match WriteAll(rows, pin, now, writes, cs[..n])
      case None => None
      case Some(w) => WriteChange(rows, pin, now, w, cs[n])
  }

  predicate DistinctKeys(cs: seq<Change>) {
    forall i, j :: 0 <= i < j < |cs| ==> cs[i].obj.key != cs[j].obj.key
  }

  function Rank(c: Change): nat {
    match c
    case Insert(_) => 0
    case Update(_, _) => 1
    case Delete(_) => 2
  }

  /** One flush: the changes in audit order (new, dirty, deleted) and in the order the unit of
      work writes them. The identity map holds each object once. */
  datatype Flush = Flush(changes: seq<Change>, order: seq<Change>)

  ghost predicate FlushOk(f: Flush) {
    && (forall c :: c in f.changes ==> Loaded(c))
    && (forall c :: c in f.changes <==> c in f.order)
    && DistinctKeys(f.changes) && DistinctKeys(f.order)
    && (forall i, j :: 0 <= i < j < |f.changes| ==> Rank(f.changes[i]) <= Rank(f.changes[j]))
  }

  type UnitOfWork = f: Flush | FlushOk(f) witness Flush([], [])

  /** session.flush(); None: an exception, after which the session can only roll back. */
  function FlushOn(sha: Sha, db: Db, pin: Option<Uuid>, now: int, p: Pending, f: UnitOfWork): Option<Pending> {
    match AppendAll(sha, db, pin, p, f.changes)
    case None => None
    case Some(q) =>
      match WriteAll(db.rows, pin, now, q.writes, f.order)
      case None => None
      case Some(w) => Some(q.(writes := w))
  }

  // ---------- A whole transaction ----------

  /** What a session did, in order: a flush, or a query made while it held the head row, with
      every row it could have seen. */
  datatype Op = Wrote(unit: UnitOfWork) | Saw(rows: Rows)

  function RunOps(sha: Sha, db: Db, pin: Option<Uuid>, now: int, ops: seq<Op>): Option<Pending> {
    if ops == [] then Some(NOTHING)
    else
      var n := |ops| - 1;
      match RunOps(sha, db, pin, now, ops[..n])
      case None => None
      case Some(p) =>
        match ops[n]
        case Wrote(f) => FlushOn(sha, db, pin, now, p, f)
        case Saw(rows) =>
          if p.head.Some? && rows == Visible(Overlay(db.rows, p.writes), pin) then Some(p) else None
  }

  /** COMMIT */
  function CommitOn(db: Db, pin: Option<Uuid>, p: Pending): Db {
    if p.head.None? || pin.None? then db
    else Db(Overlay(db.rows, p.writes), db.log + p.entries, db.heads[pin.value := p.head.value])
  }

  datatype Txn =
    | Session(pin: Option<Uuid>, now: int, ops: seq<Op>)
    | Provision(tenant: Uuid)  // cli create-tenant, as the owner role

  function ProvisionOn(sha: Sha, db: Db, tenant: Uuid): Db {
    if tenant in db.heads then db else db.(heads := db.heads[tenant := Head(0, GenesisHash(sha, tenant))])
  }

  /** The transaction run by itself; one whose statements raise leaves nothing. */
  function Atomic(sha: Sha, db: Db, t: Txn): Db {
    match t
    case Provision(tenant) => ProvisionOn(sha, db, tenant)
    case Session(pin, now, ops) =>
      match RunOps(sha, db, pin, now, ops)
      case None => db
      case Some(p) => CommitOn(db, pin, p)
  }

  /** The transactions one at a time. */
  function Serial(sha: Sha, db: Db, ts: seq<Txn>): Db {
    if ts == [] then db else Atomic(sha, Serial(sha, db, ts[..|ts| - 1]), ts[|ts| - 1])
  }

  const EMPTY := Db(map[], [], map[])
}
