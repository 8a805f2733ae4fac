/** The hash chain of `app/db/audit.py`: genesis, link, verification, and what it binds.

    SHA-256 (section 6.2 of FIPS 180-4) is a parameter: any function from texts to
    64-character digests. Nothing is assumed about it; a claim that would need collision
    resistance instead hands over two texts with the same digest. */
module Chain {
  import opened Wrappers
  import opened Json
  import opened CanonicalJson

  type Digest = s: string | |s| == 64 witness seq(64, _ => '0')
  type Sha = string -> Digest

  /** str() of a UUID (section 4 of RFC 9562). */
  type Uuid = s: string | |s| == 36 witness seq(36, _ => '0')

  /** A row of audit_log, without the columns that no hash covers and no check reads. */
  datatype Entry = Entry(
    seqNo: int,
    tenant: Uuid,
    action: string,
    table: string,
    record: Uuid,
    oldValues: Jsonb,
    newValues: Jsonb,
    prevHash: string,
    recordHash: string)

  /** A row of audit_chain_head. */
  datatype Head = Head(lastSeq: int, lastHash: Digest)

  function GenesisHash(sha: Sha, tenant: Uuid): Digest { sha(tenant) }

  // The six covered fields, in the order audit.py writes them.
  function Field6(e: Entry): Members { Member("new_values", e.newValues, NoMembers) }
  function Field5(e: Entry): Members { Member("old_values", e.oldValues, Field6(e)) }
  function Field4(e: Entry): Members { Member("record_id", Str(e.record), Field5(e)) }
  function Field3(e: Entry): Members { Member("table_name", Str(e.table), Field4(e)) }
  function Field2(e: Entry): Members { Member("action", Str(e.action), Field3(e)) }
  function Field1(e: Entry): Members { Member("tenant_id", Str(e.tenant), Field2(e)) }

  function Payload(e: Entry): Value { Obj(Field1(e)) }

  /** The text whose digest is a row's record_hash. */
  function RowInput(prev: string, e: Entry): string { prev + Canonical(Payload(e)) }

  predicate RowOk(sha: Sha, prev: string, e: Entry) {
    e.prevHash == prev && e.recordHash == sha(RowInput(prev, e))
  }

  /** The running hash before row i. */
  function Running(sha: Sha, tenant: Uuid, rows: seq<Entry>, i: nat): string
    requires i <= |rows|
  {
    if i == 0 then GenesisHash(sha, tenant) else rows[i - 1].recordHash
  }

  /** Every row links to the one before it, the first to the genesis hash. */
  predicate Links(sha: Sha, tenant: Uuid, rows: seq<Entry>) {
    forall i :: 0 <= i < |rows| ==> RowOk(sha, Running(sha, tenant, rows, i), rows[i])
  }

  function Tip(sha: Sha, tenant: Uuid, rows: seq<Entry>): string { Running(sha, tenant, rows, |rows|) }

  predicate Accepted(sha: Sha, tenant: Uuid, rows: seq<Entry>, head: Head) {
    Links(sha, tenant, rows) && Tip(sha, tenant, rows) == head.lastHash
  }

  lemma RunningPrefix(sha: Sha, tenant: Uuid, rows: seq<Entry>, k: nat, i: nat)
    requires i <= k <= |rows|
    ensures Running(sha, tenant, rows[..k], i) == Running(sha, tenant, rows, i)
  {}

  lemma LinksPrefix(sha: Sha, tenant: Uuid, rows: seq<Entry>, k: nat)
    requires k <= |rows| && Links(sha, tenant, rows)
    ensures Links(sha, tenant, rows[..k])
    ensures Tip(sha, tenant, rows[..k]) == Running(sha, tenant, rows, k)
  {
    hide RowOk, Running;
    var part := rows[..k];
    RunningPrefix(sha, tenant, rows, k, k);
    forall i | 0 <= i < |part|
      ensures RowOk(sha, Running(sha, tenant, part, i), part[i])
    {
      RunningPrefix(sha, tenant, rows, k, i);
      assert part[i] == rows[i] && RowOk(sha, Running(sha, tenant, rows, i), rows[i]);
    }
  }

  lemma LinksAppend(sha: Sha, tenant: Uuid, rows: seq<Entry>, e: Entry)
    requires Links(sha, tenant, rows) && RowOk(sha, Tip(sha, tenant, rows), e)
    ensures Links(sha, tenant, rows + [e]) && Tip(sha, tenant, rows + [e]) == e.recordHash
  {
    forall i | 0 <= i < |rows|
      ensures RowOk(sha, Running(sha, tenant, rows + [e], i), (rows + [e])[i])
    {
      assert RowOk(sha, Running(sha, tenant, rows, i), rows[i]);
    }
  }

  lemma TipIsDigest(sha: Sha, tenant: Uuid, rows: seq<Entry>, i: nat)
    requires i <= |rows| && Links(sha, tenant, rows)
    ensures |Running(sha, tenant, rows, i)| == 64
  {
    if i > 0 {
      assert RowOk(sha, Running(sha, tenant, rows, i - 1), rows[i - 1]);
    }
  }

  // ---------- verify_chain ----------

  datatype Reason =
    | Fine
    | PrevHashMismatch(expected: string, got: string)
    | RecordHashMismatch(expected: string, got: string)
    | TipMismatch(recomputed: string, recorded: string)

  datatype Verdict = Verdict(valid: bool, length: nat, failedAtSeq: Option<int>, reason: Reason)

  function Where(table: seq<Entry>, tenant: Uuid): (r: seq<Entry>)
    ensures forall e :: e in r <==> e in table && e.tenant == tenant
  {
    if table == [] then []
    else (if table[0].tenant == tenant then [table[0]] else []) + Where(table[1..], tenant)
  }

  function InsertBySeq(e: Entry, rows: seq<Entry>): (r: seq<Entry>)
    ensures multiset(r) == multiset(rows) + multiset{e}
  {
    if rows == [] then [e]
    else
      assert rows == [rows[0]] + rows[1..];
      if e.seqNo <= rows[0].seqNo then [e] + rows
      else [rows[0]] + InsertBySeq(e, rows[1..])
  }

  /** ORDER BY seq */
  function OrderBySeq(rows: seq<Entry>): (r: seq<Entry>)
    ensures multiset(r) == multiset(rows)
  {
    if rows == [] then []
    else
      assert rows == [rows[0]] + rows[1..];
      InsertBySeq(rows[0], OrderBySeq(rows[1..]))
  }

  /** SELECT ... FROM audit_log WHERE tenant_id = tenant ORDER BY seq */
  function SelectLog(table: seq<Entry>, tenant: Uuid): (r: seq<Entry>)
    ensures forall e :: e in r <==> e in table && e.tenant == tenant
  {
    var r := OrderBySeq(Where(table, tenant));
    assert forall e :: e in r <==> e in multiset(r);
    r
  }

  predicate Ascending(rows: seq<Entry>) {
    forall i, j :: 0 <= i < j < |rows| ==> rows[i].seqNo < rows[j].seqNo
  }

  predicate Nondecreasing(rows: seq<Entry>) {
    forall i, j :: 0 <= i < j < |rows| ==> rows[i].seqNo <= rows[j].seqNo
  }

  lemma InsertLeast(rows: seq<Entry>)
    requires rows != [] && Ascending(rows)
    ensures InsertBySeq(rows[0], rows[1..]) == rows && Ascending(rows[1..])
  {
    assert rows == [rows[0]] + rows[1..];
    assert |rows| > 1 ==> rows[0].seqNo < rows[1].seqNo;
  }

  lemma {:induction false} AscendingIsOrdered(rows: seq<Entry>)
    requires Ascending(rows)
    ensures OrderBySeq(rows) == rows
  {
    hide InsertBySeq, Ascending;
    if rows != [] {
      InsertLeast(rows);
      AscendingIsOrdered(rows[1..]);
    }
  }

  lemma {:induction false} InsertOrdered(e: Entry, rows: seq<Entry>)
    requires Nondecreasing(rows)
    ensures Nondecreasing(InsertBySeq(e, rows))
  {
    if rows != [] && e.seqNo > rows[0].seqNo {
      InsertOrdered(e, rows[1..]);
      var r := InsertBySeq(e, rows[1..]);
      forall x | x in r
        ensures rows[0].seqNo <= x.seqNo
      {
        assert x in multiset(r);
        assert x == e || x in rows[1..];
      }
    }
  }

  lemma {:induction false} OrderOrdered(rows: seq<Entry>)
    ensures Nondecreasing(OrderBySeq(rows))
  {
    if rows != [] {
      OrderOrdered(rows[1..]);
      InsertOrdered(rows[0], OrderBySeq(rows[1..]));
    }
  }

  lemma {:induction false} WhereCounts(table: seq<Entry>, tenant: Uuid, e: Entry)
    ensures multiset(Where(table, tenant))[e] == if e.tenant == tenant then multiset(table)[e] else 0
  {
    if table != [] {
      WhereCounts(table[1..], tenant, e);
      assert table == [table[0]] + table[1..];
    }
  }

  /** The selected rows are in the order of their sequence numbers, and are the tenant's rows of the
      table, each as often as it stands there. */
  lemma SelectLogExact(table: seq<Entry>, tenant: Uuid)
    ensures Nondecreasing(SelectLog(table, tenant))
    ensures forall e :: multiset(SelectLog(table, tenant))[e] == if e.tenant == tenant then multiset(table)[e] else 0
  {
    OrderOrdered(Where(table, tenant));
    forall e: Entry
      ensures multiset(SelectLog(table, tenant))[e] == if e.tenant == tenant then multiset(table)[e] else 0
    {
      WhereCounts(table, tenant, e);
    }
  }

  /** The tenant's rows of the table are these, in any order and among any others. */
  ghost predicate TableHolds(table: seq<Entry>, tenant: Uuid, rows: seq<Entry>) {
    forall e :: multiset(rows)[e] == if e.tenant == tenant then multiset(table)[e] else 0
  }

  lemma CountsEqual(a: multiset<Entry>, b: multiset<Entry>)
    requires forall e :: a[e] == b[e]
    ensures a == b
  {}

  lemma {:induction false} SortedUnique(a: seq<Entry>, b: seq<Entry>)
    requires Ascending(a) && Nondecreasing(b) && multiset(a) == multiset(b)
    ensures a == b
  {
    hide Ascending, Nondecreasing;
    if a == [] {
      assert |multiset(b)| == 0;
    } else {
      assert a[0] in multiset(b);
      SameFirst(a, b);
      AfterFirst(a);
      AfterFirst(b);
      SortedUnique(a[1..], b[1..]);
    }
  }

  lemma AfterFirst(rows: seq<Entry>)
    requires rows != []
    ensures rows == [rows[0]] + rows[1..] && multiset(rows[1..]) == multiset(rows) - multiset{rows[0]}
    ensures Ascending(rows) ==> Ascending(rows[1..])
    ensures Nondecreasing(rows) ==> Nondecreasing(rows[1..])
  {
    assert rows == [rows[0]] + rows[1..];
  }

  lemma SameFirst(a: seq<Entry>, b: seq<Entry>)
    requires Ascending(a) && Nondecreasing(b) && multiset(a) == multiset(b) && a != [] && b != []
    ensures a[0] == b[0]
  {
    assert a[0] in multiset(b) && b[0] in multiset(a);
    var i :| 0 <= i < |b| && b[i] == a[0];
    var j :| 0 <= j < |a| && a[j] == b[0];
  }

  /** Rows with rising sequence numbers are selected as they are, however they stand in the table. */
  lemma SelectLogDetermined(table: seq<Entry>, tenant: Uuid, rows: seq<Entry>)
    requires TableHolds(table, tenant, rows) && Ascending(rows)
    ensures SelectLog(table, tenant) == rows
  {
    hide SelectLog;
    SelectLogExact(table, tenant);
    CountsEqual(multiset(rows), multiset(SelectLog(table, tenant)));
    SortedUnique(rows, SelectLog(table, tenant));
  }

  /** Row k is the first at which the rows stop being a chain from genesis. */
  predicate FirstBad(sha: Sha, tenant: Uuid, rows: seq<Entry>, k: nat) {
    k < |rows| && Links(sha, tenant, rows[..k]) && !RowOk(sha, Running(sha, tenant, rows, k), rows[k])
  }

  /** The verdict for a failure at row k. */
  function RefusedAt(sha: Sha, tenant: Uuid, rows: seq<Entry>, k: nat): Verdict
    requires k < |rows|
  {
    var running := Running(sha, tenant, rows, k);
    Verdict(false, |rows|, Some(rows[k].seqNo),
            if rows[k].prevHash != running then PrevHashMismatch(running, rows[k].prevHash)
            else RecordHashMismatch(sha(RowInput(running, rows[k])), rows[k].recordHash))
  }

  /** What verify_chain answers on these rows. None: they chain, and there is no head row. */
  ghost predicate Verified(sha: Sha, rows: seq<Entry>, heads: map<Uuid, Head>, tenant: Uuid, r: Option<Verdict>) {
    && (r.None? <==> Links(sha, tenant, rows) && tenant !in heads)
    && (r.Some? ==>
        && r.value.length == |rows|
        && (r.value.valid <==> tenant in heads && Accepted(sha, tenant, rows, heads[tenant]))
        && (r.value.valid ==> r.value.failedAtSeq.None? && r.value.reason == Fine)
        && (!r.value.valid && r.value.failedAtSeq.None? ==>
              && Links(sha, tenant, rows) && tenant in heads
              && r.value.reason == TipMismatch(Tip(sha, tenant, rows), heads[tenant].lastHash))
        && (r.value.failedAtSeq.Some? ==>
              exists k :: FirstBad(sha, tenant, rows, k) && r.value == RefusedAt(sha, tenant, rows, k)))
  }

  lemma BadBreaksLinks(sha: Sha, tenant: Uuid, rows: seq<Entry>, k: nat)
    requires k < |rows| && !RowOk(sha, Running(sha, tenant, rows, k), rows[k])
    ensures !Links(sha, tenant, rows)
  {}

  lemma NoneBad(sha: Sha, tenant: Uuid, rows: seq<Entry>)
    requires Links(sha, tenant, rows)
    ensures forall k :: !FirstBad(sha, tenant, rows, k)
  {}

  lemma VerifiedBad(sha: Sha, rows: seq<Entry>, heads: map<Uuid, Head>, tenant: Uuid, k: nat)
    requires FirstBad(sha, tenant, rows, k)
    ensures Verified(sha, rows, heads, tenant, Some(RefusedAt(sha, tenant, rows, k)))
  {
    hide RowInput;
    BadBreaksLinks(sha, tenant, rows, k);
  }

  lemma VerifiedChain(sha: Sha, rows: seq<Entry>, heads: map<Uuid, Head>, tenant: Uuid)
    requires Links(sha, tenant, rows)
    ensures Verified(sha, rows, heads, tenant,
      if tenant !in heads then None
      else if Tip(sha, tenant, rows) != heads[tenant].lastHash then
        Some(Verdict(false, |rows|, None, TipMismatch(Tip(sha, tenant, rows), heads[tenant].lastHash)))
      else Some(Verdict(true, |rows|, None, Fine)))
  {
    hide Links;
  }

  /** Walks the tenant's rows from genesis and re-derives every hash. None: the tenant has no
      head row, which the source meets only after the walk, as an exception. */
  method VerifyChain(sha: Sha, table: seq<Entry>, heads: map<Uuid, Head>, tenant: Uuid)
    returns (r: Option<Verdict>)
    ensures Verified(sha, SelectLog(table, tenant), heads, tenant, r)
  {
    hide SelectLog, Canonical, Payload, Verified;
    var rows := SelectLog(table, tenant);
    var runningHash: string := GenesisHash(sha, tenant);
    for i := 0 to |rows|
      invariant runningHash == Running(sha, tenant, rows, i)
      invariant Links(sha, tenant, rows[..i])
    {
      var row := rows[i];
      if row.prevHash != runningHash {
        VerifiedBad(sha, rows, heads, tenant, i);
        return Some(Verdict(false, |rows|, Some(row.seqNo), PrevHashMismatch(runningHash, row.prevHash)));
      }
      var expected := sha(RowInput(runningHash, row));
      if expected != row.recordHash {
        VerifiedBad(sha, rows, heads, tenant, i);
        return Some(Verdict(false, |rows|, Some(row.seqNo), RecordHashMismatch(expected, row.recordHash)));
      }
      LinksAppend(sha, tenant, rows[..i], row);
      assert rows[..i + 1] == rows[..i] + [row];
      runningHash := row.recordHash;
    }
    assert rows[..|rows|] == rows;
    VerifiedChain(sha, rows, heads, tenant);
    if tenant !in heads {
      return None;
    }
    if runningHash != heads[tenant].lastHash {
      return Some(Verdict(false, |rows|, None, TipMismatch(runningHash, heads[tenant].lastHash)));
    }
    r := Some(Verdict(true, |rows|, None, Fine));
  }

  lemma FirstBadUnique(sha: Sha, tenant: Uuid, rows: seq<Entry>, j: nat, k: nat)
    requires FirstBad(sha, tenant, rows, j) && FirstBad(sha, tenant, rows, k)
    ensures j == k && !Links(sha, tenant, rows)
  {
    var low, high := if j < k then j else k, if j < k then k else j;
    BadBreaksLinks(sha, tenant, rows, low);
    if low < high {
      assert rows[..high][..low] == rows[..low];
      BadBreaksLinks(sha, tenant, rows[..high], low);
    }
  }

  // ---------- What the hash covers ----------

  /** Equality of the fields the hash covers; seq is not among them. */
  predicate SameContent(a: Entry, b: Entry) {
    && a.tenant == b.tenant && a.action == b.action && a.table == b.table && a.record == b.record
    && Equiv(a.oldValues, b.oldValues) && Equiv(a.newValues, b.newValues)
  }

  lemma FieldStored(key: string, v: Jsonb, rest: Members)
    requires UniqueMembers(rest) && RenderedMembers(rest) == rest && key !in Keys(rest)
    ensures UniqueMembers(Member(key, v, rest)) && RenderedMembers(Member(key, v, rest)) == Member(key, v, rest)
    ensures Keys(Member(key, v, rest)) == {key} + Keys(rest)
  {}

  lemma PayloadUnique(e: Entry)
    ensures Unique(Payload(e)) && Rendered(Payload(e)) == Payload(e)
  {
    FieldStored("new_values", e.newValues, NoMembers);
    FieldStored("old_values", e.oldValues, Field6(e));
    FieldStored("record_id", Str(e.record), Field5(e));
    FieldStored("table_name", Str(e.table), Field4(e));
    FieldStored("action", Str(e.action), Field3(e));
    FieldStored("tenant_id", Str(e.tenant), Field2(e));
  }

  lemma PayloadLookup(e: Entry)
    ensures Keys(Field1(e))
         == {"tenant_id", "action", "table_name", "record_id", "old_values", "new_values"}
    ensures Lookup(Field1(e), "tenant_id") == Str(e.tenant)
    ensures Lookup(Field1(e), "action") == Str(e.action)
    ensures Lookup(Field1(e), "table_name") == Str(e.table)
    ensures Lookup(Field1(e), "record_id") == Str(e.record)
    ensures Lookup(Field1(e), "old_values") == e.oldValues
    ensures Lookup(Field1(e), "new_values") == e.newValues
  {
    assert Keys(Field6(e)) == {"new_values"} && Lookup(Field6(e), "new_values") == e.newValues;
    assert Keys(Field5(e)) == {"old_values", "new_values"};
    assert Lookup(Field5(e), "new_values") == e.newValues;
    assert Keys(Field4(e)) == {"record_id", "old_values", "new_values"};
    assert Lookup(Field4(e), "new_values") == e.newValues && Lookup(Field4(e), "old_values") == e.oldValues;
    assert Keys(Field3(e)) == {"table_name", "record_id", "old_values", "new_values"};
    assert Lookup(Field3(e), "new_values") == e.newValues && Lookup(Field3(e), "old_values") == e.oldValues;
    assert Lookup(Field3(e), "record_id") == Str(e.record);
    assert Keys(Field2(e)) == {"action", "table_name", "record_id", "old_values", "new_values"};
    assert Lookup(Field2(e), "new_values") == e.newValues && Lookup(Field2(e), "old_values") == e.oldValues;
    assert Lookup(Field2(e), "record_id") == Str(e.record) && Lookup(Field2(e), "table_name") == Str(e.table);
  }

  /** Two rows hash the same canonical text exactly when every covered field agrees. */
  lemma CanonicalBindsContent(a: Entry, b: Entry)
    ensures Canonical(Payload(a)) == Canonical(Payload(b)) <==> SameContent(a, b)
  {
    PayloadUnique(a);
    PayloadUnique(b);
    CanonicalDecides(Payload(a), Payload(b));
    PayloadLookup(a);
    PayloadLookup(b);
    FieldsDecide(a, b, Field1(b));
  }

  lemma FieldsDecide(a: Entry, b: Entry, ms: Members)
    requires Keys(ms) == {"tenant_id", "action", "table_name", "record_id", "old_values", "new_values"}
    requires Lookup(ms, "tenant_id") == Str(b.tenant) && Lookup(ms, "action") == Str(b.action)
    requires Lookup(ms, "table_name") == Str(b.table) && Lookup(ms, "record_id") == Str(b.record)
    requires Lookup(ms, "old_values") == b.oldValues && Lookup(ms, "new_values") == b.newValues
    ensures EquivMembers(Field1(a), ms) <==> SameContent(a, b)
  {
    assert EquivMembers(Field6(a), ms) <==> Equiv(a.newValues, b.newValues);
    assert EquivMembers(Field5(a), ms) <==> Equiv(a.oldValues, b.oldValues) && EquivMembers(Field6(a), ms);
    assert EquivMembers(Field4(a), ms) <==> a.record == b.record && EquivMembers(Field5(a), ms);
    assert EquivMembers(Field3(a), ms) <==> a.table == b.table && EquivMembers(Field4(a), ms);
    assert EquivMembers(Field2(a), ms) <==> a.action == b.action && EquivMembers(Field3(a), ms);
  }

  predicate SameRow(a: Entry, b: Entry) {
    SameContent(a, b) && a.prevHash == b.prevHash && a.recordHash == b.recordHash
  }

  predicate SameLog(t1: Uuid, rows1: seq<Entry>, t2: Uuid, rows2: seq<Entry>) {
    t1 == t2 && |rows1| == |rows2| && forall i :: 0 <= i < |rows1| ==> SameRow(rows1[i], rows2[i])
  }

  /** JSONB may reorder the keys of stored objects: verification cannot tell. */
  lemma KeyOrderIrrelevant(sha: Sha, tenant: Uuid, rows: seq<Entry>, stored: seq<Entry>)
    requires SameLog(tenant, rows, tenant, stored)
    ensures Links(sha, tenant, rows) <==> Links(sha, tenant, stored)
    ensures Tip(sha, tenant, rows) == Tip(sha, tenant, stored)
  {
    forall i | 0 <= i < |rows|
      ensures RowOk(sha, Running(sha, tenant, rows, i), rows[i])
         <==> RowOk(sha, Running(sha, tenant, stored, i), stored[i])
    {
      assert SameRow(rows[i], stored[i]);
      assert i > 0 ==> SameRow(rows[i - 1], stored[i - 1]);
      CanonicalBindsContent(rows[i], stored[i]);
    }
    assert rows != [] ==> SameRow(rows[|rows| - 1], stored[|rows| - 1]);
  }

  // ---------- Binding, by reduction to a collision ----------

  predicate Collision(sha: Sha, x: string, y: string) { x != y && sha(x) == sha(y) }

  /** The texts a chain hashes: the tenant's id for the genesis hash, then one per row. */
  function Hashed(sha: Sha, tenant: Uuid, rows: seq<Entry>, i: nat): string
    requires i <= |rows|
  {
    if i == 0 then tenant else RowInput(Running(sha, tenant, rows, i - 1), rows[i - 1])
  }

  function LastInput(sha: Sha, tenant: Uuid, rows: seq<Entry>): string
    requires rows != []
  {
    Hashed(sha, tenant, rows, |rows|)
  }

  lemma HashedPrefix(sha: Sha, tenant: Uuid, rows: seq<Entry>, k: nat, i: nat)
    requires i <= k <= |rows|
    ensures Hashed(sha, tenant, rows[..k], i) == Hashed(sha, tenant, rows, i)
  {}

  lemma LastLink(sha: Sha, tenant: Uuid, rows: seq<Entry>)
    requires Links(sha, tenant, rows) && rows != []
    ensures Links(sha, tenant, rows[..|rows| - 1])
    ensures Tip(sha, tenant, rows[..|rows| - 1]) == Running(sha, tenant, rows, |rows| - 1)
    ensures RowOk(sha, Running(sha, tenant, rows, |rows| - 1), rows[|rows| - 1])
    ensures sha(LastInput(sha, tenant, rows)) == Tip(sha, tenant, rows)
    ensures |LastInput(sha, tenant, rows)| >= 64
  {
    LinksPrefix(sha, tenant, rows, |rows| - 1);
    TipIsDigest(sha, tenant, rows, |rows| - 1);
  }

  /** Equal inputs of 64-character prefix split into equal previous hashes and equal contents. */
  lemma InputSplits(prev1: string, e1: Entry, prev2: string, e2: Entry)
    requires |prev1| == |prev2| && RowInput(prev1, e1) == RowInput(prev2, e2)
    ensures prev1 == prev2 && SameContent(e1, e2)
  {
    var x, y := RowInput(prev1, e1), RowInput(prev2, e2);
    assert prev1 == x[..|prev1|] && prev2 == y[..|prev1|];
    assert Canonical(Payload(e1)) == x[|prev1|..] && Canonical(Payload(e2)) == y[|prev1|..];
    CanonicalBindsContent(e1, e2);
  }

  /** If the last rows' inputs agree, the disagreement lies in the chains before them. */
  lemma PeelLast(sha: Sha, t1: Uuid, rows1: seq<Entry>, t2: Uuid, rows2: seq<Entry>)
    requires rows1 != [] && rows2 != []
    requires Links(sha, t1, rows1) && Links(sha, t2, rows2)
    requires Tip(sha, t1, rows1) == Tip(sha, t2, rows2)
    requires LastInput(sha, t1, rows1) == LastInput(sha, t2, rows2)
    ensures SameRow(rows1[|rows1| - 1], rows2[|rows2| - 1])
    ensures Tip(sha, t1, rows1[..|rows1| - 1]) == Tip(sha, t2, rows2[..|rows2| - 1])
  {
    var n1, n2 := |rows1| - 1, |rows2| - 1;
    LastLink(sha, t1, rows1);
    LastLink(sha, t2, rows2);
    TipIsDigest(sha, t1, rows1, n1);
    TipIsDigest(sha, t2, rows2, n2);
    InputSplits(Running(sha, t1, rows1, n1), rows1[n1], Running(sha, t2, rows2, n2), rows2[n2]);
  }

  /** Hashed text i of the first chain and j of the second collide. */
  predicate CollidesAt(sha: Sha, t1: Uuid, rows1: seq<Entry>, t2: Uuid, rows2: seq<Entry>, i: nat, j: nat) {
    i <= |rows1| && j <= |rows2| && Collision(sha, Hashed(sha, t1, rows1, i), Hashed(sha, t2, rows2, j))
  }

  lemma StillCollides(sha: Sha, t1: Uuid, rows1: seq<Entry>, t2: Uuid, rows2: seq<Entry>, i: nat, j: nat)
    requires rows1 != [] && rows2 != []
    requires CollidesAt(sha, t1, rows1[..|rows1| - 1], t2, rows2[..|rows2| - 1], i, j)
    ensures CollidesAt(sha, t1, rows1, t2, rows2, i, j)
  {
    HashedPrefix(sha, t1, rows1, |rows1| - 1, i);
    HashedPrefix(sha, t2, rows2, |rows2| - 1, j);
  }

  /** Whether the last texts of the two chains are the same record text. */
  predicate SameLast(sha: Sha, t1: Uuid, rows1: seq<Entry>, t2: Uuid, rows2: seq<Entry>) {
    rows1 != [] && rows2 != [] && LastInput(sha, t1, rows1) == LastInput(sha, t2, rows2)
  }

  /** If they are not, they collide: a genesis text is shorter than any record text. */
  lemma LastCollides(sha: Sha, t1: Uuid, rows1: seq<Entry>, t2: Uuid, rows2: seq<Entry>)
    requires Links(sha, t1, rows1) && Links(sha, t2, rows2)
    requires Tip(sha, t1, rows1) == Tip(sha, t2, rows2)
    requires !SameLog(t1, rows1, t2, rows2) && !SameLast(sha, t1, rows1, t2, rows2)
    ensures CollidesAt(sha, t1, rows1, t2, rows2, |rows1|, |rows2|)
  {
    hide Canonical, Payload, Links;
    if rows1 != [] { LastLink(sha, t1, rows1); }
    if rows2 != [] { LastLink(sha, t2, rows2); }
  }

  /** If they are, the disagreement lies before them. */
  lemma EarlierDiffers(sha: Sha, t1: Uuid, rows1: seq<Entry>, t2: Uuid, rows2: seq<Entry>)
    requires Links(sha, t1, rows1) && Links(sha, t2, rows2)
    requires Tip(sha, t1, rows1) == Tip(sha, t2, rows2)
    requires !SameLog(t1, rows1, t2, rows2) && SameLast(sha, t1, rows1, t2, rows2)
    ensures var init1, init2 := rows1[..|rows1| - 1], rows2[..|rows2| - 1];
      && Links(sha, t1, init1) && Links(sha, t2, init2) && Tip(sha, t1, init1) == Tip(sha, t2, init2)
      && !SameLog(t1, init1, t2, init2)
  {
    hide Canonical, Payload;
    LastLink(sha, t1, rows1);
    LastLink(sha, t2, rows2);
    PeelLast(sha, t1, rows1, t2, rows2);
    SameLogExtends(t1, rows1, t2, rows2);
  }

  /** Two different chains that end in the same hash yield a concrete collision between texts they
      hashed: the last ones, or else those of the chains without their last rows. */
  function FindCollision(sha: Sha, t1: Uuid, rows1: seq<Entry>, t2: Uuid, rows2: seq<Entry>): (r: (nat, nat))
    requires Links(sha, t1, rows1) && Links(sha, t2, rows2)
    requires Tip(sha, t1, rows1) == Tip(sha, t2, rows2)
    requires !SameLog(t1, rows1, t2, rows2)
    ensures CollidesAt(sha, t1, rows1, t2, rows2, r.0, r.1)
    decreases |rows1|
  {
    if SameLast(sha, t1, rows1, t2, rows2) then
      EarlierDiffers(sha, t1, rows1, t2, rows2);
      var r := FindCollision(sha, t1, rows1[..|rows1| - 1], t2, rows2[..|rows2| - 1]);
      StillCollides(sha, t1, rows1, t2, rows2, r.0, r.1);
      r
    else
      LastCollides(sha, t1, rows1, t2, rows2);
      (|rows1|, |rows2|)
  }

  lemma SameLogExtends(t1: Uuid, rows1: seq<Entry>, t2: Uuid, rows2: seq<Entry>)
    requires rows1 != [] && rows2 != [] && SameRow(rows1[|rows1| - 1], rows2[|rows2| - 1])
    ensures SameLog(t1, rows1[..|rows1| - 1], t2, rows2[..|rows2| - 1]) ==> SameLog(t1, rows1, t2, rows2)
  {
    if SameLog(t1, rows1[..|rows1| - 1], t2, rows2[..|rows2| - 1]) {
      forall i | 0 <= i < |rows1|
        ensures SameRow(rows1[i], rows2[i])
      {
        if i < |rows1| - 1 {
          assert SameRow(rows1[..|rows1| - 1][i], rows2[..|rows2| - 1][i]);
        }
      }
    }
  }

  /** Binding: two accepted logs under one head are the same log of the same tenant, unless
      SHA-256 collides on two of the texts they hashed. */
  lemma HeadBindsLog(sha: Sha, t1: Uuid, rows1: seq<Entry>, t2: Uuid, rows2: seq<Entry>, head: Head)
    requires Accepted(sha, t1, rows1, head) && Accepted(sha, t2, rows2, head)
    ensures SameLog(t1, rows1, t2, rows2) || exists i, j :: CollidesAt(sha, t1, rows1, t2, rows2, i, j)
  {
    if !SameLog(t1, rows1, t2, rows2) {
      var (i, j) := FindCollision(sha, t1, rows1, t2, rows2);
    }
  }

  // ---------- Tamper localisation ----------

  /** Changing the covered content of row k alone is detected at row k, exactly when the two
      different texts before and after do not collide. */
  lemma EditDetected(sha: Sha, tenant: Uuid, rows: seq<Entry>, k: nat, edited: Entry)
    requires Links(sha, tenant, rows) && k < |rows|
    requires edited.prevHash == rows[k].prevHash && edited.recordHash == rows[k].recordHash
    requires !SameContent(edited, rows[k])
    ensures var before := RowInput(rows[k].prevHash, rows[k]);
            var after := RowInput(rows[k].prevHash, edited);
      && before != after
      && (FirstBad(sha, tenant, rows[k := edited], k) <==> sha(before) != sha(after))
      && (Links(sha, tenant, rows[k := edited]) <==> Collision(sha, before, after))
  {
    var prev := rows[k].prevHash;
    assert RowOk(sha, Running(sha, tenant, rows, k), rows[k]);
    if RowInput(prev, rows[k]) == RowInput(prev, edited) {
      InputSplits(prev, edited, prev, rows[k]);
    }
    EditKeepsOthers(sha, tenant, rows, k, edited);
  }

  lemma EditKeepsOthers(sha: Sha, tenant: Uuid, rows: seq<Entry>, k: nat, edited: Entry)
    requires Links(sha, tenant, rows) && k < |rows| && edited.recordHash == rows[k].recordHash
    ensures var rows' := rows[k := edited];
      && rows'[..k] == rows[..k] && Running(sha, tenant, rows', k) == Running(sha, tenant, rows, k)
      && Links(sha, tenant, rows[..k])
      && (Links(sha, tenant, rows') <==> RowOk(sha, Running(sha, tenant, rows, k), edited))
  {
    var rows' := rows[k := edited];
    LinksPrefix(sha, tenant, rows, k);
    forall i | 0 <= i < |rows|
      ensures Running(sha, tenant, rows', i) == Running(sha, tenant, rows, i)
      ensures i != k ==> RowOk(sha, Running(sha, tenant, rows', i), rows'[i])
    {
      assert RowOk(sha, Running(sha, tenant, rows, i), rows[i]);
    }
    if !RowOk(sha, Running(sha, tenant, rows, k), edited) {
      BadBreaksLinks(sha, tenant, rows', k);
    }
  }

  /** Rebuilding every hash from some row on only moves the failure to the tip: with the head
      untouched, the rebuilt log is refused there or a collision is in hand. */
  lemma RebuiltTailDetected(sha: Sha, tenant: Uuid, rows: seq<Entry>, rebuilt: seq<Entry>, head: Head)
    requires Accepted(sha, tenant, rows, head)
    requires Links(sha, tenant, rebuilt) && !SameLog(tenant, rows, tenant, rebuilt)
    ensures !Accepted(sha, tenant, rebuilt, head) || exists i, j :: CollidesAt(sha, tenant, rows, tenant, rebuilt, i, j)
  {
    if Accepted(sha, tenant, rebuilt, head) {
      HeadBindsLog(sha, tenant, rows, tenant, rebuilt, head);
    }
  }

  /** Deleting rows from the tail leaves a chain that is refused at the tip, or a collision. */
  lemma TruncationDetected(sha: Sha, tenant: Uuid, rows: seq<Entry>, k: nat, head: Head)
    requires Accepted(sha, tenant, rows, head) && k < |rows|
    ensures Links(sha, tenant, rows[..k])
    ensures !Accepted(sha, tenant, rows[..k], head)
         || exists i, j :: CollidesAt(sha, tenant, rows, tenant, rows[..k], i, j)
  {
    LinksPrefix(sha, tenant, rows, k);
    RebuiltTailDetected(sha, tenant, rows, rows[..k], head);
  }

  // ---------- What verify_chain reports of a table ----------

  /** An untouched log is accepted, in whatever order its rows stand in the table. */
  lemma UntouchedReported(sha: Sha, tenant: Uuid, rows: seq<Entry>, table: seq<Entry>, heads: map<Uuid, Head>,
                          r: Option<Verdict>)
    requires tenant in heads && Accepted(sha, tenant, rows, heads[tenant]) && Ascending(rows)
    requires TableHolds(table, tenant, rows) && Verified(sha, SelectLog(table, tenant), heads, tenant, r)
    ensures r == Some(Verdict(true, |rows|, None, Fine))
  {
    hide SelectLog, RowOk;
    SelectLogDetermined(table, tenant, rows);
    NoneBad(sha, tenant, rows);
  }

  /** The first bad row is what is reported. */
  lemma FirstBadReported(sha: Sha, rows: seq<Entry>, heads: map<Uuid, Head>, tenant: Uuid, k: nat, r: Option<Verdict>)
    requires FirstBad(sha, tenant, rows, k) && Verified(sha, rows, heads, tenant, r)
    ensures r == Some(RefusedAt(sha, tenant, rows, k))
  {
    hide RowInput;
    BadBreaksLinks(sha, tenant, rows, k);
    var j :| FirstBad(sha, tenant, rows, j) && r.value == RefusedAt(sha, tenant, rows, j);
    FirstBadUnique(sha, tenant, rows, j, k);
  }

  lemma EditAscending(rows: seq<Entry>, k: nat, edited: Entry)
    requires k < |rows| && Ascending(rows) && edited.seqNo == rows[k].seqNo
    ensures Ascending(rows[k := edited])
  {}

  /** An edited row is what verify_chain reports, by its own sequence number and as altered content,
      in whatever order the rows stand in the table; unless the digests collide. */
  lemma EditReported(sha: Sha, tenant: Uuid, rows: seq<Entry>, k: nat, edited: Entry, table: seq<Entry>,
                     heads: map<Uuid, Head>, r: Option<Verdict>)
    requires Links(sha, tenant, rows) && Ascending(rows) && k < |rows|
    requires edited.seqNo == rows[k].seqNo && !SameContent(edited, rows[k])
    requires edited.prevHash == rows[k].prevHash && edited.recordHash == rows[k].recordHash
    requires TableHolds(table, tenant, rows[k := edited]) && Verified(sha, SelectLog(table, tenant), heads, tenant, r)
    ensures var before, after := RowInput(rows[k].prevHash, rows[k]), RowInput(rows[k].prevHash, edited);
      Collision(sha, before, after)
      || r == Some(Verdict(false, |rows|, Some(edited.seqNo), RecordHashMismatch(sha(after), edited.recordHash)))
  {
    hide SelectLog, SameContent, RowInput;
    var rows' := rows[k := edited];
    EditAscending(rows, k, edited);
    SelectLogDetermined(table, tenant, rows');
    EditDetected(sha, tenant, rows, k, edited);
    if FirstBad(sha, tenant, rows', k) {
      FirstBadReported(sha, rows', heads, tenant, k, r);
      EditedVerdict(sha, tenant, rows, k, edited);
    }
  }

  lemma EditedVerdict(sha: Sha, tenant: Uuid, rows: seq<Entry>, k: nat, edited: Entry)
    requires Links(sha, tenant, rows) && k < |rows|
    requires edited.prevHash == rows[k].prevHash && edited.recordHash == rows[k].recordHash
    ensures RefusedAt(sha, tenant, rows[k := edited], k)
         == Verdict(false, |rows|, Some(edited.seqNo),
                    RecordHashMismatch(sha(RowInput(rows[k].prevHash, edited)), edited.recordHash))
  {
    hide RowInput;
    assert RowOk(sha, Running(sha, tenant, rows, k), rows[k]);
  }

  lemma PrefixAscending(rows: seq<Entry>, k: nat)
    requires k <= |rows| && Ascending(rows)
    ensures Ascending(rows[..k])
  {}

  /** Rows deleted from the tail are reported at the tip, with the number of rows left; unless two
      hashed texts collide. */
  lemma TruncationReported(sha: Sha, tenant: Uuid, rows: seq<Entry>, k: nat, table: seq<Entry>,
                           heads: map<Uuid, Head>, r: Option<Verdict>)
    requires tenant in heads && Accepted(sha, tenant, rows, heads[tenant]) && Ascending(rows) && k < |rows|
    requires TableHolds(table, tenant, rows[..k]) && Verified(sha, SelectLog(table, tenant), heads, tenant, r)
    ensures (exists i, j :: CollidesAt(sha, tenant, rows, tenant, rows[..k], i, j))
         || r == Some(Verdict(false, k, None, TipMismatch(Tip(sha, tenant, rows[..k]), heads[tenant].lastHash)))
  {
    hide SelectLog, RowOk, CollidesAt;
    PrefixAscending(rows, k);
    SelectLogDetermined(table, tenant, rows[..k]);
    TruncationDetected(sha, tenant, rows, k, heads[tenant]);
    NoneBad(sha, tenant, rows[..k]);
  }

  /** The rows without row k. */
  function Without(rows: seq<Entry>, k: nat): seq<Entry>
    requires k < |rows|
  {
    rows[..k] + rows[k + 1..]
  }

  /** What stands at the place of a deleted row names the deleted row's hash, and not the one before;
      the two differ, or two hashed texts collide. */
  lemma GapShows(sha: Sha, tenant: Uuid, rows: seq<Entry>, k: nat)
    requires Links(sha, tenant, rows) && k + 1 < |rows|
    ensures var rest := Without(rows, k);
      && rest[..k] == rows[..k] && rest[k] == rows[k + 1] && rest[k].prevHash == rows[k].recordHash
      && Links(sha, tenant, rest[..k]) && Running(sha, tenant, rest, k) == Running(sha, tenant, rows, k)
    ensures var before, after := rows[..k], rows[..k + 1];
      rows[k].recordHash != Running(sha, tenant, rows, k)
      || exists i, j :: CollidesAt(sha, tenant, before, tenant, after, i, j)
  {
    hide RowOk, CollidesAt;
    LinksPrefix(sha, tenant, rows, k);
    LinksPrefix(sha, tenant, rows, k + 1);
    TipIsDigest(sha, tenant, rows, k);
    LinkNames(sha, tenant, rows, k + 1);
    if rows[k].recordHash == Running(sha, tenant, rows, k) {
      HeadBindsLog(sha, tenant, rows[..k], tenant, rows[..k + 1], Head(0, Running(sha, tenant, rows, k)));
    }
  }

  lemma WithoutAscending(rows: seq<Entry>, k: nat)
    requires k < |rows| && Ascending(rows)
    ensures Ascending(Without(rows, k))
  {
    forall i, j | 0 <= i < j < |rows| - 1
      ensures Without(rows, k)[i].seqNo < Without(rows, k)[j].seqNo
    {
      assert Without(rows, k)[i] == rows[if i < k then i else i + 1];
      assert Without(rows, k)[j] == rows[if j < k then j else j + 1];
    }
  }

  lemma LinkNames(sha: Sha, tenant: Uuid, rows: seq<Entry>, k: nat)
    requires Links(sha, tenant, rows) && k < |rows|
    ensures rows[k].prevHash == Running(sha, tenant, rows, k)
  {
    assert RowOk(sha, Running(sha, tenant, rows, k), rows[k]);
  }

  /** A deleted row is reported at the row after it, whose prev_hash does not match; unless two hashed
      texts collide. */
  lemma DeletionReported(sha: Sha, tenant: Uuid, rows: seq<Entry>, k: nat, table: seq<Entry>,
                         heads: map<Uuid, Head>, r: Option<Verdict>)
    requires Links(sha, tenant, rows) && Ascending(rows) && k + 1 < |rows|
    requires TableHolds(table, tenant, Without(rows, k)) && Verified(sha, SelectLog(table, tenant), heads, tenant, r)
    ensures var before, after := rows[..k], rows[..k + 1];
      (exists i, j :: CollidesAt(sha, tenant, before, tenant, after, i, j))
      || r == Some(Verdict(false, |rows| - 1, Some(rows[k + 1].seqNo),
                           PrevHashMismatch(Running(sha, tenant, rows, k), rows[k].recordHash)))
  {
    hide SelectLog, CollidesAt, RowInput, Links, Verified, Running, TableHolds, Ascending;
    var rest := Without(rows, k);
    WithoutAscending(rows, k);
    SelectLogDetermined(table, tenant, rest);
    GapShows(sha, tenant, rows, k);
    if rows[k].recordHash != Running(sha, tenant, rows, k) {
      FirstBadReported(sha, rest, heads, tenant, k, r);
    }
  }
}
