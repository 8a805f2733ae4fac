/** Reading the log literally. The listener logs an object's values as the client gave them; the
    columns round some of them when the statement runs. So replaying the log word for word gives
    the committed rows exactly when every logged value that survives is one its column keeps. */
module LiteralReplay {
  import opened Chain
  import opened ColumnTypes
  import opened Database
  import opened Replay
  import opened Sessions

  function LiteralEntry(t: Tables, e: Entry): Tables {
    var key := EntryKey(e);
    if e.action == "INSERT" then t[key := Recorded(e.newValues)]
    else if e.action == "UPDATE" then if key in t then t[key := t[key] + Recorded(e.newValues)] else t
    else if e.action == "DELETE" then t - {key}
    else t
  }

  function Literal(log: seq<Entry>): Tables {
    if log == [] then map[] else LiteralEntry(Literal(log[..|log| - 1]), log[|log| - 1])
  }

  function CoerceTables(t: Tables): Tables { map k | k in t :: CoerceAll(k.table, t[k]) }

  lemma CoerceOverlay(table: string, a: Columns, b: Columns)
    ensures CoerceAll(table, a + b) == CoerceAll(table, a) + CoerceAll(table, b)
  {
    hide Coerce;
  }

  lemma LiteralStep(t: Tables, e: Entry)
    ensures CoerceTables(LiteralEntry(t, e)) == ApplyEntry(CoerceTables(t), e)
  {
    hide Coerce, Recorded, CoerceAll;
    var key := EntryKey(e);
    if key in t { CoerceOverlay(key.table, t[key], Recorded(e.newValues)); }
    forall k
      ensures At(CoerceTables(LiteralEntry(t, e)), k) == At(ApplyEntry(CoerceTables(t), e), k)
    {}
    TablesEqual(CoerceTables(LiteralEntry(t, e)), ApplyEntry(CoerceTables(t), e));
  }

  /** Replay is literal replay, its values stored. */
  lemma {:induction false} ReplayedIsCoerced(log: seq<Entry>)
    ensures Replayed(log) == CoerceTables(Literal(log))
  {
    if log != [] {
      ReplayedIsCoerced(log[..|log| - 1]);
      LiteralStep(Literal(log[..|log| - 1]), log[|log| - 1]);
    }
  }

  /** The one kind of value a column changes: an amount of more than two decimals. */
  predicate KeptAsLogged(t: Tables) {
    forall k :: k in t && k.table == "transactions" && "amount" in t[k] ==> TwoDecimals(t[k]["amount"])
  }

  lemma CoerceTablesFixed(t: Tables)
    ensures CoerceTables(t) == t <==> KeptAsLogged(t)
  {
    if KeptAsLogged(t) {
      forall k | k in t
        ensures CoerceAll(k.table, t[k]) == t[k]
      {
        forall c | c in t[k]
          ensures Coerce(k.table, c, t[k][c]) == t[k][c]
        {
          CoerceStable(k.table, c, t[k][c]);
        }
      }
    } else {
      var k :| k in t && k.table == "transactions" && "amount" in t[k] && !TwoDecimals(t[k]["amount"]);
      CoerceStable(k.table, "amount", t[k]["amount"]);
      assert CoerceTables(t)[k]["amount"] != t[k]["amount"];
    }
  }

  /** In every reachable state, under every interleaving: the committed rows are the log's literal
      replay with every value stored, and the literal replay itself exactly when no surviving
      logged amount has more than two decimals. */
  lemma LiteralUnderInterleaving(sha: Sha, evs: seq<Event>, tenant: Uuid)
    ensures var db := Run(sha, evs).db;
            var literal := Literal(SelectLog(db.log, tenant));
      && TenantTables(db.rows, tenant) == CoerceTables(literal)
      && (TenantTables(db.rows, tenant) == literal <==> KeptAsLogged(literal))
  {
    hide CoerceTables, KeptAsLogged, Literal, Run, LogGood, TenantTables, SelectLog, Where;
    var db := Run(sha, evs).db;
    ReplayUnderInterleaving(sha, evs, tenant);
    ReplayedIsCoerced(SelectLog(db.log, tenant));
    CoerceTablesFixed(Literal(SelectLog(db.log, tenant)));
  }
}
