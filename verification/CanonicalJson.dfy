/** `_json_safe` and `_canonical_json` of `app/db/audit.py`: what is stored and what is hashed. */
module CanonicalJson {
  import opened Wrappers
  import opened Json

  // ---------- _json_safe ----------

  /** json.loads: one value, then nothing. */
  function Loads(s: string): Option<Value> {
    match ParseValue(SkipSpace(s))
    case Fail => None
    case Done(v, rest) => if SkipSpace(rest) == "" then Some(v) else None
  }

  /** json.loads(json.dumps(payload, default=str)) */
  function JsonSafe(payload: Value): Option<Value> {
    Loads(Print(payload, true, ""))
  }

  /** No object is left that only default=str can print. */
  predicate Safe(v: Value) { Rendered(v) == v }

  lemma DumpsThenLoads(v: Value, spaced: bool)
    ensures Loads(Print(v, spaced, "")) == Some(Rendered(v))
  {
    PrintStarts(v, spaced, "");
    RoundTrip(v, spaced, "");
  }

  /** Rendering twice is rendering once, so the stored and the hashed payload agree. */
  lemma {:induction false} RenderedIsSafe(v: Value)
    ensures Safe(Rendered(v))
    decreases v, 1
  {
    match v
    case Arr(items) => RenderedItemsSafe(items);
    case Obj(ms) => RenderedMembersSafe(ms);
    case _ =>
  }

  lemma {:induction false} RenderedItemsSafe(items: Items)
    ensures RenderedItems(RenderedItems(items)) == RenderedItems(items)
    decreases items, 0
  {
    if items.Item? {
      RenderedIsSafe(items.head);
      RenderedItemsSafe(items.tail);
    }
  }

  lemma {:induction false} RenderedMembersSafe(ms: Members)
    ensures RenderedMembers(RenderedMembers(ms)) == RenderedMembers(ms)
    decreases ms, 0
  {
    if ms.Member? {
      RenderedIsSafe(ms.value);
      RenderedMembersSafe(ms.rest);
    }
  }

  lemma JsonSafeIdempotent(v: Value)
    ensures JsonSafe(v).Some? && Safe(JsonSafe(v).value)
    ensures JsonSafe(JsonSafe(v).value) == JsonSafe(v)
    ensures Safe(v) ==> JsonSafe(v) == Some(v)
  {
    DumpsThenLoads(v, true);
    RenderedIsSafe(v);
    DumpsThenLoads(Rendered(v), true);
  }

  // ---------- The order of keys ----------

  /** Python's order on str: by code point, a proper prefix first. */
  predicate Before(a: string, b: string) {
    b != "" && (a == "" || a[0] < b[0] || (a[0] == b[0] && Before(a[1..], b[1..])))
  }

  lemma {:induction false} BeforeTotal(a: string, b: string)
    ensures Before(a, b) || a == b || Before(b, a)
    ensures !(Before(a, b) && Before(b, a)) && !Before(a, a)
  {
    if a != "" && b != "" && a[0] == b[0] {
      BeforeTotal(a[1..], b[1..]);
      assert a == [a[0]] + a[1..] && b == [b[0]] + b[1..];
    }
    if a != "" && a != b {
      BeforeTotal(a[1..], a[1..]);
    } else if a != "" {
      BeforeTotal(a[1..], a[1..]);
    }
  }

  lemma {:induction false} BeforeTransitive(a: string, b: string, c: string)
    requires Before(a, b) && Before(b, c)
    ensures Before(a, c)
  {
    if a != "" && a[0] == b[0] == c[0] {
      BeforeTransitive(a[1..], b[1..], c[1..]);
    }
  }

  /** The first difference decides, or the length if there is none. */
  lemma {:induction false} BeforeMeans(a: string, b: string)
    ensures Before(a, b) <==>
      exists n :: 0 <= n <= |a| && n < |b| && a[..n] == b[..n] && (n == |a| || a[n] < b[n])
  {
    if a != "" && b != "" && a[0] == b[0] {
      BeforeMeans(a[1..], b[1..]);
      if n :| 0 <= n <= |a[1..]| && n < |b[1..]| && a[1..][..n] == b[1..][..n]
              && (n == |a[1..]| || a[1..][n] < b[1..][n]) {
        assert a[..n + 1] == [a[0]] + a[1..][..n] && b[..n + 1] == [b[0]] + b[1..][..n];
      }
      if n :| 0 <= n <= |a| && n < |b| && a[..n] == b[..n] && (n == |a| || a[n] < b[n]) {
        assert n > 0;
        assert a[1..][..n - 1] == a[..n][1..] && b[1..][..n - 1] == b[..n][1..];
      }
    } else if b != "" {
      if n :| 0 <= n <= |a| && n < |b| && a[..n] == b[..n] && (n == |a| || a[n] < b[n]) {
        assert n > 0 ==> a[..n][0] == b[..n][0];
      }
      assert a[..0] == b[..0];
    }
  }

  // ---------- sort_keys=True ----------

  function Insert(key: string, value: Value, ms: Members): (r: Members)
    ensures Keys(r) == {key} + Keys(ms)
  {
    if ms.Member? && Before(ms.key, key) then Member(ms.key, ms.value, Insert(key, value, ms.rest))
    else Member(key, value, ms)
  }

  /** The value with the keys of every dictionary in order. */
  function Norm(v: Value): Value {
    match v
    case Arr(items) => Arr(NormItems(items))
    case Obj(ms) => Obj(NormMembers(ms))
    case _ => v
  }

  function NormItems(items: Items): Items {
    match items
    case NoItems => NoItems
    case Item(h, t) => Item(Norm(h), NormItems(t))
  }

  function NormMembers(ms: Members): (r: Members)
    ensures Keys(r) == Keys(ms)
  {
    match ms
    case NoMembers => NoMembers
    case Member(k, v, rest) => Insert(k, Norm(v), NormMembers(rest))
  }

  /** json.dumps(payload, sort_keys=True, default=str, separators=(",", ":")) */
  function Canonical(v: Value): string { Print(Norm(v), false, "") }

  // ---------- Equality of nested unordered objects ----------

  /** Equal up to the order of keys at every depth: same keys, equivalent values. */
  predicate Equiv(a: Value, b: Value) {
    match a
    case Arr(items) => b.Arr? && EquivItems(items, b.items)
    case Obj(ms) => b.Obj? && Keys(ms) == Keys(b.members) && EquivMembers(ms, b.members)
    case _ => a == b
  }

  predicate EquivItems(a: Items, b: Items) {
    match a
    case NoItems => b.NoItems?
    case Item(h, t) => b.Item? && Equiv(h, b.head) && EquivItems(t, b.tail)
  }

  predicate EquivMembers(a: Members, b: Members) {
    a.Member? ==> a.key in Keys(b) && Equiv(a.value, Lookup(b, a.key)) && EquivMembers(a.rest, b)
  }

  // ---------- Sorted dictionaries are determined by their contents ----------

  predicate Sorted(ms: Members) {
    ms.Member? ==> (forall k :: k in Keys(ms.rest) ==> Before(ms.key, k)) && Sorted(ms.rest)
  }

  lemma {:induction false} InsertSorted(key: string, value: Value, ms: Members)
    requires Sorted(ms) && key !in Keys(ms)
    ensures Sorted(Insert(key, value, ms))
    ensures forall k :: k in Keys(ms) ==> Lookup(Insert(key, value, ms), k) == Lookup(ms, k)
    ensures Lookup(Insert(key, value, ms), key) == value
  {
    if ms.Member? {
      BeforeTotal(ms.key, key);
      if Before(ms.key, key) {
        InsertSorted(key, value, ms.rest);
      } else {
        forall k | k in Keys(ms.rest)
          ensures Before(key, k)
        {
          BeforeTransitive(key, ms.key, k);
        }
      }
    }
  }

  lemma {:induction false} NormSorted(ms: Members)
    requires UniqueMembers(ms)
    ensures Sorted(NormMembers(ms))
    ensures forall k :: k in Keys(ms) ==> Lookup(NormMembers(ms), k) == Norm(Lookup(ms, k))
  {
    if ms.Member? {
      NormSorted(ms.rest);
      InsertSorted(ms.key, Norm(ms.value), NormMembers(ms.rest));
    }
  }

  lemma SortedHead(a: Members, b: Members)
    requires Sorted(a) && Sorted(b) && a.Member? && Keys(a) == Keys(b)
    ensures b.Member? && a.key == b.key && Keys(a.rest) == Keys(b.rest)
  {
    assert a.key in Keys(a);
    assert b.Member?;
    assert b.key in Keys(a);
    BeforeTotal(a.key, b.key);
    BeforeTotal(a.key, a.key);
    assert a.key !in Keys(a.rest) && b.key !in Keys(b.rest);
    assert Keys(a.rest) == Keys(a) - {a.key} == Keys(b) - {b.key} == Keys(b.rest);
  }

  lemma {:induction false} SortedDetermined(a: Members, b: Members)
    requires Sorted(a) && Sorted(b) && Keys(a) == Keys(b)
    requires forall k :: k in Keys(a) ==> Lookup(a, k) == Lookup(b, k)
    ensures a == b
  {
    if a.NoMembers? {
      assert Keys(b) == {};
    } else {
      SortedHead(a, b);
      assert Lookup(a, a.key) == Lookup(b, a.key);
      BeforeTotal(a.key, a.key);
      forall k | k in Keys(a.rest)
        ensures Lookup(a.rest, k) == Lookup(b.rest, k)
      {
        assert k != a.key;
        assert Lookup(a, k) == Lookup(b, k);
      }
      SortedDetermined(a.rest, b.rest);
    }
  }

  // ---------- Sorting keys decides Equiv ----------

  lemma {:induction false} NormDecides(a: Value, b: Value)
    requires Unique(a) && Unique(b)
    ensures Norm(a) == Norm(b) <==> Equiv(a, b)
    decreases a, 1
  {
    match a
    case Arr(items) =>
      if b.Arr? { NormItemsDecides(items, b.items); }
    case Obj(ms) =>
      if b.Obj? { NormMembersDecides(ms, b.members); }
    case _ =>
  }

  lemma {:induction false} NormItemsDecides(a: Items, b: Items)
    requires UniqueItems(a) && UniqueItems(b)
    ensures NormItems(a) == NormItems(b) <==> EquivItems(a, b)
    decreases a, 0
  {
    if a.Item? && b.Item? {
      NormDecides(a.head, b.head);
      NormItemsDecides(a.tail, b.tail);
    }
  }

  lemma NormMembersDecides(a: Members, b: Members)
    requires UniqueMembers(a) && UniqueMembers(b)
    ensures NormMembers(a) == NormMembers(b) <==> Keys(a) == Keys(b) && EquivMembers(a, b)
    decreases a, 2
  {
    NormSorted(a);
    NormSorted(b);
    if NormMembers(a) == NormMembers(b) {
      assert Keys(a) == Keys(b);
      forall k | k in Keys(a)
        ensures NormsAgree(a, b, k)
      {}
      AgreeThenEquiv(a, b);
    } else if Keys(a) == Keys(b) && EquivMembers(a, b) {
      EquivThenAgree(a, b);
      forall k | k in Keys(a)
        ensures Lookup(NormMembers(a), k) == Lookup(NormMembers(b), k)
      {
        assert NormsAgree(a, b, k);
      }
      SortedDetermined(NormMembers(a), NormMembers(b));
    }
  }

  predicate NormsAgree(a: Members, b: Members, k: string)
    requires k in Keys(a)
  {
    k in Keys(b) && Norm(Lookup(a, k)) == Norm(Lookup(b, k))
  }

  lemma {:induction false} UniqueLookup(ms: Members, k: string)
    requires UniqueMembers(ms) && k in Keys(ms)
    ensures Unique(Lookup(ms, k))
  {
    if ms.key != k {
      UniqueLookup(ms.rest, k);
    }
  }

  lemma {:induction false} EquivThenAgree(a: Members, b: Members)
    requires UniqueMembers(a) && UniqueMembers(b) && EquivMembers(a, b)
    ensures forall k :: k in Keys(a) ==> NormsAgree(a, b, k)
    decreases a, 0
  {
    if a.Member? {
      EquivThenAgree(a.rest, b);
      UniqueLookup(b, a.key);
      NormDecides(a.value, Lookup(b, a.key));
      forall k | k in Keys(a)
        ensures NormsAgree(a, b, k)
      {
        assert k != a.key ==> NormsAgree(a.rest, b, k);
      }
    }
  }

  lemma {:induction false} AgreeThenEquiv(a: Members, b: Members)
    requires UniqueMembers(a) && UniqueMembers(b)
    requires forall k :: k in Keys(a) ==> NormsAgree(a, b, k)
    ensures EquivMembers(a, b)
    decreases a, 0
  {
    if a.Member? {
      assert NormsAgree(a, b, a.key);
      UniqueLookup(b, a.key);
      NormDecides(a.value, Lookup(b, a.key));
      forall k | k in Keys(a.rest)
        ensures NormsAgree(a.rest, b, k)
      {
        assert NormsAgree(a, b, k);
      }
      AgreeThenEquiv(a.rest, b);
    }
  }

  // ---------- Rendering and sorting ----------

  lemma {:induction false} RenderedUnique(v: Value)
    requires Unique(v)
    ensures Unique(Rendered(v))
    decreases v, 1
  {
    match v
    case Arr(items) => RenderedItemsUnique(items);
    case Obj(ms) => RenderedMembersUnique(ms);
    case _ =>
  }

  lemma {:induction false} RenderedItemsUnique(items: Items)
    requires UniqueItems(items)
    ensures UniqueItems(RenderedItems(items))
    decreases items, 0
  {
    if items.Item? {
      RenderedUnique(items.head);
      RenderedItemsUnique(items.tail);
    }
  }

  lemma {:induction false} RenderedMembersUnique(ms: Members)
    requires UniqueMembers(ms)
    ensures UniqueMembers(RenderedMembers(ms))
    decreases ms, 0
  {
    if ms.Member? {
      RenderedUnique(ms.value);
      RenderedMembersUnique(ms.rest);
    }
  }

  lemma {:induction false} RenderedInsert(key: string, value: Value, ms: Members)
    ensures RenderedMembers(Insert(key, value, ms)) == Insert(key, Rendered(value), RenderedMembers(ms))
  {
    if ms.Member? && Before(ms.key, key) {
      RenderedInsert(key, value, ms.rest);
    }
  }

  lemma {:induction false} RenderedNorm(v: Value)
    ensures Rendered(Norm(v)) == Norm(Rendered(v))
    decreases v, 1
  {
    match v
    case Arr(items) => RenderedNormItems(items);
    case Obj(ms) => RenderedNormMembers(ms);
    case _ =>
  }

  lemma {:induction false} RenderedNormItems(items: Items)
    ensures RenderedItems(NormItems(items)) == NormItems(RenderedItems(items))
    decreases items, 0
  {
    if items.Item? {
      RenderedNorm(items.head);
      RenderedNormItems(items.tail);
    }
  }

  lemma {:induction false} RenderedNormMembers(ms: Members)
    ensures RenderedMembers(NormMembers(ms)) == NormMembers(RenderedMembers(ms))
    decreases ms, 0
  {
    if ms.Member? {
      RenderedNorm(ms.value);
      RenderedNormMembers(ms.rest);
      RenderedInsert(ms.key, Norm(ms.value), NormMembers(ms.rest));
    }
  }

  /** Two payloads have the same canonical text exactly when they render to objects that
      differ at most in the order of their keys. */
  lemma CanonicalDecides(a: Value, b: Value)
    requires Unique(a) && Unique(b)
    ensures Canonical(a) == Canonical(b) <==> Equiv(Rendered(a), Rendered(b))
  {
    RenderedUnique(a);
    RenderedUnique(b);
    NormDecides(Rendered(a), Rendered(b));
    RenderedNorm(a);
    RenderedNorm(b);
    DumpsThenLoads(Norm(a), false);
    DumpsThenLoads(Norm(b), false);
    CanonicalOfRendered(a);
    CanonicalOfRendered(b);
  }

  /** default=str prints an object exactly as the string it renders to. */
  lemma CanonicalOfRendered(v: Value)
    ensures Canonical(Rendered(v)) == Canonical(v)
  {
    RenderedNorm(v);
    PrintRendered(Norm(v), "");
  }

  lemma {:induction false} PrintRendered(v: Value, rest: string)
    ensures Print(Rendered(v), false, rest) == Print(v, false, rest)
    decreases v, 1
  {
    match v
    case Arr(items) => PrintRenderedItems(items, "]" + rest);
    case Obj(ms) => PrintRenderedMembers(ms, "}" + rest);
    case _ =>
  }

  lemma {:induction false} PrintRenderedItems(items: Items, rest: string)
    ensures PrintItems(RenderedItems(items), false, rest) == PrintItems(items, false, rest)
    decreases items, 0
  {
    if items.Item? {
      PrintRenderedItems(items.tail, rest);
      PrintRendered(items.head, if items.tail.NoItems? then rest else "," + PrintItems(items.tail, false, rest));
    }
  }

  lemma {:induction false} PrintRenderedMembers(ms: Members, rest: string)
    ensures PrintMembers(RenderedMembers(ms), false, rest) == PrintMembers(ms, false, rest)
    decreases ms, 0
  {
    if ms.Member? {
      PrintRenderedMembers(ms.rest, rest);
      PrintRendered(ms.value, if ms.rest.NoMembers? then rest else "," + PrintMembers(ms.rest, false, rest));
    }
  }

  // ---------- What a JSONB column can hold ----------

  /** A value read from a JSONB column: no foreign objects, no key twice in one object. */
  type Jsonb = v: Value | Unique(v) && Safe(v) witness Null

  lemma JsonSafeStored(v: Value)
    requires Unique(v)
    ensures JsonSafe(v) == Some(Rendered(v)) && Unique(Rendered(v)) && Safe(Rendered(v))
  {
    DumpsThenLoads(v, true);
    RenderedIsSafe(v);
    RenderedUnique(v);
  }

  // ---------- A canonical text ----------

  /** {"b": [True, None], "a": {"y": -5, "x": 2.50}} */
  const SAMPLE := Obj(Member("b", Arr(Item(Bool(true), Item(Null, NoItems))),
    Member("a", Obj(Member("y", Int(-5), Member("x", Fixed(250, 2), NoMembers))), NoMembers)))

  lemma SampleNorm()
    ensures Norm(SAMPLE) == Obj(
      Member("a", Obj(Member("x", Fixed(250, 2), Member("y", Int(-5), NoMembers))),
      Member("b", Arr(Item(Bool(true), Item(Null, NoItems))), NoMembers)))
  {
    assert Before("a", "b") && !Before("b", "a") && Before("x", "y") && !Before("y", "x");
    assert NormMembers(Member("x", Fixed(250, 2), NoMembers)) == Member("x", Fixed(250, 2), NoMembers);
  }

  lemma QuoteOne(c: char, rest: string)
    requires ' ' <= c <= '~' && c != '"' && c != '\\'
    ensures Quote([c], rest) == "\"" + [c] + "\"" + rest
  {
    assert [c][1..] == "";
    assert Escape("", "\"" + rest) == "\"" + rest;
  }

  lemma SampleNumbers()
    ensures Print(Int(-5), false, "") == "-5" && Print(Fixed(250, 2), false, "") == "2.50"
  {
    assert Digits(25, 2) == "25" && Digits(250, 3) == "250";
  }

  lemma PrintTail(v: Value, rest: string)
    requires v.Int? || v.Fixed?
    ensures Print(v, false, rest) == Print(v, false, "") + rest
  {
    if v.Fixed? {
      var m := Abs(v.mantissa);
      assert PrintFixed(m, v.places, rest) == PrintFixed(m, v.places, "") + rest;
    }
  }

  lemma PrintOneMember(c: char, v: Value, rest: string)
    requires ' ' <= c <= '~' && c != '"' && c != '\\'
    ensures PrintMembers(Member([c], v, NoMembers), false, rest) == "\"" + [c] + "\":" + Print(v, false, rest)
  {
    hide Quote, Print;
    QuoteOne(c, ":" + Print(v, false, rest));
  }

  lemma PrintTwoMembers(c: char, v: Value, tail: Members, rest: string)
    requires ' ' <= c <= '~' && c != '"' && c != '\\' && tail.Member?
    ensures PrintMembers(Member([c], v, tail), false, rest)
         == "\"" + [c] + "\":" + Print(v, false, "," + PrintMembers(tail, false, rest))
  {
    hide Quote, Print;
    QuoteOne(c, ":" + Print(v, false, "," + PrintMembers(tail, false, rest)));
  }

  lemma PrintList(rest: string)
    ensures Print(Arr(Item(Bool(true), Item(Null, NoItems))), false, rest) == "[true,null]" + rest
  {
    assert PrintItems(Item(Null, NoItems), false, "]" + rest) == "null" + ("]" + rest);
    assert Print(Bool(true), false, "," + ("null" + ("]" + rest))) == "true" + ("," + ("null" + ("]" + rest)));
  }

  lemma PrintInner(rest: string)
    ensures Print(Obj(Member("x", Fixed(250, 2), Member("y", Int(-5), NoMembers))), false, rest)
         == "{\"x\":2.50,\"y\":-5}" + rest
  {
    hide Quote, PrintFixed, Digits, Sign;
    var y := Member("y", Int(-5), NoMembers);
    SampleNumbers();
    PrintTail(Int(-5), "}" + rest);
    PrintOneMember('y', Int(-5), "}" + rest);
    PrintTail(Fixed(250, 2), "," + PrintMembers(y, false, "}" + rest));
    PrintTwoMembers('x', Fixed(250, 2), y, "}" + rest);
    assert Print(Obj(Member("x", Fixed(250, 2), y)), false, rest)
        == "{" + PrintMembers(Member("x", Fixed(250, 2), y), false, "}" + rest);
  }

  /** Keys in order at every depth, and no white space. */
  lemma SampleText()
    ensures Canonical(SAMPLE) == "{" + ("\"a\":" + ("{\"x\":2.50,\"y\":-5}" + ("," + ("\"b\":" + "[true,null]}"))))
  {
    hide Quote, Norm, PrintMembers;
    SampleNorm();
    var inner := Obj(Member("x", Fixed(250, 2), Member("y", Int(-5), NoMembers)));
    var list := Arr(Item(Bool(true), Item(Null, NoItems)));
    var b := Member("b", list, NoMembers);
    PrintList("}");
    PrintOneMember('b', list, "}");
    PrintInner("," + PrintMembers(b, false, "}"));
    PrintTwoMembers('a', inner, b, "}");
    assert "}" + "" == "}" && "[true,null]" + "}" == "[true,null]}";
    assert "\"" + ['a'] + "\":" == "\"a\":" && "\"" + ['b'] + "\":" == "\"b\":";
    assert Canonical(SAMPLE) == "{" + PrintMembers(Member("a", inner, b), false, "}");
  }
}
