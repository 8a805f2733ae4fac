/** The mock watchlist provider: name normalisation, scoring, and the ordered list of hits.

    Two library functions are parameters: casefold of one character, which must leave ASCII
    other than A to Z alone and put those in lower case, and SequenceMatcher.ratio, a number in [0, 1] that is 1 on
    equal texts. The watchlist itself is any list of entries. */
module Watchlist {
  import opened Wrappers
  import opened CanonicalJson

  // ---------- Characters ----------

  predicate Word(c: char) { 'a' <= c <= 'z' || '0' <= c <= '9' }

  /** str.isspace(), which strip, split and \\s agree on. */
  predicate IsSpace(c: char) {
    || '\U{09}' <= c <= '\U{0D}' || '\U{1C}' <= c <= '\U{20}' || c == '\U{85}' || c == '\U{A0}' || c == '\U{1680}'
    || '\U{2000}' <= c <= '\U{200A}' || c == '\U{2028}' || c == '\U{2029}' || c == '\U{202F}' || c == '\U{205F}'
    || c == '\U{3000}'
  }

  /** A to Z in lower case, every other character as it is. */
  function Lower(c: char): char { if 'A' <= c <= 'Z' then (c as int + 32) as char else c }

  ghost predicate FoldOk(f: char -> string) { forall c :: ' ' <= c <= '~' ==> f(c) == [Lower(c)] }

  type Fold = f: char -> string | FoldOk(f) witness c => [Lower(c)]

  ghost predicate RatioOk(r: (string, string) -> real) {
    (forall a, b :: 0.0 <= r(a, b) <= 1.0) && forall a :: r(a, a) == 1.0
  }

  type Ratio = r: (string, string) -> real | RatioOk(r) witness (a, b) => if a == b then 1.0 else 0.0

  // ---------- _normalize ----------

  function Casefold(fold: Fold, s: string): string {
    if s == "" then "" else fold(s[0]) + Casefold(fold, s[1..])
  }

  function StripLeft(s: string): string {
    if s != "" && IsSpace(s[0]) then StripLeft(s[1..]) else s
  }

  function StripRight(s: string): string {
    if s != "" && IsSpace(s[|s| - 1]) then StripRight(s[..|s| - 1]) else s
  }

  function Strip(s: string): string { StripRight(StripLeft(s)) }

  /** re.sub of every character outside a to z, 0 to 9 and white space by nothing. */
  function Keep(s: string): string {
    if s == "" then "" else (if Word(s[0]) || IsSpace(s[0]) then [s[0]] else "") + Keep(s[1..])
  }

  /** re.sub of every run of white space by one space. */
  function Collapse(s: string): string {
    if s == "" then ""
    else if !IsSpace(s[0]) then [s[0]] + Collapse(s[1..])
    else if |s| > 1 && IsSpace(s[1]) then Collapse(s[1..])
    else " " + Collapse(s[1..])
  }

  function Normalize(fold: Fold, name: string): string { Collapse(Keep(Strip(Casefold(fold, name)))) }

  // ---------- _token_sort ----------

  /** s.split() */
  function Tokens(s: string): (ts: seq<string>)
    ensures s != "" && !IsSpace(s[0]) ==> ts != []
  {
    if s == "" then []
    else if IsSpace(s[0]) then Tokens(s[1..])
    else if |s| == 1 || IsSpace(s[1]) then [[s[0]]] + Tokens(s[1..])
    else
      var rest := Tokens(s[1..]);
      [[s[0]] + rest[0]] + rest[1..]
  }

  function InsertToken(t: string, ts: seq<string>): (r: seq<string>)
    ensures multiset(r) == multiset(ts) + multiset{t}
  {
    if ts == [] then [t]
    else
      assert ts == [ts[0]] + ts[1..];
      if Before(ts[0], t) then [ts[0]] + InsertToken(t, ts[1..]) else [t] + ts
  }

  /** sorted(tokens) */
  function SortTokens(ts: seq<string>): (r: seq<string>)
    ensures multiset(r) == multiset(ts)
  {
    if ts == [] then []
    else
      assert ts == [ts[0]] + ts[1..];
      InsertToken(ts[0], SortTokens(ts[1..]))
  }

  function Join(ts: seq<string>): string {
    if ts == [] then "" else if |ts| == 1 then ts[0] else ts[0] + " " + Join(ts[1..])
  }

  function TokenSort(s: string): string { Join(SortTokens(Tokens(s))) }

  // ---------- Splitting ignores what normalising white space changes ----------

  /** What split() returns: neither empty nor holding white space. */
  predicate Solid(t: string) { t != "" && forall c :: c in t ==> !IsSpace(c) }

  predicate AllSolid(ts: seq<string>) { forall t :: t in ts ==> Solid(t) }

  lemma {:induction false} TokensOfStripLeft(s: string)
    ensures Tokens(StripLeft(s)) == Tokens(s)
  {
    if s != "" && IsSpace(s[0]) {
      TokensOfStripLeft(s[1..]);
    }
  }

  lemma {:induction false} TokensThenSpace(s: string, c: char)
    requires IsSpace(c)
    ensures Tokens(s + [c]) == Tokens(s)
  {
    if s == "" {
      assert Tokens([c]) == Tokens([c][1..]);
    } else {
      TokensThenSpace(s[1..], c);
      assert (s + [c])[1..] == s[1..] + [c];
      if |s| == 1 {
        assert (s + [c])[1] == c;
      }
    }
  }

  lemma {:induction false} TokensOfStripRight(s: string)
    ensures Tokens(StripRight(s)) == Tokens(s)
  {
    if s != "" && IsSpace(s[|s| - 1]) {
      TokensOfStripRight(s[..|s| - 1]);
      TokensThenSpace(s[..|s| - 1], s[|s| - 1]);
      assert s == s[..|s| - 1] + [s[|s| - 1]];
    }
  }

  lemma {:induction false} CollapseHead(s: string)
    ensures s == "" <==> Collapse(s) == ""
    ensures s != "" ==> (IsSpace(Collapse(s)[0]) <==> IsSpace(s[0])) && (!IsSpace(s[0]) ==> Collapse(s)[0] == s[0])
  {
    if |s| > 1 && IsSpace(s[0]) && IsSpace(s[1]) {
      CollapseHead(s[1..]);
    }
  }

  lemma {:induction false} TokensOfCollapse(s: string)
    ensures Tokens(Collapse(s)) == Tokens(s)
  {
    if s != "" {
      TokensOfCollapse(s[1..]);
      CollapseHead(s[1..]);
      if !IsSpace(s[0]) {
        assert Collapse(s)[1..] == Collapse(s[1..]);
      } else if !(|s| > 1 && IsSpace(s[1])) {
        assert Collapse(s) == " " + Collapse(s[1..]);
        assert Collapse(s)[1..] == Collapse(s[1..]);
      }
    }
  }

  // ---------- Tokens and their texts ----------

  lemma {:induction false} TokensSolid(s: string)
    ensures AllSolid(Tokens(s))
  {
    if s != "" {
      TokensSolid(s[1..]);
      var rest := Tokens(s[1..]);
      if !IsSpace(s[0]) && |s| > 1 && !IsSpace(s[1]) {
        assert rest[0] in rest;
        forall t | t in Tokens(s)
          ensures Solid(t)
        {
          assert t == [s[0]] + rest[0] || t in rest[1..];
        }
      }
    }
  }

  lemma {:induction false} TokensOfSolid(t: string, rest: string)
    requires Solid(t) && (rest == "" || IsSpace(rest[0]))
    ensures Tokens(t + rest) == [t] + Tokens(rest)
  {
    assert t[0] in t;
    assert (t + rest)[1..] == t[1..] + rest;
    if |t| == 1 {
      assert t == [t[0]];
    } else {
      assert t[1] in t && forall c :: c in t[1..] ==> c in t;
      TokensOfSolid(t[1..], rest);
      assert t == [t[0]] + t[1..];
    }
  }

  lemma TokensAfterSpace(s: string)
    ensures Tokens(" " + s) == Tokens(s)
    ensures Tokens("") == []
  {
    assert (" " + s)[1..] == s;
  }

  lemma {:induction false} TokensOfJoin(ts: seq<string>)
    requires AllSolid(ts)
    ensures Tokens(Join(ts)) == ts
  {
    hide Tokens, Solid;
    TokensAfterSpace("");
    if ts != [] {
      assert ts[0] in ts;
      if |ts| == 1 {
        TokensOfSolid(ts[0], "");
        assert ts[0] + "" == ts[0];
      } else {
        TokensOfJoin(ts[1..]);
        var rest := " " + Join(ts[1..]);
        TokensAfterSpace(Join(ts[1..]));
        TokensOfSolid(ts[0], rest);
        assert ts[0] + " " + Join(ts[1..]) == ts[0] + rest;
        assert [ts[0]] + ts[1..] == ts;
      }
    }
  }

  // ---------- Sorting tokens ----------

  predicate InOrder(ts: seq<string>) {
    |ts| > 1 ==> !Before(ts[1], ts[0]) && InOrder(ts[1..])
  }

  lemma {:induction false} InsertKeepsOrder(t: string, ts: seq<string>)
    requires InOrder(ts)
    ensures InOrder(InsertToken(t, ts))
  {
    if ts != [] {
      BeforeTotal(ts[0], t);
      if Before(ts[0], t) {
        InsertKeepsOrder(t, ts[1..]);
        var r := InsertToken(t, ts[1..]);
        assert r[0] == t || (|ts| > 1 && r[0] == ts[1]);
      }
    }
  }

  lemma {:induction false} SortOrders(ts: seq<string>)
    ensures InOrder(SortTokens(ts))
  {
    if ts != [] {
      SortOrders(ts[1..]);
      InsertKeepsOrder(ts[0], SortTokens(ts[1..]));
    }
  }

  /** The first of tokens in order is the least. */
  lemma {:induction false} FirstIsLeast(ts: seq<string>, t: string)
    requires InOrder(ts) && t in ts
    ensures !Before(t, ts[0])
  {
    BeforeTotal(ts[0], ts[0]);
    if t != ts[0] {
      assert t in ts[1..];
      FirstIsLeast(ts[1..], t);
      BeforeTotal(ts[0], ts[1]);
      if Before(t, ts[0]) && Before(ts[0], ts[1]) {
        BeforeTransitive(t, ts[0], ts[1]);
      }
    }
  }

  /** Tokens in order are determined by how often each occurs. */
  lemma {:induction false} OrderDetermined(a: seq<string>, b: seq<string>)
    requires InOrder(a) && InOrder(b) && multiset(a) == multiset(b)
    ensures a == b
  {
    hide Before;
    if a == [] {
      assert |multiset(b)| == |b|;
    } else {
      assert a == [a[0]] + a[1..];
      assert a[0] in multiset(b);
      assert b == [b[0]] + b[1..];
      assert b[0] in multiset(a);
      FirstIsLeast(a, b[0]);
      FirstIsLeast(b, a[0]);
      BeforeTotal(a[0], b[0]);
      assert a[0] == b[0];
      assert multiset(a[1..]) == multiset(a) - multiset{a[0]};
      assert multiset(b[1..]) == multiset(b) - multiset{b[0]};
      OrderDetermined(a[1..], b[1..]);
    }
  }

  lemma SortedSolid(s: string)
    ensures AllSolid(SortTokens(Tokens(s)))
    ensures Tokens(TokenSort(s)) == SortTokens(Tokens(s))
  {
    TokensSolid(s);
    forall t | t in SortTokens(Tokens(s))
      ensures Solid(t)
    {
      assert t in multiset(SortTokens(Tokens(s)));
    }
    TokensOfJoin(SortTokens(Tokens(s)));
  }

  /** _token_sort forgets exactly the order of the words. */
  lemma TokenSortDecides(a: string, b: string)
    ensures TokenSort(a) == TokenSort(b) <==> multiset(Tokens(a)) == multiset(Tokens(b))
  {
    SortedSolid(a);
    SortedSolid(b);
    if multiset(Tokens(a)) == multiset(Tokens(b)) {
      SortOrders(Tokens(a));
      SortOrders(Tokens(b));
      OrderDetermined(SortTokens(Tokens(a)), SortTokens(Tokens(b)));
    }
  }

  // ---------- Normal forms ----------

  /** Only letters, digits and single-character spaces. */
  predicate Plain(s: string) { forall c :: c in s ==> Word(c) || c == ' ' }

  lemma {:induction false} FoldPlain(fold: Fold, s: string)
    requires Plain(s)
    ensures Casefold(fold, s) == s
  {
    if s != "" {
      assert s[0] in s && forall c :: c in s[1..] ==> c in s;
      FoldPlain(fold, s[1..]);
    }
  }

  lemma {:induction false} KeepPlain(s: string)
    requires Plain(s)
    ensures Keep(s) == s
  {
    if s != "" {
      assert s[0] in s && forall c :: c in s[1..] ==> c in s;
      KeepPlain(s[1..]);
    }
  }

  predicate Kept(s: string) { forall c :: c in s ==> Word(c) || IsSpace(c) }

  lemma {:induction false} KeepKeeps(s: string)
    ensures Kept(Keep(s))
  {
    if s != "" {
      KeepKeeps(s[1..]);
    }
  }

  lemma {:induction false} CollapsePlain(s: string)
    requires Kept(s)
    ensures Plain(Collapse(s))
  {
    if s != "" {
      assert s[0] in s && forall c :: c in s[1..] ==> c in s;
      CollapsePlain(s[1..]);
    }
  }

  lemma NormalizePlain(fold: Fold, name: string)
    ensures Plain(Normalize(fold, name))
  {
    KeepKeeps(Strip(Casefold(fold, name)));
    CollapsePlain(Keep(Strip(Casefold(fold, name))));
  }

  lemma {:induction false} StripLeftPart(s: string)
    ensures forall c :: c in StripLeft(s) ==> c in s
  {
    if s != "" && IsSpace(s[0]) {
      StripLeftPart(s[1..]);
    }
  }

  lemma {:induction false} StripRightPart(s: string)
    ensures forall c :: c in StripRight(s) ==> c in s
  {
    if s != "" && IsSpace(s[|s| - 1]) {
      StripRightPart(s[..|s| - 1]);
    }
  }

  lemma StripPlain(s: string)
    requires Plain(s)
    ensures Plain(Strip(s))
  {
    StripLeftPart(s);
    StripRightPart(StripLeft(s));
  }

  /** Normalising a plain text only trims it and collapses its spaces. */
  lemma NormalizeOfPlain(fold: Fold, s: string)
    requires Plain(s)
    ensures Normalize(fold, s) == Collapse(Strip(s))
    ensures Tokens(Normalize(fold, s)) == Tokens(s)
  {
    FoldPlain(fold, s);
    StripPlain(s);
    KeepPlain(Strip(s));
    TokensOfCollapse(Strip(s));
    TokensOfStripRight(StripLeft(s));
    TokensOfStripLeft(s);
  }

  lemma {:induction false} TokensPlain(s: string)
    requires Plain(s)
    ensures forall t :: t in Tokens(s) ==> Plain(t)
  {
    if s != "" {
      assert s[0] in s && forall c :: c in s[1..] ==> c in s;
      TokensPlain(s[1..]);
      var rest := Tokens(s[1..]);
      if !IsSpace(s[0]) && |s| > 1 && !IsSpace(s[1]) {
        assert rest[0] in rest;
        forall t | t in Tokens(s)
          ensures Plain(t)
        {
          assert t == [s[0]] + rest[0] || t in rest[1..];
        }
      }
    }
  }

  lemma {:induction false} JoinPlain(ts: seq<string>)
    requires forall t :: t in ts ==> Plain(t)
    ensures Plain(Join(ts))
  {
    if ts != [] {
      assert ts[0] in ts;
      JoinPlain(ts[1..]);
    }
  }

  /** The normal form the scorer compares: words in order, one space apart. */
  function NormalForm(fold: Fold, name: string): string { TokenSort(Normalize(fold, name)) }

  /** Normalising and sorting again changes nothing. */
  lemma NormalFormIdempotent(fold: Fold, name: string)
    ensures NormalForm(fold, NormalForm(fold, name)) == NormalForm(fold, name)
  {
    var n := Normalize(fold, name);
    NormalizePlain(fold, name);
    TokensPlain(n);
    SortedSolid(n);
    var ts := SortTokens(Tokens(n));
    forall t | t in ts
      ensures Plain(t)
    {
      assert t in multiset(ts);
    }
    JoinPlain(ts);
    NormalizeOfPlain(fold, Join(ts));
    SortOrders(Tokens(n));
    SortOrders(ts);
    OrderDetermined(SortTokens(ts), ts);
  }

  // ---------- _normalize alone ----------

  /** No two spaces in a row. */
  predicate Single(s: string) {
    |s| > 1 ==> !(s[0] == ' ' && s[1] == ' ') && Single(s[1..])
  }

  lemma {:induction false} SingleAfter(t: string, rest: string)
    requires (forall c :: c in t ==> !IsSpace(c)) && Single(rest)
    ensures Single(t + rest)
  {
    if t == "" {
      assert t + rest == rest;
    } else {
      SingleAfter(t[1..], rest);
      assert (t + rest)[1..] == t[1..] + rest;
      assert t[0] in t;
    }
  }

  /** It neither begins nor ends with a space. */
  predicate Closed(s: string) { s != "" && s[0] != ' ' && s[|s| - 1] != ' ' }

  lemma SolidClosed(t: string)
    requires Solid(t)
    ensures Closed(t) && Single(t)
  {
    assert t[0] in t && t[|t| - 1] in t;
    SingleAfter(t, "");
    assert t + "" == t;
  }

  lemma JoinTwo(t: string, rest: string)
    requires Solid(t) && Closed(rest) && Single(rest)
    ensures Closed(t + " " + rest) && Single(t + " " + rest)
  {
    hide IsSpace;
    var tail := " " + rest;
    SolidClosed(t);
    assert tail[1..] == rest;
    assert Single(tail);
    SingleAfter(t, tail);
    assert t + " " + rest == t + tail;
  }

  lemma {:induction false} JoinSingle(ts: seq<string>)
    requires AllSolid(ts)
    ensures Single(Join(ts)) && (ts != [] ==> Closed(Join(ts)))
  {
    hide Solid, Closed;
    if ts != [] {
      assert ts[0] in ts && forall t :: t in ts[1..] ==> t in ts;
      JoinSingle(ts[1..]);
      SolidClosed(ts[0]);
      if |ts| > 1 { JoinTwo(ts[0], Join(ts[1..])); }
    }
  }

  /** The words of the text, as often as they occur, in ascending order, one space apart. */
  lemma TokenSortExact(s: string)
    ensures multiset(Tokens(TokenSort(s))) == multiset(Tokens(s)) && InOrder(Tokens(TokenSort(s)))
    ensures Single(TokenSort(s)) && (TokenSort(s) != "" ==> Closed(TokenSort(s)))
  {
    hide Tokens, Single, InOrder, IsSpace, Closed;
    SortedSolid(s);
    JoinSingle(SortTokens(Tokens(s)));
    SortOrders(Tokens(s));
  }

  lemma {:induction false} CollapseSingles(s: string)
    ensures Single(Collapse(s))
  {
    if s != "" {
      CollapseSingles(s[1..]);
      CollapseHead(s[1..]);
      if !IsSpace(s[0]) {
        assert Collapse(s)[1..] == Collapse(s[1..]);
      } else if !(|s| > 1 && IsSpace(s[1])) {
        assert Collapse(s)[1..] == Collapse(s[1..]);
      }
    }
  }

  lemma {:induction false} CollapseOfSingle(s: string)
    requires Plain(s) && Single(s)
    ensures Collapse(s) == s
  {
    if s != "" {
      assert s[0] in s && forall c :: c in s[1..] ==> c in s;
      assert |s| > 1 ==> s[1] in s;
      CollapseOfSingle(s[1..]);
    }
  }

  lemma {:induction false} StripLeftSingle(s: string)
    requires Single(s)
    ensures Single(StripLeft(s))
    ensures if s == "" || !IsSpace(s[0]) then StripLeft(s) == s else |StripLeft(s)| < |s|
  {
    if s != "" && IsSpace(s[0]) {
      StripLeftSingle(s[1..]);
    }
  }

  lemma {:induction false} SinglePrefix(s: string)
    requires Single(s) && s != ""
    ensures Single(s[..|s| - 1])
  {
    if |s| > 2 {
      SinglePrefix(s[1..]);
      assert s[..|s| - 1][1..] == s[1..][..|s| - 2];
    }
  }

  lemma {:induction false} StripRightSingle(s: string)
    requires Single(s)
    ensures Single(StripRight(s))
    ensures if s == "" || !IsSpace(s[|s| - 1]) then StripRight(s) == s else |StripRight(s)| < |s|
  {
    if s != "" && IsSpace(s[|s| - 1]) {
      SinglePrefix(s);
      StripRightSingle(s[..|s| - 1]);
    }
  }

  lemma StripSingle(s: string)
    requires Single(s)
    ensures Single(Strip(s))
    ensures Strip(s) == s <==> s == "" || (!IsSpace(s[0]) && !IsSpace(s[|s| - 1]))
  {
    StripLeftSingle(s);
    StripRightSingle(StripLeft(s));
  }

  lemma TwiceByEnds(fold: Fold, name: string)
    ensures var n := Normalize(fold, name);
      Normalize(fold, n) == n <==> n == "" || (!IsSpace(n[0]) && !IsSpace(n[|n| - 1]))
  {
    hide Normalize, Strip, Collapse, Single, IsSpace;
    var n := Normalize(fold, name);
    NormalizePlain(fold, name);
    NormalizeSingle(fold, name);
    NormalizeOfPlain(fold, n);
    StripSingle(n);
    StripPlain(n);
    CollapseOfSingle(Strip(n));
  }

  predicate Punctuation(c: char) { !Word(c) && !IsSpace(c) }

  /** Punctuation at the beginning, if any, and then white space. */
  predicate LooseStart(s: string) {
    exists i :: 0 <= i < |s| && IsSpace(s[i]) && forall j :: 0 <= j < i ==> Punctuation(s[j])
  }

  /** White space, and then punctuation at the end, if any. */
  predicate LooseEnd(s: string) {
    exists i :: 0 <= i < |s| && IsSpace(s[i]) && forall j :: i < j < |s| ==> Punctuation(s[j])
  }

  lemma {:induction false} KeepSplit(a: string, b: string)
    ensures Keep(a + b) == Keep(a) + Keep(b)
  {
    hide IsSpace, Word;
    if a == "" {
      assert a + b == b;
    } else {
      KeepSplit(a[1..], b);
      assert (a + b)[1..] == a[1..] + b && (a + b)[0] == a[0];
      var first := if Word(a[0]) || IsSpace(a[0]) then [a[0]] else "";
      assert first + (Keep(a[1..]) + Keep(b)) == (first + Keep(a[1..])) + Keep(b);
    }
  }

  lemma KeepOne(c: char)
    ensures Keep([c]) == if Punctuation(c) then "" else [c]
  {
    assert [c][1..] == "";
  }

  lemma {:induction false} KeepStart(s: string)
    ensures Keep(s) != "" && IsSpace(Keep(s)[0]) <==> LooseStart(s)
  {
    hide IsSpace, Word;
    if s != "" {
      KeepStart(s[1..]);
      if Punctuation(s[0]) {
        assert forall i :: 0 <= i < |s[1..]| ==> s[1..][i] == s[i + 1];
        if i :| 0 <= i < |s| && IsSpace(s[i]) && forall j :: 0 <= j < i ==> Punctuation(s[j]) {
          assert IsSpace(s[1..][i - 1]) && forall j :: 0 <= j < i - 1 ==> Punctuation(s[1..][j]);
        }
        if i :| 0 <= i < |s[1..]| && IsSpace(s[1..][i]) && forall j :: 0 <= j < i ==> Punctuation(s[1..][j]) {
          assert forall j :: 1 <= j < i + 1 ==> s[j] == s[1..][j - 1];
          assert IsSpace(s[i + 1]) && forall j :: 0 <= j < i + 1 ==> Punctuation(s[j]);
        }
      } else if IsSpace(s[0]) {
        assert LooseStart(s);
      }
    }
  }

  lemma {:induction false} KeepEnd(s: string)
    ensures Keep(s) != "" && IsSpace(Keep(s)[|Keep(s)| - 1]) <==> LooseEnd(s)
  {
    hide IsSpace, Word, LooseEnd;
    if s == "" {
      LooseEnds(s);
    } else {
      var n := |s| - 1;
      var init := s[..n];
      assert s == init + [s[n]];
      KeepEnd(init);
      KeepSplit(init, [s[n]]);
      KeepOne(s[n]);
      LooseEnds(s);
    }
  }

  lemma LooseEnds(s: string)
    ensures LooseEnd(s) <==> s != "" && (IsSpace(s[|s| - 1]) || (Punctuation(s[|s| - 1]) && LooseEnd(s[..|s| - 1])))
  {
    hide IsSpace, Word;
    if s != "" {
      var n := |s| - 1;
      var init := s[..n];
      if i :| 0 <= i < |s| && IsSpace(s[i]) && forall j :: i < j < |s| ==> Punctuation(s[j]) {
        if i < n {
          assert IsSpace(init[i]) && forall j :: i < j < n ==> Punctuation(init[j]);
        }
      }
      if IsSpace(s[n]) {
        assert LooseEnd(s);
      } else if Punctuation(s[n]) && LooseEnd(init) {
        var i :| 0 <= i < n && IsSpace(init[i]) && forall j :: i < j < n ==> Punctuation(init[j]);
        assert IsSpace(s[i]) && forall j :: i < j < |s| ==> Punctuation(s[j]);
      }
    }
  }

  lemma {:induction false} CollapseLast(s: string)
    ensures s != "" ==> Collapse(s) != "" && (IsSpace(Collapse(s)[|Collapse(s)| - 1]) <==> IsSpace(s[|s| - 1]))
  {
    CollapseHead(s);
    if |s| > 1 {
      CollapseLast(s[1..]);
    }
  }

  /** Punctuation is removed after trimming, so normalising twice changes exactly the names whose
      trimmed form begins or ends with punctuation that white space sets off from the rest. */
  lemma NormalizeTwice(fold: Fold, name: string)
    ensures var n, trimmed := Normalize(fold, name), Strip(Casefold(fold, name));
      Normalize(fold, n) == n <==> !LooseStart(trimmed) && !LooseEnd(trimmed)
  {
    hide Strip, Collapse, Keep, IsSpace, LooseStart, LooseEnd;
    var trimmed := Strip(Casefold(fold, name));
    TwiceByEnds(fold, name);
    CollapseHead(Keep(trimmed));
    CollapseLast(Keep(trimmed));
    KeepStart(trimmed);
    KeepEnd(trimmed);
  }

  lemma NormalizeSingle(fold: Fold, name: string)
    ensures Single(Normalize(fold, name))
  {
    CollapseSingles(Keep(Strip(Casefold(fold, name))));
  }

  /** One such name. */
  lemma NormalizeNotIdempotent(fold: Fold)
    ensures Normalize(fold, "- a") == " a" && Normalize(fold, " a") == "a"
  {
    assert Casefold(fold, "a") == "a" && Casefold(fold, " a") == " a" && Casefold(fold, "- a") == "- a";
    assert StripLeft("- a") == "- a" && StripRight("- a") == "- a";
    assert Keep("a") == "a" && Keep(" a") == " a" && Keep("- a") == " a";
    assert StripLeft(" a") == "a" && StripRight("a") == "a";
    assert Collapse("a") == "a" && Collapse(" a") == " a";
  }

  // ---------- What normalising keeps ----------

  predicate AllSpace(s: string) { forall c :: c in s ==> IsSpace(c) }

  lemma {:induction false} StripLeftCuts(s: string)
    ensures var n := |s| - |StripLeft(s)|; 0 <= n && AllSpace(s[..n]) && s[n..] == StripLeft(s)
    ensures StripLeft(s) == "" || !IsSpace(StripLeft(s)[0])
    ensures AllSpace(s) ==> StripLeft(s) == ""
  {
    hide IsSpace, AllSpace;
    NothingSpace();
    SpacePieces(s);
    if s != "" && IsSpace(s[0]) {
      StripLeftCuts(s[1..]);
      CutOne(s, |s| - 1 - |StripLeft(s)|);
    } else {
      assert s[..0] == "" && s[0..] == s;
    }
  }

  lemma NothingSpace()
    ensures AllSpace("")
  {}

  lemma SpacePieces(s: string)
    ensures s != "" ==> (AllSpace(s) <==> IsSpace(s[0]) && AllSpace(s[1..]))
  {
    hide IsSpace;
    if s != "" {
      assert s[0] in s && forall c :: c in s[1..] ==> c in s;
    }
  }

  lemma CutOne(s: string, n: int)
    requires s != "" && IsSpace(s[0]) && 0 <= n < |s| && AllSpace(s[1..][..n])
    ensures AllSpace(s[..n + 1]) && s[n + 1..] == s[1..][n..]
  {
    hide IsSpace, AllSpace;
    assert s[..n + 1][1..] == s[1..][..n];
    SpacePieces(s[..n + 1]);
  }

  lemma {:induction false} StripRightCuts(s: string)
    ensures var n := |StripRight(s)|; n <= |s| && AllSpace(s[n..]) && s[..n] == StripRight(s)
    ensures StripRight(s) == "" || !IsSpace(StripRight(s)[|StripRight(s)| - 1])
  {
    hide IsSpace;
    if s != "" && IsSpace(s[|s| - 1]) {
      var m := |s| - 1;
      StripRightCuts(s[..m]);
      var n := |StripRight(s)|;
      assert s[n..] == s[..m][n..] + [s[m]] && s[..n] == s[..m][..n];
    }
  }

  /** strip() removes the white space at both ends and nothing else. */
  lemma StripExact(s: string)
    ensures var i := |s| - |StripLeft(s)|;
            var j := i + |Strip(s)|;
      0 <= i <= j <= |s| && Strip(s) == s[i..j] && AllSpace(s[..i]) && AllSpace(s[j..])
    ensures Strip(s) == "" || (!IsSpace(Strip(s)[0]) && !IsSpace(Strip(s)[|Strip(s)| - 1]))
    ensures Strip(s) == "" <==> AllSpace(s)
  {
    hide IsSpace, AllSpace;
    StripLeftCuts(s);
    var left := StripLeft(s);
    StripRightCuts(left);
    var i, n := |s| - |left|, |Strip(s)|;
    assert s[i..i + n] == left[..n] && s[i + n..] == left[n..];
    BothEmpty(s);
  }

  lemma BothEmpty(s: string)
    ensures Strip(s) == "" <==> AllSpace(s)
    ensures Strip(s) != "" ==> !IsSpace(Strip(s)[0])
  {
    hide IsSpace;
    StripLeftCuts(s);
    var left := StripLeft(s);
    StripRightCuts(left);
    if Strip(s) == "" {
      assert left[0..] == left;
      if left == "" { assert s[..|s|] == s; }
    }
  }

  /** The letters and digits of a text. */
  function Letters(s: string): string {
    if s == "" then "" else (if Word(s[0]) then [s[0]] else "") + Letters(s[1..])
  }

  /** The words with their punctuation removed; a word of nothing else disappears. */
  function Words(ts: seq<string>): seq<string> {
    if ts == [] then []
    else (if Letters(ts[0]) == "" then [] else [Letters(ts[0])]) + Words(ts[1..])
  }

  lemma {:induction false} LettersSolid(s: string)
    ensures Letters(s) == "" || Solid(Letters(s))
  {
    if s != "" {
      LettersSolid(s[1..]);
    }
  }

  lemma {:induction false} KeepSolid(t: string)
    requires forall c :: c in t ==> !IsSpace(c)
    ensures Keep(t) == Letters(t)
  {
    if t != "" {
      assert t[0] in t && forall c :: c in t[1..] ==> c in t;
      KeepSolid(t[1..]);
    }
  }

  /** The first word of a text that does not begin with white space, and what follows it. */
  lemma {:induction false} FirstWord(s: string) returns (n: nat)
    ensures n <= |s| && (forall c :: c in s[..n] ==> !IsSpace(c)) && (n == |s| || IsSpace(s[n]))
    ensures s != "" && !IsSpace(s[0]) ==> n > 0
  {
    hide IsSpace;
    if s == "" || IsSpace(s[0]) {
      n := 0;
    } else {
      n := FirstWord(s[1..]);
      assert s[..n + 1] == [s[0]] + s[1..][..n];
      n := n + 1;
    }
  }

  lemma TokensSkip(c: char, s: string)
    requires IsSpace(c)
    ensures Tokens([c] + s) == Tokens(s)
  {
    assert ([c] + s)[1..] == s;
  }

  lemma {:induction false} TokensOfKeep(s: string)
    ensures Tokens(Keep(s)) == Words(Tokens(s))
    decreases |s|
  {
    hide Tokens, IsSpace, Word, Letters, Solid;
    if s == "" {
      TokensAfterSpace("");
    } else if IsSpace(s[0]) {
      TokensOfKeep(s[1..]);
      assert s == [s[0]] + s[1..];
      TokensSkip(s[0], s[1..]);
      TokensSkip(s[0], Keep(s[1..]));
    } else {
      var n := FirstWord(s);
      var t, rest := s[..n], s[n..];
      assert s == t + rest;
      TokensOfKeep(rest);
      KeepSplit(t, rest);
      KeepSolid(t);
      SolidPart(t);
      TokensOfSolid(t, rest);
      LettersSolid(t);
      KeepHead(rest);
      if Letters(t) == "" {
        assert Keep(t) + Keep(rest) == Keep(rest);
      } else {
        TokensOfSolid(Letters(t), Keep(rest));
      }
      assert ([t] + Tokens(rest))[1..] == Tokens(rest);
    }
  }

  lemma SolidPart(t: string)
    requires t != "" && forall c :: c in t ==> !IsSpace(c)
    ensures Solid(t)
  {}

  lemma KeepHead(s: string)
    requires s == "" || IsSpace(s[0])
    ensures Keep(s) == "" || IsSpace(Keep(s)[0])
  {
    hide IsSpace;
  }

  /** The words of a normalised name are those of the name in lower case without their punctuation,
      in the same order; between them it has single spaces only. */
  lemma NormalizeExact(fold: Fold, name: string)
    ensures Tokens(Normalize(fold, name)) == Words(Tokens(Casefold(fold, name)))
    ensures Single(Normalize(fold, name)) && Plain(Normalize(fold, name))
  {
    hide Tokens, Words, Single, Plain;
    var folded := Casefold(fold, name);
    NormalizePlain(fold, name);
    NormalizeSingle(fold, name);
    TokensOfCollapse(Keep(Strip(folded)));
    TokensOfKeep(Strip(folded));
    TokensOfStripRight(StripLeft(folded));
    TokensOfStripLeft(folded);
  }

  // ---------- _score ----------

  function Max(a: real, b: real): real { if b > a then b else a }

  /** round(x, 1), ties upwards. */
  function Round1(x: real): real { (x * 10.0 + 0.5).Floor as real / 10.0 }

  predicate WholeTenths(x: real) { (x * 10.0).Floor as real == x * 10.0 }

  lemma FloorMeans(x: real, n: int)
    requires n as real <= x < n as real + 1.0
    ensures x.Floor == n
  {}

  /** The nearest whole number of tenths. */
  lemma RoundNearest(x: real)
    ensures WholeTenths(Round1(x)) && -0.05 < Round1(x) - x <= 0.05
    ensures WholeTenths(x) ==> Round1(x) == x
  {
    var n := (x * 10.0 + 0.5).Floor;
    assert Round1(x) * 10.0 == n as real;
    FloorMeans(n as real, n);
    if WholeTenths(x) {
      FloorMeans(x * 10.0 + 0.5, (x * 10.0).Floor);
    }
  }

  /** Larger numbers round no lower. */
  lemma RoundMonotone(x: real, y: real)
    requires x <= y
    ensures Round1(x) <= Round1(y)
  {
    assert (x * 10.0 + 0.5).Floor <= (y * 10.0 + 0.5).Floor;
  }

  function Score(fold: Fold, ratio: Ratio, a: string, b: string): real {
    var aN, bN := Normalize(fold, a), Normalize(fold, b);
    Round1(Max(ratio(aN, bN), ratio(TokenSort(aN), TokenSort(bN))) * 100.0)
  }

  /** The score is the better of the two comparisons, rounded. */
  lemma ScoreExact(fold: Fold, ratio: Ratio, a: string, b: string)
    ensures var aN, bN := Normalize(fold, a), Normalize(fold, b);
            var direct := Round1(100.0 * ratio(aN, bN));
            var sorted := Round1(100.0 * ratio(TokenSort(aN), TokenSort(bN)));
      && Score(fold, ratio, a, b) >= direct && Score(fold, ratio, a, b) >= sorted
      && (Score(fold, ratio, a, b) == direct || Score(fold, ratio, a, b) == sorted)
  {
    hide Round1, Normalize, TokenSort;
    var aN, bN := Normalize(fold, a), Normalize(fold, b);
    var direct, sorted := ratio(aN, bN), ratio(TokenSort(aN), TokenSort(bN));
    RoundMonotone(100.0 * direct, Max(direct, sorted) * 100.0);
    RoundMonotone(100.0 * sorted, Max(direct, sorted) * 100.0);
  }

  /** Scores lie between 0 and 100, and names that differ in word order only score exactly 100. */
  lemma WordOrderScores(fold: Fold, ratio: Ratio, a: string, b: string)
    ensures 0.0 <= Score(fold, ratio, a, b) <= 100.0
    ensures multiset(Tokens(Normalize(fold, a))) == multiset(Tokens(Normalize(fold, b)))
        ==> Score(fold, ratio, a, b) == 100.0
  {
    var aN, bN := Normalize(fold, a), Normalize(fold, b);
    TokenSortDecides(aN, bN);
    var direct, sorted := ratio(aN, bN), ratio(TokenSort(aN), TokenSort(bN));
    RoundRange(Max(direct, sorted) * 100.0);
  }

  lemma RoundRange(x: real)
    requires 0.0 <= x <= 100.0
    ensures 0.0 <= Round1(x) <= 100.0 && (x == 100.0 ==> Round1(x) == 100.0)
  {
    assert 0 <= (x * 10.0 + 0.5).Floor <= 1000;
  }

  // ---------- screen ----------

  datatype Hit = Hit(matchedName: string, listName: string, score: real)

  datatype Entry = Entry(name: string, listName: string)

  datatype Screened = Screened(status: string, hits: seq<Hit>, highestScore: Option<real>, errorDetail: Option<string>)

  const ERROR_TRIGGER := "trigger sanctions provider error"

  function Scored(fold: Fold, ratio: Ratio, name: string, list: seq<Entry>): (r: seq<Hit>)
    ensures |r| == |list|
  {
    seq(|list|, i requires 0 <= i < |list| =>
      Hit(list[i].name, list[i].listName, Score(fold, ratio, name, list[i].name)))
  }

  function Highest(hits: seq<Hit>): Option<real> {
    if hits == [] then None
    else
      var rest := Highest(hits[1..]);
      if rest.None? then Some(hits[0].score) else Some(Max(hits[0].score, rest.value))
  }

  function AtLeast(hits: seq<Hit>, threshold: real): seq<Hit> {
    if hits == [] then []
    else (if hits[0].score >= threshold then [hits[0]] else []) + AtLeast(hits[1..], threshold)
  }

  function InsertHit(h: Hit, hits: seq<Hit>): seq<Hit> {
    if hits == [] || h.score >= hits[0].score then [h] + hits else [hits[0]] + InsertHit(h, hits[1..])
  }

  /** sorted(hits, key=score, reverse=True), which keeps equal scores in list order. */
  function SortHits(hits: seq<Hit>): seq<Hit> {
    if hits == [] then [] else InsertHit(hits[0], SortHits(hits[1..]))
  }

  /** Err: the name is blank, and screen raises ValueError. */
  function Screen(fold: Fold, ratio: Ratio, list: seq<Entry>, name: string, threshold: real): Result<Screened, string> {
    if Strip(name) == "" then Err("name must not be blank")
    else if Casefold(fold, Strip(name)) == ERROR_TRIGGER then
      Ok(Screened("error", [], None, Some("Simulated provider error: upstream watchlist service unavailable")))
    else
      var scored := Scored(fold, ratio, name, list);
      var hits := SortHits(AtLeast(scored, threshold));
      Ok(Screened(if hits != [] then "potential_match" else "clear", hits, Highest(scored), None))
  }

  // ---------- Hits are a stable descending sort of a filter ----------

  predicate Descending(hits: seq<Hit>) {
    |hits| > 1 ==> hits[0].score >= hits[1].score && Descending(hits[1..])
  }

  /** The hits of one score, in order. */
  function OfScore(hits: seq<Hit>, score: real): seq<Hit> {
    if hits == [] then [] else (if hits[0].score == score then [hits[0]] else []) + OfScore(hits[1..], score)
  }

  lemma {:induction false} InsertHitSorted(h: Hit, hits: seq<Hit>)
    requires Descending(hits)
    ensures Descending(InsertHit(h, hits))
    ensures forall v :: OfScore(InsertHit(h, hits), v) == OfScore([h] + hits, v)
  {
    assert ([h] + hits)[1..] == hits;
    if hits != [] && h.score < hits[0].score {
      InsertHitSorted(h, hits[1..]);
      var r := InsertHit(h, hits[1..]);
      assert ([h] + hits[1..])[1..] == hits[1..];
      assert ([hits[0]] + r)[1..] == r;
      assert r[0] == h || (|hits| > 1 && r[0] == hits[1]);
    }
  }

  lemma {:induction false} SortHitsStable(hits: seq<Hit>)
    ensures Descending(SortHits(hits))
    ensures forall v :: OfScore(SortHits(hits), v) == OfScore(hits, v)
  {
    if hits != [] {
      SortHitsStable(hits[1..]);
      InsertHitSorted(hits[0], SortHits(hits[1..]));
      var r := SortHits(hits[1..]);
      assert ([hits[0]] + r)[1..] == r;
    }
  }

  lemma {:induction false} TopScore(hits: seq<Hit>, h: Hit)
    requires Descending(hits) && h in hits
    ensures h.score <= hits[0].score
  {
    if h != hits[0] {
      assert h in hits[1..];
      TopScore(hits[1..], h);
    }
  }

  lemma {:induction false} OfScoreMember(hits: seq<Hit>, v: real)
    ensures OfScore(hits, v) != [] <==> exists h :: h in hits && h.score == v
    ensures forall h :: h in OfScore(hits, v) <==> h in hits && h.score == v
  {
    if hits != [] {
      assert hits == [hits[0]] + hits[1..];
      OfScoreMember(hits[1..], v);
    }
  }

  /** Descending lists that agree score by score are equal: the stable sort is the only one. */
  lemma {:induction false} StableSortUnique(a: seq<Hit>, b: seq<Hit>)
    requires Descending(a) && Descending(b) && forall v :: OfScore(a, v) == OfScore(b, v)
    ensures a == b
    decreases |a|
  {
    if a == [] || b == [] {
      if a != [] { OneEmpty(a, b); }
      if b != [] { OneEmpty(b, a); }
    } else {
      SameTop(a, b);
      SameTop(b, a);
      assert OfScore(a, a[0].score)[0] == a[0] && OfScore(b, b[0].score)[0] == b[0];
      forall v
        ensures OfScore(a[1..], v) == OfScore(b[1..], v)
      {
        assert OfScore(a, v) == OfScore(b, v);
        if v == a[0].score {
          assert OfScore(a[1..], v) == OfScore(a, v)[1..] && OfScore(b[1..], v) == OfScore(b, v)[1..];
        } else {
          assert OfScore(a, v) == OfScore(a[1..], v) && OfScore(b, v) == OfScore(b[1..], v);
        }
      }
      StableSortUnique(a[1..], b[1..]);
      assert a == [a[0]] + a[1..] && b == [b[0]] + b[1..];
    }
  }

  lemma OneEmpty(a: seq<Hit>, b: seq<Hit>)
    requires a != [] && forall v :: OfScore(a, v) == OfScore(b, v)
    ensures b != []
  {
    OfScoreMember(a, a[0].score);
    OfScoreMember(b, a[0].score);
    assert OfScore(a, a[0].score) == OfScore(b, a[0].score);
    assert a[0] in a;
  }

  lemma SameTop(a: seq<Hit>, b: seq<Hit>)
    requires a != [] && b != [] && Descending(b) && forall v :: OfScore(a, v) == OfScore(b, v)
    ensures a[0].score <= b[0].score
  {
    OfScoreMember(a, a[0].score);
    OfScoreMember(b, a[0].score);
    assert OfScore(a, a[0].score) == OfScore(b, a[0].score);
    assert a[0] in a;
    TopScore(b, a[0]);
  }

  // ---------- Thresholds ----------

  lemma {:induction false} AtLeastInsert(h: Hit, hits: seq<Hit>, t: real)
    requires Descending(hits)
    ensures AtLeast(InsertHit(h, hits), t) == if h.score >= t then InsertHit(h, AtLeast(hits, t)) else AtLeast(hits, t)
  {
    assert ([h] + hits)[1..] == hits;
    if hits != [] && h.score < hits[0].score {
      AtLeastInsert(h, hits[1..], t);
      var r := InsertHit(h, hits[1..]);
      assert ([hits[0]] + r)[1..] == r;
      var below := AtLeast(hits[1..], t);
      assert ([hits[0]] + below)[1..] == below;
      if hits[0].score < t { NoneAtLeast(hits, t); }
    } else {
      if hits != [] && h.score >= t && hits[0].score < t { NoneAtLeast(hits, t); }
    }
  }

  lemma {:induction false} NoneAtLeast(hits: seq<Hit>, t: real)
    requires Descending(hits) && (hits != [] ==> hits[0].score < t)
    ensures AtLeast(hits, t) == []
  {
    if hits != [] {
      NoneAtLeast(hits[1..], t);
    }
  }

  /** Sorting a filter is filtering the sort. */
  lemma {:induction false} SortOfFilter(hits: seq<Hit>, t: real)
    ensures SortHits(AtLeast(hits, t)) == AtLeast(SortHits(hits), t)
  {
    if hits != [] {
      SortOfFilter(hits[1..], t);
      SortHitsStable(hits[1..]);
      AtLeastInsert(hits[0], SortHits(hits[1..]), t);
      var below := AtLeast(hits[1..], t);
      if hits[0].score >= t {
        assert AtLeast(hits, t) == [hits[0]] + below;
        assert ([hits[0]] + below)[1..] == below;
      } else {
        assert AtLeast(hits, t) == below;
      }
    }
  }

  lemma {:induction false} FilterPrefix(hits: seq<Hit>, low: real, high: real)
    requires Descending(hits) && low <= high
    ensures AtLeast(hits, high) <= AtLeast(hits, low)
  {
    if hits != [] {
      FilterPrefix(hits[1..], low, high);
      if hits[0].score < high { NoneAtLeast(hits, high); }
    }
  }

  /** When neither takes the error path, the hits at a higher threshold are a prefix of the hits
      at a lower one. */
  lemma ThresholdPrefix(fold: Fold, ratio: Ratio, list: seq<Entry>, name: string, low: real, high: real)
    requires low <= high
    requires var r := Screen(fold, ratio, list, name, low); r.Ok? && r.value.status != "error"
    ensures var a, b := Screen(fold, ratio, list, name, low), Screen(fold, ratio, list, name, high);
      && b.Ok? && b.value.status != "error"
      && b.value.hits <= a.value.hits && a.value.highestScore == b.value.highestScore
  {
    var scored := Scored(fold, ratio, name, list);
    SortOfFilter(scored, low);
    SortOfFilter(scored, high);
    SortHitsStable(scored);
    FilterPrefix(SortHits(scored), low, high);
  }

  lemma {:induction false} AtLeastExact(hits: seq<Hit>, t: real)
    ensures forall h :: h in AtLeast(hits, t) <==> h in hits && h.score >= t
    ensures forall v :: OfScore(AtLeast(hits, t), v) == if v >= t then OfScore(hits, v) else []
  {
    if hits != [] {
      assert hits == [hits[0]] + hits[1..];
      AtLeastExact(hits[1..], t);
      var below := AtLeast(hits[1..], t);
      if hits[0].score >= t {
        assert AtLeast(hits, t) == [hits[0]] + below;
        assert ([hits[0]] + below)[1..] == below;
      } else {
        assert AtLeast(hits, t) == below;
      }
    }
  }

  lemma {:induction false} HighestExact(hits: seq<Hit>, t: real)
    ensures hits == [] <==> Highest(hits).None?
    ensures Highest(hits).Some? && Highest(hits).value >= t <==> exists h :: h in hits && h.score >= t
  {
    if hits != [] {
      assert hits == [hits[0]] + hits[1..];
      HighestExact(hits[1..], t);
    }
  }

  /** What screen returns for a name that is neither blank nor the trigger: exactly the entries at
      or above the threshold, best first and otherwise in list order; a potential match exactly
      when the highest score reaches the threshold. */
  lemma ScreenExact(fold: Fold, ratio: Ratio, list: seq<Entry>, name: string, threshold: real)
    requires Strip(name) != "" && Casefold(fold, Strip(name)) != ERROR_TRIGGER
    ensures var r, scored := Screen(fold, ratio, list, name, threshold), Scored(fold, ratio, name, list);
      && r.Ok? && r.value.highestScore == Highest(scored)
      && Descending(r.value.hits)
      && (forall v :: OfScore(r.value.hits, v) == if v >= threshold then OfScore(scored, v) else [])
      && (r.value.status == "potential_match" <==>
            r.value.highestScore.Some? && r.value.highestScore.value >= threshold)
      && (r.value.status != "potential_match" ==> r.value.status == "clear" && r.value.hits == [])
  {
    var scored := Scored(fold, ratio, name, list);
    SortHitsStable(AtLeast(scored, threshold));
    AtLeastExact(scored, threshold);
    HighestExact(scored, threshold);
    SortEmpty(AtLeast(scored, threshold));
  }

  lemma SortEmpty(hits: seq<Hit>)
    ensures SortHits(hits) == [] <==> hits == []
    ensures hits != [] ==> hits[0] in hits
  {}

  // ---------- What screen answers ----------

  predicate Screenable(fold: Fold, name: string) { !AllSpace(name) && Casefold(fold, Strip(name)) != ERROR_TRIGGER }

  lemma NotBlank(name: string)
    ensures Strip(name) == "" <==> AllSpace(name)
  {
    StripExact(name);
  }

  /** A name is refused exactly when it is white space only, and the provider errs exactly on its
      trigger, whatever its case and the white space around it. */
  lemma ScreenOutcome(fold: Fold, ratio: Ratio, list: seq<Entry>, name: string, threshold: real)
    ensures Screen(fold, ratio, list, name, threshold).Err? <==> AllSpace(name)
    ensures var r := Screen(fold, ratio, list, name, threshold);
      r.Ok? ==>
        && (r.value.status == "error" <==> Casefold(fold, Strip(name)) == "trigger sanctions provider error")
        && (r.value.errorDetail.Some? <==> r.value.status == "error")
        && (r.value.status == "error" ==>
              && r.value.hits == [] && r.value.highestScore.None?
              && r.value.errorDetail == Some("Simulated provider error: upstream watchlist service unavailable"))
        && r.value.status in {"error", "clear", "potential_match"}
  {
    NotBlank(name);
  }

  lemma HitOf(fold: Fold, ratio: Ratio, name: string, list: seq<Entry>, h: Hit)
    ensures h in Scored(fold, ratio, name, list) <==>
      exists e :: e in list && h == Hit(e.name, e.listName, Score(fold, ratio, name, e.name))
  {
    hide Score;
    var scored := Scored(fold, ratio, name, list);
    if i :| 0 <= i < |scored| && scored[i] == h {
      assert list[i] in list;
    }
    if e :| e in list && h == Hit(e.name, e.listName, Score(fold, ratio, name, e.name)) {
      var i :| 0 <= i < |list| && list[i] == e;
      assert scored[i] == h;
    }
  }

  /** The hits are the entries whose score reaches the threshold, each with its name, its list and its
      score; there is a potential match exactly when there is such an entry, and the highest score is
      the best of all entries, reached by one of them. */
  lemma ScreenHits(fold: Fold, ratio: Ratio, list: seq<Entry>, name: string, threshold: real)
    requires Screenable(fold, name)
    ensures var r := Screen(fold, ratio, list, name, threshold);
      && r.Ok?
      && (forall h :: h in r.value.hits <==>
            && h.score >= threshold
            && exists e :: e in list && h == Hit(e.name, e.listName, Score(fold, ratio, name, e.name)))
      && (r.value.status == "potential_match" <==>
            exists e :: e in list && Score(fold, ratio, name, e.name) >= threshold)
      && (forall e :: e in list ==>
            r.value.highestScore.Some? && Score(fold, ratio, name, e.name) <= r.value.highestScore.value)
      && (r.value.highestScore.Some? ==>
            exists e :: e in list && Score(fold, ratio, name, e.name) == r.value.highestScore.value)
  {
    hide Score, Scored, Casefold, Strip, AllSpace;
    NotBlank(name);
    var scored := Scored(fold, ratio, name, list);
    var r := Screen(fold, ratio, list, name, threshold).value;
    AtLeastExact(scored, threshold);
    SortSame(AtLeast(scored, threshold));
    SortEmpty(AtLeast(scored, threshold));
    forall h
      ensures h in r.hits <==>
        exists e :: e in list && h == Hit(e.name, e.listName, Score(fold, ratio, name, e.name)) && h.score >= threshold
    {
      HitOf(fold, ratio, name, list, h);
    }
    forall e | e in list
      ensures Hit(e.name, e.listName, Score(fold, ratio, name, e.name)) in scored
      ensures r.highestScore.Some? && Score(fold, ratio, name, e.name) <= r.highestScore.value
      ensures Score(fold, ratio, name, e.name) >= threshold ==> r.hits != []
    {
      var h := Hit(e.name, e.listName, Score(fold, ratio, name, e.name));
      HitOf(fold, ratio, name, list, h);
      HighestExact(scored, h.score);
      if h.score >= threshold { assert h in r.hits; }
    }
    if r.hits != [] {
      assert r.hits[0] in r.hits;
    }
    if r.highestScore.Some? {
      HighestExact(scored, r.highestScore.value);
      HighestReached(scored);
      var h :| h in scored && h.score == r.highestScore.value;
      HitOf(fold, ratio, name, list, h);
    }
  }

  lemma {:induction false} HighestReached(hits: seq<Hit>)
    ensures Highest(hits).Some? ==> exists h :: h in hits && h.score == Highest(hits).value
  {
    if hits != [] {
      assert hits == [hits[0]] + hits[1..];
      HighestReached(hits[1..]);
    }
  }

  lemma {:induction false} SortSame(hits: seq<Hit>)
    ensures forall h :: h in SortHits(hits) <==> h in hits
  {
    if hits != [] {
      SortSame(hits[1..]);
      InsertSame(hits[0], SortHits(hits[1..]));
      assert hits == [hits[0]] + hits[1..];
    }
  }

  lemma {:induction false} InsertSame(h: Hit, hits: seq<Hit>)
    ensures forall x :: x in InsertHit(h, hits) <==> x == h || x in hits
  {
    if hits != [] && h.score < hits[0].score {
      InsertSame(h, hits[1..]);
      assert hits == [hits[0]] + hits[1..];
    }
  }

  /** One of the two comparisons of the normalised names reaches the threshold. */
  predicate Similar(ratio: Ratio, a: string, b: string, threshold: real) {
    100.0 * ratio(a, b) >= threshold || 100.0 * ratio(TokenSort(a), TokenSort(b)) >= threshold
  }

  /** Under a threshold of whole tenths, a name is a potential match of every entry that either
      comparison, direct or by sorted words, finds similar enough. */
  lemma SimilarIsHit(fold: Fold, ratio: Ratio, list: seq<Entry>, name: string, threshold: real, e: Entry)
    requires Screenable(fold, name) && e in list && WholeTenths(threshold)
    requires Similar(ratio, Normalize(fold, name), Normalize(fold, e.name), threshold)
    ensures var r := Screen(fold, ratio, list, name, threshold);
      && r.Ok? && r.value.status == "potential_match"
      && exists h :: h in r.value.hits && h.matchedName == e.name && h.listName == e.listName && h.score >= threshold
  {
    hide Round1, Score, Screen, Normalize, TokenSort, Screenable;
    var a, b := Normalize(fold, name), Normalize(fold, e.name);
    ScreenHits(fold, ratio, list, name, threshold);
    ScoreExact(fold, ratio, name, e.name);
    var better := if 100.0 * ratio(a, b) >= threshold then ratio(a, b) else ratio(TokenSort(a), TokenSort(b));
    RoundNearest(threshold);
    RoundMonotone(threshold, 100.0 * better);
    var hit := Hit(e.name, e.listName, Score(fold, ratio, name, e.name));
    assert hit in Screen(fold, ratio, list, name, threshold).value.hits;
  }
}
