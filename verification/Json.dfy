/** JSON payloads as `app/db/audit.py` prints and re-reads them.

    `Value` is a Python object handed to `json.dumps(..., default=str)`: the JSON
    kinds, plus `Foreign`, an object (UUID, datetime, Decimal) that only `default=str`
    makes printable. Dictionaries keep their insertion order, as Python's do.
    The printer follows `json.dumps` with `ensure_ascii`; the parser follows the
    grammar of RFC 8259 (sections 2 to 7), without exponents. */
module Json {
  import opened Wrappers

  type Places = n: nat | 0 < n witness 1

  datatype Value =
    | Null
    | Bool(b: bool)
    | Int(n: int)
    | Fixed(mantissa: int, places: Places)  // mantissa / 10^places, printed with a point
    | Str(text: string)
    | Foreign(text: string)                 // str() of an object json cannot encode
    | Arr(items: Items)
    | Obj(members: Members)

  datatype Items = NoItems | Item(head: Value, tail: Items)

  datatype Members = NoMembers | Member(key: string, value: Value, rest: Members)

  // ---------- Dictionaries ----------

  function Keys(ms: Members): set<string> {
    match ms
    case NoMembers => {}
    case Member(k, _, rest) => {k} + Keys(rest)
  }

  function Lookup(ms: Members, key: string): Value
    requires key in Keys(ms)
  {
    if ms.key == key then ms.value else Lookup(ms.rest, key)
  }

  /** A field of an object, None if there is none. */
  function Field(v: Value, name: string): Value {
    if v.Obj? && name in Keys(v.members) then Lookup(v.members, name) else Null
  }

  /** d[key] = value for a key not yet in d. */
  function Append(ms: Members, key: string, value: Value): (r: Members)
    ensures Keys(r) == Keys(ms) + {key}
  {
    match ms
    case NoMembers => Member(key, value, NoMembers)
    case Member(k, v, rest) => Member(k, v, Append(rest, key, value))
  }

  /** No dictionary, at any depth, has a key twice. */
  predicate Unique(v: Value) {
    match v
    case Arr(items) => UniqueItems(items)
    case Obj(ms) => UniqueMembers(ms)
    case _ => true
  }

  predicate UniqueItems(items: Items) {
    items.Item? ==> Unique(items.head) && UniqueItems(items.tail)
  }

  predicate UniqueMembers(ms: Members) {
    ms.Member? ==> ms.key !in Keys(ms.rest) && Unique(ms.value) && UniqueMembers(ms.rest)
  }

  // ---------- default=str ----------

  function Rendered(v: Value): Value {
    match v
    case Foreign(t) => Str(t)
    case Arr(items) => Arr(RenderedItems(items))
    case Obj(ms) => Obj(RenderedMembers(ms))
    case _ => v
  }

  function RenderedItems(items: Items): Items {
    match items
    case NoItems => NoItems
    case Item(h, t) => Item(Rendered(h), RenderedItems(t))
  }

  function RenderedMembers(ms: Members): (r: Members)
    ensures Keys(r) == Keys(ms)
  {
    match ms
    case NoMembers => NoMembers
    case Member(k, v, rest) => Member(k, Rendered(v), RenderedMembers(rest))
  }

  // ---------- Printing ----------

  function Digit(d: nat): char
    requires d < 10
  {
    ('0' as int + d) as char
  }

  /** The decimal digits of n, padded with zeros to at least `width` of them. */
  function Digits(n: nat, width: nat): string
    decreases n + width
  {
    if n < 10 && width <= 1 then [Digit(n)]
    else Digits(n / 10, if width > 1 then width - 1 else 1) + [Digit(n % 10)]
  }

  function Abs(n: int): nat { if n < 0 then -n else n }

  function Signed(n: nat, negative: bool): int { if negative then -(n as int) else n }

  function Sign(n: int): string { if n < 0 then "-" else "" }

  /** Whole digits, a point, and exactly `places` digits. */
  function PrintFixed(mantissa: nat, places: Places, rest: string): string {
    var ds := Digits(mantissa, places + 1);
    DigitsLength(mantissa, places + 1);
    ds[..|ds| - places] + ("." + (ds[|ds| - places..] + rest))
  }

  function HexDigit(d: nat): char
    requires d < 16
  {
    (if d < 10 then '0' as int + d else 'a' as int + d - 10) as char
  }

  function Hex4(n: nat): string
    requires n < 0x10000
  {
    var n1 := n / 0x10;
    var n2 := n1 / 0x10;
    [HexDigit(n2 / 0x10), HexDigit(n2 % 0x10), HexDigit(n1 % 0x10), HexDigit(n % 0x10)]
  }

  // Printers take the text that follows, so that a printed list is one right-nested text.

  /** The letter after the backslash in a two-character escape. */
  function ShortLetter(c: char): Option<char> {
    match c as int
    case 8 => Some('b')
    case 9 => Some('t')
    case 10 => Some('n')
    case 12 => Some('f')
    case 13 => Some('r')
    case _ => if c == '"' || c == '\\' then Some(c) else None
  }

  /** The two UTF-16 code units of a character outside the basic plane. */
  function Surrogates(n: nat): (r: (nat, nat))
    requires 0x10000 <= n < 0x110000
    ensures 0xD800 <= r.0 < 0xDC00 <= r.1 < 0xE000
    ensures n == 0x10000 + (r.0 - 0xD800) * 0x400 + (r.1 - 0xDC00)
  {
    (0xD800 + (n - 0x10000) / 0x400, 0xDC00 + (n - 0x10000) % 0x400)
  }

  /** One character inside a printed string; everything outside ' '..'~' is escaped,
      astral characters as a surrogate pair. */
  function EscapeChar(c: char, rest: string): string {
    var n := c as int;
    if ShortLetter(c).Some? then ['\\', ShortLetter(c).value] + rest
    else if ' ' <= c <= '~' then [c] + rest
    else if n < 0x10000 then "\\u" + (Hex4(n) + rest)
    else
      var (high, low) := Surrogates(n);
      "\\u" + (Hex4(high) + ("\\u" + (Hex4(low) + rest)))
  }

  /** The short escapes json.dumps writes; other printable characters stand for themselves. */
  lemma ShortEscapes()
    ensures EscapeChar('"', "") == "\\\"" && EscapeChar('\\', "") == "\\\\"
    ensures EscapeChar(8 as char, "") == "\\b" && EscapeChar('\t', "") == "\\t" && EscapeChar('\n', "") == "\\n"
    ensures EscapeChar(12 as char, "") == "\\f" && EscapeChar('\r', "") == "\\r"
    ensures forall c: char :: ' ' <= c <= '~' && c != '"' && c != '\\' ==> EscapeChar(c, "") == [c]
  {
    hide Hex4, Surrogates;
  }

  lemma HexTexts()
    ensures Hex4(0x1F) == "001f" && Hex4(0x7F) == "007f" && Hex4(0xE9) == "00e9"
    ensures Hex4(0xD83D) == "d83d" && Hex4(0xDE00) == "de00"
  {}

  /** Everything else is four lower-case hexadecimal digits per UTF-16 code unit. */
  lemma LongEscapes()
    ensures EscapeChar(0x1F as char, "") == "\\u001f" && EscapeChar(0x7F as char, "") == "\\u007f"
    ensures EscapeChar(0xE9 as char, "") == "\\u00e9" && EscapeChar(0x1F600 as char, "") == "\\ud83d\\ude00"
  {
    hide Hex4;
    HexTexts();
    assert Surrogates(0x1F600) == (0xD83D, 0xDE00);
  }

  function Escape(s: string, rest: string): string {
    if s == "" then rest else EscapeChar(s[0], Escape(s[1..], rest))
  }

  function Quote(s: string, rest: string): string { "\"" + Escape(s, "\"" + rest) }

  function Gap(spaced: bool, rest: string): string { if spaced then " " + rest else rest }

  /** json.dumps: `spaced` chooses between the default separators (", ", ": ") and (",", ":"). */
  function Print(v: Value, spaced: bool, rest: string): string {
    match v
    case Null => "null" + rest
    case Bool(b) => (if b then "true" else "false") + rest
    case Int(n) => Sign(n) + (Digits(Abs(n), 1) + rest)
    case Fixed(m, p) => Sign(m) + PrintFixed(Abs(m), p, rest)
    case Str(t) => Quote(t, rest)
    case Foreign(t) => Quote(t, rest)
    case Arr(items) => "[" + PrintItems(items, spaced, "]" + rest)
    case Obj(ms) => "{" + PrintMembers(ms, spaced, "}" + rest)
  }

  function PrintItems(items: Items, spaced: bool, rest: string): string {
    match items
    case NoItems => rest
    case Item(h, NoItems) => Print(h, spaced, rest)
    case Item(h, t) => Print(h, spaced, "," + Gap(spaced, PrintItems(t, spaced, rest)))
  }

  function PrintMembers(ms: Members, spaced: bool, rest: string): string {
    match ms
    case NoMembers => rest
    case Member(k, v, NoMembers) => Quote(k, ":" + Gap(spaced, Print(v, spaced, rest)))
    case Member(k, v, tail) =>
      Quote(k, ":" + Gap(spaced, Print(v, spaced, "," + Gap(spaced, PrintMembers(tail, spaced, rest)))))
  }

  // ---------- Parsing ----------

  datatype Parsed<+T> = Fail | Done(value: T, rest: string)

  predicate IsSpace(c: char) { c == ' ' || c == '\t' || c == '\n' || c == '\r' }

  function SkipSpace(s: string): (r: string)
    ensures |r| <= |s|
    ensures s != "" && !IsSpace(s[0]) ==> r == s
  {
    if s != "" && IsSpace(s[0]) then SkipSpace(s[1..]) else s
  }

  predicate IsDigit(c: char) { '0' <= c <= '9' }

  function DigitRun(s: string): (k: nat)
    ensures k <= |s|
    ensures forall i :: 0 <= i < k ==> IsDigit(s[i])
    ensures k < |s| ==> !IsDigit(s[k])
  {
    if s != "" && IsDigit(s[0]) then 1 + DigitRun(s[1..]) else 0
  }

  function ToNat(s: string): nat
    requires forall c :: c in s ==> IsDigit(c)
  {
    if s == "" then 0 else 
      assert IsDigit(s[|s| - 1]);
      10 * ToNat(s[..|s| - 1]) + (s[|s| - 1] as int - '0' as int)
  }

  /** An integer part without superfluous leading zeros, then optionally a point and digits. */
  function ParseNumber(s: string, negative: bool): (r: Parsed<Value>)
    ensures r.Done? ==> |r.rest| < |s|
  {
    var k := if s != "" && s[0] == '0' then 1 else DigitRun(s);
    var u := s[k..];
    if k == 0 then Fail
    else if u != "" && u[0] == '.' && DigitRun(u[1..]) > 0 then
      var f := DigitRun(u[1..]);
      Done(Fixed(Signed(ToNat(s[..k] + u[1..][..f]), negative), f), u[1..][f..])
    else
      Done(Int(Signed(ToNat(s[..k]), negative)), u)
  }

  function HexValue(c: char): (n: int)
    ensures -1 <= n < 16
  {
    if '0' <= c <= '9' then c as int - '0' as int
    else if 'a' <= c <= 'f' then c as int - 'a' as int + 10
    else if 'A' <= c <= 'F' then c as int - 'A' as int + 10
    else -1
  }

  /** The code unit written by the first four characters, or -1. */
  function CodeUnit(s: string): (n: int)
    ensures -1 <= n < 0x10000
    ensures n >= 0 ==> |s| >= 4
  {
    if |s| < 4 || HexValue(s[0]) < 0 || HexValue(s[1]) < 0 || HexValue(s[2]) < 0 || HexValue(s[3]) < 0 then -1
    else 0x1000 * HexValue(s[0]) + 0x100 * HexValue(s[1]) + 0x10 * HexValue(s[2]) + HexValue(s[3])
  }

  /** What follows a backslash. */
  function ParseEscape(s: string): (r: Parsed<char>)
    ensures r.Done? ==> |r.rest| < |s|
  {
    if s == "" then Fail
    else if s[0] == '"' || s[0] == '\\' || s[0] == '/' then Done(s[0], s[1..])
    else if s[0] == 'b' then Done(8 as char, s[1..])
    else if s[0] == 't' then Done(9 as char, s[1..])
    else if s[0] == 'n' then Done(10 as char, s[1..])
    else if s[0] == 'f' then Done(12 as char, s[1..])
    else if s[0] == 'r' then Done(13 as char, s[1..])
    else if s[0] == 'u' && CodeUnit(s[1..]) >= 0 then
      var high := CodeUnit(s[1..]);
      if high < 0xD800 || 0xE000 <= high then Done(high as char, s[5..])
      else if high < 0xDC00 && |s| >= 7 && s[5] == '\\' && s[6] == 'u' && 0xDC00 <= CodeUnit(s[7..]) < 0xE000 then
        Done((0x10000 + (high - 0xD800) * 0x400 + (CodeUnit(s[7..]) - 0xDC00)) as char, s[11..])
      else Fail
    else Fail
  }

  function ParseChar(s: string): (r: Parsed<char>)
    ensures r.Done? ==> |r.rest| < |s|
  {
    if s == "" || s[0] < ' ' then Fail
    else if s[0] == '\\' then ParseEscape(s[1..])
    else Done(s[0], s[1..])
  }

  /** The characters up to and including the closing quote. */
  function ParseChars(s: string): (r: Parsed<string>)
    ensures r.Done? ==> |r.rest| < |s|
  {
    if s == "" then Fail
    else if s[0] == '"' then Done("", s[1..])
    else
      match ParseChar(s)
      case Fail => Fail
      case Done(c, t) =>
        match ParseChars(t)
        case Fail => Fail
        case Done(cs, rest) => Done([c] + cs, rest)
  }

  function ParseLiteral(s: string): (r: Parsed<Value>)
    ensures r.Done? ==> |r.rest| < |s|
  {
    if "null" <= s then Done(Null, s[4..])
    else if "true" <= s then Done(Bool(true), s[4..])
    else if "false" <= s then Done(Bool(false), s[5..])
    else Fail
  }

  function ParseValue(s: string): (r: Parsed<Value>)
    ensures r.Done? ==> |r.rest| < |s|
    decreases |s|, 0
  {
    if s == "" then Fail
    else if s[0] == '"' then
      match ParseChars(s[1..])
      case Fail => Fail
      case Done(t, rest) => Done(Str(t), rest)
    else if s[0] == '[' then
      var t := SkipSpace(s[1..]);
      if t != "" && t[0] == ']' then Done(Arr(NoItems), t[1..])
      else
        match ParseItems(t)
        case Fail => Fail
        case Done(items, rest) => Done(Arr(items), rest)
    else if s[0] == '{' then
      var t := SkipSpace(s[1..]);
      if t != "" && t[0] == '}' then Done(Obj(NoMembers), t[1..])
      else
        match ParseMembers(t)
        case Fail => Fail
        case Done(ms, rest) => Done(Obj(ms), rest)
    else if s[0] == '-' then ParseNumber(s[1..], true)
    else if IsDigit(s[0]) then ParseNumber(s, false)
    else ParseLiteral(s)
  }

  /** value *( "," value ) "]" */
  function ParseItems(s: string): (r: Parsed<Items>)
    ensures r.Done? ==> |r.rest| < |s|
    decreases |s|, 1
  {
    match ParseValue(s)
    case Fail => Fail
    case Done(v, t) =>
      var u := SkipSpace(t);
      if u == "" then Fail
      else if u[0] == ']' then Done(Item(v, NoItems), u[1..])
      else if u[0] == ',' then
        match ParseItems(SkipSpace(u[1..]))
        case Fail => Fail
        case Done(vs, rest) => Done(Item(v, vs), rest)
      else Fail
  }

  /** string ":" value */
  function ParseEntry(s: string): (r: Parsed<(string, Value)>)
    ensures r.Done? ==> |r.rest| < |s|
    decreases |s|, 1
  {
    if s == "" || s[0] != '"' then Fail
    else
      match ParseChars(s[1..])
      case Fail => Fail
      case Done(k, t) =>
        var u := SkipSpace(t);
        if u == "" || u[0] != ':' then Fail
        else
          match ParseValue(SkipSpace(u[1..]))
          case Fail => Fail
          case Done(v, rest) => Done((k, v), rest)
  }

  /** entry *( "," entry ) "}" */
  function ParseMembers(s: string): (r: Parsed<Members>)
    ensures r.Done? ==> |r.rest| < |s|
    decreases |s|, 2
  {
    match ParseEntry(s)
    case Fail => Fail
    case Done((k, v), t) =>
      var u := SkipSpace(t);
      if u == "" then Fail
      else if u[0] == '}' then Done(Member(k, v, NoMembers), u[1..])
      else if u[0] == ',' then
        match ParseMembers(SkipSpace(u[1..]))
        case Fail => Fail
        case Done(ms, rest) => Done(Member(k, v, ms), rest)
      else Fail
  }

  // ---------- Round trip: numbers ----------

  lemma {:induction false} DigitsLength(n: nat, width: nat)
    ensures |Digits(n, width)| >= 1 && |Digits(n, width)| >= width
    decreases n + width
  {
    if !(n < 10 && width <= 1) {
      DigitsLength(n / 10, if width > 1 then width - 1 else 1);
    }
  }

  lemma {:induction false} DigitsRead(n: nat, width: nat)
    ensures forall c :: c in Digits(n, width) ==> IsDigit(c)
    ensures ToNat(Digits(n, width)) == n
    ensures width >= 1 && |Digits(n, width)| > width ==> Digits(n, width)[0] != '0'
    decreases n + width
  {
    if n < 10 && width <= 1 {
    } else {
      var w := if width > 1 then width - 1 else 1;
      var ds := Digits(n / 10, w);
      DigitsRead(n / 10, w);
      DigitsLength(n / 10, w);
      assert Digits(n, width)[..|ds|] == ds;
      if width >= 1 && |Digits(n, width)| > width && n >= 10 && width <= 1 && |ds| == 1 {
        assert ds == [Digit(n / 10)];
      }
    }
  }

  /** What may follow a value in a printed text. */
  predicate Delimited(rest: string) { rest == "" || rest[0] in ",]}" }

  lemma {:induction false} DigitRunOf(ds: string, rest: string)
    requires forall c :: c in ds ==> IsDigit(c)
    requires rest == "" || !IsDigit(rest[0])
    ensures DigitRun(ds + rest) == |ds|
  {
    var s := ds + rest;
    if ds == "" {
      assert s == rest;
    } else {
      assert ds[0] in ds && s[0] == ds[0];
      assert s[1..] == ds[1..] + rest;
      DigitRunOf(ds[1..], rest);
    }
  }

  lemma IntRoundTrip(n: nat, negative: bool, rest: string)
    requires Delimited(rest)
    ensures ParseNumber(Digits(n, 1) + rest, negative) == Done(Int(Signed(n, negative)), rest)
  {
    var ds := Digits(n, 1);
    DigitsRead(n, 1);
    DigitsLength(n, 1);
    DigitRunOf(ds, rest);
    assert (ds + rest)[..|ds|] == ds && (ds + rest)[|ds|..] == rest;
  }

  lemma SplitNumber(whole: string, frac: string, negative: bool, rest: string)
    requires forall c :: c in whole ==> IsDigit(c)
    requires forall c :: c in frac ==> IsDigit(c)
    requires whole != "" && frac != "" && (|whole| > 1 ==> whole[0] != '0')
    requires Delimited(rest)
    ensures ParseNumber(whole + ("." + (frac + rest)), negative)
         == Done(Fixed(Signed(ToNat(whole + frac), negative), |frac|), rest)
  {
    var t := frac + rest;
    var u := "." + t;
    DigitRunOf(whole, u);
    DigitRunOf(frac, rest);
    var s := whole + u;
    assert s[|whole|..] == u && s[..|whole|] == whole && s[0] == whole[0];
    assert u[1..] == t && t[..|frac|] == frac && t[|frac|..] == rest;
  }

  lemma FixedRoundTrip(m: nat, places: Places, negative: bool, rest: string)
    requires Delimited(rest)
    ensures ParseNumber(PrintFixed(m, places, rest), negative) == Done(Fixed(Signed(m, negative), places), rest)
  {
    var ds := Digits(m, places + 1);
    DigitsRead(m, places + 1);
    DigitsLength(m, places + 1);
    var whole, frac := ds[..|ds| - places], ds[|ds| - places..];
    assert whole + frac == ds;
    SplitNumber(whole, frac, negative, rest);
  }

  // ---------- Round trip: strings ----------

  lemma HexRead(n: nat, rest: string)
    requires n < 0x10000
    ensures |Hex4(n)| == 4
    ensures CodeUnit(Hex4(n) + rest) == n && (Hex4(n) + rest)[4..] == rest
  {
    var s := Hex4(n) + rest;
    var n1 := n / 0x10;
    var n2 := n1 / 0x10;
    assert s[0] == HexDigit(n2 / 0x10) && s[1] == HexDigit(n2 % 0x10);
    assert s[2] == HexDigit(n1 % 0x10) && s[3] == HexDigit(n % 0x10);
  }

  lemma UnitRead(n: nat, rest: string)
    requires n < 0xD800 || 0xE000 <= n < 0x10000
    ensures ParseEscape("u" + (Hex4(n) + rest)) == Done(n as char, rest)
  {
    HexRead(n, rest);
    var t := "u" + (Hex4(n) + rest);
    assert t[1..] == Hex4(n) + rest;
    assert t[5..] == (Hex4(n) + rest)[4..];
  }

  lemma PairRead(high: nat, low: nat, rest: string)
    requires 0xD800 <= high < 0xDC00 <= low < 0xE000
    ensures ParseEscape("u" + (Hex4(high) + ("\\u" + (Hex4(low) + rest))))
         == Done((0x10000 + (high - 0xD800) * 0x400 + (low - 0xDC00)) as char, rest)
  {
    var last := Hex4(low) + rest;
    var tail := "\\u" + last;
    HexRead(low, rest);
    HexRead(high, tail);
    var t := "u" + (Hex4(high) + tail);
    assert t[1..] == Hex4(high) + tail;
    assert t[5..] == tail;
    assert t[7..] == tail[2..] == last;
    assert t[11..] == last[4..] == rest;
  }

  lemma ShortRead(c: char, rest: string)
    requires ShortLetter(c).Some?
    ensures ParseEscape([ShortLetter(c).value] + rest) == Done(c, rest)
  {
    assert ([ShortLetter(c).value] + rest)[1..] == rest;
  }

  lemma BackslashRead(s: string, t: string)
    requires s != "" && s[0] == '\\' && s[1..] == t
    ensures ParseChar(s) == ParseEscape(t)
  {}

  lemma PlainRead(c: char, rest: string)
    requires ' ' <= c && c != '\\'
    ensures ParseChar([c] + rest) == Done(c, rest)
  {
    assert ([c] + rest)[1..] == rest;
  }

  lemma AstralRead(c: char, rest: string)
    requires c as int >= 0x10000
    ensures ParseChar(EscapeChar(c, rest)) == Done(c, rest)
  {
    hide ParseEscape, Hex4;
    var (high, low) := Surrogates(c as int);
    PairRead(high, low, rest);
    BackslashRead(EscapeChar(c, rest), "u" + (Hex4(high) + ("\\u" + (Hex4(low) + rest))));
  }

  /** The printed form of one character reads back as that character. */
  lemma CharRead(c: char, rest: string)
    ensures EscapeChar(c, rest) != "" && EscapeChar(c, rest)[0] != '"'
    ensures ParseChar(EscapeChar(c, rest)) == Done(c, rest)
  {
    if ShortLetter(c).Some? {
      ShortRead(c, rest);
      BackslashRead(EscapeChar(c, rest), [ShortLetter(c).value] + rest);
    } else if ' ' <= c <= '~' {
      PlainRead(c, rest);
    } else if c as int < 0x10000 {
      UnitRead(c as int, rest);
      BackslashRead(EscapeChar(c, rest), "u" + (Hex4(c as int) + rest));
    } else {
      AstralRead(c, rest);
    }
  }

  lemma {:induction false} CharsRoundTrip(t: string, rest: string)
    ensures ParseChars(Escape(t, "\"" + rest)) == Done(t, rest)
  {
    if t == "" {
      assert ("\"" + rest)[1..] == rest;
    } else {
      CharsRoundTrip(t[1..], rest);
      CharRead(t[0], Escape(t[1..], "\"" + rest));
      assert [t[0]] + t[1..] == t;
    }
  }

  lemma QuoteRoundTrip(t: string, rest: string)
    ensures Quote(t, rest) != "" && Quote(t, rest)[0] == '"'
    ensures ParseChars(Quote(t, rest)[1..]) == Done(t, rest)
  {
    CharsRoundTrip(t, rest);
    assert Quote(t, rest)[1..] == Escape(t, "\"" + rest);
  }

  // ---------- Round trip: values ----------

  lemma NumberStarts(n: int, width: nat)
    ensures Digits(Abs(n), width) != "" && IsDigit(Digits(Abs(n), width)[0])
  {
    DigitsLength(Abs(n), width);
    DigitsRead(Abs(n), width);
    assert Digits(Abs(n), width)[0] in Digits(Abs(n), width);
  }

  lemma {:induction false} PrintStarts(v: Value, spaced: bool, rest: string)
    ensures Print(v, spaced, rest) != ""
    ensures !IsSpace(Print(v, spaced, rest)[0]) && Print(v, spaced, rest)[0] != ']'
  {
    match v
    case Int(n) => NumberStarts(n, 1);
    case Fixed(m, p) => NumberStarts(m, p + 1); DigitsLength(Abs(m), p + 1);
    case _ =>
  }

  lemma PositiveRead(d: string)
    requires d != "" && IsDigit(d[0])
    ensures ParseValue(d) == ParseNumber(d, false)
  {}

  lemma NegativeRead(d: string)
    ensures ParseValue("-" + d) == ParseNumber(d, true)
  {
    assert ("-" + d)[1..] == d;
  }

  /** ParseValue on a sign followed by a digit is ParseNumber. */
  lemma SignRead(n: int, d: string)
    requires d != "" && IsDigit(d[0])
    ensures ParseValue(Sign(n) + d) == ParseNumber(d, n < 0)
  {
    if n < 0 {
      NegativeRead(d);
    } else {
      PositiveRead(d);
      assert "" + d == d;
    }
  }

  lemma IntValueRoundTrip(n: int, spaced: bool, rest: string)
    requires Delimited(rest)
    ensures ParseValue(Print(Int(n), spaced, rest)) == Done(Int(n), rest)
  {
    NumberStarts(n, 1);
    IntRoundTrip(Abs(n), n < 0, rest);
    SignRead(n, Digits(Abs(n), 1) + rest);
  }

  lemma FixedValueRoundTrip(m: int, p: Places, spaced: bool, rest: string)
    requires Delimited(rest)
    ensures ParseValue(Print(Fixed(m, p), spaced, rest)) == Done(Fixed(m, p), rest)
  {
    NumberStarts(m, p + 1);
    DigitsLength(Abs(m), p + 1);
    FixedRoundTrip(Abs(m), p, m < 0, rest);
    SignRead(m, PrintFixed(Abs(m), p, rest));
  }

  lemma LiteralRoundTrip(v: Value, spaced: bool, rest: string)
    requires v.Null? || v.Bool?
    ensures ParseValue(Print(v, spaced, rest)) == Done(v, rest)
  {
    var p := if v.Null? then "null" else if v.b then "true" else "false";
    var s := p + rest;
    assert s[..|p|] == p && s[|p|..] == rest;
    assert s[0] == p[0] && p <= s;
  }

  lemma SkipGap(spaced: bool, t: string)
    requires t != "" && !IsSpace(t[0])
    ensures SkipSpace(Gap(spaced, t)) == t
  {
    if spaced {
      assert (" " + t)[0] == ' ' && (" " + t)[1..] == t;
    }
  }

  // One step of each list parser, with the texts it meets named.

  lemma LastItem(s: string, v: Value, rest: string)
    requires ParseValue(s) == Done(v, "]" + rest)
    ensures ParseItems(s) == Done(Item(v, NoItems), rest)
  {
    assert ("]" + rest)[1..] == rest;
  }

  lemma NextItem(s: string, v: Value, after: string, vs: Items, rest: string)
    requires ParseValue(s) == Done(v, "," + after)
    requires ParseItems(SkipSpace(after)) == Done(vs, rest)
    ensures ParseItems(s) == Done(Item(v, vs), rest)
  {
    assert ("," + after)[1..] == after;
  }

  lemma EntryRead(s: string, k: string, after: string, v: Value, rest: string)
    requires s != "" && s[0] == '"' && ParseChars(s[1..]) == Done(k, ":" + after)
    requires ParseValue(SkipSpace(after)) == Done(v, rest)
    ensures ParseEntry(s) == Done((k, v), rest)
  {
    assert (":" + after)[1..] == after;
  }

  lemma LastMember(s: string, k: string, v: Value, rest: string)
    requires ParseEntry(s) == Done((k, v), "}" + rest)
    ensures ParseMembers(s) == Done(Member(k, v, NoMembers), rest)
  {
    assert ("}" + rest)[1..] == rest;
  }

  lemma NextMember(s: string, k: string, v: Value, after: string, ms: Members, rest: string)
    requires ParseEntry(s) == Done((k, v), "," + after)
    requires ParseMembers(SkipSpace(after)) == Done(ms, rest)
    ensures ParseMembers(s) == Done(Member(k, v, ms), rest)
  {
    assert ("," + after)[1..] == after;
  }

  lemma OpenArray(t: string, items: Items, rest: string)
    requires t != "" && !IsSpace(t[0])
    requires if t[0] == ']' then items == NoItems && rest == t[1..] else ParseItems(t) == Done(items, rest)
    ensures ParseValue("[" + t) == Done(Arr(items), rest)
  {
    assert ("[" + t)[1..] == t;
  }

  lemma OpenObject(t: string, ms: Members, rest: string)
    requires t != "" && !IsSpace(t[0])
    requires if t[0] == '}' then ms == NoMembers && rest == t[1..] else ParseMembers(t) == Done(ms, rest)
    ensures ParseValue("{" + t) == Done(Obj(ms), rest)
  {
    assert ("{" + t)[1..] == t;
  }

  /** Reading a printed value gives the value back and stops exactly at its end. */
  lemma {:induction false} RoundTrip(v: Value, spaced: bool, rest: string)
    requires Delimited(rest)
    ensures ParseValue(Print(v, spaced, rest)) == Done(Rendered(v), rest)
    decreases v, 1
  {
    match v
    case Null => LiteralRoundTrip(v, spaced, rest);
    case Bool(_) => LiteralRoundTrip(v, spaced, rest);
    case Int(n) => IntValueRoundTrip(n, spaced, rest);
    case Fixed(m, p) => FixedValueRoundTrip(m, p, spaced, rest);
    case Str(t) => QuoteRoundTrip(t, rest);
    case Foreign(t) => QuoteRoundTrip(t, rest);
    case Arr(items) =>
      var t := PrintItems(items, spaced, "]" + rest);
      if items.Item? {
        ItemsRoundTrip(items, spaced, rest);
      } else {
        assert ("]" + rest)[1..] == rest;
      }
      OpenArray(t, RenderedItems(items), rest);
    case Obj(ms) =>
      var t := PrintMembers(ms, spaced, "}" + rest);
      if ms.Member? {
        MembersRoundTrip(ms, spaced, rest);
      } else {
        assert ("}" + rest)[1..] == rest;
      }
      OpenObject(t, RenderedMembers(ms), rest);
  }

  lemma {:induction false} ItemsRoundTrip(items: Items, spaced: bool, rest: string)
    requires items.Item?
    ensures var t := PrintItems(items, spaced, "]" + rest);
      && t != "" && !IsSpace(t[0]) && t[0] != ']'
      && ParseItems(t) == Done(RenderedItems(items), rest)
    decreases items, 0
  {
    var s := PrintItems(items, spaced, "]" + rest);
    if items.tail.NoItems? {
      PrintStarts(items.head, spaced, "]" + rest);
      RoundTrip(items.head, spaced, "]" + rest);
      LastItem(s, Rendered(items.head), rest);
    } else {
      var next := PrintItems(items.tail, spaced, "]" + rest);
      var after := Gap(spaced, next);
      PrintStarts(items.head, spaced, "," + after);
      RoundTrip(items.head, spaced, "," + after);
      ItemsRoundTrip(items.tail, spaced, rest);
      SkipGap(spaced, next);
      NextItem(s, Rendered(items.head), after, RenderedItems(items.tail), rest);
    }
  }

  lemma {:induction false} MembersRoundTrip(ms: Members, spaced: bool, rest: string)
    requires ms.Member?
    ensures var t := PrintMembers(ms, spaced, "}" + rest);
      && t != "" && t[0] == '"'
      && ParseMembers(t) == Done(RenderedMembers(ms), rest)
    decreases ms, 0
  {
    var s := PrintMembers(ms, spaced, "}" + rest);
    var tail := if ms.rest.NoMembers? then "}" + rest
                else "," + Gap(spaced, PrintMembers(ms.rest, spaced, "}" + rest));
    var after := Gap(spaced, Print(ms.value, spaced, tail));
    QuoteRoundTrip(ms.key, ":" + after);
    RoundTrip(ms.value, spaced, tail);
    PrintStarts(ms.value, spaced, tail);
    SkipGap(spaced, Print(ms.value, spaced, tail));
    EntryRead(s, ms.key, after, Rendered(ms.value), tail);
    if ms.rest.NoMembers? {
      LastMember(s, ms.key, Rendered(ms.value), rest);
    } else {
      var next := PrintMembers(ms.rest, spaced, "}" + rest);
      MembersRoundTrip(ms.rest, spaced, rest);
      SkipGap(spaced, next);
      NextMember(s, ms.key, Rendered(ms.value), Gap(spaced, next), RenderedMembers(ms.rest), rest);
    }
  }
}
