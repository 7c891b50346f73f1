/** `json.dumps` with compact separators, with and without sorted keys. Text is a
    sequence of Unicode characters. */
module CanonicalJson {
  datatype Json = Null | Bool(b: bool) | Str(s: string) | Obj(fields: Fields)

  datatype Field = Field(key: string, value: Json)

  /** A dict, in insertion order. */
  type Fields = seq<Field>

  // ---- printing ------------------------------------------------------------------

  function HexDigit(n: int): char
    requires 0 <= n < 16
  {
    (if n < 10 then '0' as int + n else 'a' as int + n - 10) as char
  }

  /** A backslash, a `u` and four hex digits. */
  function HexEscape(n: int): string
    requires 0 <= n < 0x1_0000
  {
    ['\\', 'u', HexDigit(n / 4096), HexDigit(n / 256 % 16), HexDigit(n / 16 % 16), HexDigit(n % 16)]
  }

  /** Section 7 of RFC 8259, with everything outside printable ASCII escaped;
      beyond the basic plane as a surrogate pair. */
  function EscapeChar(c: char): string {
    var n := c as int;
    if c == '"' then "\\\""
    else if c == '\\' then "\\\\"
    else if ' ' <= c <= '~' then [c]
    else if c == '\n' then "\\n"
    else if c == '\r' then "\\r"
    else if c == '\t' then "\\t"
    else if n == 8 then "\\b"
    else if n == 12 then "\\f"
    else if n < 0x1_0000 then HexEscape(n)
    else HexEscape(0xD800 + (n - 0x1_0000) / 1024) + HexEscape(0xDC00 + (n - 0x1_0000) % 1024)
  }

  function Escape(s: string): string {
    if s == "" then "" else EscapeChar(s[0]) + Escape(s[1..])
  }

  function Quote(s: string): string {
    "\"" + Escape(s) + "\""
  }

  function Print(v: Json): string
    decreases v
  {
    match v
    case Null => "null"
    case Bool(b) => if b then "true" else "false"
    case Str(s) => Quote(s)
    case Obj(fields) => "{" + Members(fields) + "}"
  }

  function Members(fields: Fields): string
    decreases fields, 1
  {
    if fields == [] then "" else Quote(fields[0].key) + ":" + Print(fields[0].value) + Later(fields)
  }

  /** What follows the first member. */
  function Later(fields: Fields): string
    requires fields != []
    decreases fields, 0
  {
    if |fields| == 1 then "" else "," + Members(fields[1..])
  }

  // ---- sorting the keys -------------------------------------------------------------

  /** Code-point order on strings. */
  predicate Less(a: string, b: string) {
    b != "" && (a == "" || a[0] < b[0] || (a[0] == b[0] && Less(a[1..], b[1..])))
  }

  function Insert(x: Field, sorted: Fields): Fields {
    if sorted == [] || Less(x.key, sorted[0].key) then [x] + sorted else [sorted[0]] + Insert(x, sorted[1..])
  }

  function Sort(fields: Fields): Fields {
    if fields == [] then [] else Insert(fields[0], Sort(fields[1..]))
  }

  /** The same value with the keys of every object in order. */
  function Normal(v: Json): Json
    decreases v
  {
    match v
    case Obj(fields) => Obj(Sort(NormalFields(fields)))
    case _ => v
  }

  function NormalFields(fields: Fields): (r: Fields)
    ensures |r| == |fields| && forall i :: 0 <= i < |r| ==> r[i].key == fields[i].key
    decreases fields
  {
    if fields == [] then [] else [Field(fields[0].key, Normal(fields[0].value))] + NormalFields(fields[1..])
  }

  /** `json.dumps(v, sort_keys=sortKeys, separators=(",", ":"))`. */
  function Dumps(v: Json, sortKeys: bool): string {
    Print(if sortKeys then Normal(v) else v)
  }

  // ---- printing loses nothing: no text is a prefix of another's ----------------------------

  lemma Cancel(a: string, x: string, y: string)
    requires a + x == a + y
    ensures x == y
  {
    assert (a + x)[|a|..] == x;
    assert (a + y)[|a|..] == y;
  }

  lemma Split(a: string, b: string, x: string, y: string)
    requires a + x == b + y && |a| == |b|
    ensures a == b && x == y
  {
    assert a == (a + x)[..|a|] && b == (b + y)[..|b|];
    Cancel(a, x, y);
  }

  lemma HexDigitsDiffer(m: int, n: int)
    requires 0 <= m < 16 && 0 <= n < 16 && HexDigit(m) == HexDigit(n)
    ensures m == n
  {
  }

  lemma DigitsSpell(n: int)
    requires 0 <= n < 0x1_0000
    ensures n == 4096 * (n / 4096) + 256 * (n / 256 % 16) + 16 * (n / 16 % 16) + n % 16
    ensures 0 <= n / 4096 < 16
  {
    assert n / 256 == n / 4096 * 16 + n / 256 % 16 by { assert n / 256 / 16 == n / 4096; }
    assert n / 16 == n / 256 * 16 + n / 16 % 16 by { assert n / 16 / 16 == n / 256; }
  }

  lemma HexDiffers(m: int, n: int)
    requires 0 <= m < 0x1_0000 && 0 <= n < 0x1_0000 && HexEscape(m) == HexEscape(n)
    ensures m == n
  {
    DigitsSpell(m);
    DigitsSpell(n);
    assert HexEscape(m)[2] == HexEscape(n)[2] && HexEscape(m)[3] == HexEscape(n)[3];
    assert HexEscape(m)[4] == HexEscape(n)[4] && HexEscape(m)[5] == HexEscape(n)[5];
    HexDigitsDiffer(m / 4096, n / 4096);
    HexDigitsDiffer(m / 256 % 16, n / 256 % 16);
    HexDigitsDiffer(m / 16 % 16, n / 16 % 16);
    HexDigitsDiffer(m % 16, n % 16);
  }

  lemma HexPrefix(m: int, n: int, x: string, y: string)
    requires 0 <= m < 0x1_0000 && 0 <= n < 0x1_0000 && HexEscape(m) + x == HexEscape(n) + y
    ensures m == n && x == y
  {
    Split(HexEscape(m), HexEscape(n), x, y);
    HexDiffers(m, n);
  }

  /** The character after the backslash, or the character itself. */
  predicate Verbatim(c: char) {
    ' ' <= c <= '~' && c != '"' && c != '\\'
  }

  predicate ShortEscape(c: char) {
    c == '"' || c == '\\' || c == '\n' || c == '\r' || c == '\t' || c as int == 8 || c as int == 12
  }

  lemma EscapeShape(c: char)
    ensures EscapeChar(c) != "" && EscapeChar(c)[0] != '"'
    ensures Verbatim(c) <==> EscapeChar(c)[0] != '\\'
    ensures Verbatim(c) ==> EscapeChar(c) == [c]
    ensures ShortEscape(c) ==> |EscapeChar(c)| == 2 && EscapeChar(c)[1] != 'u'
    ensures !Verbatim(c) && !ShortEscape(c) ==> |EscapeChar(c)| >= 6 && EscapeChar(c)[1] == 'u'
  {
  }

  lemma ShortEscapesDiffer(c: char, d: char)
    requires ShortEscape(c) && ShortEscape(d) && EscapeChar(c)[1] == EscapeChar(d)[1]
    ensures c == d
  {
  }

  /** The escapes that spell out a code: one four-digit group, or two. */
  predicate Spelled(c: char) {
    !Verbatim(c) && !ShortEscape(c)
  }

  function Group(c: char): int {
    if c as int < 0x1_0000 then c as int else 0xD800 + (c as int - 0x1_0000) / 1024
  }

  function SecondGroup(c: char): (r: string) {
    if c as int < 0x1_0000 then "" else HexEscape(0xDC00 + (c as int - 0x1_0000) % 1024)
  }

  lemma SpelledShape(c: char, x: string)
    requires Spelled(c)
    ensures EscapeChar(c) + x == HexEscape(Group(c)) + (SecondGroup(c) + x)
  {
    assert EscapeChar(c) == HexEscape(Group(c)) + SecondGroup(c);
    Associate(HexEscape(Group(c)), SecondGroup(c), x);
  }

  lemma Associate(a: string, b: string, x: string)
    ensures (a + b) + x == a + (b + x)
  {
  }

  /** A character is never half of a surrogate pair. */
  lemma GroupsDiffer(c: char, d: char)
    requires Group(c) == Group(d)
    ensures c as int < 0x1_0000 ==> c == d
    ensures c as int < 0x1_0000 <==> d as int < 0x1_0000
  {
  }

  lemma SpelledHead(c: char, d: char, x: string, y: string)
    requires Spelled(c) && Spelled(d) && EscapeChar(c) + x == EscapeChar(d) + y
    ensures Group(c) == Group(d) && SecondGroup(c) + x == SecondGroup(d) + y
  {
    SpelledShape(c, x);
    SpelledShape(d, y);
    HexPrefix(Group(c), Group(d), SecondGroup(c) + x, SecondGroup(d) + y);
  }

  lemma SecondGroupPrefix(c: char, d: char, x: string, y: string)
    requires Group(c) == Group(d) && SecondGroup(c) + x == SecondGroup(d) + y
    ensures c == d && x == y
  {
    GroupsDiffer(c, d);
    if c as int < 0x1_0000 {
      Cancel("", x, y);
    } else {
      SecondGroupDiffers(c as int - 0x1_0000, d as int - 0x1_0000, x, y);
    }
  }

  lemma SpelledPrefix(c: char, d: char, x: string, y: string)
    requires Spelled(c) && Spelled(d) && EscapeChar(c) + x == EscapeChar(d) + y
    ensures c == d && x == y
  {
    SpelledHead(c, d, x, y);
    SecondGroupPrefix(c, d, x, y);
  }

  lemma SecondGroupDiffers(m: int, n: int, x: string, y: string)
    requires 0 <= m && 0 <= n && m / 1024 == n / 1024
    requires HexEscape(0xDC00 + m % 1024) + x == HexEscape(0xDC00 + n % 1024) + y
    ensures m == n && x == y
  {
    HexPrefix(0xDC00 + m % 1024, 0xDC00 + n % 1024, x, y);
    assert m == m / 1024 * 1024 + m % 1024 && n == n / 1024 * 1024 + n % 1024;
  }

  lemma EscapeCharPrefix(c: char, d: char, x: string, y: string)
    requires EscapeChar(c) + x == EscapeChar(d) + y
    ensures c == d && x == y
  {
    EscapeShape(c);
    EscapeShape(d);
    var s := EscapeChar(c) + x;
    assert s[0] == EscapeChar(c)[0] == EscapeChar(d)[0];
    if Verbatim(c) {
      Cancel([c], x, y);
    } else {
      assert s[1] == EscapeChar(c)[1] == EscapeChar(d)[1];
      if ShortEscape(c) {
        ShortEscapesDiffer(c, d);
        Cancel(EscapeChar(c), x, y);
      } else {
        SpelledPrefix(c, d, x, y);
      }
    }
  }

  lemma EscapeHead(s: string, x: string)
    ensures s == "" ==> Escape(s) + "\"" + x == "\"" + x
    ensures s != "" ==> Escape(s) + "\"" + x == EscapeChar(s[0]) + (Escape(s[1..]) + "\"" + x)
    ensures (Escape(s) + "\"" + x)[0] == '"' <==> s == ""
  {
    if s != "" {
      EscapeShape(s[0]);
      var first, rest := EscapeChar(s[0]), Escape(s[1..]);
      assert (first + rest) + "\"" + x == first + (rest + "\"" + x);
    }
  }

  lemma {:induction false} EscapePrefix(s: string, t: string, x: string, y: string)
    requires Escape(s) + "\"" + x == Escape(t) + "\"" + y
    ensures s == t && x == y
    decreases |s|
  {
    EscapeHead(s, x);
    EscapeHead(t, y);
    if s == "" {
      Cancel("\"", x, y);
    } else {
      EscapeCharPrefix(s[0], t[0], Escape(s[1..]) + "\"" + x, Escape(t[1..]) + "\"" + y);
      EscapePrefix(s[1..], t[1..], x, y);
      assert s == [s[0]] + s[1..] && t == [t[0]] + t[1..];
    }
  }

  lemma QuoteHead(s: string, x: string)
    ensures Quote(s) + x == "\"" + (Escape(s) + "\"" + x)
  {
    var inner := Escape(s);
    assert ("\"" + inner + "\"") + x == "\"" + (inner + "\"" + x);
  }

  lemma QuotePrefix(s: string, t: string, x: string, y: string)
    requires Quote(s) + x == Quote(t) + y
    ensures s == t && x == y
  {
    QuoteHead(s, x);
    QuoteHead(t, y);
    Cancel("\"", Escape(s) + "\"" + x, Escape(t) + "\"" + y);
    EscapePrefix(s, t, x, y);
  }

  /** The first character tells the kinds of value apart. */
  function Lead(v: Json): char {
    match v
    case Null => 'n'
    case Bool(b) => if b then 't' else 'f'
    case Str(_) => '"'
    case Obj(_) => '{'
  }

  lemma LeadsPrint(v: Json)
    ensures Print(v) != "" && Print(v)[0] == Lead(v)
  {
  }

  /** Printed values are self-delimiting, so the text determines the value and
      where it ends, whatever follows. */
  lemma {:induction false} PrintPrefix(v: Json, w: Json, x: string, y: string)
    requires Print(v) + x == Print(w) + y
    ensures v == w && x == y
    decreases v
  {
    LeadsPrint(v);
    LeadsPrint(w);
    assert (Print(v) + x)[0] == Lead(v) && (Print(w) + y)[0] == Lead(w);
    match v
    case Null => Cancel("null", x, y);
    case Bool(b) => Cancel(Print(v), x, y);
    case Str(s) => QuotePrefix(s, w.s, x, y);
    case Obj(fields) =>
      InsideBraces(fields, w.fields, x, y);
      MembersPrefix(fields, w.fields, x, y);
  }

  lemma BraceGroups(inner: string, x: string)
    ensures ("{" + inner + "}") + x == "{" + (inner + ("}" + x))
  {
  }

  lemma InsideBraces(f: Fields, g: Fields, x: string, y: string)
    requires Print(Obj(f)) + x == Print(Obj(g)) + y
    ensures Members(f) + ("}" + x) == Members(g) + ("}" + y)
  {
    BraceGroups(Members(f), x);
    BraceGroups(Members(g), y);
    Cancel("{", Members(f) + ("}" + x), Members(g) + ("}" + y));
  }

  lemma MemberGroups(key: string, value: string, later: string, x: string)
    ensures key + ":" + value + later + x == key + (":" + (value + (later + x)))
  {
  }

  lemma FirstMember(fields: Fields, x: string)
    requires fields != []
    ensures Members(fields) + x
            == Quote(fields[0].key) + (":" + (Print(fields[0].value) + (Later(fields) + x)))
  {
    MemberGroups(Quote(fields[0].key), Print(fields[0].value), Later(fields), x);
  }

  lemma {:induction false} MembersPrefix(f: Fields, g: Fields, x: string, y: string)
    requires Members(f) + ("}" + x) == Members(g) + ("}" + y)
    ensures f == g && x == y
    decreases f
  {
    NoneIsNone(f, x);
    NoneIsNone(g, y);
    if f == [] {
      Cancel("}", x, y);
    } else {
      FirstMember(f, "}" + x);
      FirstMember(g, "}" + y);
      var restF, restG := Later(f) + ("}" + x), Later(g) + ("}" + y);
      QuotePrefix(f[0].key, g[0].key, ":" + (Print(f[0].value) + restF), ":" + (Print(g[0].value) + restG));
      Cancel(":", Print(f[0].value) + restF, Print(g[0].value) + restG);
      PrintPrefix(f[0].value, g[0].value, restF, restG);
      AfterComma(f, g, x, y);
      assert f == [f[0]] + f[1..] && g == [g[0]] + g[1..];
      if |f| > 1 {
        MembersPrefix(f[1..], g[1..], x, y);
      }
    }
  }

  lemma NoneIsNone(f: Fields, x: string)
    ensures f == [] ==> Members(f) + ("}" + x) == "}" + x
    ensures (Members(f) + ("}" + x))[0] == if f == [] then '}' else '"'
  {
    if f != [] {
      FirstMember(f, "}" + x);
    }
  }

  lemma AfterComma(f: Fields, g: Fields, x: string, y: string)
    requires f != [] && g != [] && Later(f) + ("}" + x) == Later(g) + ("}" + y)
    ensures |f| == 1 <==> |g| == 1
    ensures if |f| == 1 then x == y else Members(f[1..]) + ("}" + x) == Members(g[1..]) + ("}" + y)
  {
    LaterLead(f, "}" + x);
    LaterLead(g, "}" + y);
    if |f| == 1 {
      Cancel("}", x, y);
    } else {
      Cancel(",", Members(f[1..]) + ("}" + x), Members(g[1..]) + ("}" + y));
    }
  }

  lemma LaterLead(f: Fields, x: string)
    requires f != [] && x != "" && x[0] == '}'
    ensures Later(f) + x == if |f| == 1 then x else "," + (Members(f[1..]) + x)
    ensures (Later(f) + x)[0] == if |f| == 1 then '}' else ','
  {
    if |f| > 1 {
      Associate(",", Members(f[1..]), x);
    }
  }

  lemma PrintInjective(v: Json, w: Json)
    ensures Print(v) == Print(w) <==> v == w
  {
    if Print(v) == Print(w) {
      assert Print(v) + "" == Print(w) + "";
      PrintPrefix(v, w, "", "");
    }
  }

  // ---- the order on keys --------------------------------------------------------------------

  lemma {:induction false} LessIsStrict(a: string, b: string)
    ensures !(Less(a, b) && Less(b, a)) && !Less(a, a)
    decreases |a|
  {
    if a != "" && b != "" {
      LessIsStrict(a[1..], b[1..]);
    } else if a != "" {
      LessIsStrict(a[1..], a[1..]);
    }
  }

  lemma {:induction false} LessIsTotal(a: string, b: string)
    ensures a == b || Less(a, b) || Less(b, a)
    decreases |a|
  {
    if a != "" && b != "" {
      LessIsTotal(a[1..], b[1..]);
      assert a == [a[0]] + a[1..] && b == [b[0]] + b[1..];
    }
  }

  lemma {:induction false} LessIsTransitive(a: string, b: string, c: string)
    requires Less(a, b) && Less(b, c)
    ensures Less(a, c)
    decreases |a|
  {
    if a != "" && a[0] == b[0] == c[0] {
      LessIsTransitive(a[1..], b[1..], c[1..]);
    }
  }

  // ---- sorting keeps the fields and forgets their order ------------------------------------------

  predicate HasKey(fields: Fields, key: string) {
    exists i :: 0 <= i < |fields| && fields[i].key == key
  }

  /** A dict holds every key once. */
  predicate Distinct(fields: Fields) {
    forall i, j :: 0 <= i < j < |fields| ==> fields[i].key != fields[j].key
  }

  predicate Ascending(fields: Fields) {
    forall i, j :: 0 <= i < j < |fields| ==> Less(fields[i].key, fields[j].key)
  }

  ghost predicate SameFields(f: Fields, g: Fields) {
    forall x :: x in f <==> x in g
  }

  lemma {:induction false} InsertKeeps(x: Field, sorted: Fields)
    requires Ascending(sorted) && !HasKey(sorted, x.key)
    ensures Ascending(Insert(x, sorted)) && SameFields(Insert(x, sorted), [x] + sorted)
    decreases |sorted|
  {
    if sorted == [] {
    } else if Less(x.key, sorted[0].key) {
      forall k | 0 <= k < |sorted|
        ensures Less(x.key, sorted[k].key)
      {
        if k > 0 {
          LessIsTransitive(x.key, sorted[0].key, sorted[k].key);
        }
      }
    } else {
      LessIsTotal(x.key, sorted[0].key);
      var rest := sorted[1..];
      InsertKeeps(x, rest);
      assert sorted == [sorted[0]] + rest;
      var r := Insert(x, rest);
      forall k | 0 <= k < |r|
        ensures Less(sorted[0].key, r[k].key)
      {
        assert r[k] in [x] + rest;
      }
    }
  }

  lemma {:induction false} SortKeeps(fields: Fields)
    requires Distinct(fields)
    ensures Ascending(Sort(fields)) && SameFields(Sort(fields), fields)
    decreases |fields|
  {
    if fields != [] {
      var rest := fields[1..];
      SortKeeps(rest);
      assert fields == [fields[0]] + rest;
      forall i | 0 <= i < |Sort(rest)|
        ensures Sort(rest)[i].key != fields[0].key
      {
        assert Sort(rest)[i] in rest;
      }
      InsertKeeps(fields[0], Sort(rest));
    }
  }

  lemma TailsAgree(f: Fields, g: Fields)
    requires Ascending(f) && Ascending(g) && SameFields(f, g) && f != [] && g != []
    ensures f[0] == g[0] && SameFields(f[1..], g[1..])
  {
    assert f[0] in g && g[0] in f;
    var i :| 0 <= i < |g| && g[i] == f[0];
    var j :| 0 <= j < |f| && f[j] == g[0];
    LessIsStrict(f[0].key, g[0].key);
    assert i == 0 && f[0] == g[0];
    assert f == [f[0]] + f[1..] && g == [g[0]] + g[1..];
    LessIsStrict(f[0].key, f[0].key);
    forall x
      ensures x in f[1..] <==> x in g[1..]
    {
      assert x in f <==> x in g;
      assert x in f[1..] <==> x in f && x != f[0];
      assert x in g[1..] <==> x in g && x != g[0];
    }
  }

  lemma EmptyAlike(f: Fields, g: Fields)
    requires SameFields(f, g)
    ensures f == [] <==> g == []
  {
    assert f != [] ==> f[0] in g;
    assert g != [] ==> g[0] in f;
  }

  /** There is one way to put a set of fields in ascending order. */
  lemma {:induction false} AscendingIsUnique(f: Fields, g: Fields)
    requires Ascending(f) && Ascending(g) && SameFields(f, g)
    ensures f == g
    decreases |f|
  {
    EmptyAlike(f, g);
    if f != [] {
      TailsAgree(f, g);
      AscendingIsUnique(f[1..], g[1..]);
      assert f == [f[0]] + f[1..] && g == [g[0]] + g[1..];
    }
  }

  /** Two dicts sort to the same list exactly when they hold the same fields. */
  lemma SortForgetsOrder(f: Fields, g: Fields)
    requires Distinct(f) && Distinct(g)
    ensures Sort(f) == Sort(g) <==> SameFields(f, g)
  {
    SortKeeps(f);
    SortKeeps(g);
    if SameFields(f, g) {
      AscendingIsUnique(Sort(f), Sort(g));
    }
  }

  // ---- the canonical text -------------------------------------------------------------------------

  /** Canonical texts agree exactly when the dicts hold the same keys with values
      that are equal up to the order of their own keys: neither insertion order
      shows, nor are two different dicts confused. */
  lemma CanonicalIffSameFields(f: Fields, g: Fields)
    requires Distinct(f) && Distinct(g)
    ensures Dumps(Obj(f), true) == Dumps(Obj(g), true) <==> SameFields(NormalFields(f), NormalFields(g))
  {
    PrintInjective(Normal(Obj(f)), Normal(Obj(g)));
    SortForgetsOrder(NormalFields(f), NormalFields(g));
  }

  /** No value is itself a dict: the payloads the service signs. */
  predicate Flat(fields: Fields) {
    forall i :: 0 <= i < |fields| ==> !fields[i].value.Obj?
  }

  lemma {:induction false} FlatIsNormal(fields: Fields)
    requires Flat(fields)
    ensures NormalFields(fields) == fields
    decreases |fields|
  {
    if fields != [] {
      FlatIsNormal(fields[1..]);
      assert fields == [Field(fields[0].key, fields[0].value)] + fields[1..];
    }
  }

  lemma FlatCanonical(f: Fields, g: Fields)
    requires Distinct(f) && Distinct(g) && Flat(f) && Flat(g)
    ensures Dumps(Obj(f), true) == Dumps(Obj(g), true) <==> SameFields(f, g)
  {
    FlatIsNormal(f);
    FlatIsNormal(g);
    CanonicalIffSameFields(f, g);
  }

  /** Printing a flat dict in insertion order yields the canonical text only when
      the keys were inserted in ascending order. */
  lemma UnsortedTextDiffers(f: Fields)
    requires Distinct(f) && Flat(f)
    ensures Dumps(Obj(f), false) == Dumps(Obj(f), true) <==> Ascending(f)
  {
    FlatIsNormal(f);
    PrintInjective(Obj(f), Obj(Sort(f)));
    SortKeeps(f);
    if Ascending(f) {
      AscendingIsUnique(f, Sort(f));
    }
  }
}
