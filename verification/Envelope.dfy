/** The signed device configuration: what is signed, what is embedded, and what
    a client cuts out again. */
module Envelope {
  import opened Wrappers
  import opened CanonicalJson

  const PAYLOAD := "payload"
  const SIGNATURE := "signature"

  /** `_canonical`: the bytes that are signed. */
  function Canonical(p: Fields): string {
    Dumps(Obj(p), true)
  }

  /** `_device_config`: the envelope, given the signing function. */
  function DeviceConfig(sign: string -> string, p: Fields): string {
    Dumps(Obj([Field(PAYLOAD, Obj(p)), Field(SIGNATURE, Str(sign(Canonical(p))))]), true)
  }

  // ---- the embedded payload is the signed one ---------------------------------------

  /** What precedes the payload in the envelope. */
  const KEY := "\"" + PAYLOAD + "\":"
  const PREFIX := "{" + KEY

  /** What follows the payload in the envelope. */
  function Suffix(signature: string): string {
    ",\"" + SIGNATURE + "\":" + Quote(signature) + "}"
  }

  predicate Plain(s: string) {
    forall i :: 0 <= i < |s| ==> Verbatim(s[i])
  }

  lemma {:induction false} PlainEscape(s: string)
    requires Plain(s)
    ensures Escape(s) == s
    decreases |s|
  {
    if s != "" {
      PlainEscape(s[1..]);
      assert s == [s[0]] + s[1..];
    }
  }

  lemma KeysArePlain()
    ensures Plain(PAYLOAD) && Plain(SIGNATURE)
  {
  }

  lemma KeysAscend()
    ensures Less(PAYLOAD, SIGNATURE)
  {
    assert PAYLOAD[0] < SIGNATURE[0];
  }

  /** Two fields whose keys are in order already, printed with sorted keys. */
  lemma TwoFields(x: Field, y: Field)
    requires Less(x.key, y.key)
    ensures Dumps(Obj([x, y]), true)
            == "{" + (Quote(x.key) + ":" + Dumps(x.value, true)
                      + ("," + (Quote(y.key) + ":" + Dumps(y.value, true)))) + "}"
  {
    var u, v := Field(x.key, Normal(x.value)), Field(y.key, Normal(y.value));
    assert [x, y][1..] == [y] && [y][1..] == [];
    assert NormalFields([y]) == [v] && NormalFields([x, y]) == [u, v];
    assert [u, v][1..] == [v] && [v][1..] == [];
    assert Sort([v]) == Insert(v, []) == [v];
    assert Sort([u, v]) == Insert(u, [v]) == [u, v];
    assert Members([v]) == Quote(v.key) + ":" + Print(v.value);
    assert Members([u, v]) == Quote(u.key) + ":" + Print(u.value) + ("," + Members([v]));
  }

  lemma PlainFields(a: string, b: string, v: Json, w: Json)
    requires Plain(a) && Plain(b) && Less(a, b)
    ensures Dumps(Obj([Field(a, v), Field(b, w)]), true)
            == "{" + ("\"" + a + "\":") + Dumps(v, true) + (",\"" + b + "\":" + Dumps(w, true) + "}")
  {
    PlainEscape(a);
    PlainEscape(b);
    TwoFields(Field(a, v), Field(b, w));
    Regroup(a, Dumps(v, true), b, Dumps(w, true));
  }

  lemma Regroup(a: string, text: string, b: string, signature: string)
    ensures "{" + ("\"" + a + "\"" + ":" + text + ("," + ("\"" + b + "\"" + ":" + signature))) + "}"
         == "{" + ("\"" + a + "\":") + text + (",\"" + b + "\":" + signature + "}")
  {
  }

  /** Byte for byte, the envelope holds exactly the text that was signed, behind
      the `payload` key and before the signature of that same text. */
  lemma EmbeddedIsSigned(sign: string -> string, p: Fields)
    ensures DeviceConfig(sign, p) == PREFIX + Canonical(p) + Suffix(sign(Canonical(p)))
  {
    KeysArePlain();
    KeysAscend();
    PlainFields(PAYLOAD, SIGNATURE, Obj(p), Str(sign(Canonical(p))));
  }

  // ---- cutting the payload out again ------------------------------------------------------

  /** The balanced-brace scan: how many characters until the depth is back to zero. */
  function Scan(text: string, depth: int): Option<nat> {
    if text == "" then None
    else
      var d := if text[0] == '{' then depth + 1 else if text[0] == '}' then depth - 1 else depth;
      if text[0] == '}' && d == 0 then Some(1)
      else match Scan(text[1..], d)
        case None => None
        case Some(n) => Some(n + 1)
  }

  /** The text from `start` on begins with the key. */
  predicate KeyAt(config: string, start: int) {
    0 <= start && start + |KEY| <= |config| && config[start..start + |KEY|] == KEY
  }

  ghost predicate FirstKeyAt(config: string, start: int) {
    KeyAt(config, start) && forall i :: 0 <= i < start ==> !KeyAt(config, i)
  }

  /** What the scan cuts off the front of `rest`. */
  function CutOut(rest: string): Option<string> {
    match Scan(rest, 0)
    case None => None
    case Some(n) => if n <= |rest| then Some(rest[..n]) else None
  }

  /** Where the key first occurs. */
  method FindKey(config: string) returns (start: Option<nat>)
    ensures start.Some? ==> FirstKeyAt(config, start.value)
    ensures start.None? ==> forall i :: !KeyAt(config, i)
  {
    var i := 0;
    while i + |KEY| <= |config|
      invariant 0 <= i && forall j :: 0 <= j < i ==> !KeyAt(config, j)
      decreases |config| - i
    {
      if config[i..i + |KEY|] == KEY {
        return Some(i);
      }
      i := i + 1;
    }
    return None;
  }

  /** The payload that a client cuts out of an envelope: behind the first
      `payload` key, up to the brace that closes it. */
  method ExtractPayload(config: string) returns (payload: Option<string>)
    ensures forall start :: FirstKeyAt(config, start) ==> payload == CutOut(config[start + |KEY|..])
    ensures (forall start :: !KeyAt(config, start)) ==> payload == None
  {
    var found := FindKey(config);
    if found.None? {
      return None;
    }
    var start := found.value;
    forall other | FirstKeyAt(config, other)
      ensures other == start
    {
      assert other < start ==> !KeyAt(config, other);
      assert start < other ==> !KeyAt(config, start);
    }
    var rest := config[start + |KEY|..];
    var n := ScanBraces(rest);
    if n.None? {
      return None;
    }
    ScanFits(rest, 0);
    return Some(rest[..n.value]);
  }

  lemma FirstKey(config: string)
    requires PREFIX <= config
    ensures FirstKeyAt(config, 1)
  {
    assert config[1..1 + |KEY|] == PREFIX[1..] == KEY;
    assert config[0] == PREFIX[0] == '{' && KEY[0] == '"';
    assert config[0..0 + |KEY|][0] == config[0];
  }

  lemma {:induction false} ScanFits(text: string, depth: int)
    ensures Scan(text, depth).Some? ==> 1 <= Scan(text, depth).value <= |text|
    decreases |text|
  {
    if text != "" {
      ScanFits(text[1..], if text[0] == '{' then depth + 1 else if text[0] == '}' then depth - 1 else depth);
    }
  }

  method ScanBraces(text: string) returns (n: Option<nat>)
    ensures n == Scan(text, 0)
  {
    var depth := 0;
    for i := 0 to |text|
      invariant Scan(text, 0) == match Scan(text[i..], depth)
                                 case None => None
                                 case Some(m) => Some(m + i)
    {
      assert text[i..][0] == text[i] && text[i..][1..] == text[i + 1..];
      if text[i] == '{' {
        depth := depth + 1;
      } else if text[i] == '}' {
        depth := depth - 1;
        if depth == 0 {
          return Some(i + 1);
        }
      }
    }
    return None;
  }

  /** Braces pair up: none closes before it opens, none stays open. */
  predicate Balanced(s: string, depth: nat) {
    if s == "" then depth == 0
    else if s[0] == '{' then Balanced(s[1..], depth + 1)
    else if s[0] == '}' then depth > 0 && Balanced(s[1..], depth - 1)
    else Balanced(s[1..], depth)
  }

  /** The scan stops exactly behind the closing brace when, and only when, the
      braces inside pair up. */
  lemma {:induction false} ScanStopsIfBalanced(inner: string, tail: string, depth: nat)
    ensures Scan(inner + "}" + tail, depth + 1) == Some(|inner| + 1) <==> Balanced(inner, depth)
    decreases |inner|
  {
    var text := inner + "}" + tail;
    ScanFits(text[1..], depth);
    if inner == "" {
      assert text == "}" + tail && text[1..] == tail;
    } else {
      assert text[1..] == inner[1..] + "}" + tail;
      if inner[0] == '{' {
        ScanStopsIfBalanced(inner[1..], tail, depth + 1);
      } else if inner[0] == '}' {
        if depth > 0 {
          ScanStopsIfBalanced(inner[1..], tail, depth - 1);
        }
      } else {
        ScanStopsIfBalanced(inner[1..], tail, depth);
      }
    }
  }

  lemma CutsCanonical(inner: string, tail: string)
    ensures CutOut("{" + inner + "}" + tail) == Some("{" + inner + "}") <==> Balanced(inner, 0)
  {
    var rest := "{" + inner + "}" + tail;
    assert rest[1..] == inner + "}" + tail;
    ScanFits(rest, 0);
    ScanStopsIfBalanced(inner, tail, 0);
    assert rest[..|inner| + 2] == "{" + inner + "}";
  }

  // ---- the condition, on the caller's strings -------------------------------------------

  /** The characters of keys and string values as the caller wrote them, unescaped
      and in printing order, with the braces of objects inside objects. */
  function Raw(v: Json): string
    decreases v
  {
    match v
    case Str(s) => s
    case Obj(fields) => "{" + RawFields(fields) + "}"
    case _ => ""
  }

  function RawFields(fields: Fields): string
    decreases fields
  {
    if fields == [] then "" else fields[0].key + (Raw(fields[0].value) + RawFields(fields[1..]))
  }

  predicate IsBrace(c: char) {
    c == '{' || c == '}'
  }

  predicate NoBraces(s: string) {
    forall i :: 0 <= i < |s| ==> !IsBrace(s[i])
  }

  /** Text without braces is invisible to the count. */
  lemma {:induction false} SkipPlain(s: string, x: string, depth: nat)
    requires NoBraces(s)
    ensures Balanced(s + x, depth) == Balanced(x, depth)
    decreases |s|
  {
    if s == "" {
      assert s + x == x;
    } else {
      assert (s + x)[0] == s[0] && (s + x)[1..] == s[1..] + x && !IsBrace(s[0]);
      SkipPlain(s[1..], x, depth);
    }
  }

  /** Two texts that the count cannot tell apart, whatever precedes them. */
  ghost predicate Alike(x: string, y: string) {
    forall depth: nat :: Balanced(x, depth) == Balanced(y, depth)
  }

  lemma SkipPlainAlike(s: string, x: string)
    requires NoBraces(s)
    ensures Alike(s + x, x)
  {
    forall depth: nat
      ensures Balanced(s + x, depth) == Balanced(x, depth)
    {
      SkipPlain(s, x, depth);
    }
  }

  lemma SameFirstAlike(c: char, x: string, y: string)
    requires Alike(x, y)
    ensures Alike([c] + x, [c] + y)
  {
    assert ([c] + x)[1..] == x && ([c] + y)[1..] == y;
  }

  lemma EscapeCharBraces(c: char)
    ensures if IsBrace(c) then EscapeChar(c) == [c] else NoBraces(EscapeChar(c))
  {
    forall n | 0 <= n < 0x1_0000
      ensures NoBraces(HexEscape(n))
    {
      HexHasNoBraces(n);
    }
  }

  lemma HexHasNoBraces(n: int)
    requires 0 <= n < 0x1_0000
    ensures NoBraces(HexEscape(n))
  {
    forall d | 0 <= d < 16
      ensures !IsBrace(HexDigit(d))
    {
    }
  }

  /** Escaping neither adds nor hides a brace. */
  lemma {:induction false} EscapeAlike(s: string, x: string, y: string)
    requires Alike(x, y)
    ensures Alike(Escape(s) + x, s + y)
    decreases |s|
  {
    if s == "" {
      assert Escape(s) + x == x && s + y == y;
    } else {
      var c, rest := s[0], s[1..];
      EscapeAlike(rest, x, y);
      EscapeCharBraces(c);
      Associate(EscapeChar(c), Escape(rest), x);
      Associate([c], rest, y);
      assert s == [c] + rest;
      if IsBrace(c) {
        SameFirstAlike(c, Escape(rest) + x, rest + y);
      } else {
        SkipPlainAlike(EscapeChar(c), Escape(rest) + x);
        SkipPlainAlike([c], rest + y);
      }
    }
  }

  lemma QuoteAlike(s: string, x: string, y: string)
    requires Alike(x, y)
    ensures Alike(Quote(s) + x, s + y)
  {
    QuoteHead(s, x);
    SkipPlainAlike("\"", Escape(s) + ("\"" + x));
    assert Escape(s) + "\"" + x == Escape(s) + ("\"" + x);
    SkipPlainAlike("\"", x);
    EscapeAlike(s, "\"" + x, y);
  }

  /** The printed text holds the same braces, in the same order, as the caller's
      strings. */
  lemma {:induction false} PrintAlike(v: Json, x: string, y: string)
    requires Alike(x, y)
    ensures Alike(Print(v) + x, Raw(v) + y)
    decreases v
  {
    match v
    case Null => SkipPlainAlike("null", x); assert Raw(v) + y == y;
    case Bool(b) => SkipPlainAlike(Print(v), x); assert Raw(v) + y == y;
    case Str(s) => QuoteAlike(s, x, y);
    case Obj(fields) =>
      SameFirstAlike('}', x, y);
      MembersAlike(fields, "}" + x, "}" + y);
      BracesAlike(Members(fields), RawFields(fields), x, y);
  }

  lemma BracesAlike(inner: string, raw: string, x: string, y: string)
    requires Alike(inner + ("}" + x), raw + ("}" + y))
    ensures Alike(("{" + inner + "}") + x, ("{" + raw + "}") + y)
  {
    BraceGroups(inner, x);
    BraceGroups(raw, y);
    SameFirstAlike('{', inner + ("}" + x), raw + ("}" + y));
  }

  lemma {:induction false} MembersAlike(fields: Fields, x: string, y: string)
    requires Alike(x, y)
    ensures Alike(Members(fields) + x, RawFields(fields) + y)
    decreases fields
  {
    if fields == [] {
      assert Members(fields) + x == x && RawFields(fields) + y == y;
    } else {
      var key, value, rest := fields[0].key, fields[0].value, fields[1..];
      MembersAlike(rest, x, y);
      LaterAlike(fields, x, RawFields(rest) + y);
      var laterX, laterY := Later(fields) + x, RawFields(rest) + y;
      PrintAlike(value, laterX, laterY);
      SkipPlainAlike(":", Print(value) + laterX);
      QuoteAlike(key, ":" + (Print(value) + laterX), Raw(value) + laterY);
      FirstMember(fields, x);
      RawGroups(key, Raw(value), RawFields(rest), y);
    }
  }

  lemma LaterAlike(fields: Fields, x: string, y: string)
    requires fields != [] && Alike(Members(fields[1..]) + x, y)
    ensures Alike(Later(fields) + x, y)
  {
    if |fields| == 1 {
      assert Members(fields[1..]) == "";
    } else {
      SkipPlainAlike(",", Members(fields[1..]) + x);
      Associate(",", Members(fields[1..]), x);
    }
  }

  lemma RawGroups(key: string, value: string, later: string, y: string)
    ensures (key + (value + later)) + y == key + (value + (later + y))
  {
  }

  // ---- when a client can verify -------------------------------------------------------------

  /** The fields of a payload in the order they are printed. */
  function Ordered(p: Fields): Fields {
    Sort(NormalFields(p))
  }

  /** Where the scan of an envelope starts. */
  function Behind(config: string): string
    requires |KEY| < |config|
  {
    config[1 + |KEY|..]
  }

  /** A client cuts out exactly the signed text if and only if the braces in the
      caller's strings, read in key order, pair up. */
  lemma ExtractedIffBalanced(sign: string -> string, p: Fields)
    ensures var config := DeviceConfig(sign, p);
            && |KEY| < |config| && FirstKeyAt(config, 1)
            && (CutOut(Behind(config)) == Some(Canonical(p)) <==> Balanced(RawFields(Ordered(p)), 0))
  {
    var tail := Suffix(sign(Canonical(p)));
    var inner := Members(Ordered(p));
    EmbeddedIsSigned(sign, p);
    assert Canonical(p) == "{" + inner + "}";
    Drop(PREFIX, "{" + inner + "}", tail);
    FirstKey(DeviceConfig(sign, p));
    CutsCanonical(inner, tail);
    MembersAlike(Ordered(p), "", "");
    assert inner + "" == inner && RawFields(Ordered(p)) + "" == RawFields(Ordered(p));
  }

  lemma Drop(prefix: string, text: string, tail: string)
    ensures prefix <= prefix + text + tail
    ensures (prefix + text + tail)[|prefix|..] == text + tail
  {
  }

  /** No key and no string value holds a brace. */
  predicate BraceFree(fields: Fields) {
    forall x :: x in fields ==> NoBraces(x.key) && (x.value.Str? ==> NoBraces(x.value.s))
  }

  lemma {:induction false} RawHasNoBraces(fields: Fields)
    requires Flat(fields) && BraceFree(fields)
    ensures NoBraces(RawFields(fields))
    decreases |fields|
  {
    if fields != [] {
      assert fields[0] in fields;
      RawHasNoBraces(fields[1..]);
    }
  }

  /** In particular whenever no string holds a brace. */
  lemma BraceFreeIsExtracted(sign: string -> string, p: Fields)
    requires Distinct(p) && Flat(p) && BraceFree(p)
    ensures var config := DeviceConfig(sign, p);
            |KEY| < |config| && FirstKeyAt(config, 1) && CutOut(Behind(config)) == Some(Canonical(p))
  {
    ExtractedIffBalanced(sign, p);
    FlatIsNormal(p);
    SortKeeps(p);
    var ordered := Ordered(p);
    forall i | 0 <= i < |ordered|
      ensures !ordered[i].value.Obj?
    {
      assert ordered[i] in p;
    }
    RawHasNoBraces(ordered);
    SkipPlain(RawFields(ordered), "", 0);
    assert RawFields(ordered) + "" == RawFields(ordered);
  }

  /** Of all keys and string values only the value of `x` may hold braces. */
  ghost predicate OnlyBraced(p: Fields, x: Field) {
    && x in p && x.value.Str? && NoBraces(x.key)
    && forall y :: y in p && y != x ==> NoBraces(y.key) && (y.value.Str? ==> NoBraces(y.value.s))
  }

  lemma AlikeChain(x: string, y: string, z: string)
    requires Alike(x, y) && Alike(y, z)
    ensures Alike(x, z)
  {
  }

  lemma {:induction false} SameStartAlike(s: string, x: string, y: string)
    requires Alike(x, y)
    ensures Alike(s + x, s + y)
    decreases |s|
  {
    if s == "" {
      assert s + x == x && s + y == y;
    } else {
      SameStartAlike(s[1..], x, y);
      SameFirstAlike(s[0], s[1..] + x, s[1..] + y);
      assert s + x == [s[0]] + (s[1..] + x) && s + y == [s[0]] + (s[1..] + y);
    }
  }

  lemma PlainIsNothing(s: string)
    requires NoBraces(s)
    ensures Alike(s, "")
  {
    SkipPlainAlike(s, "");
    assert s + "" == s;
  }

  /** The fields before and after `x` do not show in the count. */
  lemma {:induction false} RawIsOneString(fields: Fields, x: Field)
    requires Flat(fields) && Distinct(fields) && OnlyBraced(fields, x)
    ensures Alike(RawFields(fields), x.value.s)
    decreases |fields|
  {
    var first, rest := fields[0], fields[1..];
    assert fields == [first] + rest;
    SkipPlainAlike(first.key, Raw(first.value) + RawFields(rest));
    if first == x {
      assert forall i :: 0 <= i < |rest| ==> rest[i] == fields[i + 1] && rest[i] != x;
      assert BraceFree(rest);
      RawHasNoBraces(rest);
      PlainIsNothing(RawFields(rest));
      SameStartAlike(x.value.s, RawFields(rest), "");
      assert x.value.s + "" == x.value.s;
    } else {
      assert Raw(first.value) == if first.value.Str? then first.value.s else "";
      RawIsOneString(rest, x);
      SkipPlainAlike(Raw(first.value), RawFields(rest));
      AlikeChain(Raw(first.value) + RawFields(rest), RawFields(rest), x.value.s);
    }
    AlikeChain(RawFields(fields), Raw(first.value) + RawFields(rest), x.value.s);
  }

  lemma AscendingIsDistinct(fields: Fields)
    requires Ascending(fields)
    ensures Distinct(fields)
  {
    forall i, j | 0 <= i < j < |fields| ensures fields[i].key != fields[j].key {
      LessIsStrict(fields[i].key, fields[j].key);
    }
  }

  /** When a single string may hold braces, the client cuts out the signed text if and
      only if the braces of that string pair up, wherever its key is printed. */
  lemma OneBracedString(sign: string -> string, p: Fields, x: Field)
    requires Flat(p) && Distinct(p) && OnlyBraced(p, x)
    ensures var config := DeviceConfig(sign, p);
            && |KEY| < |config| && FirstKeyAt(config, 1)
            && (CutOut(Behind(config)) == Some(Canonical(p)) <==> Balanced(x.value.s, 0))
  {
    ExtractedIffBalanced(sign, p);
    FlatIsNormal(p);
    SortKeeps(p);
    var ordered := Ordered(p);
    AscendingIsDistinct(ordered);
    forall i | 0 <= i < |ordered| ensures !ordered[i].value.Obj? {
      assert ordered[i] in p;
    }
    RawIsOneString(ordered, x);
  }

  /** A payload like those of the service, with a lone closing brace in the name of
      the device and no brace in any other string, whatever its other fields: no
      client can cut the signed text out of its envelope. */
  lemma BraceInNameIsNotExtracted(sign: string -> string, p: Fields, before: string, after: string)
    requires Flat(p) && Distinct(p) && NoBraces(before) && NoBraces(after)
    requires OnlyBraced(p, Field("device_name", Str(before + "}" + after)))
    ensures var config := DeviceConfig(sign, p);
            |KEY| < |config| && FirstKeyAt(config, 1) && CutOut(Behind(config)) != Some(Canonical(p))
  {
    OneBracedString(sign, p, Field("device_name", Str(before + "}" + after)));
    UnpairedBrace(before, after);
  }

  lemma UnpairedBrace(before: string, after: string)
    requires NoBraces(before)
    ensures !Balanced(before + "}" + after, 0)
  {
    assert before + "}" + after == before + ("}" + after);
    SkipPlain(before, "}" + after, 0);
  }
}
