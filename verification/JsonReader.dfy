/** A reader of JSON text as RFC 8259 defines it, for the values that are signed and
    without white space, and that it reads back whatever is printed. */
module JsonReader {
  import opened CanonicalJson
  import opened Envelope

  /** What was read off the front of the text, and what is left. */
  datatype Parsed<T> = Got(value: T, rest: string) | Bad

  // ---- characters (section 7 of RFC 8259) ---------------------------------------------

  function HexValue(c: char): int {
    if '0' <= c <= '9' then c as int - '0' as int
    else if 'a' <= c <= 'f' then c as int - 'a' as int + 10
    else if 'A' <= c <= 'F' then c as int - 'A' as int + 10
    else -1
  }

  /** Four hex digits. */
  function ReadCode(s: string): Parsed<int> {
    if |s| < 4 || HexValue(s[0]) < 0 || HexValue(s[1]) < 0 || HexValue(s[2]) < 0 || HexValue(s[3]) < 0 then Bad
    else Got(4096 * HexValue(s[0]) + 256 * HexValue(s[1]) + 16 * HexValue(s[2]) + HexValue(s[3]), s[4..])
  }

  /** What follows the `u` of an escape: a code, or the two halves of a surrogate pair. */
  function ReadUnicode(s: string): Parsed<char> {
    match ReadCode(s)
    case Bad => Bad
    case Got(n, rest) =>
      if 0 <= n < 0xD800 || 0xE000 <= n < 0x1_0000 then Got(n as char, rest)
      else if n < 0 || n >= 0xDC00 || |rest| < 2 || rest[0] != '\\' || rest[1] != 'u' then Bad
      else match ReadCode(rest[2..])
        case Bad => Bad
        case Got(m, rest') =>
          if 0xDC00 <= m < 0xE000 then Got((0x1_0000 + (n - 0xD800) * 1024 + (m - 0xDC00)) as char, rest') else Bad
  }

  /** One character of a string, spelled out or escaped. */
  function ReadChar(s: string): Parsed<char> {
    if s == "" || s[0] < ' ' || s[0] == '"' then Bad
    else if s[0] != '\\' then Got(s[0], s[1..])
    else if |s| == 1 then Bad
    else match s[1]
      case '"' => Got('"', s[2..])
      case '\\' => Got('\\', s[2..])
      case '/' => Got('/', s[2..])
      case 'b' => Got(8 as char, s[2..])
      case 'f' => Got(12 as char, s[2..])
      case 'n' => Got('\n', s[2..])
      case 'r' => Got('\r', s[2..])
      case 't' => Got('\t', s[2..])
      case 'u' => ReadUnicode(s[2..])
      case _ => Bad
  }

  lemma ReadCharShrinks(s: string)
    ensures ReadChar(s).Got? ==> |ReadChar(s).rest| < |s|
  {
  }

  /** The rest of a string whose opening quote has been read. */
  function ReadText(s: string): (r: Parsed<string>)
    ensures r.Got? ==> |r.rest| < |s|
    decreases |s|
  {
    if s == "" then Bad
    else if s[0] == '"' then Got("", s[1..])
    else
      ReadCharShrinks(s);
      match ReadChar(s)
      case Bad => Bad
      case Got(c, rest) =>
        match ReadText(rest)
        case Bad => Bad
        case Got(text, rest') => Got([c] + text, rest')
  }

  // ---- values (sections 3 and 4 of RFC 8259) -----------------------------------------------

  predicate Begins(s: string, word: string) {
    |word| <= |s| && s[..|word|] == word
  }

  function ReadValue(s: string): (r: Parsed<Json>)
    ensures r.Got? ==> |r.rest| < |s|
    decreases |s|, 2
  {
    if s == "" then Bad
    else if s[0] == '"' then
      match ReadText(s[1..])
      case Bad => Bad
      case Got(text, rest) => Got(Str(text), rest)
    else if s[0] == '{' then
      if |s| > 1 && s[1] == '}' then Got(Obj([]), s[2..])
      else match ReadFields(s[1..])
        case Bad => Bad
        case Got(fields, rest) => Got(Obj(fields), rest)
    else if Begins(s, "null") then Got(Null, s[4..])
    else if Begins(s, "true") then Got(Bool(true), s[4..])
    else if Begins(s, "false") then Got(Bool(false), s[5..])
    else Bad
  }

  /** One field or more, and the closing brace. */
  function ReadFields(s: string): (r: Parsed<Fields>)
    ensures r.Got? ==> |r.rest| < |s|
    decreases |s|, 1
  {
    match ReadField(s)
    case Bad => Bad
    case Got(x, rest) =>
      if |rest| >= |s| then Bad
      else if Begins(rest, "}") then Got([x], rest[1..])
      else if Begins(rest, ",") then
        match ReadFields(rest[1..])
        case Bad => Bad
        case Got(more, rest') => Got([x] + more, rest')
      else Bad
  }

  function ReadField(s: string): (r: Parsed<Field>)
    ensures r.Got? ==> |r.rest| < |s|
    decreases |s|, 0
  {
    if !Begins(s, "\"") then Bad
    else match ReadText(s[1..])
      case Bad => Bad
      case Got(key, rest) =>
        if !Begins(rest, ":") then Bad
        else match ReadValue(rest[1..])
          case Bad => Bad
          case Got(v, rest') => Got(Field(key, v), rest')
  }

  // ---- what is printed is read back -----------------------------------------------------------

  lemma HexIsRead(n: int)
    requires 0 <= n < 16
    ensures HexValue(HexDigit(n)) == n
  {
  }

  lemma CodeIsRead(n: int, x: string)
    requires 0 <= n < 0x1_0000
    ensures ReadCode(HexEscape(n)[2..] + x) == Got(n, x)
  {
    DigitsSpell(n);
    HexIsRead(n / 4096);
    HexIsRead(n / 256 % 16);
    HexIsRead(n / 16 % 16);
    HexIsRead(n % 16);
    assert (HexEscape(n)[2..] + x)[4..] == x;
  }

  lemma EscapeIsRead(n: int, x: string)
    requires 0 <= n < 0xD800 || 0xE000 <= n < 0x1_0000
    ensures ReadChar(HexEscape(n) + x) == Got(n as char, x)
  {
    CodeIsRead(n, x);
    assert (HexEscape(n) + x)[2..] == HexEscape(n)[2..] + x;
  }

  lemma HalvesAreRead(high: int, low: int, x: string)
    requires 0xD800 <= high < 0xDC00 && 0xDC00 <= low < 0xE000
    ensures ReadUnicode(HexEscape(high)[2..] + (HexEscape(low) + x))
         == Got((0x1_0000 + (high - 0xD800) * 1024 + (low - 0xDC00)) as char, x)
  {
    var rest := HexEscape(low) + x;
    CodeIsRead(high, rest);
    CodeIsRead(low, x);
    assert rest[2..] == HexEscape(low)[2..] + x && rest[0] == '\\' && rest[1] == 'u';
  }

  lemma UnicodeIsRead(n: int, rest: string)
    requires 0 <= n < 0x1_0000
    ensures ReadChar(HexEscape(n) + rest) == ReadUnicode(HexEscape(n)[2..] + rest)
  {
    assert (HexEscape(n) + rest)[2..] == HexEscape(n)[2..] + rest;
  }

  lemma PairIsRead(n: int, x: string)
    requires 0x1_0000 <= n < 0x11_0000
    ensures ReadChar(HexEscape(0xD800 + (n - 0x1_0000) / 1024) + (HexEscape(0xDC00 + (n - 0x1_0000) % 1024) + x))
         == Got(n as char, x)
  {
    var high, low := 0xD800 + (n - 0x1_0000) / 1024, 0xDC00 + (n - 0x1_0000) % 1024;
    UnicodeIsRead(high, HexEscape(low) + x);
    HalvesAreRead(high, low, x);
    assert n - 0x1_0000 == (n - 0x1_0000) / 1024 * 1024 + (n - 0x1_0000) % 1024;
  }

  lemma ShortIsRead(c: char, x: string)
    requires ShortEscape(c)
    ensures ReadChar(EscapeChar(c) + x) == Got(c, x)
  {
    var s := EscapeChar(c) + x;
    assert s[0] == '\\' && s[1] == EscapeChar(c)[1] && s[2..] == x;
  }

  lemma LowIsRead(c: char, x: string)
    requires Spelled(c) && c as int < 0x1_0000
    ensures ReadChar(EscapeChar(c) + x) == Got(c, x)
  {
    assert EscapeChar(c) == HexEscape(c as int);
    EscapeIsRead(c as int, x);
  }

  lemma HighIsRead(c: char, x: string)
    requires c as int >= 0x1_0000
    ensures ReadChar(EscapeChar(c) + x) == Got(c, x)
  {
    PairIsRead(c as int, x);
    SpelledShape(c, x);
  }

  lemma CharIsRead(c: char, x: string)
    ensures ReadChar(EscapeChar(c) + x) == Got(c, x)
  {
    if Verbatim(c) {
      assert ([c] + x)[1..] == x;
    } else if ShortEscape(c) {
      ShortIsRead(c, x);
    } else if c as int < 0x1_0000 {
      LowIsRead(c, x);
    } else {
      HighIsRead(c, x);
    }
  }

  lemma {:induction false} TextIsRead(s: string, x: string)
    ensures ReadText(Escape(s) + "\"" + x) == Got(s, x)
    decreases |s|
  {
    EscapeHead(s, x);
    if s == "" {
      assert ("\"" + x)[1..] == x;
    } else {
      CharIsRead(s[0], Escape(s[1..]) + "\"" + x);
      TextIsRead(s[1..], x);
      assert s == [s[0]] + s[1..];
    }
  }

  lemma QuoteIsRead(s: string, x: string)
    ensures Begins(Quote(s) + x, "\"") && ReadText((Quote(s) + x)[1..]) == Got(s, x)
  {
    QuoteHead(s, x);
    TextIsRead(s, x);
    assert ("\"" + (Escape(s) + "\"" + x))[1..] == Escape(s) + "\"" + x;
  }

  /** Reading undoes printing, and stops where the value ends. */
  lemma {:induction false} ValueIsRead(v: Json, x: string)
    ensures ReadValue(Print(v) + x) == Got(v, x)
    decreases v, 1
  {
    match v
    case Null => WordIsRead(v, x);
    case Bool(_) => WordIsRead(v, x);
    case Str(t) => StrIsRead(t, x);
    case Obj(fields) =>
      if fields == [] {
        EmptyIsRead(x);
        assert Print(v) == "{}";
      } else {
        FieldsAreRead(fields, x);
        ObjectIsRead(fields, x);
      }
  }

  lemma WordIsRead(v: Json, x: string)
    requires v.Null? || v.Bool?
    ensures ReadValue(Print(v) + x) == Got(v, x)
  {
    var s := Print(v) + x;
    if v == Bool(false) {
      assert s[..5] == "false" && s[5..] == x && s[0] == 'f';
    } else {
      assert s[4..] == x && s[..4] == Print(v);
      assert v == Bool(true) ==> s[0] == 't';
    }
  }

  lemma EmptyIsRead(x: string)
    ensures ReadValue("{}" + x) == Got(Obj([]), x)
  {
    var s := "{}" + x;
    assert s[..2] == "{}" && s[2..] == x && s[0] == '{';
  }

  /** A quote opens a string, a brace with a quote behind it an object. */
  lemma TextOpens(rest: string, t: string, x: string)
    requires ReadText(rest) == Got(t, x)
    ensures ReadValue("\"" + rest) == Got(Str(t), x)
  {
    assert ("\"" + rest)[1..] == rest && ("\"" + rest)[0] == '"';
  }

  lemma ObjectOpens(rest: string, fields: Fields, x: string)
    requires ReadFields(rest) == Got(fields, x) && rest != "" && rest[0] == '"'
    ensures ReadValue("{" + rest) == Got(Obj(fields), x)
  {
    var s := "{" + rest;
    assert s[1..] == rest && s[0] == '{' && s[1] == '"';
  }

  lemma StrIsRead(t: string, x: string)
    ensures ReadValue(Quote(t) + x) == Got(Str(t), x)
  {
    QuoteHead(t, x);
    TextIsRead(t, x);
    TextOpens(Escape(t) + "\"" + x, t, x);
  }

  lemma ObjectIsRead(fields: Fields, x: string)
    requires fields != [] && ReadFields(Members(fields) + "}" + x) == Got(fields, x)
    ensures ReadValue(Print(Obj(fields)) + x) == Got(Obj(fields), x)
  {
    StartsWithQuote(Escape(fields[0].key), ":" + Print(fields[0].value) + Later(fields));
    ObjectOpens(Members(fields) + "}" + x, fields, x);
    Braced(Members(fields), x);
  }

  lemma StartsWithQuote(a: string, b: string)
    ensures ("\"" + a + "\"" + b)[0] == '"'
  {
  }

  lemma Braced(m: string, x: string)
    ensures ("{" + m + "}") + x == "{" + (m + "}" + x)
  {
  }

  /** The text behind the first field. */
  function Tail(fields: Fields, x: string): string
    requires fields != []
  {
    Later(fields) + "}" + x
  }

  lemma MembersHead(fields: Fields, x: string)
    requires fields != []
    ensures Members(fields) + "}" + x
         == Quote(fields[0].key) + (":" + (Print(fields[0].value) + Tail(fields, x)))
  {
    Rejoin(Quote(fields[0].key), Print(fields[0].value), Later(fields), x);
  }

  lemma Rejoin(a: string, b: string, c: string, x: string)
    ensures a + ":" + b + c + "}" + x == a + (":" + (b + (c + "}" + x)))
  {
  }

  lemma {:induction false} FieldIsRead(x: Field, y: string)
    ensures ReadField(Quote(x.key) + (":" + (Print(x.value) + y))) == Got(x, y)
    decreases x, 2
  {
    var rest := ":" + (Print(x.value) + y);
    QuoteIsRead(x.key, rest);
    assert rest[1..] == Print(x.value) + y;
    ValueIsRead(x.value, y);
  }

  lemma {:induction false} FieldsAreRead(fields: Fields, x: string)
    requires fields != []
    ensures ReadFields(Members(fields) + "}" + x) == Got(fields, x)
    decreases fields, 0
  {
    MembersHead(fields, x);
    FieldIsRead(fields[0], Tail(fields, x));
    if |fields| == 1 {
      LastFollows(fields, Members(fields) + "}" + x, x);
    } else {
      FieldsAreRead(fields[1..], x);
      MoreFollow(fields, Members(fields) + "}" + x, x);
    }
  }

  lemma LastFollows(fields: Fields, s: string, x: string)
    requires |fields| == 1 && ReadField(s) == Got(fields[0], Tail(fields, x))
    ensures ReadFields(s) == Got(fields, x)
  {
    assert fields == [fields[0]];
    LastField(s, fields[0], x);
  }

  lemma MoreFollow(fields: Fields, s: string, x: string)
    requires |fields| > 1 && ReadField(s) == Got(fields[0], Tail(fields, x))
    requires ReadFields(Members(fields[1..]) + "}" + x) == Got(fields[1..], x)
    ensures ReadFields(s) == Got(fields, x)
  {
    TailHead(fields, x);
    MoreFields(s, fields[0], Tail(fields, x), fields[1..], x);
    assert fields == [fields[0]] + fields[1..];
  }

  lemma LastField(s: string, f: Field, x: string)
    requires ReadField(s) == Got(f, "" + "}" + x)
    ensures ReadFields(s) == Got([f], x)
  {
    assert ("" + "}" + x)[1..] == x;
  }

  lemma MoreFields(s: string, f: Field, tail: string, more: Fields, x: string)
    requires ReadField(s) == Got(f, tail) && Begins(tail, ",") && ReadFields(tail[1..]) == Got(more, x)
    ensures ReadFields(s) == Got([f] + more, x)
  {
    assert tail[0] == ',';
  }

  lemma TailHead(fields: Fields, x: string)
    requires |fields| > 1
    ensures Begins(Tail(fields, x), ",") && Tail(fields, x)[1..] == Members(fields[1..]) + "}" + x
  {
    Comma(Members(fields[1..]), x);
  }

  lemma Comma(m: string, x: string)
    ensures "," + m + "}" + x == "," + (m + "}" + x)
  {
  }

  /** A document: one value and nothing behind it. */
  function Read(s: string): Parsed<Json> {
    match ReadValue(s)
    case Bad => Bad
    case Got(v, rest) => if rest == "" then Got(v, "") else Bad
  }

  /** What is signed reads back as the payload, its keys in order. */
  lemma CanonicalReadsBack(p: Fields)
    ensures Read(Canonical(p)) == Got(Normal(Obj(p)), "")
  {
    var v := Normal(Obj(p));
    ValueIsRead(v, "");
    assert Print(v) + "" == Print(v);
  }

  /** And the envelope as that payload with the signature of its text. */
  lemma EnvelopeReadsBack(sign: string -> string, p: Fields)
    ensures Read(DeviceConfig(sign, p))
         == Got(Obj([Field("payload", Normal(Obj(p))), Field("signature", Str(sign(Canonical(p))))]), "")
  {
    var x, y := Field(PAYLOAD, Obj(p)), Field(SIGNATURE, Str(sign(Canonical(p))));
    var v := Normal(Obj([x, y]));
    KeysAscend();
    assert v == Obj([Field(PAYLOAD, Normal(Obj(p))), y]) by {
      var a, b := Field(x.key, Normal(x.value)), Field(y.key, Normal(y.value));
      assert [x, y][1..] == [y] && [y][1..] == [];
      assert NormalFields([y]) == [b] && NormalFields([x, y]) == [a, b];
      assert [a, b][1..] == [b] && [b][1..] == [];
      assert Sort([b]) == Insert(b, []) == [b];
      assert Sort([a, b]) == Insert(a, [b]) == [a, b];
    }
    ValueIsRead(v, "");
    assert Print(v) + "" == Print(v);
  }
}
