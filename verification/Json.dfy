/**
 Compact ASCII JSON as the manifest writes it: strings escaped as in section 7
 of RFC 8259, no white space, dictionaries as lists of fields. Decoding what was
 encoded gives the value back, with every tuple turned into a list.
 */
module Json {
  import opened Decimals
  import opened Wrappers

  datatype Json =
    | Null
    | Int(n: int)
    | Str(s: string)
    | Tuple(items: Items)
    | List(items: Items)
    | Dict(fields: Fields)

  datatype Items = End | Item(head: Json, tail: Items)

  datatype Fields = NoField | Field(key: string, value: Json, rest: Fields)

  // ---------------------------------------------------------------- encoding

  function Hex(n: nat): char
    requires n < 16
  {
    ['0', '1', '2', '3', '4', '5', '6', '7', '8', '9', 'a', 'b', 'c', 'd', 'e', 'f'][n]
  }

  /** A UTF-16 code unit as an escape. */
  function Escape(u: nat): string
    requires u < 0x10000
  {
    ['\\', 'u', Hex(u / 4096), Hex(u / 256 % 16), Hex(u / 16 % 16), Hex(u % 16)]
  }

  /** One code unit, or a surrogate pair. */
  function EscapeScalar(n: nat): string
    requires n < 0x110000
  {
    if n < 0x10000 then Escape(n)
    else Escape(0xD800 + (n - 0x10000) / 1024) + Escape(0xDC00 + (n - 0x10000) % 1024)
  }

  function EncodeChar(c: char): string {
    if c == '\"' then ['\\', '\"']
    else if c == '\\' then ['\\', '\\']
    else if c == '\n' then ['\\', 'n']
    else if c == '\r' then ['\\', 'r']
    else if c == '\t' then ['\\', 't']
    else if c as int == 8 then ['\\', 'b']
    else if c as int == 12 then ['\\', 'f']
    else if ' ' <= c <= '~' then [c]
    else EscapeScalar(c as int)
  }

  function EncodeChars(s: string): string {
    if s == [] then [] else EncodeChar(s[0]) + EncodeChars(s[1..])
  }

  function EncodeString(s: string): string {
    ['\"'] + EncodeChars(s) + ['\"']
  }

  function EncodeInt(n: int): string {
    if n < 0 then ['-'] + Decimal(-n) else Decimal(n)
  }

  function Encode(j: Json): string {
    match j
    case Null => "null"
    case Int(n) => EncodeInt(n)
    case Str(s) => EncodeString(s)
    case Tuple(items) => "[" + EncodeItems(items) + "]"
    case List(items) => "[" + EncodeItems(items) + "]"
    case Dict(fields) => "{" + EncodeFields(fields) + "}"
  }

  function EncodeItems(xs: Items): string {
    match xs
    case End => ""
    case Item(x, End) => Encode(x)
    case Item(x, rest) => Encode(x) + "," + EncodeItems(rest)
  }

  function EncodeFields(fs: Fields): string {
    match fs
    case NoField => ""
    case Field(k, v, NoField) => EncodeString(k) + ":" + Encode(v)
    case Field(k, v, rest) => EncodeString(k) + ":" + Encode(v) + "," + EncodeFields(rest)
  }

  // ---------------------------------------------------------------- decoding

  function HexValue(c: char): Option<nat> {
    if '0' <= c <= '9' then Some(c as nat - '0' as nat)
    else if 'a' <= c <= 'f' then Some(10 + c as nat - 'a' as nat)
    else None
  }

  function ParseUnit(s: string): (r: Option<nat>)
    ensures r.Some? ==> r.value < 0x10000 && |s| >= 6
  {
    if |s| < 6 || s[0] != '\\' || s[1] != 'u' then None
    else
      match (HexValue(s[2]), HexValue(s[3]), HexValue(s[4]), HexValue(s[5]))
      case (Some(a), Some(b), Some(c), Some(d)) =>
        if a < 16 && b < 16 && c < 16 && d < 16 then Some(4096 * a + 256 * b + 16 * c + d) else None
      case _ => None
  }

  /** One character of a string body, and what follows it. */
  function ParseChar(s: string): (r: Option<(char, string)>)
    ensures r.Some? ==> |r.value.1| < |s|
  {
    if s == [] || s[0] == '\"' then None
    else if s[0] != '\\' then (if ' ' <= s[0] <= '~' then Some((s[0], s[1..])) else None)
    else if |s| < 2 then None
    else if s[1] == '\"' then Some(('\"', s[2..]))
    else if s[1] == '\\' then Some(('\\', s[2..]))
    else if s[1] == 'n' then Some(('\n', s[2..]))
    else if s[1] == 'r' then Some(('\r', s[2..]))
    else if s[1] == 't' then Some(('\t', s[2..]))
    else if s[1] == 'b' then Some((8 as char, s[2..]))
    else if s[1] == 'f' then Some((12 as char, s[2..]))
    else
      match ParseUnit(s)
      case None => None
      case Some(u) =>
        if u < 0xD800 || 0xE000 <= u then Some((u as char, s[6..]))
        else if u < 0xDC00 then
          match ParseUnit(s[6..])
          case Some(l) =>
            if 0xDC00 <= l < 0xE000
            then Some(((0x10000 + 1024 * (u - 0xD800) + (l - 0xDC00)) as char, s[12..])) else None
          case None => None
        else None
  }

  /** The rest of a string body up to its closing quote. */
  function ParseChars(s: string): (r: Option<(string, string)>)
    ensures r.Some? ==> |r.value.1| < |s|
    decreases |s|
  {
    if s != [] && s[0] == '\"' then Some(("", s[1..]))
    else
      match ParseChar(s)
      case None => None
      case Some((c, more)) =>
        match ParseChars(more)
        case None => None
        case Some((cs, after)) => Some(([c] + cs, after))
  }

  function ParseString(s: string): (r: Option<(string, string)>)
    ensures r.Some? ==> |r.value.1| < |s|
  {
    if s != [] && s[0] == '\"' then ParseChars(s[1..]) else None
  }

  /** How many digits the text starts with. */
  function DigitCount(s: string): (n: nat)
    ensures n <= |s|
  {
    if s != [] && IsDigit(s[0]) then 1 + DigitCount(s[1..]) else 0
  }

  function ParseNat(s: string): (r: Option<(nat, string)>)
    ensures r.Some? ==> |r.value.1| < |s|
  {
    var n := DigitCount(s);
    if n == 0 then None else Some((Value(s[..n]), s[n..]))
  }

  function Parse(s: string): (r: Option<(Json, string)>)
    ensures r.Some? ==> |r.value.1| < |s|
    decreases |s|, 0
  {
    if s == [] then None
    else if s[0] == '[' then
      if |s| > 1 && s[1] == ']' then Some((List(End), s[2..]))
      else
        match ParseItems(s[1..])
        case None => None
        case Some((xs, after)) => Some((List(xs), after))
    else if s[0] == '{' then
      if |s| > 1 && s[1] == '}' then Some((Dict(NoField), s[2..]))
      else
        match ParseFields(s[1..])
        case None => None
        case Some((fs, after)) => Some((Dict(fs), after))
    else if s[0] == '\"' then
      match ParseString(s)
      case None => None
      case Some((t, after)) => Some((Str(t), after))
    else if s[0] == 'n' then (if "null" <= s then Some((Null, s[4..])) else None)
    else if s[0] == '-' then
      match ParseNat(s[1..])
      case None => None
      case Some((n, after)) => Some((Int(0 - n), after))
    else
      match ParseNat(s)
      case None => None
      case Some((n, after)) => Some((Int(n), after))
  }

  function ParseItems(s: string): (r: Option<(Items, string)>)
    ensures r.Some? ==> |r.value.1| < |s|
    decreases |s|, 1
  {
    match Parse(s)
    case None => None
    case Some((x, more)) =>
      if more == [] then None
      else if more[0] == ']' then Some((Item(x, End), more[1..]))
      else if more[0] == ',' then
        match ParseItems(more[1..])
        case None => None
        case Some((xs, after)) => Some((Item(x, xs), after))
      else None
  }

  function ParseFields(s: string): (r: Option<(Fields, string)>)
    ensures r.Some? ==> |r.value.1| < |s|
    decreases |s|, 1
  {
    match ParseString(s)
    case None => None
    case Some((k, more)) =>
      if more == [] || more[0] != ':' then None
      else
        match Parse(more[1..])
        case None => None
        case Some((v, tail)) =>
          if tail == [] then None
          else if tail[0] == '}' then Some((Field(k, v, NoField), tail[1..]))
          else if tail[0] == ',' then
            match ParseFields(tail[1..])
            case None => None
            case Some((fs, after)) => Some((Field(k, v, fs), after))
          else None
  }

  /** A whole text is one value. */
  function Decode(s: string): Option<Json> {
    match Parse(s)
    case Some((j, after)) => if after == [] then Some(j) else None
    case None => None
  }

  /** What a value becomes on its way through the file. */
  function AsLists(j: Json): Json {
    match j
    case Tuple(xs) => List(ItemsAsLists(xs))
    case List(xs) => List(ItemsAsLists(xs))
    case Dict(fs) => Dict(FieldsAsLists(fs))
    case _ => j
  }

  function ItemsAsLists(xs: Items): Items {
    match xs
    case End => End
    case Item(x, rest) => Item(AsLists(x), ItemsAsLists(rest))
  }

  function FieldsAsLists(fs: Fields): Fields {
    match fs
    case NoField => NoField
    case Field(k, v, rest) => Field(k, AsLists(v), FieldsAsLists(rest))
  }

  // ---------------------------------------------------------------- the round trip

  predicate StartsWithDigit(s: string) {
    s != [] && IsDigit(s[0])
  }

  lemma Associate(a: string, b: string, c: string)
    ensures a + b + c == a + (b + c)
  {
  }

  lemma HexSum(u: nat)
    requires u < 0x10000
    ensures u / 4096 < 16
    ensures u == 4096 * (u / 4096) + 256 * (u / 256 % 16) + 16 * (u / 16 % 16) + u % 16
  {
    var a, b := u / 16, u / 16 / 16;
    assert u / 256 == b && u / 4096 == b / 16;
  }

  lemma HexRoundTrip(n: nat)
    requires n < 16
    ensures HexValue(Hex(n)) == Some(n)
  {
  }

  lemma EscapeRoundTrip(u: nat, rest: string)
    requires u < 0x10000
    ensures ParseUnit(Escape(u) + rest) == Some(u) && (Escape(u) + rest)[6..] == rest
  {
    HexSum(u);
    HexRoundTrip(u / 4096);
    HexRoundTrip(u / 256 % 16);
    HexRoundTrip(u / 16 % 16);
    HexRoundTrip(u % 16);
    var s := Escape(u) + rest;
    assert s[2] == Hex(u / 4096) && s[3] == Hex(u / 256 % 16) && s[4] == Hex(u / 16 % 16) && s[5] == Hex(u % 16);
  }

  predicate Short(c: char) {
    c == '\"' || c == '\\' || c == '\n' || c == '\r' || c == '\t' || c as int == 8 || c as int == 12
  }

  lemma ShortRoundTrip(c: char, rest: string)
    requires Short(c)
    ensures ParseChar(EncodeChar(c) + rest) == Some((c, rest))
  {
    assert (EncodeChar(c) + rest)[2..] == rest;
  }

  lemma UnitParses(n: nat, rest: string)
    requires n < 0xD800 || 0xE000 <= n < 0x10000
    ensures ParseChar(EscapeScalar(n) + rest) == Some((n as char, rest))
  {
    EscapeRoundTrip(n, rest);
  }

  lemma PairParses(hi: nat, lo: nat, n: nat, rest: string)
    requires 0xD800 <= hi < 0xDC00 <= lo < 0xE000 && n == 0x10000 + 1024 * (hi - 0xD800) + (lo - 0xDC00)
    ensures ParseChar(Escape(hi) + Escape(lo) + rest) == Some((n as char, rest))
  {
    var s := Escape(hi) + Escape(lo) + rest;
    Associate(Escape(hi), Escape(lo), rest);
    EscapeRoundTrip(hi, Escape(lo) + rest);
    EscapeRoundTrip(lo, rest);
    assert s[12..] == s[6..][6..];
    TwoUnits(s, hi, lo, n);
  }

  lemma TwoUnits(s: string, hi: nat, lo: nat, n: nat)
    requires |s| >= 12 && s[0] == '\\' && s[1] == 'u' && ParseUnit(s) == Some(hi) && ParseUnit(s[6..]) == Some(lo)
    requires 0xD800 <= hi < 0xDC00 <= lo < 0xE000 && n == 0x10000 + 1024 * (hi - 0xD800) + (lo - 0xDC00)
    ensures ParseChar(s) == Some((n as char, s[12..]))
  {
  }

  lemma Surrogates(v: nat)
    requires v < 0x100000
    ensures v / 1024 < 1024 && 1024 * (v / 1024) + v % 1024 == v
  {
  }

  lemma ScalarParses(n: nat, rest: string)
    requires 0x10000 <= n < 0x110000
    ensures ParseChar(EscapeScalar(n) + rest) == Some((n as char, rest))
  {
    Surrogates(n - 0x10000);
    PairParses(0xD800 + (n - 0x10000) / 1024, 0xDC00 + (n - 0x10000) % 1024, n, rest);
  }

  lemma EscapedScalar(c: char)
    requires !Short(c) && !(' ' <= c <= '~')
    ensures EncodeChar(c) == EscapeScalar(c as int)
    ensures var n := c as int; n < 0xD800 || 0xE000 <= n < 0x110000
  {
  }

  lemma CharRoundTrip(c: char, rest: string)
    ensures ParseChar(EncodeChar(c) + rest) == Some((c, rest))
    ensures EncodeChar(c) != [] && EncodeChar(c)[0] != '\"'
  {
    if Short(c) {
      ShortRoundTrip(c, rest);
    } else if ' ' <= c <= '~' {
      assert (EncodeChar(c) + rest)[1..] == rest;
    } else {
      EscapedScalar(c);
      if c as int < 0x10000 { UnitParses(c as int, rest); } else { ScalarParses(c as int, rest); }
    }
  }

  lemma {:induction false} CharsRoundTrip(s: string, rest: string)
    ensures ParseChars(EncodeChars(s) + ['\"'] + rest) == Some((s, rest))
  {
    if s == [] {
      assert (EncodeChars(s) + ['\"'] + rest)[1..] == rest;
    } else {
      var more := EncodeChars(s[1..]) + ['\"'] + rest;
      CharRoundTrip(s[0], more);
      CharsRoundTrip(s[1..], rest);
      CharsSplit(s, rest);
      OneMoreChar(EncodeChars(s) + ['\"'] + rest, s, more, rest);
    }
  }

  lemma CharsSplit(s: string, rest: string)
    requires s != []
    ensures EncodeChars(s) + ['\"'] + rest == EncodeChar(s[0]) + (EncodeChars(s[1..]) + ['\"'] + rest)
    ensures EncodeChar(s[0]) != [] && (EncodeChars(s) + ['\"'] + rest)[0] == EncodeChar(s[0])[0]
  {
    CharRoundTrip(s[0], []);
  }

  lemma OneMoreChar(text: string, s: string, more: string, rest: string)
    requires text != [] && text[0] != '\"' && s != []
    requires ParseChar(text) == Some((s[0], more)) && ParseChars(more) == Some((s[1..], rest))
    ensures ParseChars(text) == Some((s, rest))
  {
    assert [s[0]] + s[1..] == s;
  }

  lemma StringRoundTrip(s: string, rest: string)
    ensures ParseString(EncodeString(s) + rest) == Some((s, rest))
  {
    assert (EncodeString(s) + rest)[1..] == EncodeChars(s) + ['\"'] + rest;
    CharsRoundTrip(s, rest);
  }

  lemma {:induction false} DigitsRoundTrip(d: string, rest: string)
    requires AllDigits(d) && !StartsWithDigit(rest)
    ensures DigitCount(d + rest) == |d|
  {
    if d == [] {
      assert d + rest == rest;
    } else {
      assert (d + rest)[1..] == d[1..] + rest;
      DigitsRoundTrip(d[1..], rest);
    }
  }

  lemma NatRoundTrip(n: nat, rest: string)
    requires !StartsWithDigit(rest)
    ensures ParseNat(Decimal(n) + rest) == Some((n, rest))
  {
    DigitsRoundTrip(Decimal(n), rest);
    ValueOfDecimal(n);
    assert (Decimal(n) + rest)[..|Decimal(n)|] == Decimal(n) && (Decimal(n) + rest)[|Decimal(n)|..] == rest;
  }

  lemma {:induction false} RoundTrip(j: Json, rest: string)
    requires !StartsWithDigit(rest)
    ensures Parse(Encode(j) + rest) == Some((AsLists(j), rest))
    decreases j
  {
    match j
    case Null =>
      assert (Encode(j) + rest)[4..] == rest && "null" <= Encode(j) + rest;
    case Int(n) => IntRoundTrip(n, rest);
    case Str(t) => StringRoundTrip(t, rest);
    case Tuple(xs) => ArrayRoundTrip(xs, rest);
    case List(xs) => ArrayRoundTrip(xs, rest);
    case Dict(fs) => DictRoundTrip(fs, rest);
  }

  lemma NumberParses(s: string, n: nat, rest: string)
    requires StartsWithDigit(s) && ParseNat(s) == Some((n, rest))
    ensures Parse(s) == Some((Int(n), rest))
  {
  }

  lemma MinusParses(s: string, n: nat, rest: string)
    requires s == ['-'] + Decimal(n) + rest && ParseNat(Decimal(n) + rest) == Some((n, rest))
    ensures Parse(s) == Some((Int(0 - n), rest))
  {
    assert s[0] == '-' && s[1..] == Decimal(n) + rest;
  }

  lemma DecimalStarts(n: nat, rest: string)
    ensures StartsWithDigit(Decimal(n) + rest)
  {
    assert (Decimal(n) + rest)[0] == Decimal(n)[0] && Decimal(n)[0] in Decimal(n);
  }

  lemma IntRoundTrip(n: int, rest: string)
    requires !StartsWithDigit(rest)
    ensures Parse(EncodeInt(n) + rest) == Some((Int(n), rest))
  {
    if n < 0 {
      NegativeParses(-n, rest, EncodeInt(n) + rest);
    } else {
      MagnitudeParses(n, rest, EncodeInt(n) + rest);
    }
  }

  lemma MagnitudeParses(m: nat, rest: string, s: string)
    requires !StartsWithDigit(rest) && s == Decimal(m) + rest
    ensures Parse(s) == Some((Int(m), rest))
  {
    NatRoundTrip(m, rest);
    DecimalStarts(m, rest);
    NumberParses(s, m, rest);
  }

  lemma NegativeParses(m: nat, rest: string, s: string)
    requires !StartsWithDigit(rest) && s == ['-'] + Decimal(m) + rest
    ensures Parse(s) == Some((Int(0 - m), rest))
  {
    NatRoundTrip(m, rest);
    MinusParses(s, m, rest);
  }

  lemma {:induction false} DictRoundTrip(fs: Fields, rest: string)
    requires !StartsWithDigit(rest)
    ensures Parse("{" + EncodeFields(fs) + "}" + rest) == Some((Dict(FieldsAsLists(fs)), rest))
    decreases fs, 1
  {
    var s := "{" + EncodeFields(fs) + "}" + rest;
    if fs.NoField? {
      assert s[2..] == rest;
    } else {
      assert s[1..] == EncodeFields(fs) + "}" + rest;
      FieldsStart(fs);
      FieldsRoundTrip(fs, rest);
    }
  }

  lemma {:induction false} ArrayRoundTrip(xs: Items, rest: string)
    requires !StartsWithDigit(rest)
    ensures Parse("[" + EncodeItems(xs) + "]" + rest) == Some((List(ItemsAsLists(xs)), rest))
    decreases xs, 1
  {
    var s := "[" + EncodeItems(xs) + "]" + rest;
    if xs.End? {
      assert s[2..] == rest;
    } else {
      assert s[1..] == EncodeItems(xs) + "]" + rest;
      ItemsStart(xs);
      ItemsRoundTrip(xs, rest);
    }
  }

  /** No encoding starts with a closing bracket. */
  lemma ValueStart(j: Json)
    ensures Encode(j) != [] && Encode(j)[0] != ']' && Encode(j)[0] != '}'
  {
    if j.Int? && j.n >= 0 { assert Decimal(j.n)[0] in Decimal(j.n); }
  }

  lemma ItemsStart(xs: Items)
    requires xs.Item?
    ensures EncodeItems(xs) != [] && EncodeItems(xs)[0] != ']'
  {
    ValueStart(xs.head);
  }

  lemma FieldsStart(fs: Fields)
    requires fs.Field?
    ensures EncodeFields(fs) != [] && EncodeFields(fs)[0] == '\"'
  {
  }

  lemma {:induction false} ItemsRoundTrip(xs: Items, rest: string)
    requires xs.Item?
    ensures ParseItems(EncodeItems(xs) + "]" + rest) == Some((ItemsAsLists(xs), rest))
    decreases xs, 0
  {
    var tail := if xs.tail.End? then "]" + rest else "," + (EncodeItems(xs.tail) + "]" + rest);
    assert EncodeItems(xs) + "]" + rest == Encode(xs.head) + tail;
    RoundTrip(xs.head, tail);
    if xs.tail.End? {
      assert tail[1..] == rest;
    } else {
      assert tail[1..] == EncodeItems(xs.tail) + "]" + rest;
      ItemsRoundTrip(xs.tail, rest);
    }
  }

  lemma FieldsSplit(fs: Fields, rest: string)
    requires fs.Field?
    ensures var tail := if fs.rest.NoField? then "}" + rest else "," + (EncodeFields(fs.rest) + "}" + rest);
            EncodeFields(fs) + "}" + rest == EncodeString(fs.key) + (":" + (Encode(fs.value) + tail))
  {
  }

  lemma {:induction false} FieldsRoundTrip(fs: Fields, rest: string)
    requires fs.Field?
    ensures ParseFields(EncodeFields(fs) + "}" + rest) == Some((FieldsAsLists(fs), rest))
    decreases fs, 0
  {
    var s := EncodeFields(fs) + "}" + rest;
    var tail := if fs.rest.NoField? then "}" + rest else "," + (EncodeFields(fs.rest) + "}" + rest);
    var more := ":" + (Encode(fs.value) + tail);
    FieldsSplit(fs, rest);
    StringRoundTrip(fs.key, more);
    assert more[1..] == Encode(fs.value) + tail;
    RoundTrip(fs.value, tail);
    if fs.rest.NoField? {
      assert tail[1..] == rest;
    } else {
      assert tail[1..] == EncodeFields(fs.rest) + "}" + rest;
      FieldsRoundTrip(fs.rest, rest);
    }
  }

  /** Decoding an encoding gives the value, tuples become lists. */
  lemma DecodeEncode(j: Json)
    ensures Decode(Encode(j)) == Some(AsLists(j))
  {
    assert Encode(j) + [] == Encode(j);
    RoundTrip(j, []);
  }

  // ---------------------------------------------------------------- one line

  /** Printable ASCII only, hence one byte each and no line break. */
  predicate Printable(s: string) {
    forall c :: c in s ==> ' ' <= c <= '~'
  }

  lemma PrintablePart(s: string, n: nat)
    requires Printable(s) && n <= |s|
    ensures Printable(s[..n]) && Printable(s[n..])
  {
    forall c | c in s[n..] ensures c in s {
      var i :| 0 <= i < |s| - n && s[n..][i] == c;
      assert s[n + i] == c;
    }
    forall c | c in s[..n] ensures c in s {
      var i :| 0 <= i < n && s[..n][i] == c;
      assert s[i] == c;
    }
  }

  lemma HexPrintable(n: nat)
    requires n < 16
    ensures ' ' <= Hex(n) <= '~'
  {
  }

  lemma EscapePrintable(u: nat)
    requires u < 0x10000
    ensures Printable(Escape(u))
  {
    HexSum(u);
    HexPrintable(u / 4096);
    HexPrintable(u / 256 % 16);
    HexPrintable(u / 16 % 16);
    HexPrintable(u % 16);
  }

  lemma ScalarPrintable(n: nat)
    requires n < 0x110000
    ensures Printable(EscapeScalar(n))
  {
    if n < 0x10000 {
      EscapePrintable(n);
    } else {
      Surrogates(n - 0x10000);
      EscapePrintable(0xD800 + (n - 0x10000) / 1024);
      EscapePrintable(0xDC00 + (n - 0x10000) % 1024);
    }
  }

  lemma ShortPrintable(c: char)
    requires Short(c) || ' ' <= c <= '~'
    ensures Printable(EncodeChar(c))
  {
  }

  lemma CharPrintable(c: char)
    ensures Printable(EncodeChar(c))
  {
    if Short(c) || ' ' <= c <= '~' {
      ShortPrintable(c);
    } else {
      EscapedScalar(c);
      ScalarPrintable(c as int);
    }
  }

  lemma {:induction false} CharsPrintable(s: string)
    ensures Printable(EncodeChars(s))
  {
    if s != [] {
      CharPrintable(s[0]);
      CharsPrintable(s[1..]);
    }
  }

  lemma {:induction false} EncodingPrintable(j: Json)
    ensures Printable(Encode(j))
    decreases j
  {
    match j
    case Str(s) => CharsPrintable(s);
    case Tuple(xs) => ItemsPrintable(xs);
    case List(xs) => ItemsPrintable(xs);
    case Dict(fs) => FieldsPrintable(fs);
    case _ =>
  }

  lemma {:induction false} ItemsPrintable(xs: Items)
    ensures Printable(EncodeItems(xs))
    decreases xs
  {
    if xs.Item? {
      EncodingPrintable(xs.head);
      ItemsPrintable(xs.tail);
    }
  }

  lemma {:induction false} FieldsPrintable(fs: Fields)
    ensures Printable(EncodeFields(fs))
    decreases fs
  {
    if fs.Field? {
      CharsPrintable(fs.key);
      EncodingPrintable(fs.value);
      FieldsPrintable(fs.rest);
    }
  }

  // ---------------------------------------------------------------- tuples

  /** Built from null, integers, strings and tuples only. */
  predicate Frozen(j: Json) {
    match j
    case Tuple(xs) => FrozenItems(xs)
    case List(_) => false
    case Dict(_) => false
    case _ => true
  }

  predicate FrozenItems(xs: Items) {
    match xs
    case End => true
    case Item(x, rest) => Frozen(x) && FrozenItems(rest)
  }

  /** Lists become tuples again, at every level. */
  function Tupleize(j: Json): Json {
    match j
    case List(xs) => Tuple(TupleizeItems(xs))
    case _ => j
  }

  function TupleizeItems(xs: Items): Items {
    match xs
    case End => End
    case Item(x, rest) => Item(Tupleize(x), TupleizeItems(rest))
  }

  lemma {:induction false} TupleizeUndoes(j: Json)
    requires Frozen(j)
    ensures Tupleize(AsLists(j)) == j
    decreases j
  {
    if j.Tuple? { TupleizeItemsUndoes(j.items); }
  }

  lemma {:induction false} TupleizeItemsUndoes(xs: Items)
    requires FrozenItems(xs)
    ensures TupleizeItems(ItemsAsLists(xs)) == xs
    decreases xs
  {
    if xs.Item? {
      TupleizeUndoes(xs.head);
      TupleizeItemsUndoes(xs.tail);
    }
  }
}
