/** `stableStringify`: the canonical text that stands for a JSON body in a signature.
    Text is UTF-16, as in JavaScript: a sequence of code units, surrogates included. */
module CanonicalJson {

  type CodeUnit = n: int | 0 <= n < 0x10000

  type Text = seq<CodeUnit>

  datatype Field = Field(key: Text, value: Json)

  /** A number is its decimal text, which JavaScript prints the same way for the same number. */
  datatype Json =
    | Undefined
    | Null
    | Bool(b: bool)
    | Num(digits: Text)
    | Str(s: Text)
    | Arr(items: seq<Json>)
    | Obj(fields: seq<Field>)

  // ---------------------------------------------------------------- values

  const COMMA: CodeUnit := 0x2C
  const COLON: CodeUnit := 0x3A
  const QUOTE: CodeUnit := 0x22
  const BACKSLASH: CodeUnit := 0x5C
  const OPEN_BRACKET: CodeUnit := 0x5B
  const CLOSE_BRACKET: CodeUnit := 0x5D
  const OPEN_BRACE: CodeUnit := 0x7B
  const CLOSE_BRACE: CodeUnit := 0x7D

  const TRUE_TEXT: Text := [0x74, 0x72, 0x75, 0x65]
  const FALSE_TEXT: Text := [0x66, 0x61, 0x6C, 0x73, 0x65]

  predicate IsDigit(c: CodeUnit) {
    0x30 <= c <= 0x39
  }

  /** Digits, sign, point and exponent, starting with a digit or a minus. */
  predicate IsNumberText(t: Text) {
    && t != [] && (IsDigit(t[0]) || t[0] == 0x2D)
    && forall i :: 0 <= i < |t| ==> IsDigit(t[i]) || t[i] == 0x2D || t[i] == 0x2B || t[i] == 0x2E || t[i] == 0x65
  }

  predicate DistinctKeys(fields: seq<Field>) {
    forall i, j :: 0 <= i < j < |fields| ==> fields[i].key != fields[j].key
  }

  /** An object has each key once; a number has a number's text. */
  predicate IsJson(v: Json) {
    match v
    case Num(t) => IsNumberText(t)
    case Arr(items) => forall i :: 0 <= i < |items| ==> IsJson(items[i])
    case Obj(fields) => DistinctKeys(fields) && forall i :: 0 <= i < |fields| ==> IsJson(fields[i].value)
    case _ => true
  }

  predicate Nullish(v: Json) {
    v.Undefined? || v.Null?
  }

  // ---------------------------------------------------------------- the equivalence

  /** `[]` and `[null]`. */
  predicate Blank(items: seq<Json>) {
    items == [] || (|items| == 1 && Nullish(items[0]))
  }

  /** `k` is a key with a value that is not undefined. */
  ghost predicate Defines(fields: seq<Field>, k: Text) {
    exists i :: 0 <= i < |fields| && fields[i].key == k && !fields[i].value.Undefined?
  }

  /** Equal up to the order of keys, undefined entries, undefined for null, and `[null]` for `[]`,
      at any depth. */
  ghost predicate Equiv(a: Json, b: Json)
    decreases a
  {
    match a
    case Undefined => Nullish(b)
    case Null => Nullish(b)
    case Bool(x) => b == Bool(x)
    case Num(t) => b == Num(t)
    case Str(s) => b == Str(s)
    case Arr(xs) =>
      && b.Arr?
      && (if Blank(xs) || Blank(b.items) then Blank(xs) && Blank(b.items)
          else |xs| == |b.items| && forall i :: 0 <= i < |xs| ==> Equiv(xs[i], b.items[i]))
    case Obj(fs) =>
      && b.Obj?
      && (forall k :: Defines(fs, k) <==> Defines(b.fields, k))
      && (forall i, j {:trigger fs[i], b.fields[j]} ::
            0 <= i < |fs| && 0 <= j < |b.fields| && fs[i].key == b.fields[j].key
            && !fs[i].value.Undefined? && !b.fields[j].value.Undefined? ==>
              Equiv(fs[i].value, b.fields[j].value))
  }

  // ---------------------------------------------------------------- quoting

  predicate IsLead(c: CodeUnit) {
    0xD800 <= c <= 0xDBFF
  }

  predicate IsTrail(c: CodeUnit) {
    0xDC00 <= c <= 0xDFFF
  }

  function Hex(n: int): CodeUnit
    requires 0 <= n < 16
  {
    if n < 10 then 0x30 + n else 0x61 + n - 10
  }

  function UnicodeEscape(c: CodeUnit): Text {
    [BACKSLASH, 0x75, Hex(c / 0x1000), Hex(c / 0x100 % 16), Hex(c / 0x10 % 16), Hex(c % 16)]
  }

  /** The short escapes of JSON, 0 when a code unit has none. */
  function ShortEscape(c: CodeUnit): CodeUnit {
    if c == QUOTE then QUOTE
    else if c == BACKSLASH then BACKSLASH
    else if c == 0x08 then 0x62
    else if c == 0x0C then 0x66
    else if c == 0x0A then 0x6E
    else if c == 0x0D then 0x72
    else if c == 0x09 then 0x74
    else 0
  }

  function Escape(c: CodeUnit): Text {
    if ShortEscape(c) != 0 then [BACKSLASH, ShortEscape(c)]
    else if c < 0x20 || IsLead(c) || IsTrail(c) then UnicodeEscape(c)
    else [c]
  }

  predicate StartsWithPair(s: Text) {
    |s| >= 2 && IsLead(s[0]) && IsTrail(s[1])
  }

  /** A surrogate pair goes through as it is; a lone surrogate is escaped. */
  function Escaped(s: Text): Text {
    if s == [] then []
    else if StartsWithPair(s) then s[..2] + Escaped(s[2..])
    else Escape(s[0]) + Escaped(s[1..])
  }

  function Quote(s: Text): Text {
    [QUOTE] + Escaped(s) + [QUOTE]
  }

  // ---------------------------------------------------------------- sorting

  /** JavaScript's order of strings: by code unit, a prefix first. */
  predicate Less(a: Text, b: Text) {
    if b == [] then false
    else if a == [] then true
    else a[0] < b[0] || (a[0] == b[0] && Less(a[1..], b[1..]))
  }

  function Insert(k: Text, keys: seq<Text>): (r: seq<Text>) {
    if keys == [] || Less(k, keys[0]) then [k] + keys else [keys[0]] + Insert(k, keys[1..])
  }

  function Sort(keys: seq<Text>): seq<Text> {
    if keys == [] then [] else Insert(keys[0], Sort(keys[1..]))
  }

  function DefinedKeys(fields: seq<Field>): seq<Text> {
    if fields == [] then []
    else (if fields[0].value.Undefined? then [] else [fields[0].key]) + DefinedKeys(fields[1..])
  }

  /** Where the entry of a defined key is. */
  function IndexOf(fields: seq<Field>, k: Text): (i: nat)
    requires k in DefinedKeys(fields)
    ensures i < |fields| && fields[i].key == k && !fields[i].value.Undefined?
  {
    if fields[0].key == k && !fields[0].value.Undefined? then 0 else 1 + IndexOf(fields[1..], k)
  }

  // ---------------------------------------------------------------- printing

  function Join(parts: seq<Text>): Text {
    if parts == [] then []
    else if |parts| == 1 then parts[0]
    else parts[0] + [COMMA] + Join(parts[1..])
  }

  lemma SortKeeps(keys: seq<Text>)
    ensures forall k :: k in Sort(keys) <==> k in keys
  {
    if keys != [] {
      SortKeeps(keys[1..]);
      InsertKeeps(keys[0], Sort(keys[1..]));
    }
  }

  lemma InsertKeeps(k: Text, keys: seq<Text>)
    ensures forall x :: x in Insert(k, keys) <==> x == k || x in keys
  {
  }

  function SortedKeys(fields: seq<Field>): (r: seq<Text>)
    ensures forall k :: k in r <==> k in DefinedKeys(fields)
  {
    SortKeeps(DefinedKeys(fields));
    Sort(DefinedKeys(fields))
  }

  /** The canonical text. */
  function Print(v: Json): Text {
    match v
    case Undefined => []
    case Null => []
    case Bool(b) => if b then TRUE_TEXT else FALSE_TEXT
    case Num(t) => t
    case Str(s) => Quote(s)
    case Arr(items) =>
      [OPEN_BRACKET] + Join(seq(|items|, i requires 0 <= i < |items| => Print(items[i]))) + [CLOSE_BRACKET]
    case Obj(fields) =>
      var keys := SortedKeys(fields);
      [OPEN_BRACE]
      + Join(seq(|keys|, i requires 0 <= i < |keys| => Quote(keys[i]) + [COLON] + Print(fields[IndexOf(fields, keys[i])].value)))
      + [CLOSE_BRACE]
  }
}
