/** A reader of canonical text, written without the printer: what it accepts is exactly what
    `stableStringify` prints, and it reads back the value up to the equivalence. */
module CanonicalReader {
  import opened CanonicalJson
  import opened CanonicalProofs

  datatype Read<T> = Fail | Got(value: T, rest: Text)

  // ---------------------------------------------------------------- strings

  /** The value of a hexadecimal digit, lower case, -1 if it is none. */
  function HexValue(c: CodeUnit): int {
    if 0x30 <= c <= 0x39 then c - 0x30 else if 0x61 <= c <= 0x66 then c - 87 else -1
  }

  function FourDigits(s: Text): int
    requires |s| >= 4
  {
    if HexValue(s[0]) < 0 || HexValue(s[1]) < 0 || HexValue(s[2]) < 0 || HexValue(s[3]) < 0 then -1
    else HexValue(s[0]) * 0x1000 + HexValue(s[1]) * 0x100 + HexValue(s[2]) * 0x10 + HexValue(s[3])
  }

  /** What `\` and this code unit stand for, -1 for nothing. */
  function Unescaped(c: CodeUnit): int {
    match c as int
    case 0x22 => 0x22
    case 0x5C => 0x5C
    case 0x62 => 0x08
    case 0x66 => 0x0C
    case 0x6E => 0x0A
    case 0x72 => 0x0D
    case 0x74 => 0x09
    case _ => -1
  }

  /** Only control characters without a short escape and surrogates are written in hexadecimal. */
  predicate InHex(n: int) {
    || 0 <= n <= 0x07 || n == 0x0B || 0x0E <= n <= 0x1F || 0xD800 <= n <= 0xDFFF
  }

  /** One character: an escape, a surrogate pair, or a code unit that needs neither. */
  function ReadCharacter(s: Text): (r: Read<Text>)
    requires s != []
    ensures r.Got? ==> 1 <= |r.value| <= 2 && |r.rest| < |s|
  {
    if s[0] == 0x5C then
      if |s| < 2 then Fail
      else if Unescaped(s[1]) >= 0 then Got([Unescaped(s[1])], s[2..])
      else if s[1] == 0x75 && |s| >= 6 && InHex(FourDigits(s[2..])) then Got([FourDigits(s[2..])], s[6..])
      else Fail
    else if s[0] < 0x20 || s[0] == 0x22 || 0xDC00 <= s[0] <= 0xDFFF then Fail
    else if 0xD800 <= s[0] <= 0xDBFF then
      if |s| >= 2 && 0xDC00 <= s[1] <= 0xDFFF then Got(s[..2], s[2..]) else Fail
    else Got(s[..1], s[1..])
  }

  /** A string from after its opening quote. Two escapes that make a surrogate pair are refused. */
  function ReadString(s: Text): (r: Read<Text>)
    ensures r.Got? ==> |r.rest| < |s|
    decreases |s|
  {
    if s == [] then Fail
    else if s[0] == 0x22 then Got([], s[1..])
    else
      match ReadCharacter(s)
      case Fail => Fail
      case Got(c, s') =>
        match ReadString(s')
        case Fail => Fail
        case Got(t, rest) =>
          if |c| == 1 && 0xD800 <= c[0] <= 0xDBFF && t != [] && 0xDC00 <= t[0] <= 0xDFFF then Fail else Got(c + t, rest)
  }

  // ---------------------------------------------------------------- values

  /** One value. Nothing at all stands for null; keys ascend. */
  function ReadValue(s: Text): (r: Read<Json>)
    ensures r.Got? ==> |r.rest| <= |s| && !r.value.Undefined?
    decreases |s|, 0
  {
    if s == [] || s[0] == 0x2C || s[0] == 0x5D || s[0] == 0x7D then Got(Null, s)
    else if s[0] == 0x22 then
      match ReadString(s[1..])
      case Fail => Fail
      case Got(t, rest) => Got(Str(t), rest)
    else if s[0] == 0x5B then
      if |s| >= 2 && s[1] == 0x5D then Got(Arr([]), s[2..])
      else
        match ReadItems(s[1..])
        case Fail => Fail
        case Got(items, rest) => Got(Arr(items), rest)
    else if s[0] == 0x7B then
      if |s| >= 2 && s[1] == 0x7D then Got(Obj([]), s[2..])
      else
        match ReadFields(s[1..])
        case Fail => Fail
        case Got(fields, rest) => Got(Obj(fields), rest)
    else if |s| >= 4 && s[..4] == [0x74, 0x72, 0x75, 0x65] then Got(Bool(true), s[4..])
    else if |s| >= 5 && s[..5] == [0x66, 0x61, 0x6C, 0x73, 0x65] then Got(Bool(false), s[5..])
    else if 0x30 <= s[0] <= 0x39 || s[0] == 0x2D then
      RunIsWithin(s);
      Got(Num(s[..NumberRun(s)]), s[NumberRun(s)..])
    else Fail
  }

  /** Items, commas between them, and the closing bracket. */
  function ReadItems(s: Text): (r: Read<seq<Json>>)
    ensures r.Got? ==> |r.rest| < |s| && r.value != []
    decreases |s|, 1
  {
    match ReadValue(s)
    case Fail => Fail
    case Got(v, s') =>
      if s' == [] then Fail
      else if s'[0] == 0x5D then Got([v], s'[1..])
      else if s'[0] == 0x2C then
        match ReadItems(s'[1..])
        case Fail => Fail
        case Got(vs, rest) => Got([v] + vs, rest)
      else Fail
  }

  /** Keys with their values, commas between them, and the closing brace. */
  function ReadFields(s: Text): (r: Read<seq<Field>>)
    ensures r.Got? ==> |r.rest| < |s| && r.value != []
    decreases |s|, 1
  {
    if s == [] || s[0] != 0x22 then Fail
    else
      match ReadString(s[1..])
      case Fail => Fail
      case Got(k, s') =>
        if s' == [] || s'[0] != 0x3A then Fail
        else
          match ReadValue(s'[1..])
          case Fail => Fail
          case Got(v, s'') =>
            if s'' == [] then Fail
            else if s''[0] == 0x7D then Got([Field(k, v)], s''[1..])
            else if s''[0] == 0x2C then
              match ReadFields(s''[1..])
              case Fail => Fail
              case Got(fs, rest) => if Precedes(k, fs[0].key) then Got([Field(k, v)] + fs, rest) else Fail
            else Fail
  }

  lemma RunIsWithin(s: Text)
    ensures NumberRun(s) <= |s|
    ensures forall i :: 0 <= i < NumberRun(s) ==> InNumber(s[i])
  {
  }

  // ---------------------------------------------------------------- what is printed is read

  lemma DigitReads(n: int)
    requires 0 <= n < 16
    ensures HexValue(Hex(n)) == n
  {
  }

  lemma DivideTwice(n: nat)
    ensures n / 0x100 == n / 0x10 / 0x10 && n / 0x1000 == n / 0x10 / 0x10 / 0x10
  {
  }

  lemma Digits(c: CodeUnit)
    ensures c as int / 0x1000 * 0x1000 + c as int / 0x100 % 16 * 0x100 + c as int / 0x10 % 16 * 0x10 + c as int % 16 == c as int
  {
    DivideTwice(c);
    var p := c as int / 16;
    var q := p / 16;
    assert c as int == p * 16 + c as int % 16 && p == q * 16 + p % 16 && q == q / 16 * 16 + q % 16;
  }

  lemma EscapeReads(c: CodeUnit, x: Text)
    ensures ReadCharacter(Escape(c) + x) == Got([c], x)
  {
    var p := Escape(c);
    assert (p + x)[|p|..] == x && forall i :: 0 <= i < |p| ==> (p + x)[i] == p[i];
    if ShortEscape(c) == 0 && (c < 0x20 || IsLead(c) || IsTrail(c)) {
      DigitReads(c as int / 0x1000);
      DigitReads(c as int / 0x100 % 16);
      DigitReads(c as int / 0x10 % 16);
      DigitReads(c as int % 16);
      Digits(c);
      assert FourDigits((p + x)[2..]) == c;
    }
  }

  lemma PieceReads(s: Text, x: Text)
    requires s != []
    ensures Piece(s) + x != [] && (Piece(s) + x)[0] != QUOTE
    ensures ReadCharacter(Piece(s) + x) == Got(s[..Taken(s)], x)
  {
    if StartsWithPair(s) {
      assert (s[..2] + x)[..2] == s[..2] && (s[..2] + x)[2..] == x;
    } else {
      EscapeReads(s[0], x);
      assert s[..1] == [s[0]];
    }
  }

  /** The first piece and what follows do not make a pair. */
  lemma NotSplit(s: Text)
    requires s != []
    ensures var c, s' := s[..Taken(s)], s[Taken(s)..];
            !(|c| == 1 && 0xD800 <= c[0] <= 0xDBFF && s' != [] && 0xDC00 <= s'[0] <= 0xDFFF)
  {
  }

  lemma {:induction false} StringReads(s: Text, x: Text)
    ensures ReadString(Escaped(s) + ([QUOTE] + x)) == Got(s, x)
  {
    if s == [] {
      assert Escaped(s) + ([QUOTE] + x) == [QUOTE] + x && ([QUOTE] + x)[1..] == x;
    } else {
      hide Piece, Taken, Escaped, ReadCharacter;
      var c, s' := s[..Taken(s)], s[Taken(s)..];
      var after := Escaped(s') + ([QUOTE] + x);
      EscapedSplits(s, [QUOTE] + x);
      PieceReads(s, after);
      StringReads(s', x);
      NotSplit(s);
      assert s == c + s';
    }
  }

  lemma QuoteReads(s: Text, x: Text)
    ensures Quote(s) + x != [] && (Quote(s) + x)[0] == QUOTE && ReadString((Quote(s) + x)[1..]) == Got(s, x)
  {
    hide Escaped, ReadString;
    var t := Escaped(s) + ([QUOTE] + x);
    assert Quote(s) + x == [QUOTE] + t;
    assert ([QUOTE] + t)[1..] == t;
    StringReads(s, x);
  }

  // ---------------------------------------------------------------- values, arrays and objects are read back

  /** `v` is read back up to the equivalence, and the reader stops where it ends. */
  ghost predicate Reads(v: Json, x: Text) {
    var g := ReadValue(Print(v) + x);
    g.Got? && g.rest == x && Equiv(v, g.value)
  }

  /** Canonical text is read back: the value, up to the equivalence, and where it ends. */
  lemma {:induction false} PrintReads(v: Json, x: Text)
    requires IsJson(v) && Stops(x)
    ensures Reads(v, x)
    decreases v, 1, 0
  {
    hide Escaped, ReadString, ReadItems, ReadFields, SortedKeys;
    match v
    case Undefined => assert Print(v) + x == x;
    case Null => assert Print(v) + x == x;
    case Bool(b) => assert (Print(v) + x)[..|Print(v)|] == Print(v) && (Print(v) + x)[|Print(v)|..] == x;
    case Num(t) => NumberReads(t, x);
    case Str(s) => QuoteReads(s, x);
    case Arr(items) => ArrayReads(v, x);
    case Obj(fields) => ObjectReads(v, x);
  }

  lemma NumberReads(t: Text, x: Text)
    requires IsNumberText(t) && Stops(x)
    ensures ReadValue(t + x) == Got(Num(t), x)
  {
    hide ReadString, ReadItems, ReadFields;
    NumberRunsToItsEnd(t, x);
    assert (t + x)[0] == t[0];
    assert (t + x)[..|t|] == t && (t + x)[|t|..] == x;
    RunIsWithin(t + x);
  }

  lemma {:induction false} ArrayReads(v: Json, x: Text)
    requires IsJson(v) && Stops(x) && v.Arr?
    ensures Reads(v, x)
    decreases v, 0, |v.items| + 1
  {
    hide Print, ReadItems, ReadFields, ReadString, ItemsFrom;
    var items := v.items;
    ArrayPrints(items);
    var t := ItemsFrom(items, 0) + x;
    assert Print(v) + x == [OPEN_BRACKET] + t;
    assert ([OPEN_BRACKET] + t)[1..] == t;
    if Blank(items) {
      BlankItems(items);
      assert ([OPEN_BRACKET] + t)[2..] == x;
    } else {
      NoBracketYet(items, x);
      var vs := ItemsRead(v, 0, x);
      assert forall k :: 0 <= k < |items| ==> Equiv(items[k], vs[k]);
    }
  }

  lemma BlankItems(items: seq<Json>)
    requires Blank(items)
    ensures ItemsFrom(items, 0) == [CLOSE_BRACKET]
  {
  }

  /** An array that is not blank does not begin with its closing bracket. */
  lemma NoBracketYet(items: seq<Json>, x: Text)
    requires IsJson(Arr(items)) && !Blank(items)
    ensures var t := ItemsFrom(items, 0) + x; t != [] && t[0] != CLOSE_BRACKET
  {
    hide Print;
    ItemThen(items, 0, x);
    Announces(items[0], AfterItem(items, 0) + x);
    if Nullish(items[0]) {
      NullishPrints(items[0], AfterItem(items, 0) + x);
    }
  }

  lemma {:induction false} ItemsRead(v: Json, i: nat, x: Text) returns (vs: seq<Json>)
    requires IsJson(v) && Stops(x) && v.Arr? && i < |v.items|
    ensures ReadItems(ItemsFrom(v.items, i) + x) == Got(vs, x)
    ensures |vs| == |v.items| - i && forall k :: 0 <= k < |vs| ==> Equiv(v.items[i + k], vs[k])
    decreases v, 0, |v.items| - i
  {
    hide Print, Equiv, ItemsFrom, ReadValue;
    var items := v.items;
    ItemThen(items, i, x);
    var s := AfterItem(items, i) + x;
    PrintReads(items[i], s);
    var first := ReadValue(Print(items[i]) + s).value;
    if i + 1 == |items| {
      vs := [first];
      assert s[1..] == x;
    } else {
      var rest := ItemsRead(v, i + 1, x);
      AfterIs(items, i, x);
      vs := [first] + rest;
    }
  }

  lemma AfterIs(items: seq<Json>, i: nat, x: Text)
    requires i + 1 < |items|
    ensures (AfterItem(items, i) + x)[0] == COMMA && (AfterItem(items, i) + x)[1..] == ItemsFrom(items, i + 1) + x
  {
    hide ItemsFrom;
  }

  lemma {:induction false} ObjectReads(v: Json, x: Text)
    requires IsJson(v) && Stops(x) && v.Obj?
    ensures Reads(v, x)
    decreases v, 0, |SortedKeys(v.fields)| + 1
  {
    hide Print, ReadItems, ReadFields, ReadString, EntriesFrom, SortedKeys, Escaped;
    var fields, keys := v.fields, SortedKeys(v.fields);
    ObjectPrints(fields);
    var t := EntriesFrom(fields, keys, 0) + x;
    assert Print(v) + x == [OPEN_BRACE] + t;
    assert ([OPEN_BRACE] + t)[1..] == t;
    if keys == [] {
      NoEntries(fields, keys);
      assert ([OPEN_BRACE] + t)[2..] == x;
      SameFields(fields, []);
    } else {
      EntryThen(fields, keys, 0, x);
      var fs := FieldsRead(v, 0, x);
      SameFields(fields, fs);
    }
  }

  lemma NoEntries(fields: seq<Field>, keys: seq<Text>)
    requires keys == []
    ensures EntriesFrom(fields, keys, 0) == [CLOSE_BRACE]
  {
  }

  lemma {:induction false} FieldsRead(v: Json, i: nat, x: Text) returns (fs: seq<Field>)
    requires IsJson(v) && Stops(x) && v.Obj? && i < |SortedKeys(v.fields)|
    ensures var keys := SortedKeys(v.fields);
            && ReadFields(EntriesFrom(v.fields, keys, i) + x) == Got(fs, x) && |fs| == |keys| - i
            && forall k :: 0 <= k < |fs| ==> fs[k].key == keys[i + k] && !fs[k].value.Undefined? && Equiv(ValueOf(v.fields, keys[i + k]), fs[k].value)
    decreases v, 0, |SortedKeys(v.fields)| - i
  {
    hide Print, Equiv, EntriesFrom, ReadValue, ReadString, SortedKeys, Quote, ValueOf;
    var fields, keys := v.fields, SortedKeys(v.fields);
    var u, s := ValueOf(fields, keys[i]), AfterEntry(fields, keys, i) + x;
    EntryThen(fields, keys, i, x);
    QuoteReads(keys[i], [COLON] + (Print(u) + s));
    assert ([COLON] + (Print(u) + s))[1..] == Print(u) + s;
    ValueIsJson(v, keys[i]);
    PrintReads(u, s);
    var first := Field(keys[i], ReadValue(Print(u) + s).value);
    AfterEntryIs(fields, keys, i, x);
    if i + 1 == |keys| {
      fs := [first];
      assert s[1..] == x;
    } else {
      var rest := FieldsRead(v, i + 1, x);
      assert s[1..] == EntriesFrom(fields, keys, i + 1) + x;
      KeysAscend(fields, i, i + 1);
      assert Precedes(keys[i], rest[0].key);
      fs := [first] + rest;
    }
  }

  lemma ValueIsJson(v: Json, k: Text)
    requires IsJson(v) && v.Obj? && k in DefinedKeys(v.fields)
    ensures IsJson(ValueOf(v.fields, k)) && ValueOf(v.fields, k) < v
  {
  }

  /** An object is equivalent to the fields read for its sorted keys. */
  lemma SameFields(fields: seq<Field>, fs: seq<Field>)
    requires DistinctKeys(fields) && |fs| == |SortedKeys(fields)|
    requires forall k :: 0 <= k < |fs| ==>
               fs[k].key == SortedKeys(fields)[k] && !fs[k].value.Undefined? && Equiv(ValueOf(fields, SortedKeys(fields)[k]), fs[k].value)
    ensures Equiv(Obj(fields), Obj(fs))
  {
    hide Equiv, ValueOf, SortedKeys;
    var keys := SortedKeys(fields);
    forall i, j | 0 <= i < j < |fs| ensures fs[i].key != fs[j].key {
      KeysAscend(fields, i, j);
    }
    forall k ensures k in DefinedKeys(fields) <==> k in DefinedKeys(fs) {
      KeysAreDefined(fs, k);
      if k in keys {
        var i :| 0 <= i < |keys| && keys[i] == k;
        assert fs[i].key == k;
      }
    }
    forall k | k in DefinedKeys(fields) ensures Equiv(ValueOf(fields, k), ValueOf(fs, k)) {
      var i :| 0 <= i < |keys| && keys[i] == k;
      ValueIs(fs, i);
    }
    SameEntries(fields, fs);
  }

  // ---------------------------------------------------------------- what is read was printed

  lemma DigitWritten(c: CodeUnit)
    requires HexValue(c) >= 0
    ensures HexValue(c) < 16 && Hex(HexValue(c)) == c
  {
  }

  lemma LastDigit(q: int, d: int)
    requires 0 <= q && 0 <= d < 16
    ensures (q * 16 + d) / 16 == q && (q * 16 + d) % 16 == d
  {
  }

  lemma Places(a: int, b: int, c: int, d: int)
    requires 0 <= a < 16 && 0 <= b < 16 && 0 <= c < 16 && 0 <= d < 16
    ensures var n := a * 0x1000 + b * 0x100 + c * 0x10 + d;
            n / 0x1000 == a && n / 0x100 % 16 == b && n / 0x10 % 16 == c && n % 16 == d
  {
    var n := ((a * 16 + b) * 16 + c) * 16 + d;
    DivideTwice(n);
    LastDigit((a * 16 + b) * 16 + c, d);
    LastDigit(a * 16 + b, c);
    LastDigit(a, b);
  }

  lemma HexWritten(s: Text)
    requires |s| >= 6 && s[0] == BACKSLASH && s[1] == 0x75 && InHex(FourDigits(s[2..]))
    ensures UnicodeEscape(FourDigits(s[2..])) + s[6..] == s && Escape(FourDigits(s[2..])) == UnicodeEscape(FourDigits(s[2..]))
  {
    hide Hex, HexValue, Escape;
    DigitWritten(s[2]);
    DigitWritten(s[3]);
    DigitWritten(s[4]);
    DigitWritten(s[5]);
    Places(HexValue(s[2]), HexValue(s[3]), HexValue(s[4]), HexValue(s[5]));
    assert UnicodeEscape(FourDigits(s[2..])) == s[..6];
    EscapesInHex(FourDigits(s[2..]));
  }

  lemma EscapesInHex(c: CodeUnit)
    requires InHex(c)
    ensures Escape(c) == UnicodeEscape(c)
  {
    hide UnicodeEscape;
  }

  lemma ShortWritten(s: Text)
    requires |s| >= 2 && s[0] == BACKSLASH && Unescaped(s[1]) >= 0
    ensures Escape(Unescaped(s[1])) + s[2..] == s
  {
    assert Escape(Unescaped(s[1])) == s[..2];
  }

  /** A character that is read was printed as its pair or its escape. */
  lemma CharacterWritten(s: Text)
    requires s != [] && ReadCharacter(s).Got?
    ensures var g := ReadCharacter(s);
            if |g.value| == 2 then StartsWithPair(g.value) && s == g.value + g.rest else s == Escape(g.value[0]) + g.rest
  {
    hide Escape, Unescaped, FourDigits, InHex;
    if s[0] == BACKSLASH {
      if Unescaped(s[1]) >= 0 {
        ShortWritten(s);
      } else {
        HexWritten(s);
      }
    } else if |ReadCharacter(s).value| == 1 {
      EscapeOfPlain(s[0]);
      assert s == [s[0]] + s[1..];
    }
  }

  lemma EscapeOfPlain(c: CodeUnit)
    requires c >= 0x20 && c != QUOTE && c != BACKSLASH && !(0xD800 <= c <= 0xDFFF)
    ensures Escape(c) == [c]
  {
  }

  lemma {:induction false} StringWritten(s: Text)
    requires ReadString(s).Got?
    ensures s == Escaped(ReadString(s).value) + ([QUOTE] + ReadString(s).rest)
    decreases |s|
  {
    if s[0] == QUOTE {
      assert s == [QUOTE] + s[1..];
    } else {
      hide ReadCharacter;
      var c, s' := ReadCharacter(s).value, ReadCharacter(s).rest;
      CharacterWritten(s);
      StringWritten(s');
      var t := ReadString(s').value;
      EscapedStep(c, t);
      assert ReadString(s).value == c + t;
    }
  }

  lemma EscapedStep(c: Text, t: Text)
    requires if |c| == 2 then StartsWithPair(c) else |c| == 1 && !(IsLead(c[0]) && t != [] && IsTrail(t[0]))
    ensures Escaped(c + t) == (if |c| == 2 then c else Escape(c[0])) + Escaped(t)
  {
    assert (c + t)[..|c|] == c && (c + t)[|c|..] == t;
  }

  /** Whatever the reader accepts, the printer printed: a JSON value with this text. */
  lemma {:induction false} ValueWritten(s: Text)
    requires ReadValue(s).Got?
    ensures var g := ReadValue(s); IsJson(g.value) && s == Print(g.value) + g.rest
    decreases |s|, 1
  {
    hide ReadValue, Print, IsJson;
    if s != [] && s[0] == OPEN_BRACKET {
      ArrayWritten(s);
    } else if s != [] && s[0] == OPEN_BRACE {
      ObjectWritten(s);
    } else {
      PlainWritten(s);
    }
  }

  lemma {:induction false} ArrayWritten(s: Text)
    requires ReadValue(s).Got? && s != [] && s[0] == OPEN_BRACKET
    ensures var g := ReadValue(s); IsJson(g.value) && s == Print(g.value) + g.rest
    decreases |s|, 0
  {
    hide Print, ReadItems, ReadFields, ReadString, ItemsFrom;
    assert s == [OPEN_BRACKET] + s[1..];
    if |s| >= 2 && s[1] == CLOSE_BRACKET {
      ArrayPrints([]);
      BlankItems([]);
      assert s == [OPEN_BRACKET, CLOSE_BRACKET] + s[2..];
    } else {
      ItemsWritten(s[1..]);
      ArrayPrints(ReadItems(s[1..]).value);
    }
  }

  lemma {:induction false} ObjectWritten(s: Text)
    requires ReadValue(s).Got? && s != [] && s[0] == OPEN_BRACE
    ensures var g := ReadValue(s); IsJson(g.value) && s == Print(g.value) + g.rest
    decreases |s|, 0
  {
    hide Print, ReadItems, ReadFields, ReadString, FieldsText, InOrder, EntriesFrom;
    assert s == [OPEN_BRACE] + s[1..];
    if |s| >= 2 && s[1] == CLOSE_BRACE {
      ObjectPrints([]);
      NoEntries([], []);
      assert s == [OPEN_BRACE, CLOSE_BRACE] + s[2..];
    } else {
      FieldsWritten(s[1..]);
      FieldsPrint(ReadFields(s[1..]).value);
      ObjectIsJson(ReadFields(s[1..]).value);
    }
  }

  /** Null, a boolean, a number or a string. */
  lemma PlainWritten(s: Text)
    requires ReadValue(s).Got? && (s == [] || (s[0] != OPEN_BRACKET && s[0] != OPEN_BRACE))
    ensures var g := ReadValue(s); IsJson(g.value) && s == Print(g.value) + g.rest
  {
    hide ReadString, ReadItems, ReadFields, Quote;
    match ReadValue(s).value
    case Null =>
    case Bool(b) =>
    case Num(t) => RunIsWithin(s);
    case Str(t) => KeyWritten(s);
    case _ =>
  }

  lemma {:induction false} ItemsWritten(s: Text)
    requires ReadItems(s).Got?
    ensures var g := ReadItems(s); IsJson(Arr(g.value)) && s == ItemsFrom(g.value, 0) + g.rest
    decreases |s|, 2
  {
    hide Print, ReadValue, ItemsFrom;
    var v, s' := ReadValue(s).value, ReadValue(s).rest;
    ValueWritten(s);
    if s'[0] == COMMA {
      ItemsWritten(s'[1..]);
      var vs, rest := ReadItems(s'[1..]).value, ReadItems(s'[1..]).rest;
      MoreItems(v, vs, rest);
      assert s' == [COMMA] + (ItemsFrom(vs, 0) + rest);
    } else {
      LastItem(v, s'[1..]);
      assert s' == [CLOSE_BRACKET] + s'[1..];
    }
  }

  lemma MoreItems(v: Json, vs: seq<Json>, rest: Text)
    requires vs != []
    ensures ItemsFrom([v] + vs, 0) + rest == Print(v) + ([COMMA] + (ItemsFrom(vs, 0) + rest))
  {
    hide Print;
    ItemsShift(v, vs, 0);
    var t := ItemsFrom(vs, 0);
    assert ItemsFrom([v] + vs, 0) == Print(v) + ([COMMA] + t);
    assert ([COMMA] + t) + rest == [COMMA] + (t + rest);
  }

  lemma LastItem(v: Json, rest: Text)
    ensures ItemsFrom([v], 0) + rest == Print(v) + ([CLOSE_BRACKET] + rest)
  {
    hide Print;
  }

  lemma {:induction false} ItemsShift(v: Json, vs: seq<Json>, i: nat)
    requires i <= |vs|
    ensures ItemsFrom([v] + vs, i + 1) == ItemsFrom(vs, i)
    decreases |vs| - i
  {
    hide Print;
    if i < |vs| {
      assert ([v] + vs)[i + 1] == vs[i];
      ItemsShift(v, vs, i + 1);
    }
  }

  // ---------------------------------------------------------------- fields in the order they are read

  function KeysOf(fs: seq<Field>): (keys: seq<Text>)
    ensures |keys| == |fs|
  {
    seq(|fs|, i requires 0 <= i < |fs| => fs[i].key)
  }

  /** The fields as they stand, closing brace included. */
  function FieldsText(fs: seq<Field>): Text
    requires fs != []
  {
    Quote(fs[0].key) + ([COLON] + (Print(fs[0].value) + (if |fs| == 1 then [CLOSE_BRACE] else [COMMA] + FieldsText(fs[1..]))))
  }

  /** Fields that can be printed as they stand. */
  ghost predicate InOrder(fs: seq<Field>) {
    && Ascending(KeysOf(fs))
    && forall i :: 0 <= i < |fs| ==> !fs[i].value.Undefined? && IsJson(fs[i].value)
  }

  lemma {:induction false} FieldsWritten(s: Text)
    requires ReadFields(s).Got?
    ensures var g := ReadFields(s); InOrder(g.value) && s == FieldsText(g.value) + g.rest
    decreases |s|, 2
  {
    hide ReadString, ReadValue, Print, Quote, InOrder, Precedes;
    var k, s1 := ReadString(s[1..]).value, ReadString(s[1..]).rest;
    KeyWritten(s);
    var v, s2 := ReadValue(s1[1..]).value, ReadValue(s1[1..]).rest;
    ValueWritten(s1[1..]);
    assert s1 == [COLON] + s1[1..] && s2 == [s2[0]] + s2[1..];
    if s2[0] == COMMA {
      FieldsWritten(s2[1..]);
      var fs, rest := ReadFields(s2[1..]).value, ReadFields(s2[1..]).rest;
      OneBefore(Field(k, v), fs);
      assert ([Field(k, v)] + fs)[1..] == fs;
      Regroup(Quote(k), [COLON], Print(v), [COMMA] + FieldsText(fs), rest);
      assert ([COMMA] + FieldsText(fs)) + rest == [COMMA] + (FieldsText(fs) + rest);
    } else {
      OneField(Field(k, v));
      Regroup(Quote(k), [COLON], Print(v), [CLOSE_BRACE], s2[1..]);
    }
  }

  lemma KeyWritten(s: Text)
    requires s != [] && s[0] == QUOTE && ReadString(s[1..]).Got?
    ensures s == Quote(ReadString(s[1..]).value) + ReadString(s[1..]).rest
  {
    hide Escaped;
    StringWritten(s[1..]);
    assert s == [QUOTE] + s[1..];
  }

  lemma OneField(f: Field)
    requires !f.value.Undefined? && IsJson(f.value)
    ensures InOrder([f])
  {
  }

  lemma OneBefore(f: Field, fs: seq<Field>)
    requires !f.value.Undefined? && IsJson(f.value) && fs != [] && InOrder(fs) && Precedes(f.key, fs[0].key)
    ensures InOrder([f] + fs)
  {
    hide Less, Precedes, IsJson;
    LessIsPrecedes(f.key, fs[0].key);
    var keys, all := KeysOf(fs), KeysOf([f] + fs);
    assert all == [f.key] + keys;
    forall j | 0 <= j < |keys| ensures Less(f.key, keys[j]) {
      if j > 0 {
        LessIsTransitive(f.key, keys[0], keys[j]);
      }
    }
  }

  lemma AscendingIsDistinct(fs: seq<Field>)
    requires Ascending(KeysOf(fs))
    ensures DistinctKeys(fs)
  {
    hide Less;
    forall i, j | 0 <= i < j < |fs| ensures fs[i].key != fs[j].key {
      assert Less(KeysOf(fs)[i], KeysOf(fs)[j]);
      LessIsTotal(fs[i].key, fs[i].key);
    }
  }

  lemma ObjectIsJson(fs: seq<Field>)
    requires InOrder(fs)
    ensures IsJson(Obj(fs))
  {
    AscendingIsDistinct(fs);
  }

  lemma InOrderIsSorted(fs: seq<Field>)
    requires InOrder(fs)
    ensures SortedKeys(fs) == KeysOf(fs) && DistinctKeys(fs)
  {
    hide Less, IsJson;
    AscendingIsDistinct(fs);
    DefinedKeysAreDistinct(fs);
    SortAscends(DefinedKeys(fs));
    forall k ensures k in SortedKeys(fs) <==> k in KeysOf(fs) {
      KeysAreDefined(fs, k);
      if k in KeysOf(fs) {
        var i :| 0 <= i < |fs| && KeysOf(fs)[i] == k;
        assert fs[i].key == k && !fs[i].value.Undefined?;
      }
      if Defines(fs, k) {
        var i :| 0 <= i < |fs| && fs[i].key == k && !fs[i].value.Undefined?;
        assert KeysOf(fs)[i] == k;
      }
    }
    AscendingIsUnique(SortedKeys(fs), KeysOf(fs));
  }

  lemma {:induction false} EntriesAreFields(fs: seq<Field>, i: nat)
    requires InOrder(fs) && i < |fs| && forall k :: k in KeysOf(fs) ==> k in DefinedKeys(fs)
    ensures EntriesFrom(fs, KeysOf(fs), i) == FieldsText(fs[i..])
    decreases |fs| - i
  {
    hide Print, Quote, InOrder, IsJson;
    InOrderIsSorted(fs);
    InOrderIsDefined(fs, i);
    ValueIs(fs, i);
    if i + 1 < |fs| {
      EntriesAreFields(fs, i + 1);
      assert fs[i..][1..] == fs[i + 1..];
    }
  }

  lemma InOrderIsDefined(fs: seq<Field>, i: nat)
    requires InOrder(fs) && i < |fs|
    ensures !fs[i].value.Undefined?
  {
  }

  lemma FieldsPrint(fs: seq<Field>)
    requires InOrder(fs) && fs != []
    ensures Print(Obj(fs)) == [OPEN_BRACE] + FieldsText(fs)
  {
    hide InOrder, Print, FieldsText, EntriesFrom;
    ObjectPrints(fs);
    InOrderIsSorted(fs);
    EntriesAreFields(fs, 0);
    assert fs[0..] == fs;
  }

  // ---------------------------------------------------------------- both ways

  /** A text is canonical exactly if the reader takes all of it, and it reads as the value it stands
      for, up to the equivalence. */
  lemma ReaderIsExact(s: Text)
    ensures (exists v :: IsJson(v) && Print(v) == s) <==> ReadValue(s).Got? && ReadValue(s).rest == []
    ensures forall v :: IsJson(v) && Print(v) == s ==> Equiv(v, ReadValue(s).value)
  {
    hide ReadValue, Print, IsJson, Equiv;
    forall v | IsJson(v) && Print(v) == s ensures ReadValue(s).Got? && ReadValue(s).rest == [] && Equiv(v, ReadValue(s).value) {
      PrintReads(v, []);
      assert Print(v) + [] == s;
    }
    if ReadValue(s).Got? && ReadValue(s).rest == [] {
      ValueWritten(s);
      assert Print(ReadValue(s).value) + [] == Print(ReadValue(s).value);
    }
  }
}
