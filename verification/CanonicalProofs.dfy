/** `stableStringify` is canonical and injective up to its exact equivalence. */
module CanonicalProofs {
  import opened CanonicalJson

  // ---------------------------------------------------------------- strings decode uniquely

  lemma HexIs(m: int, n: int)
    requires 0 <= m < 16 && 0 <= n < 16 && Hex(m) == Hex(n)
    ensures m == n
  {
  }

  /** Two numbers with the same last digit and the same rest. */
  lemma SameDigit(c: int, d: int, m: int)
    requires 0 <= c && 0 <= d && 0 < m && c / m % 16 == d / m % 16 && c / (16 * m) == d / (16 * m)
    requires c / m / 16 == c / (16 * m) && d / m / 16 == d / (16 * m)
    ensures c / m == d / m
  {
  }

  lemma HexDetermines(c: CodeUnit, d: CodeUnit)
    requires UnicodeEscape(c) == UnicodeEscape(d)
    ensures c == d
  {
    hide Hex;
    var p, q := UnicodeEscape(c), UnicodeEscape(d);
    assert p[2] == q[2] && p[3] == q[3] && p[4] == q[4] && p[5] == q[5];
    HexIs(c as int / 0x1000, d as int / 0x1000);
    HexIs(c as int / 0x100 % 16, d as int / 0x100 % 16);
    HexIs(c as int / 0x10 % 16, d as int / 0x10 % 16);
    HexIs(c as int % 16, d as int % 16);
    SameDigit(c, d, 0x100);
    SameDigit(c, d, 0x10);
    SameDigit(c, d, 1);
  }

  lemma PrefixIs(a: Text, b: Text, x: Text, y: Text)
    requires |a| == |b| && a + x == b + y
    ensures a == b && x == y
  {
    assert a == (a + x)[..|a|] && b == (b + y)[..|b|];
    assert x == (a + x)[|a|..] && y == (b + y)[|b|..];
  }

  lemma EscapeDetermines(c: CodeUnit, d: CodeUnit, x: Text, y: Text)
    requires Escape(c) + x == Escape(d) + y
    ensures c == d && x == y
  {
    var p, q := Escape(c), Escape(d);
    assert p[0] == (p + x)[0] && q[0] == (q + y)[0];
    if p[0] == BACKSLASH {
      assert p[1] == (p + x)[1] && q[1] == (q + y)[1];
      PrefixIs(p, q, x, y);
      if ShortEscape(c) == 0 {
        HexDetermines(c, d);
      }
    } else {
      PrefixIs(p, q, x, y);
    }
  }

  /** How many code units of `s` its first printed piece stands for. */
  function Taken(s: Text): nat
    requires s != []
    ensures 1 <= Taken(s) <= |s|
  {
    if StartsWithPair(s) then 2 else 1
  }

  function Piece(s: Text): (r: Text)
    requires s != []
    ensures r != [] && r[0] != QUOTE
  {
    if StartsWithPair(s) then s[..2] else Escape(s[0])
  }

  lemma PieceDetermines(s: Text, t: Text, x: Text, y: Text)
    requires s != [] && t != [] && Piece(s) + x == Piece(t) + y
    ensures Taken(s) == Taken(t) && s[..Taken(s)] == t[..Taken(t)] && x == y
  {
    assert Piece(s)[0] == (Piece(s) + x)[0] && Piece(t)[0] == (Piece(t) + y)[0];
    if StartsWithPair(s) && StartsWithPair(t) {
      PrefixIs(Piece(s), Piece(t), x, y);
    } else if !StartsWithPair(s) && !StartsWithPair(t) {
      EscapeDetermines(s[0], t[0], x, y);
    } else {
      assert false;
    }
  }

  lemma EscapedSplits(s: Text, u: Text)
    requires s != []
    ensures Escaped(s) + u == Piece(s) + (Escaped(s[Taken(s)..]) + u)
    ensures (Escaped(s) + u)[0] != QUOTE
  {
  }

  /** The closing quote is found where it was put. */
  lemma {:induction false} EscapedDetermines(s: Text, t: Text, x: Text, y: Text)
    requires Escaped(s) + ([QUOTE] + x) == Escaped(t) + ([QUOTE] + y)
    ensures s == t && x == y
  {
    hide Piece, Taken;
    assert t == [] ==> Escaped(t) + ([QUOTE] + y) == [QUOTE] + y;
    if s != [] {
      EscapedSplits(s, [QUOTE] + x);
    }
    if t != [] {
      EscapedSplits(t, [QUOTE] + y);
    }
    if s == [] {
      assert Escaped(s) + ([QUOTE] + x) == [QUOTE] + x;
      assert t == [];
      assert Escaped(t) + ([QUOTE] + y) == [QUOTE] + y;
      PrefixIs([QUOTE], [QUOTE], x, y);
    } else if t == [] {
      assert false;
    } else {
      var s', t' := s[Taken(s)..], t[Taken(t)..];
      PieceDetermines(s, t, Escaped(s') + ([QUOTE] + x), Escaped(t') + ([QUOTE] + y));
      EscapedDetermines(s', t', x, y);
      assert s == s[..Taken(s)] + s' && t == t[..Taken(t)] + t';
    }
  }

  lemma QuoteDetermines(s: Text, t: Text, x: Text, y: Text)
    requires Quote(s) + x == Quote(t) + y
    ensures s == t && x == y
  {
    hide Escaped;
    assert Quote(s) + x == [QUOTE] + (Escaped(s) + ([QUOTE] + x));
    assert Quote(t) + y == [QUOTE] + (Escaped(t) + ([QUOTE] + y));
    PrefixIs([QUOTE], [QUOTE], Escaped(s) + ([QUOTE] + x), Escaped(t) + ([QUOTE] + y));
    EscapedDetermines(s, t, x, y);
  }

  // ---------------------------------------------------------------- what a text starts with

  /** What may follow a value inside an array, an object or at the end. */
  predicate Stops(r: Text) {
    r == [] || r[0] == COMMA || r[0] == CLOSE_BRACKET || r[0] == CLOSE_BRACE
  }

  predicate InNumber(c: CodeUnit) {
    IsDigit(c) || c == 0x2D || c == 0x2B || c == 0x2E || c == 0x65
  }

  /** How many code units at the front can belong to a number. */
  function NumberRun(s: Text): nat {
    if s == [] || !InNumber(s[0]) then 0 else 1 + NumberRun(s[1..])
  }

  lemma {:induction false} NumberRunsToItsEnd(t: Text, x: Text)
    requires (forall i :: 0 <= i < |t| ==> InNumber(t[i])) && Stops(x)
    ensures NumberRun(t + x) == |t|
  {
    if t == [] {
      assert t + x == x;
    } else {
      assert (t + x)[1..] == t[1..] + x;
      NumberRunsToItsEnd(t[1..], x);
    }
  }

  lemma NumberDetermines(t: Text, u: Text, x: Text, y: Text)
    requires IsNumberText(t) && IsNumberText(u) && Stops(x) && Stops(y) && t + x == u + y
    ensures t == u && x == y
  {
    NumberRunsToItsEnd(t, x);
    NumberRunsToItsEnd(u, y);
    PrefixIs(t, u, x, y);
  }

  /** The kind of value a first code unit announces, 0 for a stop. */
  function KindOf(c: CodeUnit): nat {
    if c == 0x74 || c == 0x66 then 1
    else if IsDigit(c) || c == 0x2D then 2
    else if c == QUOTE then 3
    else if c == OPEN_BRACKET then 4
    else if c == OPEN_BRACE then 5
    else 0
  }

  function Kind(v: Json): nat {
    match v
    case Undefined => 0
    case Null => 0
    case Bool(_) => 1
    case Num(_) => 2
    case Str(_) => 3
    case Arr(_) => 4
    case Obj(_) => 5
  }

  /** The first code unit of what is left tells what is printed next. */
  lemma Announces(v: Json, x: Text)
    requires IsJson(v) && Stops(x)
    ensures Kind(v) == if Print(v) + x == [] then 0 else KindOf((Print(v) + x)[0])
  {
    if Nullish(v) {
      assert Print(v) + x == x;
    } else {
      assert Print(v) != [];
      assert (Print(v) + x)[0] == Print(v)[0];
    }
  }

  // ---------------------------------------------------------------- arrays and objects, element by element

  /** What array `items` prints from element `i` on, closing bracket included. */
  function ItemsFrom(items: seq<Json>, i: nat): Text
    requires i <= |items|
    decreases |items| - i
  {
    if i == |items| then [CLOSE_BRACKET]
    else Print(items[i]) + (if i + 1 == |items| then [CLOSE_BRACKET] else [COMMA] + ItemsFrom(items, i + 1))
  }

  function Prints(items: seq<Json>): seq<Text> {
    seq(|items|, i requires 0 <= i < |items| => Print(items[i]))
  }

  lemma {:induction false} ItemsJoin(items: seq<Json>, i: nat)
    requires i <= |items|
    ensures Join(Prints(items)[i..]) + [CLOSE_BRACKET] == ItemsFrom(items, i)
    decreases |items| - i
  {
    hide Print;
    var parts := Prints(items)[i..];
    if i == |items| {
    } else if i + 1 == |items| {
      assert parts == [Print(items[i])];
    } else {
      ItemsJoin(items, i + 1);
      assert parts[1..] == Prints(items)[i + 1..];
      assert Join(parts) + [CLOSE_BRACKET] == parts[0] + ([COMMA] + (Join(parts[1..]) + [CLOSE_BRACKET]));
    }
  }

  lemma ArrayPrints(items: seq<Json>)
    ensures Print(Arr(items)) == [OPEN_BRACKET] + ItemsFrom(items, 0)
  {
    ItemsJoin(items, 0);
    assert Prints(items)[0..] == Prints(items);
    assert Print(Arr(items)) == [OPEN_BRACKET] + (Join(Prints(items)) + [CLOSE_BRACKET]);
  }

  /** The entry of object `fields` that is printed for key `k`. */
  function ValueOf(fields: seq<Field>, k: Text): Json
    requires k in DefinedKeys(fields)
  {
    fields[IndexOf(fields, k)].value
  }

  /** What the entries of `keys` print from the `i`th on, closing brace included. */
  function EntriesFrom(fields: seq<Field>, keys: seq<Text>, i: nat): Text
    requires i <= |keys| && forall k :: k in keys ==> k in DefinedKeys(fields)
    decreases |keys| - i
  {
    if i == |keys| then [CLOSE_BRACE]
    else Quote(keys[i]) + ([COLON] + (Print(ValueOf(fields, keys[i]))
         + (if i + 1 == |keys| then [CLOSE_BRACE] else [COMMA] + EntriesFrom(fields, keys, i + 1))))
  }

  function Lines(fields: seq<Field>, keys: seq<Text>): seq<Text>
    requires forall k :: k in keys ==> k in DefinedKeys(fields)
  {
    seq(|keys|, i requires 0 <= i < |keys| => Quote(keys[i]) + [COLON] + Print(fields[IndexOf(fields, keys[i])].value))
  }

  lemma JoinStep(parts: seq<Text>, close: CodeUnit)
    requires parts != []
    ensures Join(parts) + [close]
            == if |parts| == 1 then parts[0] + [close] else parts[0] + ([COMMA] + (Join(parts[1..]) + [close]))
  {
  }

  lemma {:induction false} EntriesJoin(fields: seq<Field>, keys: seq<Text>, i: nat)
    requires i <= |keys| && forall k :: k in keys ==> k in DefinedKeys(fields)
    ensures Join(Lines(fields, keys)[i..]) + [CLOSE_BRACE] == EntriesFrom(fields, keys, i)
    decreases |keys| - i
  {
    hide Quote, Print, Join;
    var parts := Lines(fields, keys)[i..];
    if i == |keys| {
      assert Join(parts) == [] by { JoinOfNone(); }
    } else {
      var q, p := Quote(keys[i]), Print(ValueOf(fields, keys[i]));
      JoinStep(parts, CLOSE_BRACE);
      assert parts[0] == q + [COLON] + p;
      if i + 1 < |keys| {
        EntriesJoin(fields, keys, i + 1);
        assert parts[1..] == Lines(fields, keys)[i + 1..];
        LineThen(q, p, [COMMA] + EntriesFrom(fields, keys, i + 1));
      } else {
        LineThen(q, p, [CLOSE_BRACE]);
      }
    }
  }

  lemma JoinOfNone()
    ensures Join([]) == []
  {
  }

  lemma LineThen(q: Text, p: Text, r: Text)
    ensures q + [COLON] + p + r == q + ([COLON] + (p + r))
  {
  }

  lemma ObjectPrints(fields: seq<Field>)
    ensures Print(Obj(fields)) == [OPEN_BRACE] + EntriesFrom(fields, SortedKeys(fields), 0)
  {
    var keys := SortedKeys(fields);
    EntriesJoin(fields, keys, 0);
    assert Lines(fields, keys)[0..] == Lines(fields, keys);
    assert Print(Obj(fields)) == [OPEN_BRACE] + (Join(Lines(fields, keys)) + [CLOSE_BRACE]);
  }

  // ---------------------------------------------------------------- printing determines the value

  /** A printed value can be told from what follows it, up to the equivalence. */
  lemma {:induction false} PrintDetermines(a: Json, b: Json, x: Text, y: Text)
    requires IsJson(a) && IsJson(b) && Stops(x) && Stops(y) && Print(a) + x == Print(b) + y
    ensures Equiv(a, b) && x == y
    decreases a, 1, 0
  {
    Announces(a, x);
    Announces(b, y);
    match a
    case Undefined => assert Print(a) + x == x && Print(b) + y == y;
    case Null => assert Print(a) + x == x && Print(b) + y == y;
    case Bool(p) =>
      assert (Print(a) + x)[0] == Print(a)[0] && (Print(b) + y)[0] == Print(b)[0];
      PrefixIs(Print(a), Print(b), x, y);
    case Num(t) => NumberDetermines(t, b.digits, x, y);
    case Str(s) => QuoteDetermines(s, b.s, x, y);
    case Arr(xs) => ArrayDetermines(a, b, x, y);
    case Obj(fs) => ObjectDetermines(a, b, x, y);
  }

  lemma {:induction false} ArrayDetermines(a: Json, b: Json, x: Text, y: Text)
    requires IsJson(a) && IsJson(b) && Stops(x) && Stops(y) && Print(a) + x == Print(b) + y && a.Arr? && b.Arr?
    ensures Equiv(a, b) && x == y
    decreases a, 0, |a.items| + 1
  {
    var xs, ys := a.items, b.items;
    ArrayPrints(xs);
    ArrayPrints(ys);
    assert Print(a) + x == [OPEN_BRACKET] + (ItemsFrom(xs, 0) + x);
    assert Print(b) + y == [OPEN_BRACKET] + (ItemsFrom(ys, 0) + y);
    PrefixIs([OPEN_BRACKET], [OPEN_BRACKET], ItemsFrom(xs, 0) + x, ItemsFrom(ys, 0) + y);
    if xs == [] {
      BlankOnly(ys, x, y);
    } else if ys == [] {
      BlankOnly(xs, y, x);
    } else {
      ItemsDetermine(a, b, 0, x, y);
    }
  }

  /** What follows element `i`: the closing bracket, or a comma and the other elements. */
  function AfterItem(items: seq<Json>, i: nat): (r: Text)
    requires i < |items|
    ensures r != [] && (r[0] == COMMA || r[0] == CLOSE_BRACKET)
    ensures r[0] == CLOSE_BRACKET <==> i + 1 == |items|
  {
    if i + 1 == |items| then [CLOSE_BRACKET] else [COMMA] + ItemsFrom(items, i + 1)
  }

  lemma ItemThen(items: seq<Json>, i: nat, x: Text)
    requires i < |items|
    ensures ItemsFrom(items, i) + x == Print(items[i]) + (AfterItem(items, i) + x)
    ensures Stops(AfterItem(items, i) + x) && (AfterItem(items, i) + x)[0] == AfterItem(items, i)[0]
  {
  }

  /** Nothing but `[]` and `[null]` prints a closing bracket at once. */
  lemma BlankOnly(ys: seq<Json>, x: Text, y: Text)
    requires IsJson(Arr(ys)) && [CLOSE_BRACKET] + x == ItemsFrom(ys, 0) + y
    ensures Blank(ys) && x == y
  {
    hide Print;
    if ys == [] {
      PrefixIs([CLOSE_BRACKET], [CLOSE_BRACKET], x, y);
    } else {
      ItemThen(ys, 0, y);
      Announces(ys[0], AfterItem(ys, 0) + y);
      assert ([CLOSE_BRACKET] + x)[0] == CLOSE_BRACKET;
      NullishPrints(ys[0], AfterItem(ys, 0) + y);
      assert AfterItem(ys, 0) + y == [CLOSE_BRACKET] + y;
      PrefixIs([CLOSE_BRACKET], [CLOSE_BRACKET], x, y);
    }
  }

  lemma NullishPrints(v: Json, x: Text)
    requires Nullish(v)
    ensures Print(v) + x == x
  {
  }

  lemma {:induction false} ItemsDetermine(a: Json, b: Json, i: nat, x: Text, y: Text)
    requires IsJson(a) && IsJson(b) && Stops(x) && Stops(y) && a.Arr? && b.Arr? && i < |a.items| && i < |b.items|
    requires ItemsFrom(a.items, i) + x == ItemsFrom(b.items, i) + y
    ensures |a.items| == |b.items| && x == y
    ensures forall k :: i <= k < |a.items| ==> Equiv(a.items[k], b.items[k])
    decreases a, 0, |a.items| - i
  {
    hide Print, Equiv;
    var xs, ys := a.items, b.items;
    ItemThen(xs, i, x);
    ItemThen(ys, i, y);
    PrintDetermines(xs[i], ys[i], AfterItem(xs, i) + x, AfterItem(ys, i) + y);
    if i + 1 == |xs| {
      PrefixIs([CLOSE_BRACKET], [CLOSE_BRACKET], x, y);
    } else {
      assert AfterItem(xs, i) + x == [COMMA] + (ItemsFrom(xs, i + 1) + x);
      assert AfterItem(ys, i) + y == [COMMA] + (ItemsFrom(ys, i + 1) + y);
      PrefixIs([COMMA], [COMMA], ItemsFrom(xs, i + 1) + x, ItemsFrom(ys, i + 1) + y);
      ItemsDetermine(a, b, i + 1, x, y);
    }
  }

  lemma KeysAreDefined(fields: seq<Field>, k: Text)
    ensures k in DefinedKeys(fields) <==> Defines(fields, k)
  {
    if fields != [] {
      KeysAreDefined(fields[1..], k);
      if Defines(fields[1..], k) {
        var i :| 0 <= i < |fields[1..]| && fields[1..][i].key == k && !fields[1..][i].value.Undefined?;
        assert fields[i + 1] == fields[1..][i];
      }
      if Defines(fields, k) {
        var i :| 0 <= i < |fields| && fields[i].key == k && !fields[i].value.Undefined?;
        assert i > 0 ==> fields[1..][i - 1] == fields[i];
      }
    }
  }

  lemma ObjectOpens(fields: seq<Field>, x: Text)
    ensures Print(Obj(fields)) + x == [OPEN_BRACE] + (EntriesFrom(fields, SortedKeys(fields), 0) + x)
  {
    hide Print, EntriesFrom, SortedKeys;
    ObjectPrints(fields);
    var r := EntriesFrom(fields, SortedKeys(fields), 0);
    assert ([OPEN_BRACE] + r) + x == [OPEN_BRACE] + (r + x);
  }

  lemma ObjectDetermines(a: Json, b: Json, x: Text, y: Text)
    requires IsJson(a) && IsJson(b) && Stops(x) && Stops(y) && Print(a) + x == Print(b) + y && a.Obj? && b.Obj?
    ensures Equiv(a, b) && x == y
    decreases a, 0, |SortedKeys(a.fields)| + 1
  {
    hide Print, Equiv, EntriesFrom, SortedKeys;
    var fs, gs := a.fields, b.fields;
    var ks, ls := SortedKeys(fs), SortedKeys(gs);
    ObjectOpens(fs, x);
    ObjectOpens(gs, y);
    PrefixIs([OPEN_BRACE], [OPEN_BRACE], EntriesFrom(fs, ks, 0) + x, EntriesFrom(gs, ls, 0) + y);
    EntriesDetermine(a, b, 0, x, y);
    SameEntries(fs, gs);
  }

  lemma SameEntries(fs: seq<Field>, gs: seq<Field>)
    requires DistinctKeys(fs) && DistinctKeys(gs)
    requires forall k :: k in DefinedKeys(fs) <==> k in DefinedKeys(gs)
    requires forall k :: k in DefinedKeys(fs) ==> Equiv(ValueOf(fs, k), ValueOf(gs, k))
    ensures Equiv(Obj(fs), Obj(gs))
  {
    forall k ensures Defines(fs, k) <==> Defines(gs, k) {
      KeysAreDefined(fs, k);
      KeysAreDefined(gs, k);
    }
    forall i, j | 0 <= i < |fs| && 0 <= j < |gs| && fs[i].key == gs[j].key
                  && !fs[i].value.Undefined? && !gs[j].value.Undefined?
      ensures Equiv(fs[i].value, gs[j].value)
    {
      KeysAreDefined(fs, fs[i].key);
      ValueIs(fs, i);
      ValueIs(gs, j);
    }
  }

  /** With distinct keys, a defined entry is the one printed for its key. */
  lemma ValueIs(fields: seq<Field>, i: nat)
    requires DistinctKeys(fields) && i < |fields| && !fields[i].value.Undefined?
    ensures fields[i].key in DefinedKeys(fields) && ValueOf(fields, fields[i].key) == fields[i].value
  {
    KeysAreDefined(fields, fields[i].key);
    var j := IndexOf(fields, fields[i].key);
    assert j == i;
  }

  /** What follows the value of key `i`. */
  function AfterEntry(fields: seq<Field>, keys: seq<Text>, i: nat): (r: Text)
    requires i < |keys| && forall k :: k in keys ==> k in DefinedKeys(fields)
    ensures r != [] && (r[0] == COMMA || r[0] == CLOSE_BRACE)
    ensures r[0] == CLOSE_BRACE <==> i + 1 == |keys|
  {
    if i + 1 == |keys| then [CLOSE_BRACE] else [COMMA] + EntriesFrom(fields, keys, i + 1)
  }

  lemma Regroup(q: Text, c: Text, p: Text, r: Text, x: Text)
    ensures (q + (c + (p + r))) + x == q + (c + (p + (r + x)))
  {
    assert (p + r) + x == p + (r + x);
    assert (c + (p + r)) + x == c + ((p + r) + x);
    assert (q + (c + (p + r))) + x == q + ((c + (p + r)) + x);
  }

  lemma EntryThen(fields: seq<Field>, keys: seq<Text>, i: nat, x: Text)
    requires i < |keys| && forall k :: k in keys ==> k in DefinedKeys(fields)
    ensures EntriesFrom(fields, keys, i) + x
            == Quote(keys[i]) + ([COLON] + (Print(ValueOf(fields, keys[i])) + (AfterEntry(fields, keys, i) + x)))
    ensures Stops(AfterEntry(fields, keys, i) + x)
    ensures (EntriesFrom(fields, keys, i) + x)[0] == QUOTE
  {
    hide Print, Escaped, ValueOf;
    Regroup(Quote(keys[i]), [COLON], Print(ValueOf(fields, keys[i])), AfterEntry(fields, keys, i), x);
    assert Quote(keys[i])[0] == QUOTE;
  }

  lemma AfterEntryIs(fields: seq<Field>, keys: seq<Text>, i: nat, x: Text)
    requires i < |keys| && forall k :: k in keys ==> k in DefinedKeys(fields)
    ensures AfterEntry(fields, keys, i) + x
            == if i + 1 == |keys| then [CLOSE_BRACE] + x else [COMMA] + (EntriesFrom(fields, keys, i + 1) + x)
  {
    hide Print, Quote, EntriesFrom;
    if i + 1 < |keys| {
      assert ([COMMA] + EntriesFrom(fields, keys, i + 1)) + x == [COMMA] + (EntriesFrom(fields, keys, i + 1) + x);
    }
  }

  lemma HeadsDiffer(x: Text, y: Text)
    ensures [CLOSE_BRACE] + x != [COMMA] + y
  {
    assert ([CLOSE_BRACE] + x)[0] != ([COMMA] + y)[0];
  }

  /** Equal continuations after entry `i`: both objects end here, or both go on with entry `i + 1`. */
  lemma NextEntry(fs: seq<Field>, ks: seq<Text>, gs: seq<Field>, ls: seq<Text>, i: nat, x: Text, y: Text)
    requires i < |ks| && forall k :: k in ks ==> k in DefinedKeys(fs)
    requires i < |ls| && forall k :: k in ls ==> k in DefinedKeys(gs)
    requires AfterEntry(fs, ks, i) + x == AfterEntry(gs, ls, i) + y
    ensures i + 1 == |ks| <==> i + 1 == |ls|
    ensures if i + 1 == |ks| then x == y else EntriesFrom(fs, ks, i + 1) + x == EntriesFrom(gs, ls, i + 1) + y
  {
    hide Print, Quote, EntriesFrom, AfterEntry;
    AfterEntryIs(fs, ks, i, x);
    AfterEntryIs(gs, ls, i, y);
    if i + 1 == |ks| && i + 1 == |ls| {
      PrefixIs([CLOSE_BRACE], [CLOSE_BRACE], x, y);
    } else if i + 1 == |ks| {
      HeadsDiffer(x, EntriesFrom(gs, ls, i + 1) + y);
    } else if i + 1 == |ls| {
      HeadsDiffer(y, EntriesFrom(fs, ks, i + 1) + x);
    } else {
      PrefixIs([COMMA], [COMMA], EntriesFrom(fs, ks, i + 1) + x, EntriesFrom(gs, ls, i + 1) + y);
    }
  }

  lemma NoMoreEntries(fs: seq<Field>, ks: seq<Text>, gs: seq<Field>, ls: seq<Text>, i: nat, x: Text, y: Text)
    requires i <= |ks| && i <= |ls| && (i == |ks| || i == |ls|)
    requires (forall k :: k in ks ==> k in DefinedKeys(fs)) && (forall k :: k in ls ==> k in DefinedKeys(gs))
    requires EntriesFrom(fs, ks, i) + x == EntriesFrom(gs, ls, i) + y
    ensures i == |ks| && i == |ls| && x == y
  {
    hide Print, Quote;
    if i < |ks| {
      EntryThen(fs, ks, i, x);
    }
    if i < |ls| {
      EntryThen(gs, ls, i, y);
    }
    assert ([CLOSE_BRACE] + x)[0] == CLOSE_BRACE && ([CLOSE_BRACE] + y)[0] == CLOSE_BRACE;
    PrefixIs([CLOSE_BRACE], [CLOSE_BRACE], x, y);
  }

  lemma {:induction false} EntriesDetermine(a: Json, b: Json, i: nat, x: Text, y: Text)
    requires IsJson(a) && IsJson(b) && Stops(x) && Stops(y) && a.Obj? && b.Obj?
    requires i <= |SortedKeys(a.fields)| && i <= |SortedKeys(b.fields)| && SortedKeys(a.fields)[..i] == SortedKeys(b.fields)[..i]
    requires EntriesFrom(a.fields, SortedKeys(a.fields), i) + x == EntriesFrom(b.fields, SortedKeys(b.fields), i) + y
    ensures SortedKeys(a.fields) == SortedKeys(b.fields) && x == y
    ensures forall k :: i <= k < |SortedKeys(a.fields)| ==>
              Equiv(ValueOf(a.fields, SortedKeys(a.fields)[k]), ValueOf(b.fields, SortedKeys(a.fields)[k]))
    decreases a, 0, |SortedKeys(a.fields)| - i
  {
    hide Print, Equiv, Quote, SortedKeys, EntriesFrom, AfterEntry, Stops;
    var fs, gs := a.fields, b.fields;
    var ks, ls := SortedKeys(fs), SortedKeys(gs);
    if i == |ks| || i == |ls| {
      NoMoreEntries(fs, ks, gs, ls, i, x, y);
      assert ks == ks[..i] && ls == ls[..i];
    } else {
      EntryThen(fs, ks, i, x);
      EntryThen(gs, ls, i, y);
      var u, v := ValueOf(fs, ks[i]), ValueOf(gs, ls[i]);
      var p, q := AfterEntry(fs, ks, i) + x, AfterEntry(gs, ls, i) + y;
      QuoteDetermines(ks[i], ls[i], [COLON] + (Print(u) + p), [COLON] + (Print(v) + q));
      PrefixIs([COLON], [COLON], Print(u) + p, Print(v) + q);
      PrintDetermines(u, v, p, q);
      NextEntry(fs, ks, gs, ls, i, x, y);
      assert ks[..i + 1] == ks[..i] + [ks[i]] && ls[..i + 1] == ls[..i] + [ls[i]];
      if i + 1 == |ks| {
        assert ks == ks[..i + 1] && ls == ls[..i + 1];
      } else {
        EntriesDetermine(a, b, i + 1, x, y);
      }
    }
  }

  // ---------------------------------------------------------------- sorted keys are unique

  lemma {:induction false} LessIsTotal(a: Text, b: Text)
    ensures Less(a, b) || a == b || Less(b, a)
    ensures !(Less(a, b) && Less(b, a)) && !Less(a, a)
  {
    if a != [] && b != [] {
      LessIsTotal(a[1..], b[1..]);
      assert a[0] == b[0] && a[1..] == b[1..] ==> a == [a[0]] + a[1..] && b == [b[0]] + b[1..];
    }
    if a != [] {
      LessIsTotal(a[1..], a[1..]);
    }
  }

  lemma {:induction false} LessIsTransitive(a: Text, b: Text, c: Text)
    requires Less(a, b) && Less(b, c)
    ensures Less(a, c)
  {
    if a != [] && a[0] == b[0] == c[0] {
      LessIsTransitive(a[1..], b[1..], c[1..]);
    }
  }

  ghost predicate Ascending(keys: seq<Text>) {
    forall i, j :: 0 <= i < j < |keys| ==> Less(keys[i], keys[j])
  }

  lemma {:induction false} InsertAscends(k: Text, keys: seq<Text>)
    requires Ascending(keys) && k !in keys
    ensures Ascending(Insert(k, keys))
  {
    hide Less;
    if keys == [] {
    } else if Less(k, keys[0]) {
      forall j | 0 <= j < |keys| ensures Less(k, keys[j]) {
        if j > 0 {
          LessIsTransitive(k, keys[0], keys[j]);
        }
      }
    } else {
      LessIsTotal(k, keys[0]);
      InsertAscends(k, keys[1..]);
      InsertKeeps(k, keys[1..]);
      var rest := Insert(k, keys[1..]);
      forall j | 0 <= j < |rest| ensures Less(keys[0], rest[j]) {
        assert rest[j] in rest;
        if rest[j] != k {
          var n :| 0 <= n < |keys[1..]| && keys[1..][n] == rest[j];
          assert keys[n + 1] == rest[j];
        }
      }
    }
  }

  lemma {:induction false} SortAscends(keys: seq<Text>)
    requires forall i, j :: 0 <= i < j < |keys| ==> keys[i] != keys[j]
    ensures Ascending(Sort(keys))
  {
    if keys != [] {
      SortAscends(keys[1..]);
      SortKeeps(keys[1..]);
      InsertAscends(keys[0], Sort(keys[1..]));
    }
  }

  lemma {:induction false} DefinedKeysAreDistinct(fields: seq<Field>)
    requires DistinctKeys(fields)
    ensures forall i, j :: 0 <= i < j < |DefinedKeys(fields)| ==> DefinedKeys(fields)[i] != DefinedKeys(fields)[j]
  {
    if fields != [] {
      DefinedKeysAreDistinct(fields[1..]);
      KeysAreDefined(fields[1..], fields[0].key);
    }
  }

  /** Two ascending lists with the same members are the same list. */
  lemma {:induction false} AscendingIsUnique(p: seq<Text>, q: seq<Text>)
    requires Ascending(p) && Ascending(q) && forall k :: k in p <==> k in q
    ensures p == q
  {
    hide Less;
    assert q == [] || q[0] in q;
    if p == [] {
    } else {
      assert p[0] in p && p[0] in q;
      assert q[0] in q && q[0] in p;
      SameLeast(p, q);
      forall k ensures k in p[1..] <==> k in q[1..] {
        MemberOfTail(p, k);
        MemberOfTail(q, k);
      }
      AscendingIsUnique(p[1..], q[1..]);
      assert p == [p[0]] + p[1..] && q == [q[0]] + q[1..];
    }
  }

  lemma MemberOfTail(p: seq<Text>, k: Text)
    requires p != [] && Ascending(p)
    ensures k in p[1..] <==> k in p && k != p[0]
  {
    hide Less;
    LessIsTotal(p[0], p[0]);
    assert k in p && k != p[0] ==> k in p[1..] by {
      assert p == [p[0]] + p[1..];
    }
  }

  lemma LeastIs(p: seq<Text>, k: Text)
    requires Ascending(p) && k in p
    ensures k == p[0] || Less(p[0], k)
  {
    hide Less;
  }

  lemma SameLeast(p: seq<Text>, q: seq<Text>)
    requires Ascending(p) && Ascending(q) && p != [] && q != [] && p[0] in q && q[0] in p
    ensures p[0] == q[0]
  {
    hide Less, Ascending;
    LeastIs(p, q[0]);
    LeastIs(q, p[0]);
    LessIsTotal(p[0], q[0]);
  }

  /** The order of keys: at the first place where they differ the lower code unit comes first, and a
      key comes before its continuations. */
  predicate Precedes(k: Text, l: Text) {
    exists n :: 0 <= n <= |k| && n <= |l| && k[..n] == l[..n] && ((n == |k| && n < |l|) || (n < |k| && n < |l| && k[n] < l[n]))
  }

  lemma {:induction false} LessIsPrecedes(k: Text, l: Text)
    ensures Less(k, l) <==> Precedes(k, l)
  {
    if k == [] || l == [] {
      assert k[..0] == l[..0];
    } else if k[0] != l[0] {
      assert k[..0] == l[..0];
      forall n | 0 < n <= |k| && n <= |l| ensures k[..n] != l[..n] {
        assert k[..n][0] != l[..n][0];
      }
    } else {
      LessIsPrecedes(k[1..], l[1..]);
      forall n | 0 <= n <= |k| - 1 && n <= |l| - 1 ensures k[..n + 1] == l[..n + 1] <==> k[1..][..n] == l[1..][..n] {
        assert k[..n + 1] == [k[0]] + k[1..][..n] && l[..n + 1] == [l[0]] + l[1..][..n];
        assert k[1..][..n] == k[..n + 1][1..] && l[1..][..n] == l[..n + 1][1..];
      }
      if Precedes(k[1..], l[1..]) {
        var n :| 0 <= n <= |k| - 1 && n <= |l| - 1 && k[1..][..n] == l[1..][..n]
                 && ((n == |k| - 1 && n < |l| - 1) || (n < |k| - 1 && n < |l| - 1 && k[1..][n] < l[1..][n]));
        assert k[..n + 1] == l[..n + 1];
      }
      if Precedes(k, l) {
        var n :| 0 <= n <= |k| && n <= |l| && k[..n] == l[..n] && ((n == |k| && n < |l|) || (n < |k| && n < |l| && k[n] < l[n]));
        assert k[..n - 1 + 1] == l[..n - 1 + 1];
        assert k[1..][..n - 1] == l[1..][..n - 1];
      }
    }
  }

  /** The keys of an object are printed in ascending UTF-16 order, each exactly once. */
  lemma KeysAscend(fields: seq<Field>, i: nat, j: nat)
    requires DistinctKeys(fields) && i < j < |SortedKeys(fields)|
    ensures var k, l := SortedKeys(fields)[i], SortedKeys(fields)[j];
            exists n :: 0 <= n <= |k| && n <= |l| && k[..n] == l[..n] && ((n == |k| && n < |l|) || (n < |k| && n < |l| && k[n] < l[n]))
  {
    hide Less;
    DefinedKeysAreDistinct(fields);
    SortAscends(DefinedKeys(fields));
    LessIsPrecedes(SortedKeys(fields)[i], SortedKeys(fields)[j]);
  }

  lemma SortedKeysAreUnique(fs: seq<Field>, gs: seq<Field>)
    requires DistinctKeys(fs) && DistinctKeys(gs)
    requires forall k :: Defines(fs, k) <==> Defines(gs, k)
    ensures SortedKeys(fs) == SortedKeys(gs)
  {
    hide Defines, Less;
    DefinedKeysAreDistinct(fs);
    DefinedKeysAreDistinct(gs);
    SortAscends(DefinedKeys(fs));
    SortAscends(DefinedKeys(gs));
    forall k ensures k in SortedKeys(fs) <==> k in SortedKeys(gs) {
      KeysAreDefined(fs, k);
      KeysAreDefined(gs, k);
    }
    AscendingIsUnique(SortedKeys(fs), SortedKeys(gs));
  }

  // ---------------------------------------------------------------- equivalent values print the same

  lemma {:induction false} EquivPrints(a: Json, b: Json)
    requires IsJson(a) && IsJson(b) && Equiv(a, b)
    ensures Print(a) == Print(b)
    decreases a
  {
    match a
    case Undefined =>
    case Null =>
    case Bool(_) =>
    case Num(_) =>
    case Str(_) =>
    case Arr(xs) =>
      if Blank(xs) {
        BlankPrints(xs);
        BlankPrints(b.items);
      } else {
        forall i | 0 <= i < |xs| ensures Print(xs[i]) == Print(b.items[i]) {
          EquivPrints(xs[i], b.items[i]);
        }
        assert Prints(xs) == Prints(b.items);
      }
    case Obj(fs) =>
      var gs := b.fields;
      SortedKeysAreUnique(fs, gs);
      var keys := SortedKeys(fs);
      forall i | 0 <= i < |keys| ensures Print(ValueOf(fs, keys[i])) == Print(ValueOf(gs, keys[i])) {
        EquivPrints(ValueOf(fs, keys[i]), ValueOf(gs, keys[i]));
      }
      SameLines(fs, gs, keys);
  }

  lemma BlankPrints(xs: seq<Json>)
    requires Blank(xs)
    ensures Print(Arr(xs)) == [OPEN_BRACKET, CLOSE_BRACKET]
  {
    ArrayPrints(xs);
  }

  lemma SameLines(fs: seq<Field>, gs: seq<Field>, keys: seq<Text>)
    requires keys == SortedKeys(fs) == SortedKeys(gs)
    requires forall i :: 0 <= i < |keys| ==> Print(ValueOf(fs, keys[i])) == Print(ValueOf(gs, keys[i]))
    ensures Print(Obj(fs)) == Print(Obj(gs))
  {
    hide Quote, SortedKeys;
    ObjectPrints(fs);
    ObjectPrints(gs);
    EntriesJoin(fs, keys, 0);
    EntriesJoin(gs, keys, 0);
    assert Lines(fs, keys) == Lines(gs, keys) by {
      hide Print;
    }
    hide Print;
  }

  /** The canonical text is the same exactly for values that are equal up to key order, undefined
      entries, undefined for null, and `[null]` for `[]`, at any depth. */
  lemma PrintIsCanonical(a: Json, b: Json)
    requires IsJson(a) && IsJson(b)
    ensures Print(a) == Print(b) <==> Equiv(a, b)
  {
    if Print(a) == Print(b) {
      assert Print(a) + [] == Print(b) + [];
      PrintDetermines(a, b, [], []);
    }
    if Equiv(a, b) {
      EquivPrints(a, b);
    }
  }
}
