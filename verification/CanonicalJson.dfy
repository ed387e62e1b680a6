/** The canonical JSON text that sizes an approval card and that request digests cover (broker/approval_summary.py,
    canonical): keys sorted, compact separators, everything but printable ASCII escaped. Objects keep their
    insertion order until they are written. */
module CanonicalJson {
  import opened PythonText

  datatype Field = Field(name: string, value: Json)

  datatype Json =
    | Null
    | Bool(b: bool)
    | Number(text: string)
    | Str(s: string)
    | List(items: seq<Json>)
    | Object(fields: seq<Field>)

  // ---- strings ------------------------------------------------------------------------------------

  function HexDigit(d: int): char
    requires 0 <= d < 16
  {
    if d < 10 then '0' + d as char else 'a' + (d - 10) as char
  }

  function HexPair(n: int): string
    requires 0 <= n < 256
  {
    [HexDigit(n / 16), HexDigit(n % 16)]
  }

  /** A UTF-16 code unit as JSON escapes it. */
  function Unit(n: int): (r: string)
    requires 0 <= n < 0x10000
    ensures |r| == 6
  {
    "\\u" + HexPair(n / 256) + HexPair(n % 256)
  }

  function Escape(c: char): string {
    var n := c as int;
    if c == '"' then "\\\""
    else if c == '\\' then "\\\\"
    else if c == '\n' then "\\n"
    else if c == '\r' then "\\r"
    else if c == '\t' then "\\t"
    else if n == 8 then "\\b"
    else if n == 12 then "\\f"
    else if ' ' <= c <= '~' then [c]
    else if n < 0x10000 then Unit(n)
    else Unit(0xD800 + (n - 0x10000) / 1024) + Unit(0xDC00 + (n - 0x10000) % 1024)
  }

  function Escaped(s: string): string {
    if s == "" then "" else Escape(s[0]) + Escaped(s[1..])
  }

  function Quote(s: string): string {
    ['"'] + Escaped(s) + ['"']
  }

  // ---- values -------------------------------------------------------------------------------------

  /** A value written with its fields in the order given. */
  function Written(value: Json): string
    decreases value, 1, 0
  {
    match value
    case Null => "null"
    case Bool(b) => if b then "true" else "false"
    case Number(text) => text
    case Str(s) => Quote(s)
    case List(items) => "[" + WrittenItems(value, items) + "]"
    case Object(fields) => "{" + WrittenFields(value, fields) + "}"
  }

  function WrittenItems(value: Json, items: seq<Json>): string
    requires forall i | 0 <= i < |items| :: items[i] < value
    decreases value, 0, |items|
  {
    if items == [] then ""
    else Written(items[0]) + (if |items| == 1 then "" else ",") + WrittenItems(value, items[1..])
  }

  function WrittenFields(value: Json, fields: seq<Field>): string
    requires forall f | f in fields :: f.value < value
    decreases value, 0, |fields|
  {
    if fields == [] then ""
    else Quote(fields[0].name) + ":" + Written(fields[0].value) + (if |fields| == 1 then "" else ",")
         + WrittenFields(value, fields[1..])
  }

  function Inserted(f: Field, fields: seq<Field>): seq<Field> {
    if fields == [] || Leq(f.name, fields[0].name) then [f] + fields else [fields[0]] + Inserted(f, fields[1..])
  }

  /** sorted, by name. */
  function ByName(fields: seq<Field>): seq<Field> {
    if fields == [] then [] else Inserted(fields[0], ByName(fields[1..]))
  }

  /** The value with the fields of every object sorted. */
  function Ordered(value: Json): Json {
    match value
    case List(items) => List(OrderedItems(items))
    case Object(fields) => Object(ByName(OrderedFields(fields)))
    case _ => value
  }

  function OrderedItems(items: seq<Json>): (r: seq<Json>)
    ensures |r| == |items| && forall i | 0 <= i < |items| :: r[i] == Ordered(items[i])
  {
    seq(|items|, i requires 0 <= i < |items| => Ordered(items[i]))
  }

  function OrderedFields(fields: seq<Field>): (r: seq<Field>)
    ensures |r| == |fields|
    ensures forall i | 0 <= i < |fields| :: r[i] == Field(fields[i].name, Ordered(fields[i].value))
  {
    seq(|fields|, i requires 0 <= i < |fields| => Field(fields[i].name, Ordered(fields[i].value)))
  }

  function Canonical(value: Json): string {
    Written(Ordered(value))
  }

  // ---- a string's text tells where it ends --------------------------------------------------------

  lemma HexPairInjective(n: int, m: int)
    requires 0 <= n < 256 && 0 <= m < 256 && HexPair(n) == HexPair(m)
    ensures n == m
  {
    assert HexPair(n)[0] == HexPair(m)[0] && HexPair(n)[1] == HexPair(m)[1];
    assert n / 16 == m / 16 && n % 16 == m % 16;
  }

  lemma UnitInjective(n: int, m: int)
    requires 0 <= n < 0x10000 && 0 <= m < 0x10000 && Unit(n) == Unit(m)
    ensures n == m
  {
    assert Unit(n)[2..4] == HexPair(n / 256) && Unit(n)[4..] == HexPair(n % 256);
    assert Unit(m)[2..4] == HexPair(m / 256) && Unit(m)[4..] == HexPair(m % 256);
    hide HexPair;
    HexPairInjective(n / 256, m / 256);
    HexPairInjective(n % 256, m % 256);
  }

  lemma SameLength<T>(a: seq<T>, b: seq<T>, s: seq<T>, t: seq<T>)
    requires |a| == |b| && a + s == b + t
    ensures a == b && s == t
  {
    assert a == (a + s)[..|a|] && b == (b + t)[..|b|];
    assert s == (a + s)[|a|..] && t == (b + t)[|b|..];
  }

  lemma UnitPrefix(n: int, m: int, s: string, t: string)
    requires 0 <= n < 0x10000 && 0 <= m < 0x10000 && Unit(n) + s == Unit(m) + t
    ensures n == m && s == t
  {
    hide Unit;
    SameLength(Unit(n), Unit(m), s, t);
    UnitInjective(n, m);
  }

  /** How an escaped character begins: as itself, or with a backslash and what kind of escape it is. */
  lemma EscapeKind(c: char)
    ensures Escape(c) != "" && Escape(c)[0] != '"'
    ensures Escape(c)[0] == '\\' <==> |Escape(c)| > 1
    ensures |Escape(c)| > 1 ==> (Escape(c)[1] == 'u' <==> |Escape(c)| > 2)
  {
  }

  lemma EscapePrefix(c: char, d: char, s: string, t: string)
    requires Escape(c) + s == Escape(d) + t
    ensures c == d && s == t
  {
    var x, y := Escape(c) + s, Escape(d) + t;
    EscapeKind(c);
    EscapeKind(d);
    assert x[0] == Escape(c)[0] && y[0] == Escape(d)[0];
    if |Escape(c)| > 1 {
      assert x[1] == Escape(c)[1] && y[1] == Escape(d)[1];
    }
    if |Escape(c)| <= 2 {
      SameLength(Escape(c), Escape(d), s, t);
    } else {
      UnitsPrefix(c, d, s, t);
    }
  }

  lemma UnitsPrefix(c: char, d: char, s: string, t: string)
    requires |Escape(c)| > 2 && |Escape(d)| > 2 && Escape(c) + s == Escape(d) + t
    ensures c == d && s == t
  {
    hide Unit;
    var n, m := c as int, d as int;
    var high, low := (k: int) => 0xD800 + (k - 0x10000) / 1024, (k: int) => 0xDC00 + (k - 0x10000) % 1024;
    var s' := if n < 0x10000 then s else Unit(low(n)) + s;
    var t' := if m < 0x10000 then t else Unit(low(m)) + t;
    var n', m' := if n < 0x10000 then n else high(n), if m < 0x10000 then m else high(m);
    assert Unit(n') + s' == Unit(m') + t' by {
      if n >= 0x10000 {
        Associative(Unit(n'), Unit(low(n)), s);
      }
      if m >= 0x10000 {
        Associative(Unit(m'), Unit(low(m)), t);
      }
    }
    UnitPrefix(n', m', s', t');
    if n >= 0x10000 {
      UnitPrefix(low(n), low(m), s, t);
    }
  }

  lemma Enclosed(open: char, inner: string, close: char, s: string)
    ensures ([open] + inner + [close] + s)[1..] == inner + ([close] + s)
    ensures ([close] + s)[1..] == s
  {
  }

  lemma SamePair<T>(a: seq<T>, b: seq<T>)
    requires a != [] && b != [] && a[0] == b[0] && a[1..] == b[1..]
    ensures a == b
  {
    assert a == [a[0]] + a[1..] && b == [b[0]] + b[1..];
  }

  lemma EscapedStart(a: string, end: string)
    requires end != "" && end[0] == '"'
    ensures (Escaped(a) + end)[0] == '"' <==> a == ""
    ensures a != "" ==> Escaped(a) + end == Escape(a[0]) + (Escaped(a[1..]) + end)
  {
    hide Escape;
    if a != "" {
      EscapeKind(a[0]);
      Associative(Escape(a[0]), Escaped(a[1..]), end);
    }
  }

  lemma {:induction false} EscapedPrefix(a: string, b: string, end: string, end': string)
    requires end != "" && end' != "" && end[0] == end'[0] == '"'
    requires Escaped(a) + end == Escaped(b) + end'
    ensures a == b && end == end'
  {
    hide Escape;
    EscapedStart(a, end);
    EscapedStart(b, end');
    if a == "" {
      assert Escaped(a) + end == end && Escaped(b) + end' == end';
    } else {
      EscapePrefix(a[0], b[0], Escaped(a[1..]) + end, Escaped(b[1..]) + end');
      EscapedPrefix(a[1..], b[1..], end, end');
      SamePair(a, b);
    }
  }

  lemma QuotePrefix(a: string, b: string, s: string, t: string)
    requires Quote(a) + s == Quote(b) + t
    ensures a == b && s == t
  {
    hide Escaped;
    Enclosed('"', Escaped(a), '"', s);
    Enclosed('"', Escaped(b), '"', t);
    EscapedPrefix(a, b, ['"'] + s, ['"'] + t);
  }

  // ---- a value's text determines it ---------------------------------------------------------------

  predicate NumberChar(c: char) {
    '0' <= c <= '9' || c in "+-.e"
  }

  /** Numbers hold the text of a number. */
  predicate Proper(value: Json) {
    match value
    case Number(text) => text != "" && forall c | c in text :: NumberChar(c)
    case List(items) => forall x | x in items :: Proper(x)
    case Object(fields) => forall f | f in fields :: Proper(f.value)
    case _ => true
  }

  /** What may follow a value: the end, or a character no number holds. */
  predicate Stops(s: string) {
    s != "" ==> !NumberChar(s[0])
  }

  /** How many number characters a text begins with. */
  function NumberLength(s: string): nat {
    if s == "" || !NumberChar(s[0]) then 0 else 1 + NumberLength(s[1..])
  }

  lemma {:induction false} NumberEnds(a: string, s: string)
    requires (forall c | c in a :: NumberChar(c)) && Stops(s)
    ensures NumberLength(a + s) == |a|
  {
    if a != "" {
      NumberEnds(a[1..], s);
      assert (a + s)[1..] == a[1..] + s;
    } else {
      assert a + s == s;
    }
  }

  lemma NumberPrefix(a: string, b: string, s: string, t: string)
    requires (forall c | c in a :: NumberChar(c)) && forall c | c in b :: NumberChar(c)
    requires Stops(s) && Stops(t) && a + s == b + t
    ensures a == b && s == t
  {
    NumberEnds(a, s);
    NumberEnds(b, t);
    SameLength(a, b, s, t);
  }

  /** The first character tells which kind of value follows, and ends no list or object. */
  lemma FirstCharacter(value: Json)
    requires Proper(value)
    ensures Written(value) != ""
    ensures var c := Written(value)[0];
            && c !in ",]}" && (c == 'n' <==> value.Null?)
            && (c == 't' <==> value == Bool(true)) && (c == 'f' <==> value == Bool(false))
            && (c == '"' <==> value.Str?) && (c == '[' <==> value.List?) && (c == '{' <==> value.Object?)
  {
    if value.Number? {
      assert value.text[0] in value.text;
    }
  }

  lemma {:induction false} WrittenPrefix(x: Json, y: Json, s: string, t: string)
    requires Proper(x) && Proper(y) && Stops(s) && Stops(t) && Written(x) + s == Written(y) + t
    ensures x == y && s == t
    decreases x, 1, 0
  {
    hide Quote, NumberChar, WrittenItems, WrittenFields, Stops;
    var u, v := Written(x) + s, Written(y) + t;
    FirstCharacter(x);
    FirstCharacter(y);
    assert u[0] == Written(x)[0] && v[0] == Written(y)[0];
    match x
    case Number(a) => NumberPrefix(a, y.text, s, t);
    case Str(a) => QuotePrefix(a, y.s, s, t);
    case List(items) =>
      Enclosed('[', WrittenItems(x, items), ']', s);
      Enclosed('[', WrittenItems(y, y.items), ']', t);
      ItemsPrefix(x, y, items, y.items, "]" + s, "]" + t);
    case Object(fields) =>
      Enclosed('{', WrittenFields(x, fields), '}', s);
      Enclosed('{', WrittenFields(y, y.fields), '}', t);
      FieldsPrefix(x, y, fields, y.fields, "}" + s, "}" + t);
    case _ =>
      SameLength(Written(x), Written(y), s, t);
  }

  /** What follows an item: a comma and the rest, or the end of the list. */
  function Rest(more: string, last: bool, end: string): string {
    if last then end else "," + more + end
  }

  lemma ItemsStart(x: Json, items: seq<Json>, end: string)
    requires forall i | 0 <= i < |items| :: items[i] < x && Proper(items[i])
    requires end != "" && end[0] == ']'
    ensures (WrittenItems(x, items) + end)[0] == ']' <==> items == []
    ensures items != [] ==> (WrittenItems(x, items) + end
                             == Written(items[0]) + Rest(WrittenItems(x, items[1..]), |items| == 1, end))
  {
    hide Written, Proper;
    if items != [] {
      FirstCharacter(items[0]);
      Resting(Written(items[0]), WrittenItems(x, items[1..]), |items| == 1, end);
    }
  }

  lemma Resting(first: string, more: string, last: bool, end: string)
    requires first != "" && (last ==> more == "")
    ensures first + (if last then "" else ",") + more + end == first + Rest(more, last, end)
    ensures (first + Rest(more, last, end))[0] == first[0]
  {
  }

  lemma RestSame(more: string, other: string, last: bool, last': bool, end: string, end': string)
    requires end != "" && end' != "" && end[0] == end'[0] != ','
    requires Rest(more, last, end) == Rest(other, last', end')
    ensures last == last'
    ensures if last then end == end' else more + end == other + end'
  {
    var p, q := Rest(more, last, end), Rest(other, last', end');
    assert p[0] == if last then end[0] else ',';
    assert q[0] == if last' then end'[0] else ',';
    if !last {
      assert p[1..] == more + end && q[1..] == other + end';
    }
  }

  lemma {:induction false} ItemsPrefix(x: Json, y: Json, items: seq<Json>, others: seq<Json>, end: string, end': string)
    requires forall i | 0 <= i < |items| :: items[i] < x && Proper(items[i])
    requires forall i | 0 <= i < |others| :: others[i] < y && Proper(others[i])
    requires end != "" && end' != "" && end[0] == end'[0] == ']'
    requires WrittenItems(x, items) + end == WrittenItems(y, others) + end'
    ensures items == others && end == end'
    decreases x, 0, |items|
  {
    hide Written, Rest, Stops;
    ItemsStart(x, items, end);
    ItemsStart(y, others, end');
    if items == [] {
      assert WrittenItems(x, items) + end == end && WrittenItems(y, others) + end' == end';
    } else {
      hide WrittenItems;
      var more, other := WrittenItems(x, items[1..]), WrittenItems(y, others[1..]);
      RestStops(more, |items| == 1, end);
      RestStops(other, |others| == 1, end');
      WrittenPrefix(items[0], others[0], Rest(more, |items| == 1, end), Rest(other, |others| == 1, end'));
      RestSame(more, other, |items| == 1, |others| == 1, end, end');
      if |items| > 1 {
        ItemsPrefix(x, y, items[1..], others[1..], end, end');
      }
      SamePair(items, others);
    }
  }

  lemma RestStops(more: string, last: bool, end: string)
    requires end != "" && end[0] in "]}"
    ensures Stops(Rest(more, last, end))
  {
  }

  lemma FieldsStart(x: Json, fields: seq<Field>, end: string)
    requires forall f | f in fields :: f.value < x
    requires end != "" && end[0] == '}'
    ensures (WrittenFields(x, fields) + end)[0] == '}' <==> fields == []
    ensures fields != [] ==> (WrittenFields(x, fields) + end
                              == Quote(fields[0].name)
                                 + (":" + (Written(fields[0].value)
                                           + Rest(WrittenFields(x, fields[1..]), |fields| == 1, end))))
  {
    hide Escaped, Written;
    if fields != [] {
      var quoted, more := Quote(fields[0].name) + ":", WrittenFields(x, fields[1..]);
      Resting(quoted + Written(fields[0].value), more, |fields| == 1, end);
      Associative(quoted, Written(fields[0].value), Rest(more, |fields| == 1, end));
      Associative(Quote(fields[0].name), ":", Written(fields[0].value) + Rest(more, |fields| == 1, end));
    }
  }

  lemma {:induction false} FieldsPrefix(x: Json, y: Json, fields: seq<Field>, others: seq<Field>, end: string,
                                        end': string)
    requires forall f | f in fields :: f.value < x && Proper(f.value)
    requires forall f | f in others :: f.value < y && Proper(f.value)
    requires end != "" && end' != "" && end[0] == end'[0] == '}'
    requires WrittenFields(x, fields) + end == WrittenFields(y, others) + end'
    ensures fields == others && end == end'
    decreases x, 0, |fields|
  {
    hide Written, Quote, Rest, Stops;
    FieldsStart(x, fields, end);
    FieldsStart(y, others, end');
    if fields == [] {
      assert WrittenFields(x, fields) + end == end && WrittenFields(y, others) + end' == end';
    } else {
      hide WrittenFields;
      var f, g := fields[0], others[0];
      var more, other := WrittenFields(x, fields[1..]), WrittenFields(y, others[1..]);
      var p, q := Rest(more, |fields| == 1, end), Rest(other, |others| == 1, end');
      var u, v := ":" + (Written(f.value) + p), ":" + (Written(g.value) + q);
      QuotePrefix(f.name, g.name, u, v);
      assert u[1..] == Written(f.value) + p && v[1..] == Written(g.value) + q;
      RestStops(more, |fields| == 1, end);
      RestStops(other, |others| == 1, end');
      WrittenPrefix(f.value, g.value, p, q);
      RestSame(more, other, |fields| == 1, |others| == 1, end, end');
      if |fields| > 1 {
        FieldsPrefix(x, y, fields[1..], others[1..], end, end');
      }
      SamePair(fields, others);
    }
  }

  lemma {:induction false} InsertedProper(f: Field, fields: seq<Field>)
    ensures multiset(Inserted(f, fields)) == multiset([f] + fields)
  {
    if fields != [] {
      assert fields == [fields[0]] + fields[1..];
      if !Leq(f.name, fields[0].name) {
        InsertedProper(f, fields[1..]);
      }
    }
  }

  lemma {:induction false} SameFields(fields: seq<Field>)
    ensures multiset(ByName(fields)) == multiset(fields)
  {
    if fields != [] {
      SameFields(fields[1..]);
      InsertedProper(fields[0], ByName(fields[1..]));
      assert fields == [fields[0]] + fields[1..];
    }
  }

  lemma {:induction false} OrderedProper(value: Json)
    requires Proper(value)
    ensures Proper(Ordered(value))
  {
    match value
    case List(items) =>
      forall x | x in items ensures Proper(Ordered(x)) {
        OrderedProper(x);
      }
    case Object(fields) =>
      forall f | f in fields ensures Proper(Ordered(f.value)) {
        OrderedProper(f.value);
      }
      SameFields(OrderedFields(fields));
      forall f | f in ByName(OrderedFields(fields)) ensures Proper(f.value) {
        assert f in multiset(OrderedFields(fields));
      }
    case _ =>
  }

  /** The text determines the value, up to the order of fields. */
  lemma CanonicalInjective(x: Json, y: Json)
    requires Proper(x) && Proper(y)
    ensures Canonical(x) == Canonical(y) <==> Ordered(x) == Ordered(y)
  {
    if Canonical(x) == Canonical(y) {
      OrderedProper(x);
      OrderedProper(y);
      assert Canonical(x) + "" == Canonical(y) + "";
      WrittenPrefix(Ordered(x), Ordered(y), "", "");
    }
  }

  // ---- the order of fields does not matter --------------------------------------------------------

  predicate DistinctNames(fields: seq<Field>) {
    forall i, j | 0 <= i < j < |fields| :: fields[i].name != fields[j].name
  }

  /** Objects name each field once, as every dict does. */
  predicate Keyed(value: Json) {
    match value
    case List(items) => forall x | x in items :: Keyed(x)
    case Object(fields) => DistinctNames(fields) && forall f | f in fields :: Keyed(f.value)
    case _ => true
  }

  predicate SameField(f: Field, g: Field)
    decreases f, 0
  {
    f.name == g.name && Same(f.value, g.value)
  }

  /** Equality of parsed values: the order of an object's fields does not count. */
  predicate Same(x: Json, y: Json)
    decreases x, 1
  {
    match x
    case List(items) =>
      y.List? && |y.items| == |items| && forall i | 0 <= i < |items| :: Same(items[i], y.items[i])
    case Object(fields) =>
      && y.Object? && |y.fields| == |fields|
      && forall i | 0 <= i < |fields| :: exists j | 0 <= j < |fields| :: SameField(fields[i], y.fields[j])
    case _ => x == y
  }

  lemma {:induction false} InsertedCommute(f: Field, g: Field, fields: seq<Field>)
    requires f.name != g.name
    ensures Inserted(f, Inserted(g, fields)) == Inserted(g, Inserted(f, fields))
  {
    LeqTotal(f.name, g.name);
    if fields != [] {
      var h := fields[0].name;
      if Leq(f.name, h) && Leq(g.name, f.name) {
        LeqTransitive(g.name, f.name, h);
      }
      if Leq(g.name, h) && Leq(f.name, g.name) {
        LeqTransitive(f.name, g.name, h);
      }
      if !Leq(f.name, h) && !Leq(g.name, h) {
        InsertedCommute(f, g, fields[1..]);
      }
    }
  }

  function Without(fields: seq<Field>, j: nat): seq<Field>
    requires j < |fields|
  {
    fields[..j] + fields[j + 1..]
  }

  lemma {:induction false} ByNameMoved(fields: seq<Field>, j: nat)
    requires j < |fields| && DistinctNames(fields)
    ensures ByName(fields) == Inserted(fields[j], ByName(Without(fields, j)))
  {
    if j == 0 {
      assert Without(fields, 0) == fields[1..];
    } else {
      ByNameMoved(fields[1..], j - 1);
      assert Without(fields, j)[1..] == Without(fields[1..], j - 1);
      InsertedCommute(fields[0], fields[j], ByName(Without(fields[1..], j - 1)));
    }
  }

  lemma StillIn(fields: seq<Field>, j: nat, f: Field)
    requires j < |fields| && f in fields && f != fields[j]
    ensures f in Without(fields, j)
  {
    var k :| 0 <= k < |fields| && fields[k] == f;
    assert Without(fields, j)[if k < j then k else k - 1] == f;
  }

  lemma {:induction false} ByNamePermuted(fields: seq<Field>, others: seq<Field>)
    requires DistinctNames(fields) && DistinctNames(others) && |fields| == |others|
    requires forall f | f in fields :: f in others
    ensures ByName(fields) == ByName(others)
  {
    if fields != [] {
      assert fields[0] in others;
      var j :| 0 <= j < |others| && others[j] == fields[0];
      ByNameMoved(others, j);
      forall f | f in fields[1..] ensures f in Without(others, j) {
        var i :| 0 <= i < |fields[1..]| && fields[1..][i] == f;
        assert fields[i + 1] == f && f in others;
        StillIn(others, j, f);
      }
      ByNamePermuted(fields[1..], Without(others, j));
    }
  }

  lemma {:induction false} SameOrdered(x: Json, y: Json)
    requires Keyed(x) && Keyed(y)
    ensures Ordered(x) == Ordered(y) <==> Same(x, y)
    decreases x
  {
    hide ByName;
    match x
    case List(items) =>
      if y.List? && |y.items| == |items| {
        forall i | 0 <= i < |items| ensures Ordered(items[i]) == Ordered(y.items[i]) <==> Same(items[i], y.items[i]) {
          SameOrdered(items[i], y.items[i]);
        }
        var u, v := OrderedItems(items), OrderedItems(y.items);
        assert u == v <==> forall i | 0 <= i < |items| :: u[i] == v[i];
      }
    case Object(fields) =>
      if y.Object? {
        var f, g := OrderedFields(fields), OrderedFields(y.fields);
        forall i, j | 0 <= i < |fields| && 0 <= j < |y.fields|
          ensures f[i] == g[j] <==> SameField(fields[i], y.fields[j])
        {
          SameOrdered(fields[i].value, y.fields[j].value);
        }
        SameObjects(f, g, fields, y.fields);
      }
    case _ =>
  }

  lemma SortedElements(f: seq<Field>, g: seq<Field>)
    requires ByName(f) == ByName(g)
    ensures |f| == |g| && forall x | x in f :: x in g
  {
    SameFields(f);
    SameFields(g);
    assert |f| == |multiset(f)| && |g| == |multiset(g)|;
    forall x | x in f ensures x in g {
      assert x in multiset(f);
    }
  }

  /** f and g are the fields and the others with ordered values: equal exactly where these are the same. */
  ghost predicate Mirrors(f: seq<Field>, g: seq<Field>, fields: seq<Field>, others: seq<Field>) {
    && |f| == |fields| && |g| == |others|
    && forall i, j | 0 <= i < |f| && 0 <= j < |g| :: f[i] == g[j] <==> SameField(fields[i], others[j])
  }

  lemma SameSorted(f: seq<Field>, g: seq<Field>, fields: seq<Field>, others: seq<Field>)
    requires DistinctNames(f) && DistinctNames(g) && Mirrors(f, g, fields, others)
    requires Same(Object(fields), Object(others))
    ensures ByName(f) == ByName(g)
  {
    hide SameField, ByName;
    forall h | h in f ensures h in g {
      var i :| 0 <= i < |f| && f[i] == h;
      var j :| 0 <= j < |fields| && SameField(fields[i], others[j]);
      assert f[i] == g[j];
    }
    ByNamePermuted(f, g);
  }

  lemma SortedSame(f: seq<Field>, g: seq<Field>, fields: seq<Field>, others: seq<Field>)
    requires Mirrors(f, g, fields, others) && ByName(f) == ByName(g)
    ensures Same(Object(fields), Object(others))
  {
    hide SameField, ByName;
    SortedElements(f, g);
    forall i | 0 <= i < |fields| ensures exists j | 0 <= j < |fields| :: SameField(fields[i], others[j]) {
      assert f[i] in g;
      var j :| 0 <= j < |g| && g[j] == f[i];
      assert SameField(fields[i], others[j]);
    }
  }

  lemma SameObjects(f: seq<Field>, g: seq<Field>, fields: seq<Field>, others: seq<Field>)
    requires DistinctNames(f) && DistinctNames(g) && Mirrors(f, g, fields, others)
    ensures ByName(f) == ByName(g) <==> Same(Object(fields), Object(others))
  {
    hide Same, ByName, DistinctNames, Mirrors;
    if Same(Object(fields), Object(others)) {
      SameSorted(f, g, fields, others);
    } else if ByName(f) == ByName(g) {
      SortedSame(f, g, fields, others);
    }
  }

  /** Two values have the same canonical text exactly when they are the same value. */
  lemma CanonicalText(x: Json, y: Json)
    requires Proper(x) && Proper(y) && Keyed(x) && Keyed(y)
    ensures Canonical(x) == Canonical(y) <==> Same(x, y)
  {
    CanonicalInjective(x, y);
    SameOrdered(x, y);
  }
}
