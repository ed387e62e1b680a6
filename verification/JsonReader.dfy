/** Reading JSON text (RFC 8259): what any reader makes of the canonical text that broker/approval_summary.py writes. */
module JsonReader {
  import opened Wrappers
  import opened PythonText
  import opened CanonicalJson

  // ---- strings ------------------------------------------------------------------------------------

  function HexValue(c: char): Option<nat> {
    var n := c as int;
    if 48 <= n < 58 then Some(n - 48)
    else if 97 <= n < 103 then Some(n - 87)
    else if 65 <= n < 71 then Some(n - 55)
    else None
  }

  /** The code unit that four hexadecimal digits name. */
  function CodeUnit(s: string): (n: Option<nat>)
    ensures n.Some? ==> |s| >= 4 && n.value < 0x10000
  {
    if |s| < 4 then None
    else
      var (a, b, c, d) := (HexValue(s[0]), HexValue(s[1]), HexValue(s[2]), HexValue(s[3]));
      if a.None? || b.None? || c.None? || d.None? || a.value > 15 || b.value > 15 || c.value > 15 || d.value > 15
      then None
      else Some(4096 * a.value + 256 * b.value + 16 * c.value + d.value)
  }

  datatype Got<T> = Got(value: T, rest: string)

  /** Section 7: one character of a string, as it is or escaped; a pair of escaped surrogates is one character. */
  function ReadChar(s: string): (r: Option<Got<char>>)
    ensures r.Some? ==> |r.value.rest| < |s|
  {
    if s == "" || s[0] == '"' || s[0] as int < 32 then None
    else if s[0] != '\\' then Some(Got(s[0], s[1..]))
    else if |s| < 2 then None
    else
      match s[1]
      case '"' => Some(Got('"', s[2..]))
      case '\\' => Some(Got('\\', s[2..]))
      case '/' => Some(Got('/', s[2..]))
      case 'b' => Some(Got(8 as char, s[2..]))
      case 'f' => Some(Got(12 as char, s[2..]))
      case 'n' => Some(Got(10 as char, s[2..]))
      case 'r' => Some(Got(13 as char, s[2..]))
      case 't' => Some(Got(9 as char, s[2..]))
      case 'u' => ReadUnit(s[2..])
      case _ => None
  }

  function ReadUnit(s: string): (r: Option<Got<char>>)
    ensures r.Some? ==> |r.value.rest| < |s|
  {
    var high := CodeUnit(s);
    if high.None? then None
    else if high.value < 0xD800 || high.value >= 0xE000 then Some(Got(high.value as char, s[4..]))
    else if high.value >= 0xDC00 || |s| < 6 || s[4] != '\\' || s[5] != 'u' then None
    else
      var low := CodeUnit(s[6..]);
      if low.None? || low.value < 0xDC00 || low.value >= 0xE000 then None
      else Some(Got((0x10000 + 1024 * (high.value - 0xD800) + (low.value - 0xDC00)) as char, s[10..]))
  }

  /** The rest of a string after its opening quotation mark. */
  function ReadString(s: string): (r: Option<Got<string>>)
    ensures r.Some? ==> |r.value.rest| < |s|
    decreases |s|
  {
    if s != "" && s[0] == '"' then Some(Got("", s[1..]))
    else
      var c := ReadChar(s);
      if c.None? then None
      else
        var more := ReadString(c.value.rest);
        if more.None? then None else Some(Got([c.value.value] + more.value.value, more.value.rest))
  }

  // ---- values -------------------------------------------------------------------------------------

  /** Section 3: one value. A number is read as its text. */
  function ReadValue(s: string): (r: Option<Got<Json>>)
    ensures r.Some? ==> |r.value.rest| < |s|
    decreases |s|, 0
  {
    if s == "" then None
    else if "null" <= s then Some(Got(Null, s[4..]))
    else if "true" <= s then Some(Got(Bool(true), s[4..]))
    else if "false" <= s then Some(Got(Bool(false), s[5..]))
    else if s[0] == '"' then
      var text := ReadString(s[1..]);
      if text.None? then None else Some(Got(Str(text.value.value), text.value.rest))
    else if "[]" <= s then Some(Got(List([]), s[2..]))
    else if s[0] == '[' then
      var items := ReadItems(s[1..]);
      if items.None? then None else Some(Got(List(items.value.value), items.value.rest))
    else if "{}" <= s then Some(Got(Object([]), s[2..]))
    else if s[0] == '{' then
      var fields := ReadFields(s[1..]);
      if fields.None? then None else Some(Got(Object(fields.value.value), fields.value.rest))
    else
      var n := NumberLength(s);
      if 0 < n <= |s| then Some(Got(Number(s[..n]), s[n..])) else None
  }

  /** Section 5: values separated by commas, up to the closing bracket. */
  function ReadItems(s: string): (r: Option<Got<seq<Json>>>)
    ensures r.Some? ==> |r.value.rest| < |s|
    decreases |s|, 1
  {
    var first := ReadValue(s);
    if first.None? || first.value.rest == "" then None
    else if first.value.rest[0] == ']' then Some(Got([first.value.value], first.value.rest[1..]))
    else if first.value.rest[0] != ',' then None
    else
      var more := ReadItems(first.value.rest[1..]);
      if more.None? then None else Some(Got([first.value.value] + more.value.value, more.value.rest))
  }

  /** Section 4: names and values separated by commas, up to the closing brace. */
  function ReadFields(s: string): (r: Option<Got<seq<Field>>>)
    ensures r.Some? ==> |r.value.rest| < |s|
    decreases |s|, 1
  {
    var name := if s != "" && s[0] == '"' then ReadString(s[1..]) else None;
    if name.None? || name.value.rest == "" || name.value.rest[0] != ':' then None
    else
      var first := ReadValue(name.value.rest[1..]);
      if first.None? || first.value.rest == "" then None
      else if first.value.rest[0] == '}' then
        Some(Got([Field(name.value.value, first.value.value)], first.value.rest[1..]))
      else if first.value.rest[0] != ',' then None
      else
        var more := ReadFields(first.value.rest[1..]);
        if more.None? then None
        else Some(Got([Field(name.value.value, first.value.value)] + more.value.value, more.value.rest))
  }

  // ---- strings read back --------------------------------------------------------------------------

  lemma HexReads(d: int)
    requires 0 <= d < 16
    ensures HexValue(HexDigit(d)) == Some(d)
  {
  }

  lemma UnitReads(n: int, rest: string)
    requires 0 <= n < 0x10000
    ensures var digits := Unit(n)[2..] + rest; CodeUnit(digits) == Some(n) && digits[4..] == rest
  {
    HexReads(n / 256 / 16);
    HexReads(n / 256 % 16);
    HexReads(n % 256 / 16);
    HexReads(n % 256 % 16);
    hide HexDigit, HexValue;
    assert Unit(n)[2..] == HexPair(n / 256) + HexPair(n % 256);
  }

  lemma ShortReads(c: char, rest: string)
    requires |Escape(c)| <= 2
    ensures ReadChar(Escape(c) + rest) == Some(Got(c, rest))
  {
    hide Unit, ReadUnit;
    var s := Escape(c) + rest;
    assert s[|Escape(c)|..] == rest && s[0] == Escape(c)[0] && (|Escape(c)| == 2 ==> s[1] == Escape(c)[1]);
  }

  lemma LongEscape(c: char)
    requires |Escape(c)| > 2
    ensures c as int >= 0x10000 || Escape(c) == Unit(c as int)
  {
    hide Unit;
  }

  lemma UnitCharReads(n: int, rest: string)
    requires 0 <= n < 0xD800 || 0xE000 <= n < 0x10000
    ensures ReadChar(Unit(n) + rest) == Some(Got(n as char, rest))
  {
    UnitReads(n, rest);
    var s := Unit(n) + rest;
    assert s[0] == '\\' && s[1] == 'u' && s[2..] == Unit(n)[2..] + rest;
    hide Unit, CodeUnit;
    UnitEscape(s);
  }

  lemma EscapeReads(c: char, rest: string)
    ensures ReadChar(Escape(c) + rest) == Some(Got(c, rest))
  {
    hide Escape, Unit, ReadChar;
    if |Escape(c)| <= 2 {
      ShortReads(c, rest);
    } else {
      LongEscape(c);
      if c as int < 0x10000 {
        UnitCharReads(c as int, rest);
      } else {
        PairReads(c, rest);
      }
    }
  }

  lemma UnitEscape(s: string)
    requires |s| >= 2 && s[0] == '\\' && s[1] == 'u'
    ensures ReadChar(s) == ReadUnit(s[2..])
  {
    hide ReadUnit;
  }

  lemma PairSpelled(c: char, rest: string)
    requires c as int >= 0x10000
    ensures var n := c as int - 0x10000;
            var high, low := 0xD800 + n / 1024, 0xDC00 + n % 1024;
            && 0xD800 <= high < 0xDC00 <= low < 0xE000 && n == 1024 * (high - 0xD800) + (low - 0xDC00)
            && Escape(c) + rest == Unit(high) + (Unit(low) + rest)
  {
    hide Unit;
    var n := c as int - 0x10000;
    var high, low := 0xD800 + n / 1024, 0xDC00 + n % 1024;
    assert n / 1024 < 1024;
    Associative(Unit(high), Unit(low), rest);
  }

  lemma PairReads(c: char, rest: string)
    requires c as int >= 0x10000
    ensures ReadChar(Escape(c) + rest) == Some(Got(c, rest))
  {
    PairSpelled(c, rest);
    hide Escape, Unit, ReadUnit, ReadChar;
    var n := c as int - 0x10000;
    TwoUnits(0xD800 + n / 1024, 0xDC00 + n % 1024, rest);
    UnitEscape(Escape(c) + rest);
  }

  lemma TwoUnits(high: int, low: int, rest: string)
    requires 0xD800 <= high < 0xDC00 <= low < 0xE000
    ensures var s := Unit(high) + (Unit(low) + rest);
            && s[0] == '\\' && s[1] == 'u'
            && ReadUnit(s[2..])
            == Some(Got((0x10000 + 1024 * (high - 0xD800) + (low - 0xDC00)) as char, rest))
  {
    UnitReads(high, Unit(low) + rest);
    UnitReads(low, rest);
    hide CodeUnit;
    var s, t := Unit(high) + (Unit(low) + rest), Unit(low) + rest;
    assert s[2..] == Unit(high)[2..] + t;
    assert s[2..][4..] == t && t[0] == '\\' && t[1] == 'u' && t[2..] == Unit(low)[2..] + rest && t[6..] == rest;
    hide Unit;
    var u := s[2..];
    assert u[4] == t[0] && u[5] == t[1] && u[6..] == t[2..] && u[10..] == t[6..];
  }

  lemma {:induction false} QuoteReads(text: string, rest: string)
    ensures ReadString(Escaped(text) + ("\"" + rest)) == Some(Got(text, rest))
  {
    hide Escape, ReadChar;
    EscapedStart(text, "\"" + rest);
    if text == "" {
      assert Escaped(text) + ("\"" + rest) == "\"" + rest;
    } else {
      QuoteReads(text[1..], rest);
      EscapeReads(text[0], Escaped(text[1..]) + ("\"" + rest));
      assert text == [text[0]] + text[1..];
    }
  }

  // ---- values read back ---------------------------------------------------------------------------

  lemma WordReads(value: Json, rest: string)
    requires value.Null? || value.Bool?
    ensures ReadValue(Written(value) + rest) == Some(Got(value, rest))
  {
    var s := Written(value) + rest;
    assert s[..|Written(value)|] == Written(value) && s[|Written(value)|..] == rest;
    assert s[0] == Written(value)[0];
  }

  /** Neither a word nor an empty list or object: its first character tells. */
  lemma NoWord(s: string)
    requires s != "" && s[0] !in "ntf"
    ensures !("null" <= s) && !("true" <= s) && !("false" <= s)
  {
  }

  lemma TextReads(text: string, rest: string)
    ensures ReadValue(Quote(text) + rest) == Some(Got(Str(text), rest))
  {
    var s := Quote(text) + rest;
    Enclosed('"', Escaped(text), '"', rest);
    QuoteReads(text, rest);
    NoWord(s);
    hide ReadString, Escaped;
  }

  lemma NumberReads(text: string, rest: string)
    requires text != "" && (forall c | c in text :: NumberChar(c)) && Stops(rest)
    ensures ReadValue(text + rest) == Some(Got(Number(text), rest))
  {
    var s := text + rest;
    NumberEnds(text, rest);
    assert s[0] == text[0] && text[0] in text && NumberChar(s[0]);
    NoWord(s);
    assert s[..|text|] == text && s[|text|..] == rest;
    hide NumberLength;
  }

  lemma {:induction false} ValueReads(value: Json, rest: string)
    requires Proper(value) && Stops(rest)
    ensures ReadValue(Written(value) + rest) == Some(Got(value, rest))
    decreases value, 1, 0
  {
    hide ReadValue, Quote, NumberChar, WrittenItems, WrittenFields, Stops;
    match value
    case Number(text) => NumberReads(text, rest);
    case Str(text) => TextReads(text, rest);
    case List(items) =>
      if items != [] {
        ItemsRead(value, items, rest);
      }
      ListReads(value, items, rest);
    case Object(fields) =>
      if fields != [] {
        FieldsRead(value, fields, rest);
      }
      ObjectReads(value, fields, rest);
    case _ => WordReads(value, rest);
  }

  lemma ListReads(value: Json, items: seq<Json>, rest: string)
    requires value == List(items) && Proper(value)
    requires items != [] ==> ReadItems(WrittenItems(value, items) + ("]" + rest)) == Some(Got(items, rest))
    ensures ReadValue(Written(value) + rest) == Some(Got(value, rest))
  {
    var s := Written(value) + rest;
    Enclosed('[', WrittenItems(value, items), ']', rest);
    ItemsStart(value, items, "]" + rest);
    NoWord(s);
    hide WrittenItems, ReadItems;
    var t := WrittenItems(value, items) + ("]" + rest);
    assert s[1..] == t && s[1] == t[0] && ("[]" <= s <==> t[0] == ']');
    if items == [] {
      assert t == "]" + rest && s[2..] == t[1..] == rest;
    }
  }

  lemma ObjectReads(value: Json, fields: seq<Field>, rest: string)
    requires value == Object(fields) && Proper(value)
    requires fields != [] ==> ReadFields(WrittenFields(value, fields) + ("}" + rest)) == Some(Got(fields, rest))
    ensures ReadValue(Written(value) + rest) == Some(Got(value, rest))
  {
    var s := Written(value) + rest;
    Enclosed('{', WrittenFields(value, fields), '}', rest);
    FieldsStart(value, fields, "}" + rest);
    NoWord(s);
    hide WrittenFields, ReadFields;
    var t := WrittenFields(value, fields) + ("}" + rest);
    assert s[1..] == t && s[1] == t[0] && ("{}" <= s <==> t[0] == '}');
    if fields == [] {
      assert t == "}" + rest && s[2..] == t[1..] == rest;
    }
  }

  lemma {:induction false} ItemsRead(x: Json, items: seq<Json>, rest: string)
    requires items != [] && forall i | 0 <= i < |items| :: items[i] < x && Proper(items[i])
    ensures ReadItems(WrittenItems(x, items) + ("]" + rest)) == Some(Got(items, rest))
    decreases x, 0, |items|
  {
    hide Written, Rest, Stops, ReadValue, WrittenItems;
    var more, end := WrittenItems(x, items[1..]), "]" + rest;
    ItemsStart(x, items, end);
    RestStops(more, |items| == 1, end);
    ValueReads(items[0], Rest(more, |items| == 1, end));
    assert items == [items[0]] + items[1..] && end[1..] == rest;
    if |items| > 1 {
      ItemsRead(x, items[1..], rest);
    } else {
      assert items == [items[0]];
    }
    RestReads(more, |items| == 1, end);
  }

  lemma RestReads(more: string, last: bool, end: string)
    requires end != ""
    ensures var r := Rest(more, last, end);
            && r != "" && r[0] == (if last then end[0] else ',') && r[1..] == if last then end[1..] else more + end
  {
  }

  lemma {:induction false} FieldsRead(x: Json, fields: seq<Field>, rest: string)
    requires fields != [] && forall f | f in fields :: f.value < x && Proper(f.value)
    ensures ReadFields(WrittenFields(x, fields) + ("}" + rest)) == Some(Got(fields, rest))
    decreases x, 0, |fields|
  {
    hide Written, Rest, Stops, ReadValue, WrittenFields, ReadString, Quote, Proper;
    var f, more, end := fields[0], WrittenFields(x, fields[1..]), "}" + rest;
    var tail := Rest(more, |fields| == 1, end);
    FieldsStart(x, fields, end);
    RestStops(more, |fields| == 1, end);
    NameReads(f.name, ":" + (Written(f.value) + tail));
    ValueReads(f.value, tail);
    assert (":" + (Written(f.value) + tail))[1..] == Written(f.value) + tail;
    assert fields == [f] + fields[1..] && end[1..] == rest;
    if |fields| > 1 {
      FieldsRead(x, fields[1..], rest);
    } else {
      assert fields == [f];
    }
    RestReads(more, |fields| == 1, end);
  }

  lemma NameReads(name: string, rest: string)
    ensures var s := Quote(name) + rest;
            s != "" && s[0] == '"' && ReadString(s[1..]) == Some(Got(name, rest))
  {
    Enclosed('"', Escaped(name), '"', rest);
    QuoteReads(name, rest);
    hide ReadString, Escaped;
  }

  // ---- the canonical text -------------------------------------------------------------------------

  lemma {:induction false} OrderedSame(value: Json)
    requires Keyed(value)
    ensures Same(value, Ordered(value))
    decreases value
  {
    match value
    case List(items) =>
      forall i | 0 <= i < |items| ensures Same(items[i], OrderedItems(items)[i]) {
        OrderedSame(items[i]);
      }
    case Object(fields) =>
      var ordered := OrderedFields(fields);
      SameFields(ordered);
      assert |ByName(ordered)| == |multiset(ByName(ordered))| == |multiset(ordered)| == |fields|;
      forall i | 0 <= i < |fields| ensures exists j | 0 <= j < |fields| :: SameField(fields[i], ByName(ordered)[j]) {
        OrderedSame(fields[i].value);
        assert ordered[i] in multiset(ordered) && ordered[i] in ByName(ordered);
        var j :| 0 <= j < |fields| && ByName(ordered)[j] == ordered[i];
        assert SameField(fields[i], ByName(ordered)[j]);
      }
    case _ =>
  }

  ghost predicate Ascending(fields: seq<Field>) {
    forall i, j | 0 <= i < j < |fields| :: Leq(fields[i].name, fields[j].name)
  }

  lemma Prepended(f: Field, fields: seq<Field>)
    requires Ascending(fields) && forall g | g in fields :: Leq(f.name, g.name)
    ensures Ascending([f] + fields)
  {
  }

  lemma {:induction false} InsertedAscends(f: Field, fields: seq<Field>)
    requires Ascending(fields)
    ensures Ascending(Inserted(f, fields))
  {
    hide Leq;
    if fields != [] {
      var head, rest := fields[0], fields[1..];
      LeqTotal(f.name, head.name);
      if Leq(f.name, head.name) {
        forall g | g in fields ensures Leq(f.name, g.name) {
          var j :| 0 <= j < |fields| && fields[j] == g;
          LeqTotal(head.name, head.name);
          LeqTransitive(f.name, head.name, g.name);
        }
        Prepended(f, fields);
      } else {
        InsertedAscends(f, rest);
        InsertedProper(f, rest);
        forall g | g in Inserted(f, rest) ensures Leq(head.name, g.name) {
          assert g in multiset(Inserted(f, rest)) && g in [f] + rest;
        }
        Prepended(head, Inserted(f, rest));
      }
    } else {
      Prepended(f, []);
    }
  }

  /** Names are written in ascending order. */
  lemma {:induction false} NamesAscend(fields: seq<Field>)
    ensures Ascending(ByName(fields))
  {
    if fields != [] {
      NamesAscend(fields[1..]);
      InsertedAscends(fields[0], ByName(fields[1..]));
    }
  }

  /** Any reader of the canonical text gets the value back, whatever its strings hold. */
  lemma CanonicalReads(value: Json)
    requires Proper(value) && Keyed(value)
    ensures ReadValue(Canonical(value)) == Some(Got(Ordered(value), "")) && Same(value, Ordered(value))
  {
    OrderedProper(value);
    ValueReads(Ordered(value), "");
    assert Canonical(value) + "" == Canonical(value);
    OrderedSame(value);
    hide *;
  }

  // ---- the alphabet -------------------------------------------------------------------------------

  predicate Printable(s: string) {
    forall i | 0 <= i < |s| :: 32 <= s[i] as int < 127
  }

  lemma HexPrintable(n: int)
    requires 0 <= n < 0x10000
    ensures Printable(Unit(n))
  {
  }

  lemma {:induction false} EscapedPrintable(s: string)
    ensures Printable(Quote(s))
  {
    hide Escape;
    if s != "" {
      EscapePrintable(s[0]);
      EscapedPrintable(s[1..]);
      assert Printable(Escaped(s[1..])) by {
        assert forall i | 0 <= i < |Escaped(s[1..])| :: Quote(s[1..])[i + 1] == Escaped(s[1..])[i];
      }
    }
  }

  lemma PrintableJoin(s: string, t: string)
    requires Printable(s) && Printable(t)
    ensures Printable(s + t)
  {
  }

  lemma EscapePrintable(c: char)
    ensures Printable(Escape(c))
  {
    hide Unit;
    var n := c as int;
    if |Escape(c)| > 2 && n < 0x10000 {
      LongEscape(c);
      HexPrintable(n);
    } else if n >= 0x10000 {
      var high, low := 0xD800 + (n - 0x10000) / 1024, 0xDC00 + (n - 0x10000) % 1024;
      assert (n - 0x10000) / 1024 < 1024;
      HexPrintable(high);
      HexPrintable(low);
      PrintableJoin(Unit(high), Unit(low));
    }
  }

  /** The text is printable ASCII, so its length is its size. */
  lemma {:induction false} WrittenPrintable(value: Json)
    requires Proper(value)
    ensures Printable(Written(value))
    decreases value, 1, 0
  {
    hide Quote, WrittenItems, WrittenFields, NumberChar;
    match value
    case Str(s) => EscapedPrintable(s);
    case List(items) => ItemsPrintable(value, items);
    case Object(fields) => FieldsPrintable(value, fields);
    case Number(text) => NumberPrintable(text);
    case _ =>
  }

  lemma NumberPrintable(text: string)
    requires forall c | c in text :: NumberChar(c)
    ensures Printable(text)
  {
    assert forall i | 0 <= i < |text| :: text[i] in text;
  }

  lemma {:induction false} ItemsPrintable(x: Json, items: seq<Json>)
    requires forall i | 0 <= i < |items| :: items[i] < x && Proper(items[i])
    ensures Printable(WrittenItems(x, items))
    decreases x, 0, |items|
  {
    hide Written, Proper;
    if items != [] {
      WrittenPrintable(items[0]);
      ItemsPrintable(x, items[1..]);
    }
  }

  lemma {:induction false} FieldsPrintable(x: Json, fields: seq<Field>)
    requires forall f | f in fields :: f.value < x && Proper(f.value)
    ensures Printable(WrittenFields(x, fields))
    decreases x, 0, |fields|
  {
    hide Written, Quote, Proper;
    if fields != [] {
      EscapedPrintable(fields[0].name);
      WrittenPrintable(fields[0].value);
      FieldsPrintable(x, fields[1..]);
    }
  }

  lemma CanonicalPrintable(value: Json)
    requires Proper(value)
    ensures Printable(Canonical(value))
  {
    OrderedProper(value);
    WrittenPrintable(Ordered(value));
  }
}
