/** What a human reads on the approval card (broker/approval_summary.py): every value shown is the argument it stands
    for, except where it carries one of the few marks that say what was left out. */
module ApprovalCard {
  import opened Wrappers
  import opened PythonText
  import opened CanonicalJson
  import opened ApprovalSummary

  // ---- a masked value -----------------------------------------------------------------------------

  /** The name a field is shown under. */
  function Label(name: string): string {
    if |name| > 64 then "[OMITTED: long field name]" else name
  }

  /** The names an object is shown with, by its first sixteen fields and the note on the others. */
  function Labels(fields: seq<Field>, count: nat): seq<string>
    requires count <= |fields|
  {
    seq(count, i requires 0 <= i < count => Label(fields[i].name))
  }

  function AllLabels(fields: seq<Field>): seq<string> {
    if |fields| <= 16 then Labels(fields, |fields|) else Labels(fields, 16) + ["[OMITTED]"]
  }

  function NamesOf(fields: seq<Field>): seq<string> {
    seq(|fields|, i requires 0 <= i < |fields| => fields[i].name)
  }

  /** Each label once, in the order in which the labels first occur. */
  ghost predicate Lists(names: seq<string>, labels: seq<string>) {
    && (forall n :: n in names <==> n in labels)
    && (forall i, j | 0 <= i < j < |names| :: Find(labels, names[i]) < Find(labels, names[j]))
  }

  /** The field a label stands for: the last of the first `count` that is shown under it. */
  ghost predicate LastOf(fields: seq<Field>, count: nat, name: string, j: nat)
    requires count <= |fields|
  {
    && j < count && Label(fields[j].name) == name
    && forall k | j < k < count :: Label(fields[k].name) != name
  }

  ghost predicate DepictsField(shown: Json, field: Field, depth: nat)
    decreases field, 0
  {
    if |field.name| > 64 || Sensitive(field.name) then shown == Str("[MASKED]")
    else Depicts(shown, field.value, depth + 1)
  }

  ghost predicate Stands(shown: Field, fields: seq<Field>, count: nat, depth: nat)
    requires count <= |fields|
    decreases fields, 0
  {
    exists j | 0 <= j < |fields| :: LastOf(fields, count, shown.name, j) && DepictsField(shown.value, fields[j], depth)
  }

  /** The value is shown as it is, but for long texts, wide lists and objects, deep nesting, long names and sensitive
      ones; each of these is marked where it occurs. A shown field stands for the field of its label or, beyond the
      sixteenth, for how many more there are. */
  ghost predicate Depicts(shown: Json, value: Json, depth: nat)
    decreases value, 1
  {
    match value
    case Str(s) => shown == Str(if |s| <= 256 then s else s[..256] + "[TRUNCATED: remaining text omitted]")
    case List(items) =>
      if depth > 3 then shown == Str("[OMITTED: nesting limit]")
      else
        && shown.List?
        && |shown.items| == (if |items| <= 16 then |items| else 17)
        && (forall i | 0 <= i < |items| && i < 16 :: Depicts(shown.items[i], items[i], depth + 1))
        && (|items| > 16 ==> shown.items[16] == Str("[OMITTED: " + Decimal(|items| - 16) + " additional items]"))
    case Object(fields) =>
      if depth > 3 then shown == Str("[OMITTED: nesting limit]")
      else
        && shown.Object?
        && Lists(NamesOf(shown.fields), AllLabels(fields))
        && forall i | 0 <= i < |shown.fields| ::
             if |fields| > 16 && shown.fields[i].name == "[OMITTED]"
             then shown.fields[i].value == Str(Decimal(|fields| - 16) + " additional fields")
             else Stands(shown.fields[i], fields, if |fields| <= 16 then |fields| else 16, depth)
    case _ => shown == value
  }

  // ---- masking depicts ----------------------------------------------------------------------------

  lemma {:induction false} PutSo(fields: seq<Field>, name: string, value: Json)
    requires DistinctNames(fields)
    ensures var put := Put(fields, name, value);
            if name in NamesOf(fields)
            then |put| == |fields| && forall i | 0 <= i < |fields| ::
                   put[i] == if fields[i].name == name then Field(name, value) else fields[i]
            else put == fields + [Field(name, value)]
  {
    if fields != [] && fields[0].name != name {
      PutSo(fields[1..], name, value);
      assert NamesOf(fields) == [fields[0].name] + NamesOf(fields[1..]);
    } else if fields != [] {
      assert NamesOf(fields)[0] == name;
    }
  }

  lemma {:induction false} FindMore(s: seq<string>, x: string, y: string)
    ensures x in s ==> Find(s + [y], x) == Find(s, x)
    ensures y !in s ==> Find(s + [y], y) == |s|
  {
    if s != [] {
      FindMore(s[1..], x, y);
      assert (s + [y])[1..] == s[1..] + [y];
    }
  }

  /** One more label: listed in its old place, or at the end. */
  lemma ListsMore(names: seq<string>, labels: seq<string>, name: string)
    requires Lists(names, labels)
    ensures Lists(if name in names then names else names + [name], labels + [name])
  {
    hide Find;
    var more := if name in names then names else names + [name];
    forall i, j | 0 <= i < j < |more| ensures Find(labels + [name], more[i]) < Find(labels + [name], more[j]) {
      FindMore(labels, more[i], name);
      FindMore(labels, more[j], name);
      if j == |names| {
        assert more[i] == names[i] && names[i] in labels;
      }
    }
  }

  lemma ListsDistinct(fields: seq<Field>, labels: seq<string>)
    requires Lists(NamesOf(fields), labels)
    ensures DistinctNames(fields)
  {
    hide Find;
    forall i, j | 0 <= i < j < |fields| ensures fields[i].name != fields[j].name {
      assert Find(labels, NamesOf(fields)[i]) < Find(labels, NamesOf(fields)[j]);
    }
  }

  lemma PutLists(shown: seq<Field>, labels: seq<string>, name: string, value: Json)
    requires Lists(NamesOf(shown), labels)
    ensures Lists(NamesOf(Put(shown, name, value)), labels + [name])
  {
    hide Put, Lists, Find;
    ListsDistinct(shown, labels);
    PutNames(shown, name, value);
    ListsMore(NamesOf(shown), labels, name);
  }

  lemma PutNames(shown: seq<Field>, name: string, value: Json)
    requires DistinctNames(shown)
    ensures NamesOf(Put(shown, name, value))
         == if name in NamesOf(shown) then NamesOf(shown) else NamesOf(shown) + [name]
  {
    PutSo(shown, name, value);
    hide Put;
  }

  /** What has been built after the first `count` fields. */
  ghost predicate Built(shown: seq<Field>, fields: seq<Field>, count: nat, depth: nat)
    requires count <= |fields|
  {
    && Lists(NamesOf(shown), Labels(fields, count))
    && forall i | 0 <= i < |shown| :: Stands(shown[i], fields, count, depth)
  }

  lemma StandsMore(shown: Field, fields: seq<Field>, count: nat, depth: nat)
    requires count < |fields| && shown.name != Label(fields[count].name) && Stands(shown, fields, count, depth)
    ensures Stands(shown, fields, count + 1, depth)
  {
    hide DepictsField;
    var j :| 0 <= j < |fields| && LastOf(fields, count, shown.name, j) && DepictsField(shown.value, fields[j], depth);
    assert LastOf(fields, count + 1, shown.name, j);
  }

  lemma BuiltMore(shown: seq<Field>, fields: seq<Field>, count: nat, depth: nat, value: Json)
    requires count < |fields| && Built(shown, fields, count, depth) && DepictsField(value, fields[count], depth)
    ensures Built(Put(shown, Label(fields[count].name), value), fields, count + 1, depth)
  {
    hide DepictsField, Put;
    var name := Label(fields[count].name);
    PutLists(shown, Labels(fields, count), name, value);
    assert Labels(fields, count + 1) == Labels(fields, count) + [name];
    ListsDistinct(shown, Labels(fields, count));
    PutSo(shown, name, value);
    hide Lists;
    var put := Put(shown, name, value);
    forall i | 0 <= i < |put| ensures Stands(put[i], fields, count + 1, depth) {
      assert i < |shown| ==> NamesOf(shown)[i] == shown[i].name;
      if put[i].name == name {
        assert put[i].value == value;
        assert LastOf(fields, count + 1, name, count);
      } else {
        assert put[i] == shown[i];
        StandsMore(shown[i], fields, count, depth);
      }
    }
  }

  /** What masking makes of one field. */
  function Shows(field: Field, depth: nat): Json {
    if |field.name| > 64 || Sensitive(field.name) then MASKED else Mask(field.value, depth + 1)
  }

  lemma {:induction false} MaskFieldsDepict(value: Json, first: seq<Field>, p: nat, depth: nat, shown: seq<Field>)
    requires value.Object? && first == First(value.fields, 16) && p <= |first| && depth < 4
    requires Built(shown, value.fields, p, depth)
    requires forall f | f in first[p..] :: f.value < value
    requires forall f | f in first :: DepictsField(Shows(f, depth), f, depth)
    ensures Built(MaskFields(value, first[p..], depth, shown), value.fields, |first|, depth)
    decreases |first| - p
  {
    hide DepictsField, Put, Built, Sensitive, Mask;
    if p < |first| {
      var f := first[p];
      assert first[p..][0] == f && first[p..][1..] == first[p + 1..] && f == value.fields[p];
      BuiltMore(shown, value.fields, p, depth, Shows(f, depth));
      MaskFieldsDepict(value, first, p + 1, depth, Put(shown, Label(f.name), Shows(f, depth)));
    }
  }

  lemma {:induction false} MaskItemsAt(value: Json, items: seq<Json>, depth: nat)
    requires forall i | 0 <= i < |items| :: items[i] < value
    ensures var masked := MaskItems(value, items, depth);
            |masked| == |items| && forall i | 0 <= i < |items| :: masked[i] == Mask(items[i], depth + 1)
    decreases |items|
  {
    hide Mask;
    if items != [] {
      MaskItemsAt(value, items[1..], depth);
    }
  }

  /** A card value depicts what it stands for. */
  lemma {:induction false} MaskDepicts(value: Json, depth: nat)
    ensures Depicts(Mask(value, depth), value, depth)
    decreases value
  {
    hide MaskFields, MaskItems, Put, Decimal, Lists, Built, DepictsField, Sensitive;
    if depth < 4 && value.Object? {
      var first := First(value.fields, 16);
      forall f | f in first ensures DepictsField(Shows(f, depth), f, depth) {
        if |f.name| <= 64 && !Sensitive(f.name) {
          MaskDepicts(f.value, depth + 1);
        }
        FieldDepicts(f, depth);
      }
      ObjectMasked(value, depth);
      hide Depicts, Mask;
    } else if depth < 4 && value.List? {
      forall i | 0 <= i < |value.items| && i < 16
        ensures Depicts(Mask(value.items[i], depth + 1), value.items[i], depth + 1)
      {
        MaskDepicts(value.items[i], depth + 1);
      }
      ListMasked(value, depth);
      hide Depicts, Mask;
    }
  }

  lemma FieldDepicts(f: Field, depth: nat)
    requires |f.name| <= 64 && !Sensitive(f.name) ==> Depicts(Mask(f.value, depth + 1), f.value, depth + 1)
    ensures DepictsField(Shows(f, depth), f, depth)
  {
    hide Depicts, Mask, Sensitive;
  }

  lemma ObjectMasked(value: Json, depth: nat)
    requires depth < 4 && value.Object?
    requires forall f | f in First(value.fields, 16) :: DepictsField(Shows(f, depth), f, depth)
    ensures Depicts(Mask(value, depth), value, depth)
  {
    hide Depicts, MaskFields, Put, Decimal, DepictsField, Shows;
    var first := First(value.fields, 16);
    assert first[0..] == first;
    BuiltNone(value.fields, depth);
    MaskFieldsDepict(value, first, 0, depth, []);
    ObjectDepicts(value.fields, MaskFields(value, first, depth, []), depth);
  }

  lemma BuiltNone(fields: seq<Field>, depth: nat)
    ensures Built([], fields, 0, depth)
  {
  }

  lemma ListMasked(value: Json, depth: nat)
    requires depth < 4 && value.List?
    requires forall i | 0 <= i < |value.items| && i < 16 ::
               Depicts(Mask(value.items[i], depth + 1), value.items[i], depth + 1)
    ensures Depicts(Mask(value, depth), value, depth)
  {
    hide Depicts, MaskItems, Decimal;
    MaskItemsAt(value, First(value.items, 16), depth);
    ListDepicts(value.items, MaskItems(value, First(value.items, 16), depth), depth);
  }

  lemma ListDepicts(items: seq<Json>, masked: seq<Json>, depth: nat)
    requires depth < 4 && |masked| == |First(items, 16)|
    requires forall i | 0 <= i < |masked| :: Depicts(masked[i], items[i], depth + 1)
    ensures Depicts(List(if |items| <= 16 then masked
                         else masked + [Str("[OMITTED: " + Decimal(|items| - 16) + " additional items]")]),
                    List(items), depth)
  {
    hide Decimal;
  }

  lemma ObjectDepicts(fields: seq<Field>, built: seq<Field>, depth: nat)
    requires depth < 4 && Built(built, fields, |First(fields, 16)|, depth)
    ensures Depicts(Object(if |fields| <= 16 then built
                           else Put(built, "[OMITTED]", Str(Decimal(|fields| - 16) + " additional fields"))),
                    Object(fields), depth)
  {
    if |fields| > 16 {
      NotedDepicts(fields, built, depth);
    } else {
      assert |First(fields, 16)| == |fields|;
      AllDepict(fields, built, depth);
    }
    hide *;
  }

  lemma AllDepict(fields: seq<Field>, built: seq<Field>, depth: nat)
    requires depth < 4 && |fields| <= 16 && Built(built, fields, |fields|, depth)
    ensures Depicts(Object(built), Object(fields), depth)
  {
    hide DepictsField, LastOf, Lists, Labels, Stands;
    assert forall i | 0 <= i < |built| :: Stands(built[i], fields, |fields|, depth);
  }

  lemma NotedDepicts(fields: seq<Field>, built: seq<Field>, depth: nat)
    requires depth < 4 && |fields| > 16 && Built(built, fields, 16, depth)
    ensures Depicts(Object(Put(built, "[OMITTED]", Str(Decimal(|fields| - 16) + " additional fields"))),
                    Object(fields), depth)
  {
    hide Decimal, DepictsField, Put, LastOf, Lists, Labels;
    var note := Str(Decimal(|fields| - 16) + " additional fields");
    PutLists(built, Labels(fields, 16), "[OMITTED]", note);
    ListsDistinct(built, Labels(fields, 16));
    PutSo(built, "[OMITTED]", note);
    var put := Put(built, "[OMITTED]", note);
    forall i | 0 <= i < |put|
      ensures if put[i].name == "[OMITTED]" then put[i].value == note else Stands(put[i], fields, 16, depth)
    {
      assert i < |built| ==> NamesOf(built)[i] == built[i].name;
    }
    hide NamesOf, Built;
  }

  // ---- values shown whole -------------------------------------------------------------------------

  /** Nested at most so many levels, with at most sixteen fields or items on each, no long text and no name that is
      long or sensitive. */
  predicate Plain(value: Json, levels: nat)
    decreases value
  {
    match value
    case Str(s) => |s| <= 256
    case List(items) => levels > 0 && |items| <= 16 && forall i | 0 <= i < |items| :: Plain(items[i], levels - 1)
    case Object(fields) =>
      && levels > 0 && |fields| <= 16 && DistinctNames(fields)
      && forall i | 0 <= i < |fields| ::
           |fields[i].name| <= 64 && !Sensitive(fields[i].name) && Plain(fields[i].value, levels - 1)
    case _ => true
  }

  lemma {:induction false} PlainFields(value: Json, fields: seq<Field>, depth: nat, shown: seq<Field>)
    requires DistinctNames(shown + fields) && forall f | f in fields :: f.value < value
    requires forall f | f in fields :: |f.name| <= 64 && !Sensitive(f.name) && Mask(f.value, depth + 1) == f.value
    ensures MaskFields(value, fields, depth, shown) == shown + fields
    decreases |fields|
  {
    hide Sensitive, Mask;
    if fields != [] {
      var f := fields[0];
      forall i, j | 0 <= i < j < |shown| ensures shown[i].name != shown[j].name {
        assert (shown + fields)[i] == shown[i] && (shown + fields)[j] == shown[j];
      }
      forall i | 0 <= i < |shown| ensures shown[i].name != f.name {
        assert (shown + fields)[i] == shown[i] && (shown + fields)[|shown|] == f;
      }
      PutSo(shown, f.name, f.value);
      assert shown + fields == (shown + [f]) + fields[1..];
      PlainFields(value, fields[1..], depth, shown + [f]);
    }
  }

  lemma PlainObject(value: Json, depth: nat)
    requires depth < 4 && Plain(value, 4 - depth) && value.Object?
    requires forall f | f in value.fields :: Mask(f.value, depth + 1) == f.value
    ensures Mask(value, depth) == value
  {
    hide MaskFields, Put, Decimal, Sensitive;
    var fields := value.fields;
    assert First(fields, 16) == fields && [] + fields == fields;
    PlainFields(value, fields, depth, []);
  }

  lemma PlainList(value: Json, depth: nat)
    requires depth < 4 && Plain(value, 4 - depth) && value.List?
    requires forall i | 0 <= i < |value.items| :: Mask(value.items[i], depth + 1) == value.items[i]
    ensures Mask(value, depth) == value
  {
    hide MaskItems, Decimal;
    assert First(value.items, 16) == value.items;
    MaskItemsAt(value, value.items, depth);
  }

  /** A value within all limits and without a sensitive name is shown unchanged. */
  lemma {:induction false} PlainShown(value: Json, depth: nat)
    requires depth <= 4 && Plain(value, 4 - depth)
    ensures Mask(value, depth) == value
    decreases value
  {
    hide MaskFields, MaskItems, Put, Decimal, Sensitive, DistinctNames;
    if value.Object? {
      forall f | f in value.fields ensures Mask(f.value, depth + 1) == f.value {
        PlainShown(f.value, depth + 1);
      }
      PlainObject(value, depth);
    } else if value.List? {
      forall i | 0 <= i < |value.items| ensures Mask(value.items[i], depth + 1) == value.items[i] {
        PlainShown(value.items[i], depth + 1);
      }
      PlainList(value, depth);
    }
  }

  // ---- numbers ------------------------------------------------------------------------------------

  lemma {:induction false} DigitsLast(s: string, n: nat, c: char)
    requires Digits(s, n).Some? && '0' <= c <= '9'
    ensures Digits(s + [c], n) == Some(10 * Digits(s, n).value + (c - '0') as nat)
  {
    if s != "" {
      assert (s + [c])[1..] == s[1..] + [c];
      DigitsLast(s[1..], 10 * n + (s[0] - '0') as nat, c);
    } else {
      assert (s + [c])[1..] == "" && (s + [c])[0] == c;
      assert Digits("", 10 * n + (c - '0') as nat) == Some(10 * n + (c - '0') as nat);
    }
  }

  /** A number's text has no leading zero and reads as that number. */
  lemma {:induction false} DecimalReads(n: nat)
    ensures Decimal(n) != "" && (n > 0 ==> Decimal(n)[0] != '0')
    ensures Digits(Decimal(n), 0) == Some(n) && Index(Decimal(n)) == Some(n)
  {
    var c := '0' + (n % 10) as char;
    if n < 10 {
      assert Digits("", n) == Some(n);
      assert Decimal(n) == [c] && Decimal(n)[1..] == "";
    } else {
      DecimalReads(n / 10);
      DigitsLast(Decimal(n / 10), 0, c);
    }
  }

  lemma {:induction false} DigitsButLast(s: string, n: nat)
    requires s != "" && Digits(s, n).Some?
    ensures var (rest, c) := (s[..|s| - 1], s[|s| - 1]);
            && '0' <= c <= '9' && Digits(rest, n).Some?
            && Digits(s, n).value == 10 * Digits(rest, n).value + (c - '0') as nat
  {
    if |s| > 1 {
      DigitsButLast(s[1..], 10 * n + (s[0] - '0') as nat);
      assert s[1..][..|s| - 2] == s[..|s| - 1][1..];
    } else {
      assert s[1..] == "" && s[..0] == "";
    }
  }

  lemma {:induction false} DigitsGrow(s: string, n: nat)
    requires Digits(s, n).Some?
    ensures Digits(s, n).value >= n && (s != "" && (n > 0 || s[0] != '0') ==> Digits(s, n).value > 0)
  {
    if s != "" {
      DigitsGrow(s[1..], 10 * n + (s[0] - '0') as nat);
    }
  }

  /** And only the number's own text does. */
  lemma {:induction false} DecimalOnly(s: string)
    requires Index(s).Some?
    ensures Decimal(Index(s).value) == s
    decreases |s|
  {
    var (rest, c) := (s[..|s| - 1], s[|s| - 1]);
    DigitsButLast(s, 0);
    if rest == "" {
      assert Digits("", 0) == Some(0) && s == [c];
    } else {
      assert rest[0] == s[0] != '0';
      DigitsGrow(rest, 0);
      DecimalOnly(rest);
      assert Index(s).value / 10 == Index(rest).value && Index(s).value % 10 == (c - '0') as nat;
      assert s == rest + [c];
    }
  }

  // ---- pointers -----------------------------------------------------------------------------------

  /** One way down: into the field of a name, or to the item at an index. */
  datatype Way = Name(name: string) | At(index: nat)

  function WayText(way: Way): string {
    match way
    case Name(name) => name
    case At(index) => Decimal(index)
  }

  /** The argument a path leads to. */
  ghost predicate Leads(value: Json, path: seq<Way>, target: Json)
    decreases |path|
  {
    if path == [] then value == target
    else match path[0]
      case Name(name) =>
        value.Object? && exists i | 0 <= i < |value.fields| ::
                           value.fields[i].name == name && Leads(value.fields[i].value, path[1..], target)
      case At(index) => value.List? && index < |value.items| && Leads(value.items[index], path[1..], target)
  }

  function Texts(path: seq<Way>): (texts: seq<string>)
    ensures |texts| == |path|
  {
    seq(|path|, i requires 0 <= i < |path| => WayText(path[i]))
  }

  lemma {:induction false} LookupNamed(fields: seq<Field>, i: nat)
    requires DistinctNames(fields) && i < |fields|
    ensures Lookup(fields, fields[i].name) == Some(fields[i].value)
  {
    if i > 0 {
      assert fields[0].name != fields[i].name;
      LookupNamed(fields[1..], i - 1);
    }
  }

  /** Walking finds the argument a path leads to. */
  lemma {:induction false} WalkLeads(value: Json, path: seq<Way>, target: Json)
    requires Keyed(value) && Leads(value, path, target)
    ensures Walk(value, Texts(path)) == Some(target)
    decreases |path|
  {
    hide Decimal, Index;
    if path != [] {
      assert Texts(path)[0] == WayText(path[0]) && Texts(path)[1..] == Texts(path[1..]);
      match path[0]
      case Name(name) =>
        var i :| 0 <= i < |value.fields| && value.fields[i].name == name
                 && Leads(value.fields[i].value, path[1..], target);
        LookupNamed(value.fields, i);
        assert value.fields[i] in value.fields;
        WalkLeads(value.fields[i].value, path[1..], target);
      case At(index) =>
        DecimalReads(index);
        assert value.items[index] in value.items;
        WalkLeads(value.items[index], path[1..], target);
    }
  }

  /** And whatever walking finds, a path with those texts leads there. */
  lemma {:induction false} WalkedLeads(value: Json, parts: seq<string>) returns (path: seq<Way>)
    requires Walk(value, parts).Some?
    ensures Texts(path) == parts && Leads(value, path, Walk(value, parts).value)
    decreases |parts|
  {
    hide Decimal, Index;
    if parts == [] {
      path := [];
    } else {
      var child := Child(value, parts[0]).value;
      var rest := WalkedLeads(child, parts[1..]);
      var way := if value.List? then At(Index(parts[0]).value) else Name(parts[0]);
      if value.List? {
        DecimalOnly(parts[0]);
      } else {
        LookupField(value.fields, parts[0]);
        var i :| 0 <= i < |value.fields| && value.fields[i] == Field(parts[0], child);
      }
      path := [way] + rest;
      assert path[1..] == rest && WayText(way) == parts[0];
      assert Texts(path) == [parts[0]] + Texts(rest);
    }
  }

  /** Section 4 of RFC 6901: "~" is written "~0" and "/" is written "~1". */
  function Escape6901(s: string): string {
    if s == "" then ""
    else (if s[0] == '~' then "~0" else if s[0] == '/' then "~1" else [s[0]]) + Escape6901(s[1..])
  }

  /** Section 3 of RFC 6901: each token after a slash. */
  function PointerTo(tokens: seq<string>): string {
    if tokens == [] then "" else "/" + Escape6901(tokens[0]) + PointerTo(tokens[1..])
  }

  /** With only the tildes escaped. */
  function Half(s: string): string {
    if s == "" then "" else (if s[0] == '~' then "~0" else [s[0]]) + Half(s[1..])
  }

  lemma {:induction false} UnescapeSlashes(s: string)
    ensures Unescape(Escape6901(s), '1', '/') == Half(s) && '/' !in Escape6901(s)
  {
    if s != "" {
      UnescapeSlashes(s[1..]);
      var rest := Escape6901(s[1..]);
      if s[0] == '~' {
        assert ("~0" + rest)[1..] == ['0'] + rest && (['0'] + rest)[1..] == rest;
        assert Unescape(['0'] + rest, '1', '/') == ['0'] + Unescape(rest, '1', '/');
        assert ['~'] + (['0'] + Half(s[1..])) == "~0" + Half(s[1..]);
      } else if s[0] == '/' {
        assert ("~1" + rest)[2..] == rest;
      } else {
        assert ([s[0]] + rest)[1..] == rest;
      }
    }
  }

  lemma {:induction false} UnescapeTildes(s: string)
    ensures Unescape(Half(s), '0', '~') == s
  {
    if s != "" {
      UnescapeTildes(s[1..]);
      var rest := Half(s[1..]);
      assert s == [s[0]] + s[1..];
      if s[0] == '~' {
        assert ("~0" + rest)[2..] == rest;
      } else {
        assert ([s[0]] + rest)[1..] == rest;
      }
    }
  }

  function Escapes(tokens: seq<string>): (texts: seq<string>)
    ensures |texts| == |tokens| && forall i | 0 <= i < |tokens| :: texts[i] == Escape6901(tokens[i])
  {
    seq(|tokens|, i requires 0 <= i < |tokens| => Escape6901(tokens[i]))
  }

  lemma {:induction false} PointerJoins(tokens: seq<string>)
    requires tokens != []
    ensures PointerTo(tokens) == ['/'] + Join(Escapes(tokens), '/')
  {
    hide Escape6901;
    var first, rest := Escape6901(tokens[0]), Escapes(tokens[1..]);
    assert Escapes(tokens) == [first] + rest;
    if |tokens| > 1 {
      PointerJoins(tokens[1..]);
      assert "/" + first + (['/'] + Join(rest, '/')) == ['/'] + (first + ['/'] + Join(rest, '/'));
    } else {
      assert PointerTo(tokens[1..]) == "";
      assert "/" + first + "" == ['/'] + first;
    }
  }

  lemma SplitPointer(tokens: seq<string>)
    requires tokens != []
    ensures PointerTo(tokens) != "" && Split(PointerTo(tokens)[1..], '/') == Escapes(tokens)
  {
    PointerJoins(tokens);
    forall text | text in Escapes(tokens) ensures '/' !in text {
      var i :| 0 <= i < |tokens| && Escapes(tokens)[i] == text;
      UnescapeSlashes(tokens[i]);
    }
    SplitJoin(Escapes(tokens), '/');
    hide PointerTo, Split, Join, Escape6901;
    assert PointerTo(tokens)[1..] == Join(Escapes(tokens), '/');
  }

  /** Reading a pointer gives back the tokens it was written for. */
  lemma PartsOfPointer(tokens: seq<string>)
    requires tokens != []
    ensures Parts(PointerTo(tokens)) == tokens
  {
    SplitPointer(tokens);
    forall i | 0 <= i < |tokens| ensures Unescape(Unescape(Escape6901(tokens[i]), '1', '/'), '0', '~') == tokens[i] {
      UnescapeSlashes(tokens[i]);
      UnescapeTildes(tokens[i]);
    }
  }

  predicate AnySensitive(tokens: seq<string>) {
    exists i | 0 <= i < |tokens| :: Sensitive(tokens[i])
  }

  /** A pointer shows the argument its path leads to, or a mask if the path goes through a sensitive name, or that the
      field is not present exactly when no path of its tokens leads anywhere. */
  lemma PointerShows(arguments: Json, path: seq<Way>, target: Json)
    requires Keyed(arguments) && path != [] && Leads(arguments, path, target)
    ensures var shown := Shown(arguments, PointerTo(Texts(path)));
            if AnySensitive(Texts(path)) then shown == Str("[MASKED]") else Depicts(shown, target, 0)
  {
    var tokens := Texts(path);
    PartsOfPointer(tokens);
    WalkLeads(arguments, path, target);
    MaskDepicts(target, 0);
    hide Parts, Walk, Mask, Depicts, Sensitive;
    assert AnySensitive(tokens) <==> exists part | part in tokens :: Sensitive(part);
  }

  lemma PointerMisses(arguments: Json, tokens: seq<string>)
    requires tokens != [] && forall path, target | Leads(arguments, path, target) :: Texts(path) != tokens
    ensures Shown(arguments, PointerTo(tokens)) == Str("[OMITTED: configured field not present]")
  {
    PartsOfPointer(tokens);
    if Walk(arguments, tokens).Some? {
      var path := WalkedLeads(arguments, tokens);
    }
    hide Parts, Walk, Leads;
  }

  // ---- the card -----------------------------------------------------------------------------------

  /** A value within the limits stands on the card as it was requested, under its pointer, exactly if its entry takes
      at most 1000 characters and at most 3600 together with the entries before it. Otherwise the entry says so, as
      long as there is room for that. */
  lemma CardShows(arguments: Json, pointers: seq<string>, k: nat, path: seq<Way>, target: Json)
    requires Keyed(arguments) && Distinct(pointers) && k < |pointers|
    requires path != [] && pointers[k] == PointerTo(Texts(path)) && Leads(arguments, path, target)
    requires !AnySensitive(Texts(path)) && Plain(target, 4) && target != TOO_LARGE
    ensures var entries := Selected(arguments, pointers, Length).entries;
            var before := Selected(arguments, pointers[..k], Length).entries;
            var entry := Object([Field("field", Str(pointers[k])), Field("value", target)]);
            && (entry in entries <==> |Canonical(entry)| <= 1000 && |Canonical(List(before + [entry]))| <= 3600)
            && forall other | Entry(pointers[k], other) in entries ::
                 other == target || other == Str("[OMITTED: summary size limit]")
  {
    ArgumentShown(arguments, path, target);
    OneEntry(arguments, pointers, k, target);
    hide Shown, Selected, Canonical, Plain, Leads, Keyed, Texts, PointerTo, Distinct, AnySensitive;
  }

  lemma OneEntry(arguments: Json, pointers: seq<string>, k: nat, value: Json)
    requires Distinct(pointers) && k < |pointers| && Shown(arguments, pointers[k]) == value != TOO_LARGE
    ensures var entries := Selected(arguments, pointers, Length).entries;
            var before := Selected(arguments, pointers[..k], Length).entries;
            && (Entry(pointers[k], value) in entries <==>
                  && |Canonical(Entry(pointers[k], value))| <= 1000
                  && |Canonical(List(before + [Entry(pointers[k], value)]))| <= 3600)
            && forall other | Entry(pointers[k], other) in entries :: other == value || other == TOO_LARGE
  {
    hide Shown, Selected, Canonical, Entry, Distinct;
    EntryOf(arguments, pointers, k, value, Length);
    forall other | Entry(pointers[k], other) in Selected(arguments, pointers, Length).entries && other != TOO_LARGE
      ensures other == value
    {
      EntryOf(arguments, pointers, k, other, Length);
    }
  }

  lemma ArgumentShown(arguments: Json, path: seq<Way>, target: Json)
    requires Keyed(arguments) && path != [] && Leads(arguments, path, target)
    requires !AnySensitive(Texts(path)) && Plain(target, 4)
    ensures Shown(arguments, PointerTo(Texts(path))) == target
  {
    PartsOfPointer(Texts(path));
    WalkLeads(arguments, path, target);
    PlainShown(target, 0);
    hide Parts, Walk, Mask, Sensitive;
    assert AnySensitive(Texts(path)) <==> exists part | part in Texts(path) :: Sensitive(part);
  }

  ghost predicate Omitted(arguments: Json, pointers: seq<string>, k: nat)
    requires k < |pointers|
  {
    var entry := Entry(pointers[k], Shown(arguments, pointers[k]));
    var before := Selected(arguments, pointers[..k], Length).entries;
    |Canonical(entry)| > 1000 || |Canonical(List(before + [entry]))| > 3600
  }

  lemma OmittedLast(arguments: Json, pointers: seq<string>)
    requires pointers != []
    ensures var n := |pointers| - 1;
            Selected(arguments, pointers, Length).omitted
            == Selected(arguments, pointers[..n], Length).omitted + if Omitted(arguments, pointers, n) then 1 else 0
  {
    hide Shown, Canonical;
  }

  ghost function OmittedOnes(arguments: Json, pointers: seq<string>): set<nat> {
    set k | 0 <= k < |pointers| && Omitted(arguments, pointers, k)
  }

  lemma OmittedOne(arguments: Json, pointers: seq<string>)
    requires pointers != []
    ensures var n := |pointers| - 1; var before := OmittedOnes(arguments, pointers[..n]);
            && n !in before
            && OmittedOnes(arguments, pointers) == if Omitted(arguments, pointers, n) then before + {n} else before
  {
    hide Shown, Canonical, Selected;
    var n := |pointers| - 1;
    forall k | 0 <= k < n ensures Omitted(arguments, pointers[..n], k) <==> Omitted(arguments, pointers, k) {
      assert pointers[..n][..k] == pointers[..k];
    }
  }

  lemma OmittedNone(arguments: Json)
    ensures Selected(arguments, [], Length).omitted == |OmittedOnes(arguments, [])|
  {
    assert OmittedOnes(arguments, []) == {};
  }

  /** The count of omissions is the number of pointers whose value was not shown for its size. */
  lemma {:induction false} OmittedCount(arguments: Json, pointers: seq<string>)
    ensures Selected(arguments, pointers, Length).omitted == |OmittedOnes(arguments, pointers)|
  {
    hide Omitted, OmittedOnes, Selected;
    if pointers == [] {
      OmittedNone(arguments);
    } else {
      OmittedCount(arguments, pointers[..|pointers| - 1]);
      OmittedLast(arguments, pointers);
      OmittedOne(arguments, pointers);
    }
  }

  /** What the card says was left out. */
  lemma OmissionsSo(pointers: nat, omitted: nat)
    requires omitted <= pointers
    ensures var outside := Str("Fields outside configured pointers are omitted.");
            var reason := Str("Agent justification is omitted.");
            var counted := Str("Configured fields: " + Decimal(pointers) + "; values shown: "
                               + Decimal(pointers - omitted) + "; omitted for summary size: " + Decimal(omitted)
                               + " (labels included where space permits).");
            Omissions(pointers, omitted)
            == if pointers == 0 then
                 [Str("ALL arguments omitted: no approval_fields configured."), outside, reason]
               else if omitted == 0 then [outside, reason]
               else if omitted < pointers then [outside, reason, counted]
               else [outside, reason, counted,
                     Str("ALL configured field values omitted: summary size limit; 0 shown.")]
  {
    hide Decimal;
  }

  // ---- sensitive names ----------------------------------------------------------------------------

  /** Only ASCII letters and digits count, in lower case. */
  lemma FoldedChar(c: char)
    ensures var n := c as int;
            Folded(c) == if 48 <= n < 58 || 97 <= n < 123 then [c]
                         else if 65 <= n < 91 then [(n + 32) as char]
                         else if n == 0x212A then "k" else if n == 0x130 then "i" else ""
  {
  }

  lemma {:induction false} FoldedEach(a: string, b: string)
    ensures FoldedName(a + b) == FoldedName(a) + FoldedName(b)
  {
    hide Folded;
    if a == "" {
      assert a + b == b;
    } else {
      FoldedEach(a[1..], b);
      assert (a + b)[1..] == a[1..] + b;
      Associative(Folded(a[0]), FoldedName(a[1..]), FoldedName(b));
    }
  }

  lemma ContainsSo(s: string, word: string)
    ensures Contains(s, word) <==> exists a, b :: s == a + word + b
  {
    if Contains(s, word) {
      var i :| 0 <= i <= |s| && word <= s[i..];
      assert s == s[..i] + word + s[i + |word|..];
    }
    if a, b :| s == a + word + b {
      assert s[|a|..] == word + b && word <= s[|a|..];
    }
  }

  ghost predicate Holds(s: string, word: string) {
    exists a, b :: s == a + word + b
  }

  ghost const WORDS := {"password", "passwd", "passphrase", "secret", "token", "credential", "apikey", "authorization",
                        "cookie", "privatekey", "session", "bearer"}

  lemma Words(word: string)
    ensures word in SENSITIVE_PARTS <==> word in WORDS
  {
  }

  /** A name is sensitive exactly if, so folded, it holds one of the words or is one of the short names. */
  lemma SensitiveExactly(name: string)
    ensures Sensitive(name) <==>
              || (exists word | word in WORDS :: Holds(FoldedName(name), word))
              || FoldedName(name) in {"pwd", "auth", "accesskey", "key", "pin", "otp", "ssn", "reason",
                                      "justification"}
  {
    var folded := FoldedName(name);
    forall word ensures word in SENSITIVE_PARTS && Contains(folded, word) <==> word in WORDS && Holds(folded, word) {
      Words(word);
      ContainsSo(folded, word);
    }
    hide FoldedName, Contains, Holds;
  }
}
