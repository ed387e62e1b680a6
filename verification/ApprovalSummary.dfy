/** What the approval card shows of a request's arguments (broker/approval_summary.py), and exactly when it can
    reveal anything about what is stored under sensitive names. */
module ApprovalSummary {
  import opened Wrappers
  import opened PythonText
  import opened CanonicalJson

  // ---- sensitive names ----------------------------------------------------------------------------

  /** Lower case of a character, as far as it is a lower-case letter or digit of ASCII: besides A to Z, only the
      Kelvin sign and the dotted capital I become one. */
  function Folded(c: char): string {
    if 'a' <= c <= 'z' || '0' <= c <= '9' then [c]
    else if 'A' <= c <= 'Z' then [c + 'a' - 'A']
    else if c == '\U{212A}' then "k"
    else if c == '\U{0130}' then "i"
    else ""
  }

  function FoldedName(name: string): string {
    if name == "" then "" else Folded(name[0]) + FoldedName(name[1..])
  }

  predicate Contains(s: string, part: string) {
    exists i | 0 <= i <= |s| :: part <= s[i..]
  }

  const SENSITIVE_PARTS := ["password", "passwd", "passphrase", "secret", "token", "credential", "apikey",
                            "authorization", "cookie", "privatekey", "session", "bearer"]

  const SENSITIVE_NAMES := ["pwd", "auth", "accesskey", "key", "pin", "otp", "ssn", "reason", "justification"]

  predicate Sensitive(name: string) {
    var folded := FoldedName(name);
    (exists part | part in SENSITIVE_PARTS :: Contains(folded, part)) || folded in SENSITIVE_NAMES
  }

  // ---- masking ------------------------------------------------------------------------------------

  const MASKED := Str("[MASKED]")
  const TOO_DEEP := Str("[OMITTED: nesting limit]")
  const NOT_PRESENT := Str("[OMITTED: configured field not present]")
  const TOO_LARGE := Str("[OMITTED: summary size limit]")

  function Decimal(n: nat): string {
    var last := ['0' + (n % 10) as char];
    if n < 10 then last else Decimal(n / 10) + last
  }

  /** Assignment to a key of a dict: an existing key keeps its place. */
  function Put(fields: seq<Field>, name: string, value: Json): seq<Field> {
    if fields == [] then [Field(name, value)]
    else if fields[0].name == name then [Field(name, value)] + fields[1..]
    else [fields[0]] + Put(fields[1..], name, value)
  }

  function First<T>(s: seq<T>, n: nat): seq<T> {
    if |s| <= n then s else s[..n]
  }

  function Mask(value: Json, depth: nat): Json
    decreases value, 1, 0
  {
    if depth >= 4 && (value.Object? || value.List?) then TOO_DEEP
    else match value
      case Object(fields) =>
        var result := MaskFields(value, First(fields, 16), depth, []);
        Object(if |fields| <= 16 then result
               else Put(result, "[OMITTED]", Str(Decimal(|fields| - 16) + " additional fields")))
      case List(items) =>
        var result := MaskItems(value, First(items, 16), depth);
        List(if |items| <= 16 then result
             else result + [Str("[OMITTED: " + Decimal(|items| - 16) + " additional items]")])
      case Str(s) => if |s| > 256 then Str(s[..256] + "[TRUNCATED: remaining text omitted]") else value
      case _ => value
  }

  function MaskFields(value: Json, fields: seq<Field>, depth: nat, result: seq<Field>): seq<Field>
    requires forall f | f in fields :: f.value < value
    decreases value, 0, |fields|
  {
    if fields == [] then result
    else
      var (name, child) := (fields[0].name, fields[0].value);
      var result :=
        if |name| > 64 then Put(result, "[OMITTED: long field name]", MASKED)
        else Put(result, name, if Sensitive(name) then MASKED else Mask(child, depth + 1));
      MaskFields(value, fields[1..], depth, result)
  }

  function MaskItems(value: Json, items: seq<Json>, depth: nat): seq<Json>
    requires forall i | 0 <= i < |items| :: items[i] < value
    decreases value, 0, |items|
  {
    if items == [] then [] else [Mask(items[0], depth + 1)] + MaskItems(value, items[1..], depth)
  }

  // ---- pointers -----------------------------------------------------------------------------------

  /** str.replace of "~" followed by one character. */
  function Unescape(s: string, c: char, text: char): string
    decreases |s|
  {
    if s == "" then ""
    else if |s| > 1 && s[0] == '~' && s[1] == c then [text] + Unescape(s[2..], c, text)
    else [s[0]] + Unescape(s[1..], c, text)
  }

  /** The reference tokens of an RFC 6901 pointer. */
  function Parts(pointer: string): (parts: seq<string>)
    ensures parts != []
  {
    var raw := Split(if pointer == "" then "" else pointer[1..], '/');
    seq(|raw|, i requires 0 <= i < |raw| => Unescape(Unescape(raw[i], '1', '/'), '0', '~'))
  }

  /** The index a token without leading zeros denotes. */
  function Index(part: string): Option<nat> {
    if part == "" || (|part| > 1 && part[0] == '0') then None else Digits(part, 0)
  }

  function Digits(s: string, n: nat): Option<nat> {
    if s == "" then Some(n)
    else if '0' <= s[0] <= '9' then Digits(s[1..], 10 * n + (s[0] - '0') as nat)
    else None
  }

  function Lookup(fields: seq<Field>, name: string): Option<Json> {
    if fields == [] then None
    else if fields[0].name == name then Some(fields[0].value)
    else Lookup(fields[1..], name)
  }

  function Child(value: Json, part: string): Option<Json> {
    match value
    case List(items) =>
      var i := Index(part);
      if i.Some? && i.value < |items| then Some(items[i.value]) else None
    case Object(fields) => Lookup(fields, part)
    case _ => None
  }

  function Walk(value: Json, parts: seq<string>): Option<Json>
    decreases |parts|
  {
    if parts == [] then Some(value)
    else
      var child := Child(value, parts[0]);
      if child.None? then None else Walk(child.value, parts[1..])
  }

  /** What the card shows for one pointer, before its size is looked at. */
  function Shown(arguments: Json, pointer: string): Json {
    var parts := Parts(pointer);
    var value := Walk(arguments, parts);
    if value.None? then NOT_PRESENT
    else if exists part | part in parts :: Sensitive(part) then MASKED
    else Mask(value.value, 0)
  }

  // ---- the card -----------------------------------------------------------------------------------

  datatype Card = Card(entries: seq<Json>, omitted: nat)

  function Entry(pointer: string, value: Json): Json {
    Object([Field("field", Str(pointer)), Field("value", value)])
  }

  /** The value is shown as it is: each entry has its bound, and all together have theirs. */
  predicate Fits(card: Card, pointer: string, value: Json, size: Json -> nat) {
    var entry := Entry(pointer, value);
    !(size(entry) > 1000 || size(List(card.entries + [entry])) > 3600)
  }

  /** One more pointer: too large a value is replaced, and left out when even that does not fit. */
  function Extended(card: Card, pointer: string, value: Json, size: Json -> nat): Card {
    var large := !Fits(card, pointer, value, size);
    var entry := Entry(pointer, if large then TOO_LARGE else value);
    Card(if size(List(card.entries + [entry])) <= 3600 then card.entries + [entry] else card.entries,
         card.omitted + if large then 1 else 0)
  }

  function Selected(arguments: Json, pointers: seq<string>, size: Json -> nat): Card {
    if pointers == [] then Card([], 0)
    else
      var last := pointers[|pointers| - 1];
      Extended(Selected(arguments, pointers[..|pointers| - 1], size), last, Shown(arguments, last), size)
  }

  function Omissions(pointers: nat, omitted: nat): seq<Json>
    requires omitted <= pointers
  {
    (if pointers == 0 then [Str("ALL arguments omitted: no approval_fields configured.")] else [])
    + [Str("Fields outside configured pointers are omitted."), Str("Agent justification is omitted.")]
    + (if omitted == 0 then [] else
         [Str("Configured fields: " + Decimal(pointers) + "; values shown: " + Decimal(pointers - omitted)
              + "; omitted for summary size: " + Decimal(omitted) + " (labels included where space permits).")])
    + (if omitted == 0 || omitted != pointers then [] else
         [Str("ALL configured field values omitted: summary size limit; 0 shown.")])
  }

  function Summary(arguments: Json, pointers: seq<string>, size: Json -> nat): Json {
    var card := Selected(arguments, pointers, size);
    OmittedFew(arguments, pointers, size);
    Object([Field("selected_fields", List(card.entries)),
            Field("omissions", List(Omissions(|pointers|, card.omitted)))])
  }

  lemma {:induction false} OmittedFew(arguments: Json, pointers: seq<string>, size: Json -> nat)
    ensures Selected(arguments, pointers, size).omitted <= |pointers|
  {
    if pointers != [] {
      OmittedFew(arguments, pointers[..|pointers| - 1], size);
    }
  }

  /** len(canonical(value)): the text is ASCII. */
  function Length(value: Json): nat {
    |Canonical(value)|
  }

  /** The text of the card. */
  function Rendered(arguments: Json, pointers: seq<string>): string {
    Canonical(Summary(arguments, pointers, Length))
  }

  method Summarize(arguments: Json, pointers: seq<string>) returns (text: string)
    ensures text == Rendered(arguments, pointers)
  {
    hide Shown, Parts, Decimal, Canonical;
    var entries: seq<Json> := [];
    var omitted: nat := 0;
    for i := 0 to |pointers|
      invariant Card(entries, omitted) == Selected(arguments, pointers[..i], Length)
    {
      hide Omissions;
      var pointer := pointers[i];
      assert pointers[..i + 1][..i] == pointers[..i];
      var entry := Entry(pointer, Shown(arguments, pointer));
      if |Canonical(entry)| > 1000 || |Canonical(List(entries + [entry]))| > 3600 {
        omitted := omitted + 1;
        entry := Entry(pointer, TOO_LARGE);
      }
      if |Canonical(List(entries + [entry]))| <= 3600 {
        entries := entries + [entry];
      }
    }
    assert pointers[..|pointers|] == pointers;
    OmittedFew(arguments, pointers, Length);
    return Canonical(Object([Field("selected_fields", List(entries)),
                             Field("omissions", List(Omissions(|pointers|, omitted)))]));
  }

  // ---- what the card cannot reveal ----------------------------------------------------------------

  predicate AlikeFields(f: Field, g: Field)
    decreases f, 0
  {
    f.name == g.name && (Sensitive(f.name) || Alike(f.value, g.value))
  }

  /** Two values that differ at most in what is stored under sensitive names. */
  predicate Alike(a: Json, b: Json)
    decreases a, 1
  {
    match a
    case List(items) =>
      b.List? && |b.items| == |items| && forall i | 0 <= i < |items| :: Alike(items[i], b.items[i])
    case Object(fields) =>
      b.Object? && |b.fields| == |fields| && forall i | 0 <= i < |fields| :: AlikeFields(fields[i], b.fields[i])
    case _ => a == b
  }

  lemma {:induction false} MaskAlike(a: Json, b: Json, depth: nat)
    requires Alike(a, b)
    ensures Mask(a, depth) == Mask(b, depth)
    decreases a, 1, 0
  {
    hide MaskFields, MaskItems, Put, Decimal, Sensitive;
    if depth < 4 {
      match a
      case Object(fields) =>
        MaskFieldsAlike(a, b, First(fields, 16), First(b.fields, 16), depth, []);
      case List(items) =>
        MaskItemsAlike(a, b, First(items, 16), First(b.items, 16), depth);
      case _ =>
    }
  }

  lemma {:induction false} MaskFieldsAlike(a: Json, b: Json, fields: seq<Field>, others: seq<Field>, depth: nat,
                                           result: seq<Field>)
    requires forall f | f in fields :: f.value < a
    requires forall f | f in others :: f.value < b
    requires |fields| == |others| && forall i | 0 <= i < |fields| :: AlikeFields(fields[i], others[i])
    ensures MaskFields(a, fields, depth, result) == MaskFields(b, others, depth, result)
    decreases a, 0, |fields|
  {
    hide Sensitive;
    if fields != [] {
      var f, g := fields[0], others[0];
      if !Sensitive(f.name) {
        MaskAlike(f.value, g.value, depth + 1);
      }
      var result' :=
        if |f.name| > 64 then Put(result, "[OMITTED: long field name]", MASKED)
        else Put(result, f.name, if Sensitive(f.name) then MASKED else Mask(f.value, depth + 1));
      MaskFieldsAlike(a, b, fields[1..], others[1..], depth, result');
    }
  }

  lemma {:induction false} MaskItemsAlike(a: Json, b: Json, items: seq<Json>, others: seq<Json>, depth: nat)
    requires forall i | 0 <= i < |items| :: items[i] < a
    requires forall i | 0 <= i < |others| :: others[i] < b
    requires |items| == |others| && forall i | 0 <= i < |items| :: Alike(items[i], others[i])
    ensures MaskItems(a, items, depth) == MaskItems(b, others, depth)
    decreases a, 0, |items|
  {
    if items != [] {
      MaskAlike(items[0], others[0], depth + 1);
      MaskItemsAlike(a, b, items[1..], others[1..], depth);
    }
  }

  /** The same names are present, and hold alike values unless the name is sensitive. */
  predicate AlikeFound(part: string, x: Option<Json>, y: Option<Json>) {
    (x.Some? <==> y.Some?) && (x.Some? && !Sensitive(part) ==> Alike(x.value, y.value))
  }

  lemma {:induction false} LookupAlike(fields: seq<Field>, others: seq<Field>, part: string)
    requires |fields| == |others| && forall i | 0 <= i < |fields| :: AlikeFields(fields[i], others[i])
    ensures AlikeFound(part, Lookup(fields, part), Lookup(others, part))
  {
    hide Sensitive, Alike;
    if fields != [] {
      assert AlikeFields(fields[0], others[0]);
      LookupAlike(fields[1..], others[1..], part);
    }
  }

  lemma ChildAlike(a: Json, b: Json, part: string)
    requires Alike(a, b)
    ensures AlikeFound(part, Child(a, part), Child(b, part))
  {
    hide Sensitive, Index;
    if a.Object? {
      LookupAlike(a.fields, b.fields, part);
    }
  }

  /** No part but the last has a sensitive name. */
  predicate Shallow(parts: seq<string>) {
    forall i | 0 <= i < |parts| - 1 :: !Sensitive(parts[i])
  }

  lemma {:induction false} WalkAlike(a: Json, b: Json, parts: seq<string>)
    requires Alike(a, b) && Shallow(parts) && parts != []
    ensures AlikeFound(parts[|parts| - 1], Walk(a, parts), Walk(b, parts))
    decreases |parts|
  {
    hide Sensitive, Alike, Child;
    ChildAlike(a, b, parts[0]);
    var x, y := Child(a, parts[0]), Child(b, parts[0]);
    if |parts| == 1 {
      assert x.Some? ==> Walk(x.value, parts[1..]) == x;
      assert y.Some? ==> Walk(y.value, parts[1..]) == y;
    } else if x.Some? {
      WalkAlike(x.value, y.value, parts[1..]);
    }
  }

  /** A pointer that goes beneath no sensitive name shows the same of any two alike values. */
  lemma ShownAlike(a: Json, b: Json, pointer: string)
    requires Alike(a, b) && Shallow(Parts(pointer))
    ensures Shown(a, pointer) == Shown(b, pointer)
  {
    var parts := Parts(pointer);
    hide Sensitive, Parts, Alike, Walk, Mask;
    WalkAlike(a, b, parts);
    if Walk(a, parts).Some? && !Sensitive(parts[|parts| - 1]) {
      MaskAlike(Walk(a, parts).value, Walk(b, parts).value, 0);
    }
  }

  /** Non-interference: what is stored under sensitive names never influences the card, through path walking,
      depth and width limits, truncation and the size budget. */
  lemma {:induction false} NonInterference(a: Json, b: Json, pointers: seq<string>, size: Json -> nat)
    requires Alike(a, b) && forall p | p in pointers :: Shallow(Parts(p))
    ensures Summary(a, pointers, size) == Summary(b, pointers, size)
  {
    SelectedAlike(a, b, pointers, size);
  }

  lemma {:induction false} SelectedAlike(a: Json, b: Json, pointers: seq<string>, size: Json -> nat)
    requires Alike(a, b) && forall p | p in pointers :: Shallow(Parts(p))
    ensures Selected(a, pointers, size) == Selected(b, pointers, size)
  {
    hide Alike, Shallow, Parts, Shown;
    if pointers != [] {
      SelectedAlike(a, b, pointers[..|pointers| - 1], size);
      ShownAlike(a, b, pointers[|pointers| - 1]);
    }
  }

  // ---- what the card can reveal -------------------------------------------------------------------

  /** The first part with a sensitive name, or the number of parts. */
  function FirstSensitive(parts: seq<string>): (i: nat)
    ensures i <= |parts|
    ensures i < |parts| ==> Sensitive(parts[i])
    ensures forall j | 0 <= j < i :: !Sensitive(parts[j])
  {
    if parts == [] || Sensitive(parts[0]) then 0 else 1 + FirstSensitive(parts[1..])
  }

  /** The pointer goes beneath a sensitive name that these arguments hold. */
  predicate Open(arguments: Json, pointer: string) {
    var parts := Parts(pointer);
    var i := FirstSensitive(parts);
    i + 1 < |parts| && Walk(arguments, parts[..i + 1]).Some?
  }

  /** What is beneath a sensitive name shows through the k-th pointer: by whether its field is present, when the
      entry for either answer still fits on the card. */
  predicate Telling(arguments: Json, pointers: seq<string>, k: nat, size: Json -> nat)
    requires k < |pointers|
  {
    var card := Selected(arguments, pointers[..k], size);
    && Open(arguments, pointers[k])
    && (Fits(card, pointers[k], MASKED, size) || Fits(card, pointers[k], NOT_PRESENT, size))
  }

  predicate Quiet(arguments: Json, pointers: seq<string>, size: Json -> nat) {
    forall k | 0 <= k < |pointers| :: !Telling(arguments, pointers, k, size)
  }

  lemma {:induction false} WalkSplit(value: Json, parts: seq<string>, n: nat)
    requires n <= |parts|
    ensures var mid := Walk(value, parts[..n]);
            Walk(value, parts) == if mid.None? then None else Walk(mid.value, parts[n..])
    decreases n
  {
    hide Child;
    if n == 0 {
      assert parts[0..] == parts;
    } else {
      assert parts[..n][1..] == parts[1..][..n - 1] && parts[1..][n - 1..] == parts[n..];
      if Child(value, parts[0]).Some? {
        WalkSplit(Child(value, parts[0]).value, parts[1..], n - 1);
      }
    }
  }

  /** Alike arguments hold the same sensitive names, so a pointer is open in both or in neither. */
  lemma OpenAlike(a: Json, b: Json, pointer: string)
    requires Alike(a, b)
    ensures Open(a, pointer) <==> Open(b, pointer)
    ensures !Open(a, pointer) ==> Shown(a, pointer) == Shown(b, pointer)
  {
    var parts := Parts(pointer);
    var i := FirstSensitive(parts);
    hide Sensitive, Parts, Alike, Walk, Mask;
    if i + 1 < |parts| {
      WalkAlike(a, b, parts[..i + 1]);
      WalkSplit(a, parts, i + 1);
      WalkSplit(b, parts, i + 1);
    } else {
      ShownAlike(a, b, pointer);
    }
  }

  lemma OpenShows(a: Json, pointer: string)
    requires Open(a, pointer)
    ensures Shown(a, pointer) == if Walk(a, Parts(pointer)).Some? then MASKED else NOT_PRESENT
  {
    hide Sensitive, Parts, Walk, Mask;
    assert Sensitive(Parts(pointer)[FirstSensitive(Parts(pointer))]);
  }

  lemma TellingPrefix(a: Json, pointers: seq<string>, n: nat, k: nat, size: Json -> nat)
    requires k < n <= |pointers|
    ensures Telling(a, pointers[..n], k, size) <==> Telling(a, pointers, k, size)
  {
    hide Open, Fits, Selected;
    assert pointers[..n][..k] == pointers[..k];
  }

  lemma QuietPrefix(a: Json, pointers: seq<string>, n: nat, size: Json -> nat)
    requires n <= |pointers| && forall k | 0 <= k < n :: !Telling(a, pointers, k, size)
    ensures Quiet(a, pointers[..n], size)
  {
    hide Telling;
    forall k | 0 <= k < n ensures !Telling(a, pointers[..n], k, size) {
      TellingPrefix(a, pointers, n, k, size);
    }
  }

  /** As long as no pointer tells, alike arguments fill the card alike. */
  lemma {:induction false} QuietAlike(a: Json, b: Json, pointers: seq<string>, size: Json -> nat)
    requires Alike(a, b) && Quiet(a, pointers, size)
    ensures Selected(a, pointers, size) == Selected(b, pointers, size)
  {
    hide Alike, Telling, Shown, Fits;
    if pointers != [] {
      QuietPrefix(a, pointers, |pointers| - 1, size);
      QuietAlike(a, b, pointers[..|pointers| - 1], size);
      ExtendedAlike(a, b, pointers, size);
    }
  }

  lemma ExtendedAlike(a: Json, b: Json, pointers: seq<string>, size: Json -> nat)
    requires Alike(a, b) && pointers != [] && !Telling(a, pointers, |pointers| - 1, size)
    requires var rest := pointers[..|pointers| - 1]; Selected(a, rest, size) == Selected(b, rest, size)
    ensures Selected(a, pointers, size) == Selected(b, pointers, size)
  {
    hide Alike, Open, Shown, Fits, Parts, Walk;
    var last := pointers[|pointers| - 1];
    OpenAlike(a, b, last);
    if Open(a, last) {
      OpenShows(a, last);
      OpenShows(b, last);
    }
  }

  // ---- telling two values apart -------------------------------------------------------------------

  /** Values as json.loads gives them. */
  predicate Valid(value: Json) {
    Proper(value) && Keyed(value)
  }

  /** Objects nested along a path. */
  function Nest(parts: seq<string>): Json {
    if parts == [] then Null else Object([Field(parts[0], Nest(parts[1..]))])
  }

  lemma {:induction false} NestWalk(parts: seq<string>)
    ensures Walk(Nest(parts), parts).Some? && Valid(Nest(parts))
  {
    if parts != [] {
      NestWalk(parts[1..]);
    }
  }

  function Replaced(fields: seq<Field>, name: string, value: Json): seq<Field>
    requires Lookup(fields, name).Some?
  {
    if fields[0].name == name then [Field(name, value)] + fields[1..]
    else [fields[0]] + Replaced(fields[1..], name, value)
  }

  /** Another value at the end of a path. */
  function Graft(value: Json, path: seq<string>, leaf: Json): Json
    requires Walk(value, path).Some?
    decreases |path|
  {
    if path == [] then leaf
    else
      var child := Graft(Child(value, path[0]).value, path[1..], leaf);
      match value
      case List(items) => List(items[Index(path[0]).value := child])
      case Object(fields) => Object(Replaced(fields, path[0], child))
      case _ => value
  }

  lemma {:induction false} ReplacedField(fields: seq<Field>, name: string, value: Json)
    requires Lookup(fields, name).Some?
    ensures var replaced := Replaced(fields, name, value);
            && Lookup(replaced, name) == Some(value) && |replaced| == |fields|
            && forall i | 0 <= i < |fields| ::
                 || replaced[i] == fields[i]
                 || (fields[i].name == name && Some(fields[i].value) == Lookup(fields, name)
                     && replaced[i] == Field(name, value))
  {
    if fields[0].name != name {
      ReplacedField(fields[1..], name, value);
    }
  }

  lemma {:induction false} AlikeItself(value: Json)
    ensures Alike(value, value)
  {
    match value
    case List(items) =>
      forall i | 0 <= i < |items| ensures Alike(items[i], items[i]) {
        AlikeItself(items[i]);
      }
    case Object(fields) =>
      forall i | 0 <= i < |fields| ensures AlikeFields(fields[i], fields[i]) {
        AlikeItself(fields[i].value);
      }
    case _ =>
  }

  lemma {:induction false} GraftWalk(value: Json, path: seq<string>, leaf: Json)
    requires Walk(value, path).Some?
    ensures Walk(Graft(value, path, leaf), path) == Some(leaf)
    decreases |path|
  {
    if path != [] {
      var child := Child(value, path[0]).value;
      GraftWalk(child, path[1..], leaf);
      if value.Object? {
        ReplacedField(value.fields, path[0], Graft(child, path[1..], leaf));
      }
    }
  }

  predicate AllDigits(s: string) {
    forall c | c in s :: '0' <= c <= '9'
  }

  lemma {:induction false} DigitsOnly(s: string, n: nat)
    requires Digits(s, n).Some?
    ensures AllDigits(s) && FoldedName(s) == s
  {
    if s != "" {
      DigitsOnly(s[1..], 10 * n + (s[0] - '0') as nat);
      assert s == [s[0]] + s[1..];
    }
  }

  lemma ContainsFirst(s: string, word: string)
    requires Contains(s, word) && word != ""
    ensures word[0] in s
  {
    var i :| 0 <= i <= |s| && word <= s[i..];
    assert word[0] == s[i..][0] == s[i];
  }

  predicate Lettered(words: seq<string>) {
    forall word | word in words :: word != "" && !('0' <= word[0] <= '9')
  }

  lemma NoDigits(s: string, words: seq<string>)
    requires AllDigits(s) && Lettered(words)
    ensures forall word | word in words :: !Contains(s, word) && s != word
  {
    forall word | word in words ensures !Contains(s, word) && s != word {
      assert word[0] in word;
      if Contains(s, word) {
        ContainsFirst(s, word);
      }
    }
  }

  /** The name of a list index is never sensitive. */
  lemma NoIndex(part: string)
    requires Index(part).Some?
    ensures !Sensitive(part)
  {
    DigitsOnly(part, 0);
    hide Contains, AllDigits, Digits;
    assert Lettered(SENSITIVE_PARTS) && Lettered(SENSITIVE_NAMES);
    hide Lettered;
    NoDigits(part, SENSITIVE_PARTS);
    NoDigits(part, SENSITIVE_NAMES);
  }

  lemma {:induction false} GraftAlike(value: Json, path: seq<string>, leaf: Json)
    requires path != [] && Walk(value, path).Some? && Sensitive(path[|path| - 1])
    ensures Alike(value, Graft(value, path, leaf))
    decreases |path|
  {
    hide Sensitive;
    var child := Child(value, path[0]).value;
    var child' := Graft(child, path[1..], leaf);
    if |path| > 1 {
      GraftAlike(child, path[1..], leaf);
    }
    match value
    case List(items) =>
      if |path| == 1 {
        NoIndex(path[0]);
      }
      forall i | 0 <= i < |items| ensures Alike(items[i], items[Index(path[0]).value := child'][i]) {
        AlikeItself(items[i]);
      }
    case Object(fields) =>
      ReplacedField(fields, path[0], child');
      forall i | 0 <= i < |fields| ensures AlikeFields(fields[i], Replaced(fields, path[0], child')[i]) {
        AlikeItself(fields[i].value);
      }
    case _ =>
  }

  lemma {:induction false} GraftProper(value: Json, path: seq<string>, leaf: Json)
    requires Walk(value, path).Some? && Proper(value) && Proper(leaf)
    ensures Proper(Graft(value, path, leaf))
    decreases |path|
  {
    hide NumberChar, Index;
    if path != [] {
      var child := Child(value, path[0]).value;
      if value.Object? {
        LookupField(value.fields, path[0]);
        GraftProper(child, path[1..], leaf);
        ReplacedField(value.fields, path[0], Graft(child, path[1..], leaf));
      } else {
        GraftProper(child, path[1..], leaf);
      }
    }
  }

  lemma {:induction false} GraftKeyed(value: Json, path: seq<string>, leaf: Json)
    requires Walk(value, path).Some? && Keyed(value) && Keyed(leaf)
    ensures Keyed(Graft(value, path, leaf))
    decreases |path|
  {
    hide Index;
    if path != [] {
      var child := Child(value, path[0]).value;
      if value.Object? {
        LookupField(value.fields, path[0]);
        GraftKeyed(child, path[1..], leaf);
        var replaced := Replaced(value.fields, path[0], Graft(child, path[1..], leaf));
        ReplacedField(value.fields, path[0], Graft(child, path[1..], leaf));
        assert forall i | 0 <= i < |replaced| :: replaced[i].name == value.fields[i].name;
      } else {
        GraftKeyed(child, path[1..], leaf);
      }
    }
  }

  lemma {:induction false} LookupField(fields: seq<Field>, name: string)
    requires Lookup(fields, name).Some?
    ensures Field(name, Lookup(fields, name).value) in fields
  {
    if fields[0].name != name {
      LookupField(fields[1..], name);
    }
  }

  /** Of any arguments that hold the sensitive name there are alike ones with and without the field beneath it. */
  lemma Apart(a: Json, pointer: string) returns (x: Json, y: Json)
    requires Open(a, pointer) && Valid(a)
    ensures Alike(a, x) && Valid(x) && Shown(x, pointer) == MASKED
    ensures Alike(a, y) && Valid(y) && Shown(y, pointer) == NOT_PRESENT
  {
    var parts := Parts(pointer);
    var n := FirstSensitive(parts) + 1;
    var leaf := Nest(parts[n..]);
    x, y := Graft(a, parts[..n], leaf), Graft(a, parts[..n], Null);
    NestWalk(parts[n..]);
    GraftProper(a, parts[..n], leaf);
    GraftKeyed(a, parts[..n], leaf);
    GraftProper(a, parts[..n], Null);
    GraftKeyed(a, parts[..n], Null);
    GraftAlike(a, parts[..n], leaf);
    GraftAlike(a, parts[..n], Null);
    GraftWalk(a, parts[..n], leaf);
    GraftWalk(a, parts[..n], Null);
    WalkSplit(x, parts, n);
    WalkSplit(y, parts, n);
    hide Sensitive, Parts, Alike, Mask, Valid, Graft;
    OpenAlike(a, x, pointer);
    OpenAlike(a, y, pointer);
    OpenShows(x, pointer);
    OpenShows(y, pointer);
  }

  predicate Distinct(pointers: seq<string>) {
    forall i, j | 0 <= i < j < |pointers| :: pointers[i] != pointers[j]
  }

  /** With pointers that differ, an entry says what its own pointer shows. */
  lemma {:induction false} EntryOf(a: Json, pointers: seq<string>, k: nat, value: Json, size: Json -> nat)
    requires Distinct(pointers) && k < |pointers| && value != TOO_LARGE
    ensures Entry(pointers[k], value) in Selected(a, pointers, size).entries
       <==> value == Shown(a, pointers[k]) && Fits(Selected(a, pointers[..k], size), pointers[k], value, size)
  {
    hide Shown;
    var n := |pointers| - 1;
    if k < n {
      hide Fits, Entry;
      assert pointers[..n][..k] == pointers[..k];
      EntryOf(a, pointers[..n], k, value, size);
      EntryLabel(pointers[k], value, pointers[n], Shown(a, pointers[n]));
      EntryLabel(pointers[k], value, pointers[n], TOO_LARGE);
    } else {
      NoEntry(a, pointers[..n], pointers[n], value, size);
      EntryLabel(pointers[n], value, pointers[n], Shown(a, pointers[n]));
      EntryLabel(pointers[n], value, pointers[n], TOO_LARGE);
    }
  }

  lemma EntryLabel(p: string, v: Json, q: string, w: Json)
    ensures Entry(p, v) == Entry(q, w) <==> p == q && v == w
  {
    assert Entry(p, v) == Entry(q, w) ==> Entry(p, v).fields[0] == Entry(q, w).fields[0];
    assert Entry(p, v) == Entry(q, w) ==> Entry(p, v).fields[1] == Entry(q, w).fields[1];
  }

  lemma {:induction false} NoEntry(a: Json, pointers: seq<string>, pointer: string, value: Json, size: Json -> nat)
    requires pointer !in pointers
    ensures Entry(pointer, value) !in Selected(a, pointers, size).entries
  {
    hide Shown, Fits;
    if pointers != [] {
      var n := |pointers| - 1;
      NoEntry(a, pointers[..n], pointer, value, size);
      EntryLabel(pointer, value, pointers[n], Shown(a, pointers[n]));
      EntryLabel(pointer, value, pointers[n], TOO_LARGE);
    }
  }

  // ---- the text of the card -----------------------------------------------------------------------

  lemma ByNameTwo(f: Field, g: Field)
    ensures ByName([f, g]) == if Leq(f.name, g.name) then [f, g] else [g, f]
  {
    assert [f, g][1..] == [g] && ByName([g]) == Inserted(g, []) == [g];
    assert Inserted(f, [g][1..]) == [f];
  }

  lemma OrderedTwo(f: Field, g: Field)
    ensures var f', g' := Field(f.name, Ordered(f.value)), Field(g.name, Ordered(g.value));
            Ordered(Object([f, g])) == Object(if Leq(f.name, g.name) then [f', g'] else [g', f'])
  {
    hide ByName, Leq;
    var f', g' := Field(f.name, Ordered(f.value)), Field(g.name, Ordered(g.value));
    assert OrderedFields([f, g]) == [f', g'];
    ByNameTwo(f', g');
  }

  lemma OrderedList(items: seq<Json>)
    ensures Ordered(List(items)) == List(OrderedItems(items))
  {
  }

  lemma NameOrder()
    ensures Leq("omissions", "selected_fields") && !Leq("selected_fields", "omissions") && Leq("field", "value")
  {
  }

  /** Entries keep their label when written in canonical order. */
  lemma OrderedEntry(pointer: string, value: Json)
    ensures Ordered(Entry(pointer, value)) == Entry(pointer, Ordered(value))
  {
    hide Leq;
    NameOrder();
    OrderedTwo(Field("field", Str(pointer)), Field("value", value));
  }

  lemma {:induction false} Labelled(a: Json, pointers: seq<string>, size: Json -> nat)
    ensures forall e | e in Selected(a, pointers, size).entries :: exists p, v :: e == Entry(p, v)
  {
    hide Shown, Fits;
    if pointers != [] {
      Labelled(a, pointers[..|pointers| - 1], size);
    }
  }

  /** An entry with a plain text stands in the ordered list exactly when it stands in the list. */
  lemma OrderedEntries(entries: seq<Json>, pointer: string, s: string)
    requires forall e | e in entries :: exists p, v :: e == Entry(p, v)
    ensures Entry(pointer, Str(s)) in OrderedItems(entries) <==> Entry(pointer, Str(s)) in entries
  {
    var entry := Entry(pointer, Str(s));
    OrderedEntry(pointer, Str(s));
    forall i | 0 <= i < |entries| ensures OrderedItems(entries)[i] == entry <==> entries[i] == entry {
      assert entries[i] in entries;
      var p, v :| entries[i] == Entry(p, v);
      OrderedEntry(p, v);
      EntryLabel(p, v, pointer, Str(s));
      EntryLabel(p, Ordered(v), pointer, Str(s));
    }
  }

  lemma OrderedCard(entries: seq<Json>, omissions: seq<Json>)
    ensures Ordered(Object([Field("selected_fields", List(entries)), Field("omissions", List(omissions))]))
         == Object([Field("omissions", List(OrderedItems(omissions))),
                    Field("selected_fields", List(OrderedItems(entries)))])
  {
    hide Leq, Ordered;
    NameOrder();
    OrderedTwo(Field("selected_fields", List(entries)), Field("omissions", List(omissions)));
    OrderedList(entries);
    OrderedList(omissions);
  }

  /** The list of entries is a part of the ordered card. */
  lemma OrderedSummary(a: Json, pointers: seq<string>, size: Json -> nat)
    ensures var ordered := Ordered(Summary(a, pointers, size));
            && ordered.Object? && |ordered.fields| == 2
            && ordered.fields[1].value == List(OrderedItems(Selected(a, pointers, size).entries))
  {
    hide Ordered, Selected, Omissions;
    OmittedFew(a, pointers, size);
    var card := Selected(a, pointers, size);
    OrderedCard(card.entries, Omissions(|pointers|, card.omitted));
  }

  lemma {:induction false} MaskProper(value: Json, depth: nat)
    requires Proper(value)
    ensures Proper(Mask(value, depth))
    decreases value, 1, 0
  {
    hide NumberChar, Decimal, Sensitive;
    if depth < 4 {
      match value
      case Object(fields) =>
        MaskFieldsProper(value, First(fields, 16), depth, []);
        if |fields| > 16 {
          PutProper(MaskFields(value, First(fields, 16), depth, []), "[OMITTED]",
                    Str(Decimal(|fields| - 16) + " additional fields"));
        }
      case List(items) => MaskItemsProper(value, First(items, 16), depth);
      case _ =>
    }
  }

  lemma {:induction false} PutProper(fields: seq<Field>, name: string, value: Json)
    requires Proper(value) && forall f | f in fields :: Proper(f.value)
    ensures forall f | f in Put(fields, name, value) :: Proper(f.value)
  {
    if fields != [] && fields[0].name != name {
      PutProper(fields[1..], name, value);
    }
  }

  lemma {:induction false} MaskFieldsProper(value: Json, fields: seq<Field>, depth: nat, result: seq<Field>)
    requires forall f | f in fields :: f.value < value && Proper(f.value)
    requires forall f | f in result :: Proper(f.value)
    ensures forall f | f in MaskFields(value, fields, depth, result) :: Proper(f.value)
    decreases value, 0, |fields|
  {
    hide Sensitive, Put;
    if fields != [] {
      var (name, child) := (fields[0].name, fields[0].value);
      MaskProper(child, depth + 1);
      PutProper(result, "[OMITTED: long field name]", MASKED);
      PutProper(result, name, if Sensitive(name) then MASKED else Mask(child, depth + 1));
      var result' :=
        if |name| > 64 then Put(result, "[OMITTED: long field name]", MASKED)
        else Put(result, name, if Sensitive(name) then MASKED else Mask(child, depth + 1));
      MaskFieldsProper(value, fields[1..], depth, result');
    }
  }

  lemma {:induction false} MaskItemsProper(value: Json, items: seq<Json>, depth: nat)
    requires forall i | 0 <= i < |items| :: items[i] < value && Proper(items[i])
    ensures forall x | x in MaskItems(value, items, depth) :: Proper(x)
    decreases value, 0, |items|
  {
    if items != [] {
      MaskProper(items[0], depth + 1);
      MaskItemsProper(value, items[1..], depth);
    }
  }

  lemma {:induction false} WalkProper(value: Json, parts: seq<string>)
    requires Proper(value)
    ensures Walk(value, parts).Some? ==> Proper(Walk(value, parts).value)
    decreases |parts|
  {
    hide NumberChar, Index;
    if parts != [] && Child(value, parts[0]).Some? {
      if value.Object? {
        LookupField(value.fields, parts[0]);
      }
      WalkProper(Child(value, parts[0]).value, parts[1..]);
    }
  }

  lemma ShownProper(a: Json, pointer: string)
    requires Proper(a)
    ensures Proper(Shown(a, pointer))
  {
    var parts := Parts(pointer);
    hide Parts, Walk, Mask;
    WalkProper(a, parts);
    if Walk(a, parts).Some? {
      MaskProper(Walk(a, parts).value, 0);
    }
  }

  lemma {:induction false} SelectedProper(a: Json, pointers: seq<string>, size: Json -> nat)
    requires Proper(a)
    ensures forall e | e in Selected(a, pointers, size).entries :: Proper(e)
  {
    hide Shown, Fits;
    if pointers != [] {
      SelectedProper(a, pointers[..|pointers| - 1], size);
      ShownProper(a, pointers[|pointers| - 1]);
    }
  }

  lemma SummaryProper(a: Json, pointers: seq<string>, size: Json -> nat)
    requires Proper(a)
    ensures Proper(Summary(a, pointers, size))
  {
    hide Selected, Omissions, NumberChar;
    SelectedProper(a, pointers, size);
    OmittedFew(a, pointers, size);
    var card := Selected(a, pointers, size);
    OmissionsProper(|pointers|, card.omitted);
    assert Proper(List(card.entries)) && Proper(List(Omissions(|pointers|, card.omitted)));
  }

  lemma OmissionsProper(pointers: nat, omitted: nat)
    requires omitted <= pointers
    ensures forall x | x in Omissions(pointers, omitted) :: Proper(x)
  {
    hide Decimal;
  }

  /** Cards of one text hold the same plain entries. */
  lemma SameText(a: Json, b: Json, pointers: seq<string>, pointer: string, s: string)
    requires Proper(a) && Proper(b) && Rendered(a, pointers) == Rendered(b, pointers)
    ensures Entry(pointer, Str(s)) in Selected(a, pointers, Length).entries
       <==> Entry(pointer, Str(s)) in Selected(b, pointers, Length).entries
  {
    hide Summary, Selected, Proper, Canonical;
    SummaryProper(a, pointers, Length);
    SummaryProper(b, pointers, Length);
    CanonicalInjective(Summary(a, pointers, Length), Summary(b, pointers, Length));
    OrderedSummary(a, pointers, Length);
    OrderedSummary(b, pointers, Length);
    Labelled(a, pointers, Length);
    Labelled(b, pointers, Length);
    OrderedEntries(Selected(a, pointers, Length).entries, pointer, s);
    OrderedEntries(Selected(b, pointers, Length).entries, pointer, s);
  }

  lemma {:induction false} FirstTelling(a: Json, pointers: seq<string>, k: nat, size: Json -> nat) returns (j: nat)
    requires k < |pointers| && Telling(a, pointers, k, size)
    ensures j < |pointers| && Telling(a, pointers, j, size) && Quiet(a, pointers[..j], size)
  {
    hide Telling;
    if i :| 0 <= i < k && Telling(a, pointers, i, size) {
      j := FirstTelling(a, pointers, i, size);
    } else {
      j := k;
      QuietPrefix(a, pointers, k, size);
    }
  }

  /** A telling pointer tells the given arguments from some alike ones. */
  lemma Told(a: Json, pointers: seq<string>, k: nat) returns (b: Json)
    requires Valid(a) && Distinct(pointers) && k < |pointers| && Telling(a, pointers, k, Length)
    ensures Alike(a, b) && Valid(b) && Rendered(a, pointers) != Rendered(b, pointers)
  {
    var j := FirstTelling(a, pointers, k, Length);
    var x, y := Apart(a, pointers[j]);
    QuietAlike(a, x, pointers[..j], Length);
    QuietAlike(a, y, pointers[..j], Length);
    hide Alike, Selected, Shown, Fits, Rendered, Quiet, Distinct, Proper, Keyed, Open;
    var card := Selected(a, pointers[..j], Length);
    var value := if Fits(card, pointers[j], MASKED, Length) then MASKED else NOT_PRESENT;
    EntryOf(x, pointers, j, value, Length);
    EntryOf(y, pointers, j, value, Length);
    if Rendered(x, pointers) == Rendered(y, pointers) {
      SameText(x, y, pointers, pointers[j], value.s);
    }
    b := if Rendered(a, pointers) == Rendered(x, pointers) then y else x;
  }

  /** And no further: exactly the arguments for which some pointer goes beneath a sensitive name they hold, with
      room left on the card for the answer, can be told from others that differ only in what is stored there. */
  lemma Interference(a: Json, pointers: seq<string>)
    requires Valid(a) && Distinct(pointers)
    ensures (forall b | Alike(a, b) && Valid(b) :: Rendered(a, pointers) == Rendered(b, pointers))
       <==> (forall k | 0 <= k < |pointers| :: !Telling(a, pointers, k, Length))
  {
    hide Telling, Alike, Valid, Distinct, Canonical;
    if k :| 0 <= k < |pointers| && Telling(a, pointers, k, Length) {
      var b := Told(a, pointers, k);
    } else {
      forall b | Alike(a, b) && Valid(b) ensures Rendered(a, pointers) == Rendered(b, pointers) {
        QuietAlike(a, b, pointers, Length);
      }
    }
  }

  // ---- the entries --------------------------------------------------------------------------------

  /** Entries for some of the pointers, in order, each with the value to show or a note that it was too large. */
  predicate Follows(entries: seq<Json>, arguments: Json, pointers: seq<string>)
    decreases |pointers|
  {
    if pointers == [] then entries == []
    else
      var (rest, last) := (pointers[..|pointers| - 1], pointers[|pointers| - 1]);
      || Follows(entries, arguments, rest)
      || (&& entries != [] && entries[|entries| - 1] in {Entry(last, Shown(arguments, last)), Entry(last, TOO_LARGE)}
          && Follows(entries[..|entries| - 1], arguments, rest))
  }

  /** The card shows nothing but configured pointers, in their order, within the size budget. */
  lemma {:induction false} EntriesFit(arguments: Json, pointers: seq<string>, size: Json -> nat)
    requires size(List([])) <= 3600
    ensures size(List(Selected(arguments, pointers, size).entries)) <= 3600
    ensures Follows(Selected(arguments, pointers, size).entries, arguments, pointers)
  {
    hide Shown;
    if pointers != [] {
      var rest := Selected(arguments, pointers[..|pointers| - 1], size).entries;
      EntriesFit(arguments, pointers[..|pointers| - 1], size);
      assert forall entry :: (rest + [entry])[..|rest|] == rest;
    }
  }
}
