/** Filling a REST operation's path template with the caller's variables (toolstack_forwarder/request_builder.py),
    on the templates the loader accepts (toolstack_forwarder/config.py).

    Percent-encoding follows sections 2.1 and 2.3 of RFC 3986. Only ASCII values are ever encoded. */
module Hydration {
  import opened Wrappers
  import opened PythonText

  // ---- template variables -------------------------------------------------------------------------

  datatype Token = Lit(c: char) | Var(name: string)

  predicate NameStart(c: char) {
    'A' <= c <= 'Z' || 'a' <= c <= 'z' || c == '_'
  }

  predicate NameChar(c: char) {
    NameStart(c) || '0' <= c <= '9'
  }

  /** Length of the longest run of name characters a string starts with. */
  function NameRun(s: string): (n: nat)
    ensures n <= |s|
  {
    if s != [] && NameChar(s[0]) then 1 + NameRun(s[1..]) else 0
  }

  /** Length of the variable reference {name} a string starts with, or zero. */
  function VarLength(s: string): (n: nat)
    ensures n <= |s| && (n > 0 ==> n >= 3)
  {
    if |s| < 2 || s[0] != '{' || !NameStart(s[1]) then 0
    else
      var n := NameRun(s[1..]);
      if 1 + n < |s| && s[1 + n] == '}' then n + 2 else 0
  }

  /** What a string starts with, and how much of it that is: the leftmost reference is a variable, every other
      character stands for itself. */
  function Head(s: string): Token
    requires s != ""
  {
    if VarLength(s) > 0 then Var(s[1..VarLength(s) - 1]) else Lit(s[0])
  }

  function Width(s: string): (n: nat)
    requires s != ""
    ensures 1 <= n <= |s|
  {
    if VarLength(s) > 0 then VarLength(s) else 1
  }

  function Tokens(s: string): seq<Token>
    decreases |s|
  {
    if s == "" then [] else [Head(s)] + Tokens(s[Width(s)..])
  }

  function Names(tokens: seq<Token>): seq<string> {
    if tokens == [] then []
    else (if tokens[0].Var? then [tokens[0].name] else []) + Names(tokens[1..])
  }

  /** A reference is a name in braces, of letters, digits and underscores, beginning with no digit. */
  ghost predicate ReferenceName(name: string) {
    && name != ""
    && forall i | 0 <= i < |name| ::
         || 'a' <= name[i] <= 'z' || 'A' <= name[i] <= 'Z' || name[i] == '_' || ('0' <= name[i] <= '9' && i > 0)
  }

  function Spelled(tokens: seq<Token>): string {
    if tokens == [] then ""
    else (match tokens[0] case Lit(c) => [c] case Var(name) => "{" + name + "}") + Spelled(tokens[1..])
  }

  lemma {:induction false} NameRunWhole(name: string, rest: string)
    requires (forall i | 0 <= i < |name| :: NameChar(name[i])) && (rest != "" ==> !NameChar(rest[0]))
    ensures NameRun(name + rest) == |name|
  {
    if name != "" {
      NameRunWhole(name[1..], rest);
      assert (name + rest)[1..] == name[1..] + rest;
    } else {
      assert name + rest == rest;
    }
  }

  lemma {:induction false} NameRunChars(s: string)
    ensures forall i | 0 <= i < NameRun(s) :: NameChar(s[i])
  {
    if s != "" && NameChar(s[0]) {
      NameRunChars(s[1..]);
    }
  }

  /** A reference at the start of a template is read as one, whatever follows it. */
  lemma ReferenceFirst(name: string, rest: string)
    requires ReferenceName(name)
    ensures Tokens("{" + name + "}" + rest) == [Var(name)] + Tokens(rest)
  {
    var s := "{" + name + "}" + rest;
    NameRunWhole(name, "}" + rest);
    assert s[1..] == name + ("}" + rest) && s[1] == name[0];
    assert VarLength(s) == |name| + 2;
    assert s[1..|name| + 1] == name && s[|name| + 2..] == rest;
    hide VarLength;
  }

  /** Spelling the tokens out gives the template back. */
  lemma {:induction false} TokensSpell(s: string)
    ensures Spelled(Tokens(s)) == s
    decreases |s|
  {
    hide Head, Width, VarLength, ReferenceName;
    if s != "" {
      var rest := s[Width(s)..];
      TokensSpell(rest);
      HeadSpells(s);
      SpelledFirst(Head(s), Tokens(rest));
      assert Tokens(s) == [Head(s)] + Tokens(rest);
      hide *;
      assert s == s[..Width(s)] + rest;
    }
  }

  /** What is read as a reference is one. */
  lemma {:induction false} TokensRefer(s: string, i: nat)
    requires i < |Tokens(s)| && Tokens(s)[i].Var?
    ensures ReferenceName(Tokens(s)[i].name)
    decreases |s|
  {
    hide Head, Width, ReferenceName;
    HeadSpells(s);
    if i > 0 {
      TokensRefer(s[Width(s)..], i - 1);
    }
  }

  lemma SpelledFirst(head: Token, rest: seq<Token>)
    ensures Spelled([head] + rest) == (match head case Lit(c) => [c] case Var(name) => "{" + name + "}") + Spelled(rest)
  {
    assert ([head] + rest)[1..] == rest;
  }

  lemma HeadSpells(s: string)
    requires s != ""
    ensures (match Head(s) case Lit(c) => [c] case Var(name) => "{" + name + "}") == s[..Width(s)]
    ensures Head(s).Var? ==> ReferenceName(Head(s).name)
  {
    if VarLength(s) > 0 {
      NameRunChars(s[1..]);
      var n := VarLength(s);
      assert s[..n] == [s[0]] + s[1..n - 1] + [s[n - 1]];
      assert forall i | 0 <= i < n - 2 :: s[1..n - 1][i] == s[1..][i];
    }
  }

  // ---- percent-encoding ---------------------------------------------------------------------------

  predicate Unreserved(c: char) {
    NameChar(c) || c in {'-', '.', '~'}
  }

  predicate Ascii(s: string) {
    forall i | 0 <= i < |s| :: s[i] as int < 128
  }

  function HexDigit(n: nat): (c: char)
    requires n < 16
    ensures HexValue(c) == Some(n) && Unreserved(c)
  {
    "0123456789ABCDEF"[n]
  }

  function HexValue(c: char): (v: Option<nat>)
    ensures v.Some? ==> v.value < 16
  {
    if '0' <= c <= '9' then Some(c as int - '0' as int)
    else if 'A' <= c <= 'F' then Some(c as int - 'A' as int + 10)
    else if 'a' <= c <= 'f' then Some(c as int - 'a' as int + 10)
    else None
  }

  /** quote(value, safe=""). */
  function Quote(s: string): string
    requires Ascii(s)
  {
    if s == [] then []
    else if Unreserved(s[0]) then [s[0]] + Quote(s[1..])
    else ['%', HexDigit(s[0] as int / 16), HexDigit(s[0] as int % 16)] + Quote(s[1..])
  }

  predicate Escape(s: string) {
    |s| >= 3 && s[0] == '%' && HexValue(s[1]).Some? && HexValue(s[2]).Some?
  }

  /** unquote(value) of an ASCII string: a malformed escape stands for itself. A decoded byte of 128 or more
      becomes some character outside ASCII; the one used here is the character of that number. */
  function Unquote(s: string): string
    decreases |s|
  {
    if s == [] then []
    else if Escape(s) then [(16 * HexValue(s[1]).value + HexValue(s[2]).value) as char] + Unquote(s[3..])
    else [s[0]] + Unquote(s[1..])
  }

  lemma UnquoteEscape(c: char, rest: string)
    requires c as int < 128
    ensures Unquote(['%', HexDigit(c as int / 16), HexDigit(c as int % 16)] + rest) == [c] + Unquote(rest)
  {
  }

  lemma {:induction false} UnquoteQuote(s: string)
    requires Ascii(s)
    ensures Unquote(Quote(s)) == s
  {
    if s != [] {
      UnquoteQuote(s[1..]);
      var q := Quote(s[1..]);
      if Unreserved(s[0]) {
        assert ([s[0]] + q)[1..] == q;
      } else {
        UnquoteEscape(s[0], q);
      }
    }
  }

  lemma {:induction false} QuoteInert(s: string, c: char)
    requires Ascii(s) && c in Quote(s)
    ensures Unreserved(c) || c == '%'
  {
    if s != [] {
      if c in Quote(s[1..]) {
        QuoteInert(s[1..], c);
      }
    }
  }

  /** Unreserved characters are written as they are. */
  lemma {:induction false} UnreservedKept(s: string)
    requires forall i | 0 <= i < |s| ::
               || 'a' <= s[i] <= 'z' || 'A' <= s[i] <= 'Z' || '0' <= s[i] <= '9'
               || s[i] == '-' || s[i] == '.' || s[i] == '_' || s[i] == '~'
    ensures Ascii(s) && Quote(s) == s
  {
    if s != "" {
      UnreservedKept(s[1..]);
    }
  }

  const LOWER_DIGITS := "0123456789abcdef"
  const UPPER_DIGITS := "0123456789ABCDEF"

  predicate DigitOf(c: char, v: nat) {
    v < 16 && (c == LOWER_DIGITS[v] || c == UPPER_DIGITS[v])
  }

  /** Section 2.1 of RFC 3986: a character stands for itself, or for its number after a percent sign. */
  ghost predicate Encodes(t: string, s: string) {
    if s == "" then t == ""
    else
      || (t != "" && t[0] == s[0] != '%' && Encodes(t[1..], s[1..]))
      || (&& |t| >= 3 && t[0] == '%' && s[0] as int < 256
          && DigitOf(t[1], s[0] as int / 16) && DigitOf(t[2], s[0] as int % 16)
          && Encodes(t[3..], s[1..]))
  }

  lemma DigitValue(c: char, v: nat)
    requires DigitOf(c, v)
    ensures HexValue(c) == Some(v)
  {
  }

  lemma EscapeDecodes(t: string, c: char)
    requires |t| >= 3 && t[0] == '%' && c as int < 256
    requires DigitOf(t[1], c as int / 16) && DigitOf(t[2], c as int % 16)
    ensures Unquote(t) == [c] + Unquote(t[3..])
  {
    DigitValue(t[1], c as int / 16);
    DigitValue(t[2], c as int % 16);
    hide HexValue, DigitOf;
  }

  /** Decoding undoes every percent-encoding of a text, whichever characters it escapes and in either case. */
  lemma {:induction false} UnquoteDecodes(t: string, s: string)
    requires Encodes(t, s)
    ensures Unquote(t) == s
    decreases |s|
  {
    if s != "" {
      if t != "" && t[0] == s[0] != '%' && Encodes(t[1..], s[1..]) {
        UnquoteDecodes(t[1..], s[1..]);
      } else {
        UnquoteDecodes(t[3..], s[1..]);
        EscapeDecodes(t, s[0]);
        hide Unquote;
      }
      assert s == [s[0]] + s[1..];
    }
  }

  // ---- variables ----------------------------------------------------------------------------------

  /** A JSON value, as far as hydration looks at one. */
  datatype Value = Str(text: string) | NotString

  /** The "variables" argument: absent and null alike mean none. */
  datatype Variables = Absent | NotObject | Object(entries: map<string, Value>)

  datatype Error = InvalidVariables | MissingVariable(name: string) | InvalidVariable(name: string)

  datatype Rendered<T> = Done(value: T) | Failed(error: Error)

  datatype Place = InPath | InQuery

  predicate PathPrintable(c: char) {
    '\U{0021}' <= c <= '\U{007E}'
  }

  predicate QueryPrintable(c: char) {
    PathPrintable(c) || c == ' '
  }

  predicate TwoDots(s: string) {
    exists i | 0 <= i < |s| - 1 :: s[i] == '.' && s[i + 1] == '.'
  }

  predicate PathSafe(s: string) {
    && (forall i | 0 <= i < |s| :: PathPrintable(s[i]) && s[i] != '/' && s[i] != '\\')
    && !TwoDots(s)
  }

  /** The validators of a stripped value; a path value must also be safe after one decoding. */
  predicate Acceptable(place: Place, value: string) {
    && 0 < |value| <= 4096
    && Ascii(value)
    && match place
       case InPath => PathSafe(value) && PathSafe(Unquote(value))
       case InQuery => forall i | 0 <= i < |value| :: QueryPrintable(value[i])
  }

  /** The text one variable reference is replaced by. */
  function Fill(place: Place, entries: map<string, Value>, name: string): Rendered<string> {
    if name !in entries || entries[name].NotString? then Failed(MissingVariable(name))
    else
      var value := Strip(entries[name].text);
      if Acceptable(place, value) then Done(Quote(value)) else Failed(InvalidVariable(name))
  }

  function Filled(place: Place, entries: map<string, Value>, token: Token): Rendered<string> {
    if token.Lit? then Done([token.c]) else Fill(place, entries, token.name)
  }

  /** A substitution over a whole template; the first reference that cannot be filled fails it. */
  function Substitute(place: Place, entries: map<string, Value>, tokens: seq<Token>): Rendered<string> {
    if tokens == [] then Done("")
    else
      var head := Filled(place, entries, tokens[0]);
      if head.Failed? then head
      else
        var tail := Substitute(place, entries, tokens[1..]);
        if tail.Failed? then tail else Done(head.value + tail.value)
  }

  // ---- the query ----------------------------------------------------------------------------------

  /** A pair survives when it names no absent variable. */
  predicate Survives(entries: map<string, Value>, pair: string) {
    pair != "" && forall name | name in Names(Tokens(pair)) :: name in entries
  }

  function Survivors(entries: map<string, Value>, pairs: seq<string>): seq<string> {
    if pairs == [] then []
    else (if Survives(entries, pairs[0]) then [pairs[0]] else []) + Survivors(entries, pairs[1..])
  }

  /** The pairs kept are those, not empty, that refer to no absent variable. */
  lemma {:induction false} SurvivorsExactly(entries: map<string, Value>, pairs: seq<string>, pair: string)
    ensures pair in Survivors(entries, pairs) <==>
              && pair in pairs && pair != ""
              && forall name | name in Names(Tokens(pair)) :: name in entries
  {
    hide Tokens, Names;
    if pairs != [] {
      SurvivorsExactly(entries, pairs[1..], pair);
      assert pair in pairs <==> pair == pairs[0] || pair in pairs[1..];
    }
  }

  /** And they keep their order. */
  lemma {:induction false} SurvivorsOrder(entries: map<string, Value>, before: seq<string>, after: seq<string>)
    ensures Survivors(entries, before + after) == Survivors(entries, before) + Survivors(entries, after)
  {
    hide Survives;
    if before == [] {
      assert before + after == after;
    } else {
      SurvivorsOrder(entries, before[1..], after);
      assert (before + after)[1..] == before[1..] + after;
      Associative(if Survives(entries, before[0]) then [before[0]] else [], Survivors(entries, before[1..]),
                  Survivors(entries, after));
    }
  }

  function FirstNotString(entries: map<string, Value>, names: seq<string>): Option<string> {
    if names == [] then None
    else if names[0] in entries && entries[names[0]].NotString? then Some(names[0])
    else FirstNotString(entries, names[1..])
  }

  function FillPair(entries: map<string, Value>, pair: string): Rendered<string> {
    var wrong := FirstNotString(entries, Names(Tokens(pair)));
    if wrong.Some? then Failed(MissingVariable(wrong.value)) else Substitute(InQuery, entries, Tokens(pair))
  }

  /** The pairs that survive, filled; the first that cannot be filled fails the query. */
  function QueryPairs(entries: map<string, Value>, pairs: seq<string>): Rendered<seq<string>> {
    if pairs == [] then Done([])
    else if !Survives(entries, pairs[0]) then QueryPairs(entries, pairs[1..])
    else
      var head := FillPair(entries, pairs[0]);
      if head.Failed? then Failed(head.error)
      else
        var tail := QueryPairs(entries, pairs[1..]);
        if tail.Failed? then tail else Done([head.value] + tail.value)
  }

  /** What a loop that already holds some pairs will answer. */
  function Onto(pairs: seq<string>, rest: Rendered<seq<string>>): (r: Rendered<seq<string>>)
    ensures pairs == [] ==> r == rest
  {
    assert rest.Done? ==> [] + rest.value == rest.value;
    if rest.Failed? then rest else Done(pairs + rest.value)
  }

  lemma OntoOne(pairs: seq<string>, pair: string, rest: Rendered<seq<string>>)
    ensures Onto(pairs, Onto([pair], rest)) == Onto(pairs + [pair], rest)
  {
    if rest.Done? {
      assert pairs + ([pair] + rest.value) == pairs + [pair] + rest.value;
    }
  }

  /** What the text after the template's '?' becomes. */
  function Query(entries: map<string, Value>, text: string): Rendered<string> {
    var filled := QueryPairs(entries, Split(text, '&'));
    if filled.Failed? then Failed(filled.error) else Done(Join(filled.value, '&'))
  }

  method HydrateQuery(suffix: string, entries: map<string, Value>) returns (r: Rendered<string>)
    requires suffix != ""
    ensures r == Query(entries, suffix[1..])
  {
    var all := Split(suffix[1..], '&');
    var pairs: seq<string> := [];
    assert all[0..] == all;
    for i := 0 to |all|
      invariant QueryPairs(entries, all) == Onto(pairs, QueryPairs(entries, all[i..]))
    {
      hide Tokens, Names, Substitute, Split;
      var pair := all[i];
      assert all[i..][0] == pair && all[i..][1..] == all[i + 1..];
      if pair == "" {
        continue;
      }
      var referenced := Names(Tokens(pair));
      if exists name | name in referenced :: name !in entries {
        continue;
      }
      var wrong := FirstNotString(entries, referenced);
      if wrong.Some? {
        return Failed(MissingVariable(wrong.value));
      }
      var filled := Substitute(InQuery, entries, Tokens(pair));
      if filled.Failed? {
        return filled;
      }
      OntoOne(pairs, filled.value, QueryPairs(entries, all[i + 1..]));
      pairs := pairs + [filled.value];
    }
    assert pairs + [] == pairs;
    return Done(Join(pairs, '&'));
  }

  // ---- the whole path -----------------------------------------------------------------------------

  function Entries(variables: Variables): map<string, Value> {
    if variables.Object? then variables.entries else map[]
  }

  /** The rendered path and query of a template. */
  function Hydrated(template: string, variables: Variables): Rendered<string> {
    if variables.NotObject? then Failed(InvalidVariables)
    else
      var prefix := Substitute(InPath, Entries(variables), Tokens(Before(template, '?')));
      if prefix.Failed? || '?' !in template then prefix
      else
        var query := Query(Entries(variables), After(template, '?'));
        if query.Failed? then query
        else if query.value == "" then prefix
        else Done(prefix.value + "?" + query.value)
  }

  method HydratePath(template: string, variables: Variables) returns (r: Rendered<string>)
    ensures r == Hydrated(template, variables)
  {
    hide Tokens, Substitute, Query, Find;
    if variables.NotObject? {
      return Failed(InvalidVariables);
    }
    var entries := Entries(variables);
    var at := Find(template, '?');
    if at == |template| {
      assert template[..at] == template;
      return Substitute(InPath, entries, Tokens(template));
    }
    var prefix := Substitute(InPath, entries, Tokens(template[..at]));
    if prefix.Failed? {
      return prefix;
    }
    var query := HydrateQuery(template[at..], entries);
    if query.Failed? {
      return query;
    }
    if query.value != "" {
      return Done(prefix.value + "?" + query.value);
    }
    return prefix;
  }

  /** The template without its variables. */
  function Literals(tokens: seq<Token>): string {
    if tokens == [] then "" else (if tokens[0].Lit? then [tokens[0].c] else "") + Literals(tokens[1..])
  }

  /** The check the loader makes on every configured path. */
  predicate Accepted(template: string) {
    var at := Find(template, '?');
    && 0 < at && template[0] == '/' && (1 < at ==> template[1] != '/')
    && '#' !in template
    && (forall i | 0 <= i < at :: PathPrintable(template[i]))
    && (forall i | at < i < |template| :: QueryPrintable(template[i]))
    && '{' !in Literals(Tokens(template)) && '}' !in Literals(Tokens(template))
  }

  // ---- what is inserted ---------------------------------------------------------------------------

  /** Characters that are neither inserted by any value nor part of any reference: among them the
      structural ones of a URL. */
  predicate Delimiter(c: char) {
    !Unreserved(c) && c !in {'%', '{', '}'}
  }

  lemma QuoteClean(s: string)
    requires Ascii(s)
    ensures Unquote(Quote(s)) == s && (s != "" ==> Quote(s) != "")
    ensures forall c | c in Quote(s) :: !Delimiter(c) && c != '{' && c != '}'
  {
    UnquoteQuote(s);
    forall c | c in Quote(s) ensures !Delimiter(c) && c != '{' && c != '}' {
      QuoteInert(s, c);
    }
  }

  /** Characters 33 to 126 but the two slashes. */
  predicate PathText(s: string) {
    forall i | 0 <= i < |s| :: 33 <= s[i] as int < 127 && s[i] != '/' && s[i] != '\\'
  }

  /** A value is accepted exactly so: of 1 to 4096 characters once stripped; for a path printable without space,
      slash, backslash or two adjacent dots, and the same after one decoding; for a query printable. */
  lemma AcceptedValue(place: Place, entries: map<string, Value>, name: string)
    ensures Fill(place, entries, name).Done? <==>
              && name in entries && entries[name].Str?
              && var value := Strip(entries[name].text); var decoded := Unquote(value);
                 && 0 < |value| < 4097
                 && (place == InPath ==>
                       && PathText(value) && PathText(decoded)
                       && (forall i | 0 <= i < |value| - 1 :: !(value[i] == '.' && value[i + 1] == '.'))
                       && (forall i | 0 <= i < |decoded| - 1 :: !(decoded[i] == '.' && decoded[i + 1] == '.')))
                 && (place == InQuery ==> forall i | 0 <= i < |value| :: 32 <= value[i] as int < 127)
  {
    hide Strip, Quote, Unquote;
  }

  /** A value that is absent or no text is missing; any other that is not accepted is invalid. */
  lemma RefusedValue(place: Place, entries: map<string, Value>, name: string)
    requires Fill(place, entries, name).Failed?
    ensures Fill(place, entries, name).error
         == if name in entries && entries[name].Str? then InvalidVariable(name) else MissingVariable(name)
  {
  }

  /** The text that replaces a reference percent-decodes to the stripped value and holds no delimiter. For a path,
      neither one decoding of it nor two hold a slash or two adjacent dots. */
  lemma InsertedText(place: Place, entries: map<string, Value>, name: string)
    requires Fill(place, entries, name).Done?
    ensures var text := Fill(place, entries, name).value;
            && text != ""
            && Unquote(text) == Strip(entries[name].text)
            && (forall c | c in text :: !Delimiter(c) && c != '{' && c != '}')
            && (place == InPath ==>
                  var once, twice := Unquote(text), Unquote(Unquote(text));
                  && '/' !in once && '/' !in twice
                  && (forall i | 0 <= i < |once| - 1 :: !(once[i] == '.' && once[i + 1] == '.'))
                  && (forall i | 0 <= i < |twice| - 1 :: !(twice[i] == '.' && twice[i + 1] == '.')))
  {
    AcceptedValue(place, entries, name);
    hide Strip, PathSafe, Quote, Unquote, Unreserved;
    QuoteClean(Strip(entries[name].text));
  }

  /** A template fills exactly when each of its references does. */
  lemma {:induction false} FillsExactly(place: Place, entries: map<string, Value>, tokens: seq<Token>)
    ensures Substitute(place, entries, tokens).Done? <==>
              forall name | name in Names(tokens) :: Fill(place, entries, name).Done?
  {
    if tokens != [] {
      FillsExactly(place, entries, tokens[1..]);
      if tokens[0].Var? {
        assert tokens[0].name in Names(tokens);
      }
    }
  }

  predicate AllFill(place: Place, entries: map<string, Value>, text: string) {
    forall name | name in Names(Tokens(text)) :: Fill(place, entries, name).Done?
  }

  lemma {:induction false} NotStringFails(entries: map<string, Value>, names: seq<string>)
    requires FirstNotString(entries, names).Some?
    ensures exists name | name in names :: Fill(InQuery, entries, name).Failed?
  {
    if !(names[0] in entries && entries[names[0]].NotString?) {
      NotStringFails(entries, names[1..]);
      var name :| name in names[1..] && Fill(InQuery, entries, name).Failed?;
      assert name in names;
    } else {
      assert Fill(InQuery, entries, names[0]).Failed?;
    }
  }

  lemma PairFills(entries: map<string, Value>, pair: string)
    ensures FillPair(entries, pair).Done? <==> AllFill(InQuery, entries, pair)
  {
    hide Fill, Tokens, Names, Substitute, FirstNotString;
    FillsExactly(InQuery, entries, Tokens(pair));
    if FirstNotString(entries, Names(Tokens(pair))).Some? {
      NotStringFails(entries, Names(Tokens(pair)));
    }
  }

  predicate KeptFill(entries: map<string, Value>, pairs: seq<string>) {
    forall i | 0 <= i < |pairs| && Survives(entries, pairs[i]) :: AllFill(InQuery, entries, pairs[i])
  }

  lemma {:induction false} PairsFill(entries: map<string, Value>, pairs: seq<string>)
    ensures QueryPairs(entries, pairs).Done? <==> KeptFill(entries, pairs)
  {
    hide FillPair, Survives, AllFill;
    if pairs != [] {
      PairFills(entries, pairs[0]);
      PairsFill(entries, pairs[1..]);
      assert forall i | 0 < i < |pairs| :: pairs[i] == pairs[1..][i - 1];
    }
  }

  /** A request is built exactly if the variables are an object or absent, every reference of the path fills, and so
      does every reference of each query pair that is kept. Anything else is an error. */
  lemma HydratesExactly(template: string, variables: Variables)
    ensures Hydrated(template, variables).Done? <==>
              && !variables.NotObject?
              && AllFill(InPath, Entries(variables), Before(template, '?'))
              && ('?' in template ==> KeptFill(Entries(variables), Split(After(template, '?'), '&')))
  {
    hide Fill, Tokens, Names, Substitute, Split, Survives, QueryPairs, KeptFill;
    FillsExactly(InPath, Entries(variables), Tokens(Before(template, '?')));
    if '?' in template {
      PairsFill(Entries(variables), Split(After(template, '?'), '&'));
    }
  }

  // ---- structure ----------------------------------------------------------------------------------

  lemma {:induction false} RunAt(a: string, c: char, b: string)
    requires !NameChar(c)
    ensures NameRun(a + [c] + b) == NameRun(a)
  {
    if a != [] {
      assert (a + [c] + b)[1..] == a[1..] + [c] + b;
      RunAt(a[1..], c, b);
    }
  }

  lemma HeadAt(a: string, c: char, b: string)
    requires Delimiter(c) && a != ""
    ensures Head(a + [c] + b) == Head(a) && Width(a + [c] + b) == Width(a)
  {
    RunAt(a[1..], c, b);
    assert (a + [c] + b)[1..] == a[1..] + [c] + b;
    assert VarLength(a + [c] + b) == VarLength(a);
    assert VarLength(a) > 0 ==> (a + [c] + b)[1..VarLength(a) - 1] == a[1..VarLength(a) - 1];
  }

  lemma TokensFrom(c: char, b: string)
    requires Delimiter(c)
    ensures Tokens([c] + b) == [Lit(c)] + Tokens(b)
  {
  }

  lemma {:induction false} TokensAt(a: string, c: char, b: string)
    requires Delimiter(c)
    ensures Tokens(a + [c] + b) == Tokens(a) + [Lit(c)] + Tokens(b)
    decreases |a|
  {
    if a == "" {
      TokensFrom(c, b);
      assert "" + [c] + b == [c] + b;
      assert Tokens("") + [Lit(c)] == [Lit(c)];
    } else {
      var n := Width(a);
      TokensAt(a[n..], c, b);
      TokensHead(a, c, b);
      assert Tokens(a) == [Head(a)] + Tokens(a[n..]);
      hide *;
      Associative([Head(a)], Tokens(a[n..]) + [Lit(c)], Tokens(b));
      Associative([Head(a)], Tokens(a[n..]), [Lit(c)]);
    }
  }

  lemma TokensHead(a: string, c: char, b: string)
    requires Delimiter(c) && a != ""
    ensures Tokens(a + [c] + b) == [Head(a)] + Tokens(a[Width(a)..] + [c] + b)
  {
    HeadAt(a, c, b);
    hide Head, Width, Delimiter;
    assert (a + [c] + b)[Width(a)..] == a[Width(a)..] + [c] + b;
  }

  lemma {:induction false} SubstituteAt(place: Place, entries: map<string, Value>, x: seq<Token>, y: seq<Token>)
    ensures var r := Substitute(place, entries, x + y);
            var rx, ry := Substitute(place, entries, x), Substitute(place, entries, y);
            && (r.Done? <==> rx.Done? && ry.Done?)
            && (r.Done? ==> r.value == rx.value + ry.value)
  {
    hide Fill;
    if x == [] {
      assert x + y == y;
    } else {
      assert (x + y)[1..] == x[1..] + y && (x + y)[0] == x[0];
      SubstituteAt(place, entries, x[1..], y);
      var head := Filled(place, entries, x[0]);
      var tx, ty := Substitute(place, entries, x[1..]), Substitute(place, entries, y);
      if head.Done? && tx.Done? && ty.Done? {
        Associative(head.value, tx.value, ty.value);
      }
    }
  }

  lemma SubstituteHead(place: Place, entries: map<string, Value>, t: string)
    requires t != "" && Substitute(place, entries, Tokens(t)).Done?
    ensures Filled(place, entries, Head(t)).Done? && Substitute(place, entries, Tokens(t[Width(t)..])).Done?
    ensures Substitute(place, entries, Tokens(t)).value
         == Filled(place, entries, Head(t)).value + Substitute(place, entries, Tokens(t[Width(t)..])).value
  {
    hide Fill, Head, Width;
    var tail := Tokens(t[Width(t)..]);
    assert Tokens(t) == [Head(t)] + tail && Tokens(t)[1..] == tail;
  }

  lemma HeadFilled(place: Place, entries: map<string, Value>, t: string, c: char)
    requires t != "" && Filled(place, entries, Head(t)).Done? && Delimiter(c)
    ensures var text := Filled(place, entries, Head(t)).value;
            text != "" && (c !in t ==> c !in text) && (t[0] != c ==> text[0] != c)
  {
    if Head(t).Var? {
      InsertedText(place, entries, Head(t).name);
      hide Fill, Delimiter;
    }
  }

  /** Filling adds no delimiter, and never empties a template. */
  lemma {:induction false} FillingAdds(place: Place, entries: map<string, Value>, t: string, r: string, c: char)
    requires Substitute(place, entries, Tokens(t)) == Done(r) && Delimiter(c)
    ensures c !in t ==> c !in r
    ensures t != "" ==> r != "" && (t[0] != c ==> r[0] != c)
    decreases |t|
  {
    if t != "" {
      SubstituteHead(place, entries, t);
      HeadFilled(place, entries, t, c);
      hide Delimiter, Substitute, Tokens, Filled, Head, Width;
      var rest := t[Width(t)..];
      FillingAdds(place, entries, rest, Substitute(place, entries, Tokens(rest)).value, c);
    }
  }

  lemma SubstituteOne(place: Place, entries: map<string, Value>, c: char)
    ensures Substitute(place, entries, [Lit(c)]) == Done([c])
  {
    var one := [Lit(c)];
    assert one[1..] == [];
    assert Substitute(place, entries, one[1..]) == Done("");
    assert [c] + "" == [c];
  }

  /** Each piece is the corresponding template piece, filled. */
  predicate FilledFrom(place: Place, entries: map<string, Value>, pieces: seq<string>, templates: seq<string>) {
    && |pieces| == |templates|
    && forall i | 0 <= i < |pieces| :: Substitute(place, entries, Tokens(templates[i])) == Done(pieces[i])
  }

  /** Filling keeps the pieces a delimiter separates: as many, in order, each filled on its own. */
  lemma {:induction false} FillingKeepsPieces(place: Place, entries: map<string, Value>, t: string, r: string, c: char)
    requires Substitute(place, entries, Tokens(t)) == Done(r) && Delimiter(c)
    ensures FilledFrom(place, entries, Split(r, c), Split(t, c))
    decreases |t|
  {
    hide Substitute, Tokens;
    if c !in t {
      FillingAdds(place, entries, t, r, c);
    } else {
      var a, b := Before(t, c), After(t, c);
      SplitFirst(t, c);
      hide Split;
      TokensAt(a, c, b);
      SubstituteAt(place, entries, Tokens(a) + [Lit(c)], Tokens(b));
      SubstituteAt(place, entries, Tokens(a), [Lit(c)]);
      var ra, rb := Substitute(place, entries, Tokens(a)).value, Substitute(place, entries, Tokens(b)).value;
      SubstituteOne(place, entries, c);
      FillingAdds(place, entries, a, ra, c);
      SplitAt(ra, c, rb);
      FillingKeepsPieces(place, entries, b, rb, c);
    }
  }

  /** A rendered query pair keeps its own pieces around '=', gains no '&' and is not empty. */
  predicate PairKept(entries: map<string, Value>, pair: string, template: string) {
    && Substitute(InQuery, entries, Tokens(template)) == Done(pair)
    && FilledFrom(InQuery, entries, Split(pair, '='), Split(template, '='))
    && pair != "" && '&' !in pair && '#' !in pair
  }

  predicate PairsKept(entries: map<string, Value>, pairs: seq<string>, templates: seq<string>) {
    && |pairs| == |templates|
    && forall i | 0 <= i < |pairs| :: PairKept(entries, pairs[i], templates[i])
  }

  lemma FilledPair(entries: map<string, Value>, template: string, pair: string)
    requires FillPair(entries, template) == Done(pair)
    requires template != "" && '&' !in template && '#' !in template
    ensures PairKept(entries, pair, template)
  {
    assert Delimiter('=') && Delimiter('&') && Delimiter('#');
    hide Substitute, Tokens, FilledFrom, Split, Delimiter;
    FillingKeepsPieces(InQuery, entries, template, pair, '=');
    FillingAdds(InQuery, entries, template, pair, '&');
    FillingAdds(InQuery, entries, template, pair, '#');
  }

  lemma {:induction false} SurvivorsKept(entries: map<string, Value>, pairs: seq<string>, filled: seq<string>)
    requires QueryPairs(entries, pairs) == Done(filled)
    requires forall i | 0 <= i < |pairs| :: '&' !in pairs[i] && '#' !in pairs[i]
    ensures PairsKept(entries, filled, Survivors(entries, pairs))
  {
    hide FillPair, PairKept, Tokens, Names;
    if pairs != [] {
      if Survives(entries, pairs[0]) {
        SurvivorsKept(entries, pairs[1..], filled[1..]);
        FilledPair(entries, pairs[0], filled[0]);
      } else {
        SurvivorsKept(entries, pairs[1..], filled);
      }
    }
  }

  /** The text after a leading slash is filled on its own. */
  lemma SlashFirst(entries: map<string, Value>, t: string, r: string)
    requires Substitute(InPath, entries, Tokens(t)) == Done(r) && t != "" && t[0] == '/'
    ensures r != "" && r[0] == '/' && Substitute(InPath, entries, Tokens(t[1..])) == Done(r[1..])
  {
    assert t == ['/'] + t[1..];
    TokensFrom('/', t[1..]);
    SubstituteAt(InPath, entries, [Lit('/')], Tokens(t[1..]));
    SubstituteOne(InPath, entries, '/');
    hide Substitute, Tokens;
  }

  lemma PathKept(entries: map<string, Value>, t: string, r: string)
    requires Substitute(InPath, entries, Tokens(t)) == Done(r)
    requires t != "" && t[0] == '/' && (1 < |t| ==> t[1] != '/') && '?' !in t && '#' !in t
    ensures FilledFrom(InPath, entries, Split(r, '/'), Split(t, '/'))
    ensures r != "" && r[0] == '/' && (1 < |r| ==> r[1] != '/') && '?' !in r && '#' !in r
  {
    assert Delimiter('/') && Delimiter('?') && Delimiter('#');
    hide Delimiter, FilledFrom, Split, Substitute, Tokens;
    FillingKeepsPieces(InPath, entries, t, r, '/');
    FillingAdds(InPath, entries, t, r, '?');
    FillingAdds(InPath, entries, t, r, '#');
    SlashFirst(entries, t, r);
    FillingAdds(InPath, entries, t[1..], r[1..], '/');
  }

  lemma QueryKept(entries: map<string, Value>, text: string, query: string)
    requires '#' !in text && Query(entries, text) == Done(query)
    ensures var kept := Survivors(entries, Split(text, '&'));
            && (query != "" <==> kept != [])
            && (query != "" ==> PairsKept(entries, Split(query, '&'), kept))
            && '#' !in query
  {
    var pairs := Split(text, '&');
    var filled := QueryPairs(entries, pairs).value;
    PiecesFree(text, '&');
    forall i | 0 <= i < |pairs| ensures '&' !in pairs[i] && '#' !in pairs[i] {
      assert pairs[i] in pairs;
    }
    SurvivorsKept(entries, pairs, filled);
    hide PairKept, Split, Survivors, QueryPairs;
    assert forall i | 0 <= i < |filled| :: PairKept(entries, filled[i], Survivors(entries, pairs)[i]);
    PairsJoin(entries, filled, Survivors(entries, pairs));
  }

  lemma {:induction false} PairsJoin(entries: map<string, Value>, filled: seq<string>, templates: seq<string>)
    requires PairsKept(entries, filled, templates)
    ensures (Join(filled, '&') != "" <==> filled != []) && '#' !in Join(filled, '&')
    ensures filled != [] ==> Split(Join(filled, '&'), '&') == filled
  {
    hide FilledFrom, Split, Substitute;
    if filled != [] {
      assert PairKept(entries, filled[0], templates[0]);
      PairsJoin(entries, filled[1..], templates[1..]);
      forall p | p in filled ensures '&' !in p {
        var i :| 0 <= i < |filled| && filled[i] == p;
        assert PairKept(entries, filled[i], templates[i]);
      }
      SplitJoin(filled, '&');
    }
  }

  /** The pairs a template's query keeps. */
  function KeptPairs(entries: map<string, Value>, template: string): seq<string> {
    if '?' in template then Survivors(entries, Split(After(template, '?'), '&')) else []
  }

  /** Hydration keeps structure: the rendered path has the template's segments, each filled on its own, and
      never begins with two slashes; its query is exactly the surviving pairs, filled, in order; and there
      is no fragment. */
  lemma RenderedStructure(template: string, variables: Variables, out: string)
    requires Accepted(template) && Hydrated(template, variables) == Done(out)
    ensures var entries, kept := Entries(variables), KeptPairs(Entries(variables), template);
            && FilledFrom(InPath, entries, Split(Before(out, '?'), '/'), Split(Before(template, '?'), '/'))
            && out != "" && out[0] == '/' && (1 < |out| ==> out[1] != '/') && '#' !in out
            && ('?' in out <==> kept != [])
            && ('?' in out ==> PairsKept(entries, Split(After(out, '?'), '&'), kept))
  {
    var entries := Entries(variables);
    var t := Before(template, '?');
    var prefix := Substitute(InPath, entries, Tokens(t)).value;
    PathKept(entries, t, prefix);
    hide FilledFrom, PairsKept, Split, Substitute, Survivors;
    if '?' in template {
      var query := Query(entries, After(template, '?')).value;
      QueryKept(entries, After(template, '?'), query);
      if query != "" {
        PartitionAt(prefix, '?', query);
        assert out == prefix + ['?'] + query;
      }
    }
    if '?' !in out {
      PartitionNone(out, '?');
    }
  }

  // ---- dot segments -------------------------------------------------------------------------------

  /** A literal dot, or a variable whose value is one. */
  predicate Dot(entries: map<string, Value>, token: Token) {
    match token
    case Lit(c) => c == '.'
    case Var(name) => name in entries && entries[name].Str? && Strip(entries[name].text) == "."
  }

  lemma FilledDot(entries: map<string, Value>, token: Token)
    requires Filled(InPath, entries, token).Done?
    ensures var text := Filled(InPath, entries, token).value;
            text != "" && text != ".." && (text == "." <==> Dot(entries, token))
  {
    hide Fill, Strip;
    if token.Var? {
      VariableDot(entries, token.name);
    }
  }

  lemma VariableDot(entries: map<string, Value>, name: string)
    requires Fill(InPath, entries, name).Done?
    ensures name in entries && entries[name].Str?
    ensures var text := Fill(InPath, entries, name).value;
            text != "" && text != ".." && (text == "." <==> Strip(entries[name].text) == ".")
  {
    InsertedText(InPath, entries, name);
    AcceptedValue(InPath, entries, name);
    OneDot(".");
    DotsDecode("..");
    UnreservedKept(".");
    hide Strip, Quote, Unquote, Acceptable, PathText;
  }

  lemma DotsDecode(dots: string)
    requires dots == ['.', '.']
    ensures Unquote(dots) == dots
  {
    hide HexValue;
    assert dots[1..] == ['.'] && ['.'][1..] == [] && Unquote([]) == [];
    assert Unquote(dots[1..]) == ['.'];
  }

  /** A filled piece is "." exactly if it is one dot, and ".." exactly if it is two. */
  lemma {:induction false} DotPieces(entries: map<string, Value>, tokens: seq<Token>)
    requires Substitute(InPath, entries, tokens).Done?
    ensures var text := Substitute(InPath, entries, tokens).value;
            && (text == "" <==> tokens == [])
            && (text == "." <==> |tokens| == 1 && Dot(entries, tokens[0]))
            && (text == ".." <==> |tokens| == 2 && Dot(entries, tokens[0]) && Dot(entries, tokens[1]))
  {
    hide Filled, Dot;
    if tokens != [] {
      var head := Filled(InPath, entries, tokens[0]).value;
      var rest := Substitute(InPath, entries, tokens[1..]).value;
      FilledDot(entries, tokens[0]);
      DotPieces(entries, tokens[1..]);
      assert (head + rest)[..|head|] == head && (head + rest)[|head|..] == rest;
      if |head| == 1 {
        assert head + rest == ".." <==> head == "." && rest == ".";
      }
    }
  }

  /** A segment of the rendered path is "." or ".." exactly where the template's piece is one dot or two, each of them
      literal or the whole value of a variable. No single value makes "..". */
  lemma DotSegments(template: string, variables: Variables, out: string, i: nat)
    requires Accepted(template) && Hydrated(template, variables) == Done(out)
    requires i < |Split(Before(template, '?'), '/')|
    ensures |Split(Before(out, '?'), '/')| == |Split(Before(template, '?'), '/')|
    ensures var segment, piece := Split(Before(out, '?'), '/')[i], Tokens(Split(Before(template, '?'), '/')[i]);
            var entries := Entries(variables);
            && (segment == "." <==> |piece| == 1 && Dot(entries, piece[0]))
            && (segment == ".." <==> |piece| == 2 && Dot(entries, piece[0]) && Dot(entries, piece[1]))
  {
    RenderedStructure(template, variables, out);
    hide Split, Before, Tokens, Substitute, Dot, Hydrated, Accepted;
    DotPieces(Entries(variables), Tokens(Split(Before(template, '?'), '/')[i]));
  }

  /** Two variables side by side can climb: under "/{a}{b}" the value "." for each, which either may have alone,
      gives "/..". */
  lemma TwoVariablesClimb(template: string, a: char, b: char, entries: map<string, Value>)
    requires NameStart(a) && NameStart(b) && template == ['/'] + (['{', a, '}'] + ['{', b, '}'])
    requires entries == map[[a] := Str("."), [b] := Str(".")]
    ensures Accepted(template) && Hydrated(template, Object(entries)) == Done("/..")
  {
    ClimbingTokens(template, a, b);
    DotFills(entries, [a]);
    DotFills(entries, [b]);
    TwoDotsFill(entries, [a], [b]);
    ClimbingAccepted(template, a, b);
    PartitionNone(template, '?');
    hide Tokens, Substitute, Find, Accepted;
  }

  lemma ClimbingAccepted(template: string, a: char, b: char)
    requires NameStart(a) && NameStart(b) && template == ['/'] + (['{', a, '}'] + ['{', b, '}'])
    requires Tokens(template) == [Lit('/'), Var([a]), Var([b])]
    ensures Accepted(template) && '?' !in template
  {
    hide Tokens;
    TwoDotsLiterals([a], [b]);
    hide Literals;
    assert Find(template, '?') == |template| == 7;
    assert forall i | 0 <= i < 7 :: template[i] in ['/', '{', a, '}', b];
  }

  lemma TwoDotsLiterals(a: string, b: string)
    ensures Literals([Lit('/'), Var(a), Var(b)]) == "/"
  {
    var tokens := [Lit('/'), Var(a), Var(b)];
    assert tokens[1..][1..] == [Var(b)] && [Var(b)][1..] == [];
    assert Literals([]) == "" && Literals([Var(b)]) == "" && Literals(tokens[1..]) == "";
  }

  lemma TwoDotsFill(entries: map<string, Value>, a: string, b: string)
    requires Fill(InPath, entries, a) == Done(".") && Fill(InPath, entries, b) == Done(".")
    ensures Substitute(InPath, entries, [Lit('/'), Var(a), Var(b)]) == Done("/..")
  {
    var tokens := [Lit('/'), Var(a), Var(b)];
    hide Fill;
    assert tokens[1..][1..] == [Var(b)] && [Var(b)][1..] == [];
    assert Substitute(InPath, entries, []) == Done("");
    assert "." + "" == "." && "." + "." == ".." && "/" + ".." == "/..";
    assert Substitute(InPath, entries, [Var(b)]) == Done(".");
    assert Substitute(InPath, entries, tokens[1..]) == Done("..");
  }

  lemma DotFills(entries: map<string, Value>, name: string)
    requires name in entries && entries[name] == Str(".")
    ensures Fill(InPath, entries, name) == Done(".")
  {
    hide Strip, Quote, Unquote, Acceptable;
    OneDot(".");
    UnreservedKept(".");
    AcceptedValue(InPath, entries, name);
  }

  lemma OneDot(dot: string)
    requires dot == ['.']
    ensures Strip(dot) == dot && Unquote(dot) == dot
  {
    hide HexValue;
    assert LeftStrip(dot) == dot && RightStrip(dot) == dot;
    assert dot[1..] == [] && Unquote([]) == [];
  }

  lemma ClimbingTokens(template: string, a: char, b: char)
    requires NameStart(a) && NameStart(b) && template == ['/'] + (['{', a, '}'] + ['{', b, '}'])
    ensures Tokens(template) == [Lit('/'), Var([a]), Var([b])]
  {
    assert Tokens("") == [];
    TokensFrom('/', ['{', a, '}'] + ['{', b, '}']);
    hide Tokens;
    Reference(a, ['{', b, '}']);
    Reference(b, "");
    assert ['{', b, '}'] + "" == ['{', b, '}'];
  }

  lemma Reference(c: char, rest: string)
    requires NameStart(c)
    ensures Tokens(['{', c, '}'] + rest) == [Var([c])] + Tokens(rest)
  {
    ReferenceFirst([c], rest);
    assert "{" + [c] + "}" == ['{', c, '}'];
  }

  // ---- the outbound URL ---------------------------------------------------------------------------

  /** A configured base URL, split. The loader admits no credentials, query or fragment. */
  datatype Base = Base(scheme: string, netloc: string, path: string)

  predicate ValidBase(base: Base) {
    && base.scheme in {"http", "https"}
    && base.netloc != "" && '/' !in base.netloc && '?' !in base.netloc && '#' !in base.netloc
    && (base.path != "" ==> base.path[0] == '/') && '?' !in base.path && '#' !in base.path
  }

  function TrimSlashes(path: string): (r: string)
    ensures r <= path && (r != "" ==> r[|r| - 1] != '/')
    ensures forall i | |r| <= i < |path| :: path[i] == '/'
  {
    if path != "" && path[|path| - 1] == '/' then TrimSlashes(path[..|path| - 1]) else path
  }

  datatype UrlParts = UrlParts(netloc: string, path: string, query: string)

  /** How a URL reads after its scheme and "://": the fragment is cut first, then the query, then the authority. */
  function Parts(rest: string): UrlParts {
    var whole := Before(rest, '#');
    var front := Before(whole, '?');
    UrlParts(Before(front, '/'), front[Find(front, '/')..], After(whole, '?'))
  }

  /** The joined URL after its scheme: the base with a rendered path below it. */
  function Joined(base: Base, rendered: string): string {
    var rel := Parts(rendered);
    base.netloc + (TrimSlashes(base.path) + rel.path) + (if rel.query == "" then "" else "?" + rel.query)
  }

  /** Whatever the variables were, the request goes to the configured authority, below the configured base
      path, and carries the rendered path and query unchanged. */
  lemma JoinedUrl(base: Base, template: string, variables: Variables, out: string)
    requires ValidBase(base) && Accepted(template) && Hydrated(template, variables) == Done(out)
    ensures Parts(Joined(base, out))
         == UrlParts(base.netloc, TrimSlashes(base.path) + Parts(out).path, Parts(out).query)
    ensures Parts(out).netloc == "" && out == Parts(out).path + (if '?' in out then "?" + Parts(out).query else "")
  {
    RenderedStructure(template, variables, out);
    TrimmedPath(base.path);
    hide *;
    RelativeParts(out);
    JoinedBelow(base, out);
  }

  lemma JoinedBelow(base: Base, out: string)
    requires ValidBase(base) && TrimSlashes(base.path) <= base.path
    requires out != "" && out[0] == '/' && '#' !in out
    ensures Parts(Joined(base, out))
         == UrlParts(base.netloc, TrimSlashes(base.path) + Parts(out).path, Parts(out).query)
  {
    RelativeParts(out);
    hide Parts;
    PartsOf(base.netloc, TrimSlashes(base.path) + Parts(out).path, Parts(out).query, Joined(base, out));
  }

  lemma RelativeParts(out: string)
    requires out != "" && out[0] == '/' && '#' !in out
    ensures var rel := Parts(out);
            && rel.netloc == "" && rel.path != "" && rel.path[0] == '/'
            && '?' !in rel.path && '#' !in rel.path + rel.query
            && out == rel.path + (if '?' in out then "?" + rel.query else "")
  {
  }

  lemma {:induction false} TrimmedPath(path: string)
    ensures TrimSlashes(path) <= path
  {
    if path != "" && path[|path| - 1] == '/' {
      TrimmedPath(path[..|path| - 1]);
    }
  }

  lemma PartsOf(netloc: string, path: string, query: string, rest: string)
    requires path != "" && path[0] == '/' && '/' !in netloc
    requires '?' !in netloc + path && '#' !in netloc + path && '#' !in query
    requires rest == netloc + path + (if query == "" then "" else "?" + query)
    ensures Parts(rest) == UrlParts(netloc, path, query)
  {
    var front := netloc + path;
    PartitionNone(rest, '#');
    if query == "" {
      assert rest == front;
      PartitionNone(front, '?');
    } else {
      assert rest == front + ['?'] + query;
      PartitionAt(front, '?', query);
    }
    FrontOf(netloc, path);
  }

  lemma FrontOf(netloc: string, path: string)
    requires path != "" && path[0] == '/' && '/' !in netloc
    ensures var front := netloc + path; Before(front, '/') == netloc && front[Find(front, '/')..] == path
  {
    assert path == ['/'] + path[1..];
    FindAt(netloc, '/', path[1..]);
    assert netloc + path == netloc + ['/'] + path[1..];
  }
}
