/** The secret provider's rotating audit log (sps/audit.py): generations of one append-only file. A file is the
    appends made to it; each is a whole line, unless the process died in the middle of it. It may die between any
    two renames or appends, and within an append. */
module AuditLog {
  import opened PythonText

  type byte = x: int | 0 <= x < 256
  type Line = seq<byte>

  /** Generation 0 is the file being written; a missing number is a file that does not exist. */
  type Files = map<nat, seq<Line>>

  function Size(lines: seq<Line>): nat {
    if lines == [] then 0 else |lines[0]| + Size(lines[1..])
  }

  function Lines(files: Files, index: nat): seq<Line> {
    if index in files then files[index] else []
  }

  /** Every event the files hold, read from generation n down to the current file. */
  function Reading(files: Files, n: nat): seq<Line> {
    Lines(files, n) + if n == 0 then [] else Reading(files, n - 1)
  }

  /** os.replace of one generation by the one before it. */
  function Shift(files: Files, index: nat): Files {
    if index in files then (files - {index})[index + 1 := files[index]] else files
  }

  predicate Suffix(tail: seq<Line>, whole: seq<Line>) {
    |tail| <= |whole| && tail == whole[|whole| - |tail|..]
  }

  lemma {:induction false} ReadingSame(files: Files, files': Files, n: nat)
    requires forall i | 0 <= i <= n :: Lines(files', i) == Lines(files, i)
    ensures Reading(files', n) == Reading(files, n)
  {
    if n > 0 {
      ReadingSame(files, files', n - 1);
    }
  }

  /** Moving a generation into a free place changes nothing a reader sees. */
  lemma {:induction false} ShiftKeeps(files: Files, index: nat, n: nat)
    requires index < n && index + 1 !in files
    ensures Reading(Shift(files, index), n) == Reading(files, n)
  {
    var files' := Shift(files, index);
    if n == index + 1 {
      if index > 0 {
        ReadingSame(files, files', index - 1);
      }
    } else {
      ShiftKeeps(files, index, n - 1);
    }
  }

  /** Moving the last generation but one over the oldest drops exactly the oldest. */
  lemma ShiftDrops(files: Files, n: nat)
    requires n > 0 && n - 1 in files
    ensures Lines(files, n) + Reading(Shift(files, n - 1), n) == Reading(files, n)
  {
    var files' := Shift(files, n - 1);
    var rest := if n > 1 then Reading(files, n - 2) else [];
    if n > 1 {
      ReadingSame(files, files', n - 2);
    }
    assert Reading(files, n) == Lines(files, n) + (Lines(files, n - 1) + rest);
    assert Reading(files', n) == Lines(files, n - 1) + ([] + rest);
    hide *;
    assert [] + rest == rest;
  }

  lemma {:induction false} ReadingAppend(files: Files, line: Line, n: nat)
    requires 0 in files
    ensures Reading(files[0 := files[0] + [line]], n) == Reading(files, n) + [line]
  {
    if n > 0 {
      ReadingAppend(files, line, n - 1);
    }
  }

  lemma {:induction false} SizeAppend(lines: seq<Line>, line: Line)
    ensures Size(lines + [line]) == Size(lines) + |line|
  {
    if lines != [] {
      assert (lines + [line])[1..] == lines[1..] + [line];
      SizeAppend(lines[1..], line);
    }
  }

  /** Nothing outside generations 0 to n, and no file over the cap. */
  predicate Bounded(files: Files, n: nat, maxBytes: nat) {
    forall i | i in files :: i <= n && Size(files[i]) <= maxBytes
  }

  /** What a full rotation leaves readable: all but the oldest generation, if another takes its place. */
  function Cut(files: Files, n: nat): seq<Line> {
    var all := Reading(files, n);
    if n > 0 && n - 1 in files then all[|Lines(files, n)|..] else all
  }

  /** What a rotation drops is the oldest generation, whole, and only if another takes its place. */
  lemma CutExactly(files: Files, n: nat)
    ensures Reading(files, n) == (if n > 0 && n - 1 in files then Lines(files, n) else []) + Cut(files, n)
  {
    hide Lines;
    if n > 0 && n - 1 in files {
      var rest := Reading(files, n - 1);
      assert Reading(files, n) == Lines(files, n) + rest && (Lines(files, n) + rest)[|Lines(files, n)|..] == rest;
    } else {
      assert [] + Reading(files, n) == Reading(files, n);
    }
  }

  function Retained(files: Files, n: nat, maxBytes: nat, line: Line): seq<Line> {
    if Size(Lines(files, 0)) + |line| > maxBytes then Cut(files, n) else Reading(files, n)
  }

  lemma ShiftUp(files: Files, index: nat, n: nat, maxBytes: nat)
    requires index < n && Bounded(files, n, maxBytes)
    requires index + 1 < n ==> index + 1 !in files
    ensures Reading(Shift(files, index), n) == if index + 1 == n then Cut(files, n) else Reading(files, n)
    ensures Bounded(Shift(files, index), n, maxBytes) && index !in Shift(files, index)
    ensures index > 0 && 0 in files ==> 0 in Shift(files, index)
  {
    if index in files {
      if index + 1 == n {
        ShiftDrops(files, n);
      } else {
        ShiftKeeps(files, index, n);
      }
    }
  }

  /** Creating an empty current file changes nothing a reader sees. */
  lemma Opened(files: Files, n: nat, maxBytes: nat)
    requires Bounded(files, n, maxBytes) && 0 !in files
    ensures Bounded(files[0 := []], n, maxBytes) && Reading(files[0 := []], n) == Reading(files, n)
  {
    ReadingSame(files, files[0 := []], n);
  }

  lemma Appended(files: Files, line: Line, n: nat, maxBytes: nat)
    requires Bounded(files, n, maxBytes) && 0 in files && Size(files[0]) + |line| <= maxBytes
    ensures var files' := files[0 := files[0] + [line]];
            Bounded(files', n, maxBytes) && Reading(files', n) == Reading(files, n) + [line]
  {
    ReadingAppend(files, line, n);
    SizeAppend(files[0], line);
  }

  lemma CutSuffix(files: Files, n: nat, whole: seq<Line>)
    requires Suffix(Reading(files, n), whole)
    ensures Suffix(Cut(files, n), whole)
  {
  }

  lemma SuffixAppend(tail: seq<Line>, whole: seq<Line>, line: Line)
    requires Suffix(tail, whole)
    ensures Suffix(tail + [line], whole + [line])
  {
  }

  // ---- what a reader of lines makes of a file ------------------------------------------------------

  const NEWLINE: byte := 10

  function Bytes(appends: seq<Line>): seq<byte> {
    if appends == [] then [] else appends[0] + Bytes(appends[1..])
  }

  /** The size of a file is the number of its bytes. */
  lemma {:induction false} SizeBytes(lines: seq<Line>)
    ensures Size(lines) == |Bytes(lines)|
  {
    if lines != [] {
      SizeBytes(lines[1..]);
    }
  }

  /** A whole event: one line feed, at its end. */
  predicate Whole(line: Line) {
    line != [] && line[|line| - 1] == NEWLINE && NEWLINE !in line[..|line| - 1]
  }

  /** What an append leaves: a whole event, or the beginning of one. */
  predicate Piece(line: Line) {
    Whole(line) || NEWLINE !in line
  }

  predicate Pieces(appends: seq<Line>) {
    forall i | 0 <= i < |appends| :: Piece(appends[i])
  }

  function Body(line: Line): Line {
    if line == [] then [] else line[..|line| - 1]
  }

  /** The lines a reader gets: each whole event ends one, which begins with whatever was torn before it. */
  function Grouped(appends: seq<Line>, torn: Line): seq<Line> {
    if appends == [] then [torn]
    else if Whole(appends[0]) then [torn + Body(appends[0])] + Grouped(appends[1..], [])
    else Grouped(appends[1..], torn + appends[0])
  }

  lemma {:induction false} LinesFrom(appends: seq<Line>, torn: Line)
    requires Pieces(appends) && NEWLINE !in torn
    ensures Split(torn + Bytes(appends), NEWLINE) == Grouped(appends, torn)
  {
    hide Split;
    if appends == [] {
      LastLine(torn);
    } else {
      var line, rest := appends[0], appends[1..];
      if Whole(line) {
        LinesFrom(rest, []);
        assert torn + Bytes(appends) == (torn + Body(line)) + [NEWLINE] + Bytes(rest) by {
          assert line == Body(line) + [NEWLINE];
        }
        SplitAt(torn + Body(line), NEWLINE, Bytes(rest));
        assert [] + Bytes(rest) == Bytes(rest);
      } else {
        assert Piece(line);
        Associative(torn, line, Bytes(rest));
        LinesFrom(rest, torn + line);
      }
    }
  }

  lemma LastLine(torn: Line)
    requires NEWLINE !in torn
    ensures Split(torn + Bytes([]), NEWLINE) == [torn]
  {
    assert torn + Bytes([]) == torn;
  }

  /** A reader splitting a file at line feeds gets exactly these lines, wherever writes were torn: each torn write
      costs itself and the event that follows it in the same file, and one at the end of a file only itself. */
  lemma ReadsGrouped(appends: seq<Line>)
    requires Pieces(appends)
    ensures Split(Bytes(appends), NEWLINE) == Grouped(appends, [])
  {
    LinesFrom(appends, []);
    assert [] + Bytes(appends) == Bytes(appends);
  }

  /** Events that were not torn, and do not follow one that was, read as they were written. */
  lemma {:induction false} GroupedKeeps(appends: seq<Line>, torn: Line, i: nat)
    requires i < |appends| && Whole(appends[i]) && (if i == 0 then torn == [] else Whole(appends[i - 1]))
    ensures Body(appends[i]) in Grouped(appends, torn)
  {
    if i == 0 {
      assert [] + Body(appends[0]) == Body(appends[0]);
    } else {
      var torn' := if Whole(appends[0]) then [] else torn + appends[0];
      GroupedKeeps(appends[1..], torn', i - 1);
    }
  }

  function Bodies(lines: seq<Line>): seq<Line> {
    seq(|lines|, i requires 0 <= i < |lines| => Body(lines[i]))
  }

  predicate AllWhole(appends: seq<Line>) {
    forall i | 0 <= i < |appends| :: Whole(appends[i])
  }

  lemma {:induction false} GroupedWhole(appends: seq<Line>)
    requires AllWhole(appends)
    ensures Grouped(appends, []) == Bodies(appends) + [[]]
  {
    if appends != [] {
      GroupedWhole(appends[1..]);
      assert [] + Body(appends[0]) == Body(appends[0]);
      assert Bodies(appends) == [Body(appends[0])] + Bodies(appends[1..]);
    }
  }

  /** Without torn writes the lines are exactly the events. */
  lemma WholeLines(appends: seq<Line>)
    requires AllWhole(appends)
    ensures Split(Bytes(appends), NEWLINE) == Bodies(appends) + [[]]
  {
    ReadsGrouped(appends);
    GroupedWhole(appends);
  }

  lemma {:induction false} GroupedAfter(a: seq<Line>, rest: seq<Line>)
    requires AllWhole(a)
    ensures Grouped(a + rest, []) == Bodies(a) + Grouped(rest, [])
  {
    hide Whole, Body;
    if a == [] {
      assert a + rest == rest && Bodies(a) == [];
    } else {
      assert a + rest == [a[0]] + (a[1..] + rest);
      GroupedAfter(a[1..], rest);
      FirstWhole(a[0], a[1..] + rest);
      assert Bodies(a) == [Body(a[0])] + Bodies(a[1..]);
      Associative([Body(a[0])], Bodies(a[1..]), Grouped(rest, []));
    }
  }

  lemma FirstWhole(line: Line, rest: seq<Line>)
    requires Whole(line)
    ensures Grouped([line] + rest, []) == [Body(line)] + Grouped(rest, [])
  {
    assert ([line] + rest)[1..] == rest && [] + Body(line) == Body(line);
  }

  /** One torn write among whole ones costs a reader itself and the event after it, which become one line. */
  lemma TornCosts(a: seq<Line>, torn: Line, line: Line, b: seq<Line>)
    requires AllWhole(a) && AllWhole(b) && Whole(line) && NEWLINE !in torn
    ensures Split(Bytes(a + ([torn, line] + b)), NEWLINE) == Bodies(a) + ([torn + Body(line)] + (Bodies(b) + [[]]))
  {
    ReadsGrouped(a + ([torn, line] + b));
    GroupedAfter(a, [torn, line] + b);
    GroupedWhole(b);
    assert ([torn, line] + b)[1..] == [line] + b && ([line] + b)[1..] == b;
    assert [] + torn == torn;
    assert Piece(torn) && !Whole(torn);
    hide Bodies, Body, Split, Whole;
    assert Grouped([torn, line] + b, []) == Grouped([line] + b, torn) == [torn + Body(line)] + Grouped(b, []);
  }

  lemma PiecesOf(a: seq<Line>, b: seq<Line>)
    requires Pieces(a + b)
    ensures Pieces(a) && Pieces(b)
  {
    hide Piece;
    forall i | 0 <= i < |a| ensures Piece(a[i]) {
      assert (a + b)[i] == a[i];
    }
    forall i | 0 <= i < |b| ensures Piece(b[i]) {
      assert (a + b)[|a| + i] == b[i];
    }
  }

  lemma {:induction false} FilePieces(files: Files, n: nat, index: nat)
    requires index <= n && Pieces(Reading(files, n))
    ensures Pieces(Lines(files, index))
  {
    hide Pieces, Lines;
    PiecesOf(Lines(files, n), if n == 0 then [] else Reading(files, n - 1));
    if index < n {
      FilePieces(files, n - 1, index);
    }
  }

  /** So every generation reads so, whatever rotations and crashes came before. */
  lemma FileReads(files: Files, n: nat, written: seq<Line>, index: nat)
    requires index <= n && Suffix(Reading(files, n), written) && Pieces(written)
    ensures Split(Bytes(Lines(files, index)), NEWLINE) == Grouped(Lines(files, index), [])
  {
    hide Split, Pieces, Reading, Lines;
    var cut := |written| - |Reading(files, n)|;
    assert written == written[..cut] + written[cut..];
    PiecesOf(written[..cut], Reading(files, n));
    FilePieces(files, n, index);
    ReadsGrouped(Lines(files, index));
  }

  // ---- the logger ---------------------------------------------------------------------------------

  /** What a write that reached n bytes leaves. */
  function Left(line: Line, n: nat): seq<Line>
    requires n <= |line|
  {
    if n == 0 then [] else [line[..n]]
  }

  datatype Outcome = Written | Refused | Died

  class AuditLogger {
    const maxBytes: nat
    const generations: nat
    var files: Files
    ghost var written: seq<Line>

    ghost predicate Valid()
      reads this
    {
      && generations > 0 && Bounded(files, generations, maxBytes)
      && Suffix(Reading(files, generations), written) && Pieces(written)
    }

    /** A logger over whatever generations an earlier process left. */
    constructor (maxBytes: nat, generations: nat, files: Files)
      requires maxBytes >= 1024 && generations > 0 && Bounded(files, generations, maxBytes)
      requires Pieces(Reading(files, generations))
      ensures Valid() && this.files == files
      ensures this.maxBytes == maxBytes && this.generations == generations
    {
      this.maxBytes, this.generations, this.files := maxBytes, generations, files;
      written := Reading(files, generations);
    }

    /** Appends one event, rotating first when it does not fit. What was there stays readable, in order; only
        a rotation drops anything, and then exactly the oldest generation. A process that dies may leave the
        beginning of its line, as much as kept tells. It may die before any of the renames, by their index, before
        the new file is opened, or within the line, after as much as reached. */
    method Event(line: Line, dies: nat -> bool, reached: nat) returns (outcome: Outcome, ghost kept: nat)
      requires Valid() && Whole(line)
      modifies this
      ensures Valid() && kept <= |line|
      ensures outcome == Refused <==> |line| > maxBytes
      ensures outcome == Refused ==> files == old(files) && kept == 0
      ensures outcome == Written ==> kept == |line|
      ensures outcome == Died ==> exists at :: dies(at)
      ensures written == old(written) + Left(line, kept)
      ensures |line| <= maxBytes && Size(Lines(old(files), 0)) + |line| <= maxBytes ==>
                Reading(files, generations) == old(Reading(files, generations)) + Left(line, kept)
      ensures outcome != Refused ==>
                || Reading(files, generations) == Retained(old(files), generations, maxBytes, line) + Left(line, kept)
                || (outcome == Died && kept == 0 && Reading(files, generations) == old(Reading(files, generations)))
    {
      if |line| > maxBytes {
        return Refused, 0;
      }
      hide Reading, Retained, Bounded, Suffix, Size;
      var alive := Prepare(line, dies);
      if !alive {
        return Died, 0;
      }
      var whole;
      whole, kept := Write(line, dies(generations), reached);
      return if whole then Written else Died, kept;
    }

    /** Writes the line, or dies within it or just after. */
    method Write(line: Line, dies: bool, reached: nat) returns (whole: bool, ghost kept: nat)
      requires Valid() && Whole(line) && 0 in files && Size(files[0]) + |line| <= maxBytes
      modifies this
      ensures Valid() && (whole <==> !dies)
      ensures kept == if dies && reached < |line| then reached else |line|
      ensures written == old(written) + Left(line, kept)
      ensures Reading(files, generations) == old(Reading(files, generations)) + Left(line, kept)
    {
      hide Reading, Bounded, Suffix, Size;
      if !dies || reached >= |line| {
        assert line[..|line|] == line;
        Append(line);
        whole, kept := !dies, |line|;
      } else if reached > 0 {
        Append(line[..reached]);
        whole, kept := false, reached;
      } else {
        whole, kept := false, 0;
      }
    }

    /** Opens the current file, rotating if the line does not fit. */
    method Prepare(line: Line, dies: nat -> bool) returns (alive: bool)
      requires Valid() && |line| <= maxBytes
      modifies this`files
      ensures Valid()
      ensures alive ==> 0 in files && Size(files[0]) + |line| <= maxBytes
      ensures alive ==> Reading(files, generations) == Retained(old(files), generations, maxBytes, line)
      ensures !alive ==> exists at :: dies(at)
      ensures !alive ==> Reading(files, generations) in {old(Reading(files, generations)),
                                                         Retained(old(files), generations, maxBytes, line)}
    {
      ghost var before := files;
      CutSuffix(files, generations, written);
      if 0 !in files {
        Opened(files, generations, maxBytes);
        files := files[0 := []];
        assert Size(files[0]) == Size(Lines(before, 0)) == 0;
      }
      hide Reading, Cut, Bounded, Suffix, Size;
      alive := true;
      if Size(files[0]) + |line| > maxBytes {
        alive := Rotate(dies);
      }
    }

    method Append(text: Line)
      requires Valid() && Piece(text) && 0 in files && Size(files[0]) + |text| <= maxBytes
      modifies this
      ensures Valid() && written == old(written) + [text]
      ensures Reading(files, generations) == old(Reading(files, generations)) + [text]
    {
      hide Reading, Bounded, Suffix, Size;
      Appended(files, text, generations, maxBytes);
      SuffixAppend(Reading(files, generations), written, text);
      files := files[0 := files[0] + [text]];
      written := written + [text];
    }

    /** Shifts every generation up by one and starts an empty current file. */
    method Rotate(dies: nat -> bool) returns (alive: bool)
      requires Valid() && 0 in files
      modifies this`files
      ensures Valid()
      ensures alive ==> 0 in files && files[0] == []
      ensures alive ==> Reading(files, generations) == Cut(old(files), generations)
      ensures !alive ==> exists at :: dies(at)
      ensures !alive ==> Reading(files, generations) in {old(Reading(files, generations)), Cut(old(files), generations)}
    {
      hide Reading, Cut, Bounded, Shift, Suffix;
      ghost var before := files;
      CutSuffix(files, generations, written);
      var index := generations - 1;
      while index > 0
        invariant 0 <= index < generations
        invariant 0 in files && Bounded(files, generations, maxBytes)
        invariant index == generations - 1 ==> files == before
        invariant index < generations - 1 ==> index + 1 !in files
        invariant index < generations - 1 ==> Reading(files, generations) == Cut(before, generations)
      {
        if dies(index) {
          return false;
        }
        ShiftUp(files, index, generations, maxBytes);
        files := Shift(files, index);
        index := index - 1;
      }
      ShiftUp(files, 0, generations, maxBytes);
      files := Shift(files, 0);
      if dies(0) {
        return false;
      }
      Opened(files, generations, maxBytes);
      files := files[0 := []];
      return true;
    }
  }
}
