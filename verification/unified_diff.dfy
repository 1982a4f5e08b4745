/** The hand-written unified-diff interpreter of the workspace runner. */
module UnifiedDiff {
  import opened Results
  import opened Text

  /** Why a diff is refused. OutOfRange is the run-time panic of slicing past a
      one-line diff that starts with "---". */
  datatype DiffError = InvalidHunk | ContextMismatch | RemovalMismatch | OutOfRange

  const NO_NEWLINE := "\\ No newline at end of file"

  // -------------------------------------------------------- file encoding

  /** The lines of a file: one trailing line feed is not a line of its own, and a
      file holding only "" or a single line feed has no lines. */
  function Decode(text: string): (lines: seq<string>)
    ensures AllOneLine(lines) && lines != [""]
  {
    var lines := Split(TrimNewline(text), '\n');
    if lines == [""] then [] else lines
  }

  /** The text the interpreter writes for a list of lines. */
  function Encode(lines: seq<string>): string { Join(lines) + "\n" }

  lemma DecodeOfEncode(lines: seq<string>)
    requires AllOneLine(lines)
    ensures Decode(Encode(lines)) == if lines == [""] then [] else lines
  {
    assert TrimNewline(Encode(lines)) == Join(lines);
    if lines == [] {
      assert Split("", '\n') == [""];
    } else {
      SplitOfJoin(lines);
    }
  }

  predicate Terminated(text: string) { text != "" && text[|text| - 1] == '\n' }

  lemma EncodeOfDecode(text: string)
    ensures Encode(Decode(text)) == if Terminated(text) then text else text + "\n"
  {
    var body := TrimNewline(text);
    JoinOfSplit(body);
    if Split(body, '\n') == [""] {
      assert body == "";
    }
    if Terminated(text) {
      assert body + "\n" == text;
    }
  }

  // -------------------------------------- the interpreter as a line machine

  /** Old lines consumed so far, output so far, and whether a hunk header was seen. */
  datatype Cursor = Cursor(oi: nat, out: seq<string>, inHunk: bool)

  const START := Cursor(0, [], false)

  function DiffLines(diff: string): Result<seq<string>, DiffError> {
    var lines := Split(DropCr(diff), '\n');
    if !HasPrefix(lines[0], "---") then Ok(lines)
    else if |lines| < 2 then Err(OutOfRange)
    else Ok(lines[2..])
  }

  predicate IsHeader(line: string) { HasPrefix(line, "@@") }

  function TrimDash(s: string): string { if HasPrefix(s, "-") then s[1..] else s }

  /** The old start a hunk header names, None when it has fewer than three fields. */
  function HunkStart(line: string): Option<int> {
    var parts := Fields(line);
    if |parts| < 3 then None else Some(Atoi(Split(TrimDash(parts[1]), ',')[0]))
  }

  /** start-1 in 64-bit arithmetic. */
  function Pred(start: int): int { if start == MIN_INT then MAX_INT else start - 1 }

  /** Where the copy in front of a hunk stops. */
  function CopyEnd(oldLen: nat, oi: nat, start: int): nat {
    var stop := if Pred(start) < oldLen then Pred(start) else oldLen;
    if oi < stop then stop else oi
  }

  /** How one line of the old or the new file is accounted for. */
  datatype Line = Copied(text: string) | Context(text: string) | Removed(text: string) | Inserted(text: string)

  type Spelt = l: Line | !l.Copied? witness Context("")

  /** What one diff line asks for. */
  datatype Instruction = Open(start: int) | BadHeader | Noise | Body(line: Spelt)

  function Parse(line: string): Instruction {
    if IsHeader(line) then
      match HunkStart(line)
      case None => BadHeader
      case Some(start) => Open(start)
    else if line == "" || line == NO_NEWLINE then Noise
    else if line[0] == ' ' then Body(Context(line[1..]))
    else if line[0] == '-' then Body(Removed(line[1..]))
    else if line[0] == '+' then Body(Inserted(line[1..]))
    else Noise
  }

  function ParseAll(lines: seq<string>): (r: seq<Instruction>)
    ensures |r| == |lines| && forall i :: 0 <= i < |lines| ==> r[i] == Parse(lines[i])
  {
    if lines == [] then [] else [Parse(lines[0])] + ParseAll(lines[1..])
  }

  function Feed(src: seq<string>, c: Cursor, ins: Instruction): (r: Result<Cursor, DiffError>)
    requires c.oi <= |src|
    ensures r.Ok? ==> c.oi <= r.value.oi <= |src|
  {
    match ins
    case BadHeader => Err(InvalidHunk)
    case Open(start) =>
      var stop := CopyEnd(|src|, c.oi, start);
      Ok(Cursor(stop, c.out + src[c.oi..stop], true))
    case Noise => Ok(c)
    case Body(line) =>
      if !c.inHunk then Ok(c)
      else if line.Inserted? then Ok(c.(out := c.out + [line.text]))
      else if c.oi >= |src| || src[c.oi] != line.text then
        Err(if line.Context? then ContextMismatch else RemovalMismatch)
      else if line.Removed? then Ok(c.(oi := c.oi + 1))
      else Ok(c.(oi := c.oi + 1, out := c.out + [src[c.oi]]))
  }

  function FeedAll(src: seq<string>, c: Cursor, instrs: seq<Instruction>): (r: Result<Cursor, DiffError>)
    requires c.oi <= |src|
    ensures r.Ok? ==> c.oi <= r.value.oi <= |src|
    decreases |instrs|
  {
    if instrs == [] then Ok(c)
    else
      match Feed(src, c, instrs[0])
      case Err(e) => Err(e)
      case Ok(next) => FeedAll(src, next, instrs[1..])
  }

  /** The same machine by position in the instruction list. */
  function FeedFrom(src: seq<string>, c: Cursor, instrs: seq<Instruction>, i: nat): Result<Cursor, DiffError>
    requires c.oi <= |src| && i <= |instrs|
    decreases |instrs| - i
  {
    if i == |instrs| then Ok(c)
    else
      match Feed(src, c, instrs[i])
      case Err(e) => Err(e)
      case Ok(next) => FeedFrom(src, next, instrs, i + 1)
  }

  lemma {:induction false} FeedFromIsFeedAll(src: seq<string>, c: Cursor, instrs: seq<Instruction>, i: nat)
    requires c.oi <= |src| && i <= |instrs|
    ensures FeedFrom(src, c, instrs, i) == FeedAll(src, c, instrs[i..])
    decreases |instrs| - i
  {
    if i < |instrs| {
      assert instrs[i..][1..] == instrs[i + 1..];
      if Feed(src, c, instrs[i]).Ok? {
        FeedFromIsFeedAll(src, Feed(src, c, instrs[i]).value, instrs, i + 1);
      }
    }
  }

  /** The final copy of whatever old lines are left. */
  function Finish(src: seq<string>, r: Result<Cursor, DiffError>): Result<seq<string>, DiffError>
    requires r.Ok? ==> r.value.oi <= |src|
  {
    if r.Err? then Err(r.error) else Ok(r.value.out + src[r.value.oi..])
  }

  /** The new lines a diff makes of the old lines. */
  function PatchLines(src: seq<string>, lines: seq<string>): Result<seq<string>, DiffError> {
    Finish(src, FeedAll(src, START, ParseAll(lines)))
  }

  function Apply(text: string, diff: string): Result<string, DiffError> {
    match DiffLines(diff)
    case Err(e) => Err(e)
    case Ok(lines) =>
      match PatchLines(Decode(text), lines)
      case Err(e) => Err(e)
      case Ok(out) => Ok(Encode(out))
  }

  /** The whole function: normalise and split the diff, drop a leading pair of
      file headers, interpret, and end the output with a line feed. */
  method ApplyUnifiedDiff(original: string, diff: string) returns (r: Result<string, DiffError>)
    ensures r == Apply(original, diff)
  {
    var lines := Split(DropCr(diff), '\n');
    if HasPrefix(lines[0], "---") {
      if |lines| < 2 {
        return Err(OutOfRange);
      }
      lines := lines[2..];
    }
    var src := Split(TrimNewline(original), '\n');
    if src == [""] {
      src := [];
    }
    var out := Interpret(src, lines);
    if out.Err? {
      return Err(out.error);
    }
    return Ok(Join(out.value) + "\n");
  }

  /** The outer loop: everything in front of the first hunk header is skipped. */
  method Interpret(src: seq<string>, lines: seq<string>) returns (r: Result<seq<string>, DiffError>)
    ensures r == PatchLines(src, lines)
  {
    ghost var instrs := ParseAll(lines);
    FeedFromIsFeedAll(src, START, instrs, 0);
    assert instrs[0..] == instrs;
    var c, i := START, 0;
    while i < |lines|
      invariant 0 <= i <= |lines| && 0 <= c.oi <= |src|
      invariant c.inHunk ==> i == |lines| || IsHeader(lines[i])
      invariant FeedFrom(src, START, instrs, 0) == FeedFrom(src, c, instrs, i)
    {
      if lines[i] == "" || !IsHeader(lines[i]) {
        SkipBeforeHunk(src, c, instrs, lines[i], i);
        i := i + 1;
        continue;
      }
      var after, k := InterpretHunk(src, lines, c, i, instrs);
      if after.Err? {
        return Err(after.error);
      }
      c, i := after.value, k;
    }
    var _, out := CopyUpTo(src, c.oi, |src|, c.out);
    assert src[c.oi..|src|] == src[c.oi..];
    return Ok(out);
  }

  lemma SkipBeforeHunk(src: seq<string>, c: Cursor, instrs: seq<Instruction>, line: string, i: nat)
    requires c.oi <= |src| && !c.inHunk && i < |instrs| && instrs[i] == Parse(line) && !IsHeader(line)
    ensures FeedFrom(src, c, instrs, i) == FeedFrom(src, c, instrs, i + 1)
  {
  }

  /** Copies old lines to the output up to a position. */
  method CopyUpTo(src: seq<string>, from: nat, stop: int, before: seq<string>) returns (oi: nat, out: seq<string>)
    requires from <= |src|
    ensures oi == if from < stop then (if stop < |src| then stop else |src|) else from
    ensures out == before + src[from..oi]
  {
    oi, out := from, before;
    while oi < stop && oi < |src|
      invariant from <= oi <= |src| && (oi == from || oi <= stop)
      invariant out == before + src[from..oi]
    {
      out := out + [src[oi]];
      oi := oi + 1;
    }
  }

  /** One hunk: its header, the copy in front of it, and its body. */
  method InterpretHunk(src: seq<string>, lines: seq<string>, c: Cursor, at: nat, ghost instrs: seq<Instruction>)
    returns (r: Result<Cursor, DiffError>, i: nat)
    requires at < |lines| && c.oi <= |src| && IsHeader(lines[at]) && instrs == ParseAll(lines)
    ensures r.Err? ==> FeedFrom(src, c, instrs, at) == Err(r.error)
    ensures r.Ok? ==>
              && at < i <= |lines| && r.value.oi <= |src| && r.value.inHunk
              && (i == |lines| || IsHeader(lines[i]))
              && FeedFrom(src, c, instrs, at) == FeedFrom(src, r.value, instrs, i)
  {
    var start := HunkStart(lines[at]);
    i := at + 1;
    if start.None? {
      return Err(InvalidHunk), i;
    }
    var oi, out := CopyUpTo(src, c.oi, Pred(start.value), c.out);
    r, i := InterpretBody(src, lines, Cursor(oi, out, true), i, instrs);
  }

  /** The inner loop: the body of one hunk, up to the next header. */
  method InterpretBody(src: seq<string>, lines: seq<string>, c: Cursor, first: nat, ghost instrs: seq<Instruction>)
    returns (r: Result<Cursor, DiffError>, i: nat)
    requires first <= |lines| && c.oi <= |src| && c.inHunk && instrs == ParseAll(lines)
    ensures r.Err? ==> FeedFrom(src, c, instrs, first) == Err(r.error)
    ensures r.Ok? ==>
              && first <= i <= |lines| && r.value.oi <= |src| && r.value.inHunk
              && (i == |lines| || IsHeader(lines[i]))
              && FeedFrom(src, c, instrs, first) == FeedFrom(src, r.value, instrs, i)
  {
    var cur := c;
    i := first;
    while i < |lines| && !IsHeader(lines[i])
      invariant first <= i <= |lines| && cur.oi <= |src| && cur.inHunk
      invariant FeedFrom(src, c, instrs, first) == FeedFrom(src, cur, instrs, i)
    {
      var next := InterpretLine(src, cur, lines[i]);
      if next.Err? {
        return next, i;
      }
      cur, i := next.value, i + 1;
    }
    r := Ok(cur);
  }

  /** One line of a hunk body. */
  method InterpretLine(src: seq<string>, c: Cursor, line: string) returns (r: Result<Cursor, DiffError>)
    requires c.oi <= |src| && c.inHunk && !IsHeader(line)
    ensures r == Feed(src, c, Parse(line))
  {
    var oi, out := c.oi, c.out;
    if line == NO_NEWLINE {
      return Ok(c);
    }
    if line == "" {
      return Ok(c);
    }
    match line[0] {
      case ' ' =>
        if oi >= |src| || src[oi] != line[1..] {
          return Err(ContextMismatch);
        }
        out := out + [src[oi]];
        oi := oi + 1;
      case '-' =>
        if oi >= |src| || src[oi] != line[1..] {
          return Err(RemovalMismatch);
        }
        oi := oi + 1;
      case '+' =>
        out := out + [line[1..]];
      case _ =>
    }
    return Ok(Cursor(oi, out, true));
  }

  // --------------------------------------------- panics and misread headers

  lemma {:induction false} FeedNeverPanics(src: seq<string>, c: Cursor, instrs: seq<Instruction>)
    requires c.oi <= |src|
    ensures FeedAll(src, c, instrs) != Err(OutOfRange)
    decreases |instrs|
  {
    if instrs != [] && Feed(src, c, instrs[0]).Ok? {
      FeedNeverPanics(src, Feed(src, c, instrs[0]).value, instrs[1..]);
    }
  }

  /** A single line that begins with the mark of a file header. */
  predicate LoneHeader(diff: string) { HasPrefix(diff, "---") && '\n' !in diff }

  /** The interpreter panics exactly on a lone file header, whatever the file. */
  lemma PanicsExactly(text: string, diff: string)
    ensures Apply(text, diff) == Err(OutOfRange) <==> LoneHeader(diff)
  {
    DropCrKeepsLines(diff);
    SplitIsWhole(DropCr(diff), '\n');
    var lines := DiffLines(diff);
    if lines.Ok? {
      FeedNeverPanics(Decode(text), START, ParseAll(lines.value));
    }
  }

  /** The text of a header's old start. */
  function StartText(line: string): string
    requires |Fields(line)| >= 3
  {
    Split(TrimDash(Fields(line)[1]), ',')[0]
  }

  /** A header with three fields is read as the number of its second field: without a
      leading dash, and up to the first comma if there is one. */
  lemma StartIsRead(line: string, dash: string, text: string, rest: string)
    requires |Fields(line)| >= 3 && Fields(line)[1] == dash + text + rest
    requires dash == "-" || (dash == "" && !HasPrefix(text + rest, "-"))
    requires ',' !in text && (rest == "" || rest[0] == ',')
    ensures StartText(line) == text && HunkStart(line) == Some(Atoi(text))
  {
    assert TrimDash(dash + text + rest) == text + rest;
    if rest == "" {
      assert text + rest == text;
      SplitIsWhole(text, ',');
    } else {
      assert text + rest == text + [','] + rest[1..];
      SplitFirst(text, rest[1..], ',');
    }
  }

  /** So a printed number is the start, with or without a count behind it. */
  lemma StartOfNumber(line: string, n: nat, rest: string)
    requires |Fields(line)| >= 3 && Fields(line)[1] == "-" + Dec(n) + rest
    requires n <= MAX_INT && (rest == "" || rest[0] == ',')
    ensures HunkStart(line) == Some(n)
  {
    StartIsRead(line, "-", Dec(n), rest);
    AtoiOfDec(n);
  }

  /** A header with three fields is read as start 0 exactly when the text of its start is
      no number or a zero. */
  lemma StartIsZero(line: string)
    ensures HunkStart(line) == Some(0)
            <==> |Fields(line)| >= 3
                 && var digits := Unsigned(StartText(line));
                    NoNumber(digits) || forall i :: 0 <= i < |digits| ==> digits[i] == '0'
  {
    if |Fields(line)| >= 3 {
      AtoiIsZero(StartText(line));
    }
  }

  /** The body after a header is applied where the cursor stands exactly when the start
      lies no further, or no old line is left; a start of 0 never lies further. */
  lemma OpensAtCursor(src: seq<string>, c: Cursor, start: int)
    requires c.oi <= |src|
    ensures Feed(src, c, Open(start)) == Ok(c.(inHunk := true)) <==> Pred(start) <= c.oi || c.oi == |src|
    ensures Feed(src, c, Open(0)) == Ok(c.(inHunk := true))
  {
    assert c.out + src[c.oi..c.oi] == c.out;
  }

  // ------------------------------------------------ soundness on any diff

  function Spell(ins: Instruction, inHunk: bool): seq<Line> {
    if ins.Body? && inHunk then [ins.line] else []
  }

  /** The body lines a diff spells out, in order, read without looking at a file. */
  function SpellAll(instrs: seq<Instruction>, inHunk: bool): seq<Line> {
    if instrs == [] then []
    else Spell(instrs[0], inHunk) + SpellAll(instrs[1..], inHunk || instrs[0].Open?)
  }

  /** The parts of an alignment one can look at. */
  datatype Part = InOld | InNew | InBoth | SpelledOut | Removals | Insertions

  predicate Has(part: Part, l: Line) {
    match part
    case InOld => !l.Inserted?
    case InNew => !l.Removed?
    case InBoth => l.Copied? || l.Context?
    case SpelledOut => !l.Copied?
    case Removals => l.Removed?
    case Insertions => l.Inserted?
  }

  function Pick(a: seq<Line>, part: Part): seq<Line> {
    if a == [] then []
    else if Has(part, a[0]) then [a[0]] + Pick(a[1..], part)
    else Pick(a[1..], part)
  }

  function Texts(a: seq<Line>, part: Part): seq<string> {
    if a == [] then []
    else if Has(part, a[0]) then [a[0].text] + Texts(a[1..], part)
    else Texts(a[1..], part)
  }

  /** The file an alignment starts from. */
  function OldSide(a: seq<Line>): seq<string> { Texts(a, InOld) }

  /** The file it ends with. */
  function NewSide(a: seq<Line>): seq<string> { Texts(a, InNew) }

  /** The lines in both files. */
  function KeptSide(a: seq<Line>): seq<string> { Texts(a, InBoth) }

  ghost predicate Subsequence(xs: seq<string>, ys: seq<string>) {
    if xs == [] then true
    else if ys == [] then false
    else if xs[0] == ys[0] then Subsequence(xs[1..], ys[1..])
    else Subsequence(xs, ys[1..])
  }

  function CopyAll(lines: seq<string>): seq<Line> {
    if lines == [] then [] else [Copied(lines[0])] + CopyAll(lines[1..])
  }

  lemma {:induction false} CopyAllSides(lines: seq<string>)
    ensures OldSide(CopyAll(lines)) == NewSide(CopyAll(lines)) == lines
    ensures Pick(CopyAll(lines), SpelledOut) == []
  {
    if lines != [] {
      CopyAllSides(lines[1..]);
    }
  }

  lemma {:induction false} PartOfConcat(a: seq<Line>, b: seq<Line>, part: Part)
    ensures Pick(a + b, part) == Pick(a, part) + Pick(b, part)
    ensures Texts(a + b, part) == Texts(a, part) + Texts(b, part)
  {
    if a == [] {
      assert a + b == b;
    } else {
      assert (a + b)[1..] == a[1..] + b;
      PartOfConcat(a[1..], b, part);
    }
  }

  lemma SidesOfConcat(a: seq<Line>, b: seq<Line>)
    ensures OldSide(a + b) == OldSide(a) + OldSide(b)
    ensures NewSide(a + b) == NewSide(a) + NewSide(b)
    ensures Pick(a + b, SpelledOut) == Pick(a, SpelledOut) + Pick(b, SpelledOut)
  {
    PartOfConcat(a, b, InOld);
    PartOfConcat(a, b, InNew);
    PartOfConcat(a, b, SpelledOut);
  }

  lemma SidesOfCons(l: Line, rest: seq<Line>)
    ensures OldSide([l] + rest) == (if l.Inserted? then OldSide(rest) else [l.text] + OldSide(rest))
    ensures NewSide([l] + rest) == (if l.Removed? then NewSide(rest) else [l.text] + NewSide(rest))
  {
    assert ([l] + rest)[1..] == rest;
  }

  /** The alignment of old and new lines that an accepted diff describes from a cursor on. */
  function Alignment(src: seq<string>, c: Cursor, instrs: seq<Instruction>): seq<Line>
    requires c.oi <= |src| && FeedAll(src, c, instrs).Ok?
    decreases |instrs|
  {
    if instrs == [] then CopyAll(src[c.oi..])
    else
      var next := Feed(src, c, instrs[0]).value;
      AlignOne(src, c, instrs[0]) + Alignment(src, next, instrs[1..])
  }

  function AlignOne(src: seq<string>, c: Cursor, ins: Instruction): seq<Line>
    requires c.oi <= |src| && Feed(src, c, ins).Ok?
  {
    if ins.Open? then CopyAll(src[c.oi..Feed(src, c, ins).value.oi]) else Spell(ins, c.inHunk)
  }

  lemma LineSides(src: seq<string>, c: Cursor, ins: Instruction)
    requires c.oi <= |src| && Feed(src, c, ins).Ok?
    ensures var b, next := AlignOne(src, c, ins), Feed(src, c, ins).value;
            && OldSide(b) == src[c.oi..next.oi]
            && c.out + NewSide(b) == next.out
            && Pick(b, SpelledOut) == Spell(ins, c.inHunk)
            && next.inHunk == (c.inHunk || ins.Open?)
  {
    var next := Feed(src, c, ins).value;
    if ins.Open? {
      CopyAllSides(src[c.oi..next.oi]);
    } else {
      var b := Spell(ins, c.inHunk);
      if b != [] {
        SidesOfCons(b[0], []);
        assert b == [b[0]] + [] && b[1..] == [];
      }
      assert next.oi == c.oi + 1 ==> src[c.oi..next.oi] == [src[c.oi]];
    }
  }

  lemma SlicesMeet(s: seq<string>, i: nat, j: nat)
    requires i <= j <= |s|
    ensures s[i..j] + s[j..] == s[i..]
  {
  }

  lemma Associates(a: seq<string>, b: seq<string>, c: seq<string>)
    ensures a + (b + c) == a + b + c
  {
  }

  lemma Compose(src: seq<string>, from: nat, mid: nat, before: seq<string>, here: seq<Line>, rest: seq<Line>)
    requires from <= mid <= |src|
    requires OldSide(here) == src[from..mid] && OldSide(rest) == src[mid..]
    ensures OldSide(here + rest) == src[from..]
    ensures before + NewSide(here + rest) == (before + NewSide(here)) + NewSide(rest)
    ensures Pick(here + rest, SpelledOut) == Pick(here, SpelledOut) + Pick(rest, SpelledOut)
  {
    SidesOfConcat(here, rest);
    SlicesMeet(src, from, mid);
    Associates(before, NewSide(here), NewSide(rest));
  }

  lemma {:induction false} AlignmentSides(src: seq<string>, c: Cursor, instrs: seq<Instruction>)
    requires c.oi <= |src| && FeedAll(src, c, instrs).Ok?
    ensures OldSide(Alignment(src, c, instrs)) == src[c.oi..]
    ensures var end := FeedAll(src, c, instrs).value;
            c.out + NewSide(Alignment(src, c, instrs)) == end.out + src[end.oi..]
    ensures Pick(Alignment(src, c, instrs), SpelledOut) == SpellAll(instrs, c.inHunk)
    decreases |instrs|
  {
    if instrs == [] {
      CopyAllSides(src[c.oi..]);
    } else {
      var next := Feed(src, c, instrs[0]).value;
      LineSides(src, c, instrs[0]);
      AlignmentSides(src, next, instrs[1..]);
      Compose(src, c.oi, next.oi, c.out, AlignOne(src, c, instrs[0]), Alignment(src, next, instrs[1..]));
    }
  }

  lemma {:induction false} AlignmentCounts(a: seq<Line>)
    ensures |NewSide(a)| == |OldSide(a)| - |Pick(a, Removals)| + |Pick(a, Insertions)|
    ensures Pick(Pick(a, SpelledOut), Removals) == Pick(a, Removals)
    ensures Pick(Pick(a, SpelledOut), Insertions) == Pick(a, Insertions)
  {
    if a != [] {
      AlignmentCounts(a[1..]);
    }
  }

  lemma {:induction false} SubsequenceSkips(xs: seq<string>, y: string, ys: seq<string>)
    requires Subsequence(xs, ys)
    ensures Subsequence(xs, [y] + ys)
    decreases |ys|, 1
  {
    assert ([y] + ys)[1..] == ys;
    if xs != [] && xs[0] == y {
      SubsequenceDrops(xs, ys);
    }
  }

  lemma {:induction false} SubsequenceDrops(xs: seq<string>, ys: seq<string>)
    requires xs != [] && Subsequence(xs, ys)
    ensures Subsequence(xs[1..], ys)
    decreases |ys|, 0
  {
    var tail := if xs[0] == ys[0] then xs[1..] else xs;
    assert [ys[0]] + ys[1..] == ys;
    if xs[0] == ys[0] {
      SubsequenceSkips(xs[1..], ys[0], ys[1..]);
    } else {
      SubsequenceDrops(xs, ys[1..]);
      SubsequenceSkips(xs[1..], ys[0], ys[1..]);
    }
  }

  lemma {:induction false} KeptIsSubsequence(a: seq<Line>, part: Part)
    requires part == InOld || part == InNew
    ensures Subsequence(KeptSide(a), Texts(a, part))
  {
    if a != [] {
      KeptIsSubsequence(a[1..], part);
      var rest := Texts(a[1..], part);
      var here := if Has(part, a[0]) then [a[0].text] else [];
      assert Texts(a, part) == here + rest;
      if Has(InBoth, a[0]) {
        assert KeptSide(a) == [a[0].text] + KeptSide(a[1..]);
      } else if Has(part, a[0]) {
        assert KeptSide(a) == KeptSide(a[1..]);
        SubsequenceSkips(KeptSide(a[1..]), a[0].text, rest);
      }
    }
  }

  /** The alignment, and the lines it leads to, of a diff that is accepted. */
  function AlignmentOf(text: string, diff: string): seq<Line>
    requires Apply(text, diff).Ok?
  {
    Alignment(Decode(text), START, ParseAll(DiffLines(diff).value))
  }

  function LinesOf(text: string, diff: string): seq<string>
    requires Apply(text, diff).Ok?
  {
    PatchLines(Decode(text), DiffLines(diff).value).value
  }

  /** The body lines a diff spells out. */
  function BodyOf(diff: string): seq<Line>
    requires DiffLines(diff).Ok?
  {
    SpellAll(ParseAll(DiffLines(diff).value), false)
  }

  /** Whatever its text, a diff that is accepted only keeps, removes and inserts:
      the old lines and the new lines are the two sides of one alignment whose
      spelled-out lines are exactly the diff's body lines in their order. */
  lemma AcceptedDiffIsAnAlignment(text: string, diff: string)
    requires Apply(text, diff).Ok?
    ensures var a, out := AlignmentOf(text, diff), LinesOf(text, diff);
            && Apply(text, diff) == Ok(Encode(out))
            && OldSide(a) == Decode(text) && NewSide(a) == out && Pick(a, SpelledOut) == BodyOf(diff)
            && Subsequence(KeptSide(a), Decode(text)) && Subsequence(KeptSide(a), out)
            && |out| == |Decode(text)| - |Pick(BodyOf(diff), Removals)| + |Pick(BodyOf(diff), Insertions)|
  {
    var a := AlignmentOf(text, diff);
    AlignmentSides(Decode(text), START, ParseAll(DiffLines(diff).value));
    AlignmentCounts(a);
    KeptIsSubsequence(a, InOld);
    KeptIsSubsequence(a, InNew);
  }
}
