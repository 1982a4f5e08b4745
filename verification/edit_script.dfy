/** Edit scripts and their printed form: what the diff interpreter is for. A hunk's
    start is one more than the index of the first old line it consumes, also when
    it consumes none; that is the interpreter's convention for a "-N,0" range. */
module EditScript {
  import opened Results
  import opened Text
  import opened UnifiedDiff

  /** A hunk: the index of the first old line it consumes, and its body lines. */
  datatype Hunk = Hunk(at: nat, body: seq<Line>)

  datatype Script = Done | Then(hunk: Hunk, rest: Script)

  // ------------------------------------------------------------- meaning

  /** `olds` stands in the old lines at `at`. */
  predicate Stands(src: seq<string>, at: nat, olds: seq<string>) {
    at + |olds| <= |src| && forall i :: 0 <= i < |olds| ==> src[at + i] == olds[i]
  }

  /** The first old line after a hunk. */
  function End(h: Hunk): nat { h.at + |OldSide(h.body)| }

  /** Ordered, non-overlapping hunks, each matching the old lines it stands on. */
  predicate Fits(src: seq<string>, from: nat, script: Script)
    decreases script
  {
    match script
    case Done => from <= |src|
    case Then(h, rest) => from <= h.at && Stands(src, h.at, OldSide(h.body)) && Fits(src, End(h), rest)
  }

  predicate Ordered(from: nat, script: Script)
    decreases script
  {
    match script
    case Done => true
    case Then(h, rest) => from <= h.at && Ordered(End(h), rest)
  }

  /** The new lines from an old position on. */
  function NewLines(src: seq<string>, from: nat, script: Script): seq<string>
    requires Fits(src, from, script)
    decreases script
  {
    match script
    case Done => src[from..]
    case Then(h, rest) => src[from..h.at] + NewSide(h.body) + NewLines(src, End(h), rest)
  }

  /** Body lines are spelled out and hold no line feed. */
  predicate PrintableBody(body: seq<Line>) {
    body == [] || (!body[0].Copied? && OneLine(body[0].text) && PrintableBody(body[1..]))
  }

  predicate Printable(script: Script) { script.Done? || (PrintableBody(script.hunk.body) && Printable(script.rest)) }

  predicate CleanBody(body: seq<Line>) { body == [] || (!EndsCr(body[0].text) && CleanBody(body[1..])) }

  /** No body line ends in a carriage return. */
  predicate Clean(script: Script) { script.Done? || (CleanBody(script.hunk.body) && Clean(script.rest)) }

  predicate NoBody(script: Script) { script.Done? || (script.hunk.body == [] && NoBody(script.rest)) }

  // ------------------------------------------------------------ printing

  /** A terse printer leaves out the count of a single line, as diff -u does. */
  function CountText(count: nat, terse: bool): string { if terse && count == 1 then "" else "," + Dec(count) }

  function Range(sign: string, at: nat, count: nat, terse: bool): string {
    sign + (Dec(at + 1) + CountText(count, terse))
  }

  function Header(at: nat, newAt: nat, body: seq<Line>, terse: bool): string {
    var olds, news := Range("-", at, |OldSide(body)|, terse), Range("+", newAt, |NewSide(body)|, terse);
    "@@" + (" " + (olds + (" " + (news + " @@"))))
  }

  function PrintLine(l: Line): string {
    (match l case Inserted(_) => "+" case Removed(_) => "-" case _ => " ") + l.text
  }

  function PrintBody(body: seq<Line>): seq<string> {
    if body == [] then [] else [PrintLine(body[0])] + PrintBody(body[1..])
  }

  function PrintHunk(h: Hunk, newAt: nat, terse: bool): seq<string> {
    [Header(h.at, newAt, h.body, terse)] + PrintBody(h.body)
  }

  /** Where a hunk starts in the new file when `made` new lines stand in front of old position `from`. */
  function NewAt(h: Hunk, from: nat, made: nat): nat
    requires from <= h.at
  {
    made + (h.at - from)
  }

  function NewEnd(h: Hunk, from: nat, made: nat): nat
    requires from <= h.at
  {
    NewAt(h, from, made) + |NewSide(h.body)|
  }

  /** The lines of the printed script. */
  function PrintLines(script: Script, from: nat, made: nat, terse: bool): seq<string>
    requires Ordered(from, script)
    decreases script
  {
    match script
    case Done => []
    case Then(h, rest) =>
      PrintHunk(h, NewAt(h, from, made), terse) + PrintLines(rest, End(h), NewEnd(h, from, made), terse)
  }

  function Print(script: Script, terse: bool): string
    requires Ordered(0, script)
  {
    Unlines(PrintLines(script, 0, 0, terse))
  }

  lemma {:induction false} FitsIsOrdered(src: seq<string>, from: nat, script: Script)
    requires Fits(src, from, script)
    ensures Ordered(from, script)
    decreases script
  {
    if script.Then? {
      FitsIsOrdered(src, End(script.hunk), script.rest);
    }
  }

  // ----------------------------------------------------- reading a header

  predicate NumberText(s: string) { forall c :: c in s ==> IsDigit(c) || c in {'-', '+', ',', '@', ' '} }

  lemma RangeIsWord(sign: string, at: nat, count: nat, terse: bool)
    requires sign == "-" || sign == "+"
    ensures IsWord(Range(sign, at, count, terse)) && NumberText(Range(sign, at, count, terse))
  {
  }

  lemma FieldAfterSpace(word: string, rest: string)
    requires IsWord(word) && (rest == "" || IsSpace(rest[0]))
    ensures Fields(" " + (word + rest)) == [word] + Fields(rest)
  {
    assert (" " + (word + rest))[1..] == word + rest;
    FieldsFirst(word, rest);
  }

  lemma HeaderFields(olds: string, news: string)
    requires IsWord(olds) && IsWord(news)
    ensures Fields("@@" + (" " + (olds + (" " + (news + " @@"))))) == ["@@", olds, news, "@@"]
  {
    FieldsFirst("@@", " " + (olds + (" " + (news + " @@"))));
    FieldAfterSpace(olds, " " + (news + " @@"));
    FieldAfterSpace(news, " @@");
    assert " @@" == " " + ("@@" + "");
    FieldAfterSpace("@@", "");
  }

  lemma HeaderRead(at: nat, newAt: nat, body: seq<Line>, terse: bool)
    requires at < MAX_INT
    ensures Parse(Header(at, newAt, body, terse)) == Open(at + 1)
  {
    var olds, count := Range("-", at, |OldSide(body)|, terse), CountText(|OldSide(body)|, terse);
    RangeIsWord("-", at, |OldSide(body)|, terse);
    RangeIsWord("+", newAt, |NewSide(body)|, terse);
    HeaderFields(olds, Range("+", newAt, |NewSide(body)|, terse));
    assert olds == "-" + Dec(at + 1) + count;
    StartOfNumber(Header(at, newAt, body, terse), at + 1, count);
  }

  lemma HeaderIsPlain(at: nat, newAt: nat, body: seq<Line>, terse: bool)
    ensures var h := Header(at, newAt, body, terse);
            OneLine(h) && !EndsCr(h) && ChompCr(h) == h && !HasPrefix(h, "---")
  {
    var h := Header(at, newAt, body, terse);
    RangeIsWord("-", at, |OldSide(body)|, terse);
    RangeIsWord("+", newAt, |NewSide(body)|, terse);
    assert NumberText(h) && h[0] == '@' && h[|h| - 1] == '@';
  }

  // --------------------------------- what the interpreter reads of a script

  /** A body line as read back: CRLF normalisation strips a trailing carriage return. */
  function Chomp(l: Line): Line { l.(text := ChompCr(l.text)) }

  function BodyInstructions(body: seq<Line>): seq<Instruction>
    requires PrintableBody(body)
  {
    if body == [] then [] else [Body(Chomp(body[0]))] + BodyInstructions(body[1..])
  }

  function Instructions(script: Script): seq<Instruction>
    requires Printable(script)
  {
    match script
    case Done => []
    case Then(h, rest) => HunkInstructions(h) + Instructions(rest)
  }

  function HunkInstructions(h: Hunk): seq<Instruction>
    requires PrintableBody(h.body)
  {
    [Open(h.at + 1)] + BodyInstructions(h.body)
  }

  lemma ChompPrinted(l: Line)
    ensures ChompCr(PrintLine(l)) == PrintLine(Chomp(l))
  {
    var p := PrintLine(l);
    if l.text != "" {
      assert p[|p| - 1] == l.text[|l.text| - 1];
      assert p[..|p| - 1] == [p[0]] + l.text[..|l.text| - 1];
    }
  }

  lemma PrintedParse(l: Line)
    requires !l.Copied?
    ensures Parse(PrintLine(l)) == Body(l)
  {
    var p := PrintLine(l);
    assert p[1..] == l.text && p[0] in {' ', '-', '+'};
    assert p[0] != '@' && "@@"[0] == '@';
    assert NO_NEWLINE[0] == '\\';
  }

  lemma LineRead(l: Line)
    requires !l.Copied? && OneLine(l.text)
    ensures OneLine(PrintLine(l)) && Parse(ChompCr(PrintLine(l))) == Body(Chomp(l))
  {
    ChompPrinted(l);
    PrintedParse(Chomp(l));
  }

  lemma {:induction false} BodyRead(body: seq<Line>)
    requires PrintableBody(body)
    ensures AllOneLine(PrintBody(body))
    ensures ParseAll(ChompAll(PrintBody(body))) == BodyInstructions(body)
  {
    if body != [] {
      var first, rest := [PrintLine(body[0])], PrintBody(body[1..]);
      LineRead(body[0]);
      BodyRead(body[1..]);
      ReadJoin(first, rest, [Body(Chomp(body[0]))], BodyInstructions(body[1..]));
    }
  }

  lemma ReadConcat(a: seq<string>, b: seq<string>)
    ensures ParseAll(ChompAll(a + b)) == ParseAll(ChompAll(a)) + ParseAll(ChompAll(b))
  {
  }

  lemma HunkRead(h: Hunk, newAt: nat, terse: bool)
    requires PrintableBody(h.body) && h.at < MAX_INT
    ensures AllOneLine(PrintHunk(h, newAt, terse))
    ensures ParseAll(ChompAll(PrintHunk(h, newAt, terse))) == HunkInstructions(h)
  {
    var head := [Header(h.at, newAt, h.body, terse)];
    HeaderRead(h.at, newAt, h.body, terse);
    HeaderIsPlain(h.at, newAt, h.body, terse);
    BodyRead(h.body);
    ReadConcat(head, PrintBody(h.body));
    assert ParseAll(ChompAll(head)) == [Open(h.at + 1)];
  }

  lemma ReadJoin(a: seq<string>, b: seq<string>, ia: seq<Instruction>, ib: seq<Instruction>)
    requires AllOneLine(a) && ParseAll(ChompAll(a)) == ia
    requires AllOneLine(b) && ParseAll(ChompAll(b)) == ib
    ensures AllOneLine(a + b) && ParseAll(ChompAll(a + b)) == ia + ib
  {
    ReadConcat(a, b);
  }

  predicate InRange(script: Script) { script.Done? || (script.hunk.at < MAX_INT && InRange(script.rest)) }

  lemma {:induction false} ScriptRead(script: Script, from: nat, made: nat, terse: bool)
    requires Ordered(from, script) && Printable(script) && InRange(script)
    ensures AllOneLine(PrintLines(script, from, made, terse))
    ensures ParseAll(ChompAll(PrintLines(script, from, made, terse))) == Instructions(script)
    decreases script
  {
    match script
    case Done =>
    case Then(h, rest) =>
      HunkRead(h, NewAt(h, from, made), terse);
      ScriptRead(rest, End(h), NewEnd(h, from, made), terse);
      ReadJoin(PrintHunk(h, NewAt(h, from, made), terse), PrintLines(rest, End(h), NewEnd(h, from, made), terse),
               HunkInstructions(h), Instructions(rest));
  }

  lemma ChompedIsOneLine(lines: seq<string>)
    requires AllOneLine(lines)
    ensures AllOneLine(ChompAll(lines))
  {
    forall l | l in ChompAll(lines) ensures OneLine(l) {
      var i :| 0 <= i < |lines| && ChompCr(lines[i]) == l;
      assert lines[i] in lines;
    }
  }

  lemma DiffLinesOfUnlines(lines: seq<string>)
    requires AllOneLine(lines) && (lines == [] || !HasPrefix(ChompCr(lines[0]), "---"))
    ensures DiffLines(Unlines(lines)) == Ok(ChompAll(lines) + [""])
  {
    DropCrOfUnlines(lines);
    ChompedIsOneLine(lines);
    SplitOfUnlines(ChompAll(lines));
  }

  lemma ParseConcat(a: seq<string>, b: seq<string>)
    ensures ParseAll(a + b) == ParseAll(a) + ParseAll(b)
  {
  }

  /** Reading a printed script back gives its instructions, and a final empty line. */
  lemma PrintedDiffLines(script: Script, terse: bool)
    requires Ordered(0, script) && Printable(script) && InRange(script)
    ensures DiffLines(Print(script, terse)).Ok?
    ensures ParseAll(DiffLines(Print(script, terse)).value) == Instructions(script) + [Noise]
  {
    var lines := PrintLines(script, 0, 0, terse);
    ScriptRead(script, 0, 0, terse);
    if script.Then? {
      HeaderIsPlain(script.hunk.at, script.hunk.at, script.hunk.body, terse);
    }
    DiffLinesOfUnlines(lines);
    ParseConcat(ChompAll(lines), [""]);
    assert ParseAll([""]) == [Noise];
  }

  // ------------------------------- what the interpreter makes of a script

  /** The body with only its inserted lines chomped: what is left to compare with the file. */
  function ChompInsert(l: Line): Line { if l.Inserted? then Chomp(l) else l }

  function ChompInserted(body: seq<Line>): seq<Line> {
    if body == [] then [] else [ChompInsert(body[0])] + ChompInserted(body[1..])
  }

  lemma {:induction false} ChompKeepsOldSide(body: seq<Line>)
    ensures OldSide(ChompInserted(body)) == OldSide(body)
    ensures |NewSide(ChompInserted(body))| == |NewSide(body)|
  {
    if body != [] {
      ChompKeepsOldSide(body[1..]);
      assert ChompInserted(body)[1..] == ChompInserted(body[1..]);
    }
  }

  function ChompHunk(h: Hunk): Hunk { h.(body := ChompInserted(h.body)) }

  function ChompScript(script: Script): Script {
    match script
    case Done => Done
    case Then(h, rest) => Then(ChompHunk(h), ChompScript(rest))
  }

  lemma {:induction false} ChompFits(src: seq<string>, from: nat, script: Script)
    requires Fits(src, from, script)
    ensures Fits(src, from, ChompScript(script))
    decreases script
  {
    if script.Then? {
      ChompKeepsOldSide(script.hunk.body);
      ChompFits(src, End(script.hunk), script.rest);
    }
  }

  predicate LineSurvives(l: Line) { l.Inserted? || !EndsCr(l.text) }

  predicate BodySurvives(body: seq<Line>) { body == [] || (LineSurvives(body[0]) && BodySurvives(body[1..])) }

  /** No line that must match the file ends in a carriage return. */
  predicate Survives(script: Script) { script.Done? || (BodySurvives(script.hunk.body) && Survives(script.rest)) }

  lemma {:induction false} FeedConcat(src: seq<string>, c: Cursor, a: seq<Instruction>, b: seq<Instruction>)
    requires c.oi <= |src|
    ensures FeedAll(src, c, a + b)
         == if FeedAll(src, c, a).Err? then FeedAll(src, c, a) else FeedAll(src, FeedAll(src, c, a).value, b)
    decreases |a|
  {
    if a == [] {
      assert a + b == b;
    } else {
      assert (a + b)[1..] == a[1..] + b;
      if Feed(src, c, a[0]).Ok? {
        FeedConcat(src, Feed(src, c, a[0]).value, a[1..], b);
      }
    }
  }

  lemma FeedCons(src: seq<string>, c: Cursor, ins: Instruction, rest: seq<Instruction>)
    requires c.oi <= |src|
    ensures FeedAll(src, c, [ins] + rest)
         == if Feed(src, c, ins).Err? then Feed(src, c, ins) else FeedAll(src, Feed(src, c, ins).value, rest)
  {
    assert ([ins] + rest)[1..] == rest;
  }

  lemma FeedNoise(src: seq<string>, c: Cursor, instrs: seq<Instruction>)
    requires c.oi <= |src|
    ensures FeedAll(src, c, instrs + [Noise]) == FeedAll(src, c, instrs)
  {
    FeedConcat(src, c, instrs, [Noise]);
    var r := FeedAll(src, c, instrs);
    if r.Ok? {
      assert FeedAll(src, r.value, [Noise]) == FeedAll(src, r.value, [Noise][1..]) == r;
    }
  }

  lemma StandsCons(src: seq<string>, at: nat, first: string, rest: seq<string>)
    requires Stands(src, at, [first] + rest)
    ensures at < |src| && src[at] == first && Stands(src, at + 1, rest)
  {
    assert ([first] + rest)[0] == first;
    forall i | 0 <= i < |rest| ensures src[at + 1 + i] == rest[i] {
      assert ([first] + rest)[i + 1] == rest[i];
    }
  }

  function AfterLine(c: Cursor, l: Line): Cursor {
    Cursor(c.oi + if l.Inserted? then 0 else 1, if l.Removed? then c.out else c.out + [ChompCr(l.text)], c.inHunk)
  }

  lemma FeedSpelt(src: seq<string>, c: Cursor, l: Line, rest: seq<Line>)
    requires c.inHunk && !l.Copied? && Stands(src, c.oi, OldSide([l] + rest))
    ensures !LineSurvives(l) ==> Feed(src, c, Body(Chomp(l))).Err?
    ensures LineSurvives(l) ==> Feed(src, c, Body(Chomp(l))) == Ok(AfterLine(c, l))
    ensures LineSurvives(l) ==> Stands(src, AfterLine(c, l).oi, OldSide(rest))
  {
    SidesOfCons(l, rest);
    if !l.Inserted? {
      StandsCons(src, c.oi, l.text, OldSide(rest));
    }
    assert EndsCr(l.text) <==> ChompCr(l.text) != l.text;
  }

  /** What is left after the line completes the sides of the whole body. */
  lemma SurvivingLineSides(c: Cursor, l: Line, rest: seq<Line>)
    requires LineSurvives(l)
    ensures AfterLine(c, l).oi + |OldSide(rest)| == c.oi + |OldSide([l] + rest)|
    ensures AfterLine(c, l).out + NewSide(ChompInserted(rest)) == c.out + NewSide(ChompInserted([l] + rest))
  {
    SidesOfCons(l, rest);
    SidesOfCons(ChompInsert(l), ChompInserted(rest));
    Associates(c.out, [ChompCr(l.text)], NewSide(ChompInserted(rest)));
  }

  lemma {:induction false} FeedBody(src: seq<string>, c: Cursor, body: seq<Line>)
    requires c.inHunk && PrintableBody(body) && Stands(src, c.oi, OldSide(body))
    ensures BodySurvives(body) ==>
              FeedAll(src, c, BodyInstructions(body))
              == Ok(Cursor(c.oi + |OldSide(body)|, c.out + NewSide(ChompInserted(body)), true))
    ensures !BodySurvives(body) ==> FeedAll(src, c, BodyInstructions(body)).Err?
    decreases |body|
  {
    if body == [] {
      assert c.out + [] == c.out;
    } else {
      var l, rest := body[0], body[1..];
      assert body == [l] + rest;
      FeedSpelt(src, c, l, rest);
      FeedCons(src, c, Body(Chomp(l)), BodyInstructions(rest));
      if LineSurvives(l) {
        FeedBody(src, AfterLine(c, l), rest);
        SurvivingLineSides(c, l, rest);
      }
    }
  }

  lemma OpenAt(src: seq<string>, c: Cursor, at: nat) returns (c1: Cursor)
    requires c.oi <= at <= |src| < MAX_INT
    ensures c1 == Cursor(at, c.out + src[c.oi..at], true)
    ensures Feed(src, c, Open(at + 1)) == Ok(c1)
  {
    c1 := Cursor(at, c.out + src[c.oi..at], true);
  }

  lemma FeedOpened(src: seq<string>, c: Cursor, c1: Cursor, h: Hunk)
    requires c.oi <= |src| && PrintableBody(h.body) && Feed(src, c, Open(h.at + 1)) == Ok(c1)
    ensures FeedAll(src, c, HunkInstructions(h)) == FeedAll(src, c1, BodyInstructions(h.body))
  {
    FeedCons(src, c, Open(h.at + 1), BodyInstructions(h.body));
  }

  lemma FeedOpenedBody(src: seq<string>, c: Cursor, c1: Cursor, h: Hunk)
    requires |src| < MAX_INT && c.oi <= h.at && PrintableBody(h.body) && Stands(src, h.at, OldSide(h.body))
    requires c1 == Cursor(h.at, c.out + src[c.oi..h.at], true)
    requires FeedAll(src, c, HunkInstructions(h)) == FeedAll(src, c1, BodyInstructions(h.body))
    ensures BodySurvives(h.body) ==>
              FeedAll(src, c, HunkInstructions(h))
              == Ok(Cursor(End(h), c.out + src[c.oi..h.at] + NewSide(ChompInserted(h.body)), true))
    ensures !BodySurvives(h.body) ==> FeedAll(src, c, HunkInstructions(h)).Err?
  {
    FeedBody(src, c1, h.body);
  }

  lemma FeedHunk(src: seq<string>, c: Cursor, h: Hunk)
    requires |src| < MAX_INT && c.oi <= h.at && PrintableBody(h.body) && Stands(src, h.at, OldSide(h.body))
    ensures BodySurvives(h.body) ==>
              FeedAll(src, c, HunkInstructions(h))
              == Ok(Cursor(End(h), c.out + src[c.oi..h.at] + NewSide(ChompInserted(h.body)), true))
    ensures !BodySurvives(h.body) ==> FeedAll(src, c, HunkInstructions(h)).Err?
  {
    var c1 := OpenAt(src, c, h.at);
    FeedOpened(src, c, c1, h);
    FeedOpenedBody(src, c, c1, h);
  }

  lemma {:induction false} FeedScript(src: seq<string>, c: Cursor, script: Script)
    requires |src| < MAX_INT && Fits(src, c.oi, script) && Printable(script)
    requires Fits(src, c.oi, ChompScript(script))
    ensures Survives(script) ==>
              Finish(src, FeedAll(src, c, Instructions(script))) == Ok(c.out + NewLines(src, c.oi, ChompScript(script)))
    ensures !Survives(script) ==> FeedAll(src, c, Instructions(script)).Err?
    decreases script
  {
    match script
    case Done =>
    case Then(h, rest) =>
      ChompKeepsOldSide(h.body);
      FeedHunk(src, c, h);
      FeedConcat(src, c, HunkInstructions(h), Instructions(rest));
      if BodySurvives(h.body) {
        var c2 := FeedAll(src, c, HunkInstructions(h)).value;
        FeedScript(src, c2, rest);
        AssociateFour(c.out, src[c.oi..h.at], NewSide(ChompInserted(h.body)), NewLines(src, c2.oi, ChompScript(rest)));
      }
  }

  lemma AssociateFour(a: seq<string>, b: seq<string>, c: seq<string>, d: seq<string>)
    ensures a + (b + c + d) == a + b + c + d
  {
  }
}
