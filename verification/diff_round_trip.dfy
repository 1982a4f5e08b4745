/** Round trips of the diff interpreter: printing a script and applying it gives the
    script's new lines, and the printed reversed script takes them back. */
module DiffRoundTrip {
  import opened Results
  import opened Text
  import opened UnifiedDiff
  import opened EditScript

  // ------------------------------------------------------- text sizes

  function Size(lines: seq<string>): nat {
    if lines == [] then 0 else |lines[0]| + 1 + Size(lines[1..])
  }

  lemma {:induction false} SizeOfConcat(a: seq<string>, b: seq<string>)
    ensures Size(a + b) == Size(a) + Size(b)
  {
    if a == [] {
      assert a + b == b;
    } else {
      assert (a + b)[1..] == a[1..] + b;
      SizeOfConcat(a[1..], b);
    }
  }

  lemma {:induction false} EncodeSize(lines: seq<string>)
    ensures |Encode(lines)| == if lines == [] then 1 else Size(lines)
  {
    if |lines| == 1 {
      assert lines[1..] == [];
    } else if lines != [] {
      EncodeSize(lines[1..]);
    }
  }

  // ---------------------------------------------- trailing carriage returns

  lemma {:induction false} CleanBodyIsKept(body: seq<Line>)
    ensures CleanBody(body) ==> BodySurvives(body) && ChompInserted(body) == body
    ensures Size(NewSide(ChompInserted(body))) <= Size(NewSide(body))
    ensures BodySurvives(body) && !CleanBody(body) ==> Size(NewSide(ChompInserted(body))) < Size(NewSide(body))
  {
    if body != [] {
      var l, rest := body[0], body[1..];
      assert body == [l] + rest;
      CleanBodyIsKept(rest);
      SidesOfCons(l, rest);
      SidesOfCons(ChompInsert(l), ChompInserted(rest));
    }
  }

  lemma {:induction false} CleanIsKept(script: Script)
    requires Clean(script)
    ensures Survives(script) && ChompScript(script) == script
  {
    if script.Then? {
      CleanBodyIsKept(script.hunk.body);
      CleanIsKept(script.rest);
    }
  }

  lemma SizeOfThree(a: seq<string>, b: seq<string>, c: seq<string>)
    ensures Size(a + b + c) == Size(a) + Size(b) + Size(c)
  {
    SizeOfConcat(a + b, c);
    SizeOfConcat(a, b);
  }

  lemma {:induction false} ChompShrinks(src: seq<string>, from: nat, script: Script)
    requires Fits(src, from, script) && Fits(src, from, ChompScript(script))
    ensures Size(NewLines(src, from, ChompScript(script))) <= Size(NewLines(src, from, script))
    ensures Survives(script) && !Clean(script) ==>
              Size(NewLines(src, from, ChompScript(script))) < Size(NewLines(src, from, script))
    ensures |NewLines(src, from, ChompScript(script))| == |NewLines(src, from, script)|
    decreases script
  {
    match script
    case Done =>
    case Then(h, rest) =>
      CleanBodyIsKept(h.body);
      ChompKeepsOldSide(h.body);
      ChompShrinks(src, End(h), rest);
      SizeOfThree(src[from..h.at], NewSide(h.body), NewLines(src, End(h), rest));
      SizeOfThree(src[from..h.at], NewSide(ChompInserted(h.body)), NewLines(src, End(h), ChompScript(rest)));
  }

  lemma {:induction false} FitsInRange(src: seq<string>, from: nat, script: Script)
    requires Fits(src, from, script) && |src| < MAX_INT
    ensures InRange(script)
    decreases script
  {
    if script.Then? {
      FitsInRange(src, End(script.hunk), script.rest);
    }
  }

  function EncodeResult(r: Result<seq<string>, DiffError>): Result<string, DiffError> {
    if r.Err? then Err(r.error) else Ok(Encode(r.value))
  }

  lemma ApplyPrinted(text: string, script: Script, terse: bool)
    requires Ordered(0, script) && Printable(script) && InRange(script)
    ensures Apply(text, Print(script, terse))
         == EncodeResult(Finish(Decode(text), FeedAll(Decode(text), START, Instructions(script))))
  {
    PrintedDiffLines(script, terse);
    FeedNoise(Decode(text), START, Instructions(script));
  }

  /** What applying any printed script that fits amounts to. */
  lemma ApplyFitting(text: string, script: Script, terse: bool)
    requires |Decode(text)| < MAX_INT && Fits(Decode(text), 0, script) && Printable(script)
    ensures Ordered(0, script) && Fits(Decode(text), 0, ChompScript(script))
    ensures !Survives(script) ==> Apply(text, Print(script, terse)).Err?
    ensures Survives(script) ==>
              Apply(text, Print(script, terse)) == Ok(Encode(NewLines(Decode(text), 0, ChompScript(script))))
  {
    var src := Decode(text);
    FitsIsOrdered(src, 0, script);
    FitsInRange(src, 0, script);
    ChompFits(src, 0, script);
    ApplyPrinted(text, script, terse);
    FeedScript(src, START, script);
    var chomped := NewLines(src, 0, ChompScript(script));
    assert [] + chomped == chomped;
  }

  /** Printing a script that fits a file and applying it gives the script's new lines,
      exactly when no body line ends in a carriage return: the diff's CRLF
      normalisation would strip it and the file's lines keep theirs. */
  lemma PrintedScriptApplies(text: string, script: Script, terse: bool)
    requires |Decode(text)| < MAX_INT && Fits(Decode(text), 0, script) && Printable(script)
    ensures Ordered(0, script)
    ensures Apply(text, Print(script, terse)) == Ok(Encode(NewLines(Decode(text), 0, script))) <==> Clean(script)
  {
    var src := Decode(text);
    ApplyFitting(text, script, terse);
    if Clean(script) {
      CleanIsKept(script);
    } else {
      ChompShrinks(src, 0, script);
      EncodeSize(NewLines(src, 0, ChompScript(script)));
      EncodeSize(NewLines(src, 0, script));
    }
  }

  // ------------------------------------------ the file of one empty line

  lemma {:induction false} FeedBodyOnNothing(c: Cursor, body: seq<Line>)
    requires c.oi == 0 && c.inHunk && PrintableBody(body) && CleanBody(body)
    ensures FeedAll([], c, BodyInstructions(body)).Ok? <==> OldSide(body) == []
    ensures OldSide(body) == [] ==>
              FeedAll([], c, BodyInstructions(body)) == Ok(Cursor(0, c.out + NewSide(body), true))
    decreases |body|
  {
    if body == [] {
      assert c.out + [] == c.out;
    } else {
      var l, rest := body[0], body[1..];
      assert body == [l] + rest;
      SidesOfCons(l, rest);
      FeedCons([], c, Body(Chomp(l)), BodyInstructions(rest));
      if l.Inserted? {
        FeedBodyOnNothing(AfterLine(c, l), rest);
        Associates(c.out, [l.text], NewSide(rest));
      }
    }
  }

  lemma FeedHunkOnNothing(c: Cursor, h: Hunk)
    requires c.oi == 0 && PrintableBody(h.body) && CleanBody(h.body)
    ensures FeedAll([], c, HunkInstructions(h)).Ok? <==> OldSide(h.body) == []
    ensures OldSide(h.body) == [] ==>
              FeedAll([], c, HunkInstructions(h)) == Ok(Cursor(0, c.out + NewSide(h.body), true))
  {
    var c1 := Cursor(0, c.out, true);
    assert c.out + [] == c.out;
    assert Feed([], c, Open(h.at + 1)) == Ok(c1);
    FeedOpened([], c, c1, h);
    FeedBodyOnNothing(c1, h.body);
  }

  /** The script only inserts. */
  predicate OnlyInserts(script: Script) {
    script.Done? || (OldSide(script.hunk.body) == [] && OnlyInserts(script.rest))
  }

  function AllInserts(script: Script): seq<string> {
    if script.Done? then [] else NewSide(script.hunk.body) + AllInserts(script.rest)
  }

  lemma {:induction false} FeedScriptOnNothing(c: Cursor, script: Script)
    requires c.oi == 0 && Printable(script) && Clean(script)
    ensures FeedAll([], c, Instructions(script)).Ok? <==> OnlyInserts(script)
    ensures OnlyInserts(script) ==> Finish([], FeedAll([], c, Instructions(script))) == Ok(c.out + AllInserts(script))
    decreases script
  {
    match script
    case Done =>
      assert c.out + [] == c.out;
    case Then(h, rest) =>
      FeedHunkOnNothing(c, h);
      FeedConcat([], c, HunkInstructions(h), Instructions(rest));
      if OldSide(h.body) == [] {
        FeedScriptOnNothing(Cursor(0, c.out + NewSide(h.body), true), rest);
        Associates(c.out, NewSide(h.body), AllInserts(rest));
      }
  }

  lemma {:induction false} OnlyInsertsSize(body: seq<Line>)
    requires OldSide(body) == []
    ensures |NewSide(body)| == |body|
  {
    if body != [] {
      SidesOfCons(body[0], body[1..]);
      assert body == [body[0]] + body[1..];
      OnlyInsertsSize(body[1..]);
    }
  }

  lemma {:induction false} InsertsBesideOneEmptyLine(from: nat, script: Script)
    requires from <= 1 && Fits([""], from, script) && OnlyInserts(script)
    ensures Size(NewLines([""], from, script)) == Size(AllInserts(script)) + 1 - from
    ensures AllInserts(script) == [] <==> NoBody(script)
    decreases script
  {
    match script
    case Done =>
      assert [""][1..] == [] && [""][0..] == [""];
    case Then(h, rest) =>
      InsertsBesideOneEmptyLine(h.at, rest);
      OnlyInsertsSize(h.body);
      SizeOfConcat(NewSide(h.body), AllInserts(rest));
      SizeOfThree([""][from..h.at], NewSide(h.body), NewLines([""], h.at, rest));
      assert Size([""][from..h.at]) == h.at - from by {
        assert [""][0..1] == [""] && [""][from..from] == [];
      }
  }

  lemma {:induction false} NoBodyChangesNothing(src: seq<string>, from: nat, script: Script)
    requires Fits(src, from, script) && NoBody(script)
    ensures NewLines(src, from, script) == src[from..]
    decreases script
  {
    if script.Then? {
      var at := script.hunk.at;
      NoBodyChangesNothing(src, at, script.rest);
      assert src[from..at] + [] + src[at..] == src[from..];
    }
  }

  /** The round trip on encoded line lists. The one list that fails is [""], whose
      text reads back as no lines at all: any body line is then lost or refused. */
  lemma EncodedLinesRoundTrip(lines: seq<string>, script: Script, terse: bool)
    requires AllOneLine(lines) && |lines| < MAX_INT
    requires Fits(lines, 0, script) && Printable(script) && Clean(script)
    ensures Ordered(0, script)
    ensures Apply(Encode(lines), Print(script, terse)) == Ok(Encode(NewLines(lines, 0, script)))
            <==> lines != [""] || NoBody(script)
  {
    DecodeOfEncode(lines);
    FitsIsOrdered(lines, 0, script);
    if lines != [""] {
      PrintedScriptApplies(Encode(lines), script, terse);
    } else {
      FitsInRange(lines, 0, script);
      ApplyPrinted(Encode(lines), script, terse);
      FeedScriptOnNothing(START, script);
      if OnlyInserts(script) {
        var news, inserts := NewLines([""], 0, script), AllInserts(script);
        InsertsBesideOneEmptyLine(0, script);
        assert [] + inserts == inserts;
        EncodeSize(inserts);
        EncodeSize(news);
        if NoBody(script) {
          NoBodyChangesNothing([""], 0, script);
          assert [""][0..] == [""];
        }
      } else {
        NoBodyOnlyInserts(script);
      }
    }
  }

  lemma {:induction false} NoBodyOnlyInserts(script: Script)
    ensures NoBody(script) ==> OnlyInserts(script)
  {
    if script.Then? {
      NoBodyOnlyInserts(script.rest);
    }
  }

  // ------------------------------------------------------------- inverse

  function FlipLine(l: Line): Line {
    match l
    case Inserted(t) => Removed(t)
    case Removed(t) => Inserted(t)
    case _ => l
  }

  function Flip(body: seq<Line>): seq<Line> {
    if body == [] then [] else [FlipLine(body[0])] + Flip(body[1..])
  }

  lemma {:induction false} FlipSides(body: seq<Line>)
    ensures OldSide(Flip(body)) == NewSide(body) && NewSide(Flip(body)) == OldSide(body)
  {
    if body != [] {
      FlipSides(body[1..]);
      SidesOfCons(body[0], body[1..]);
      SidesOfCons(FlipLine(body[0]), Flip(body[1..]));
      assert body == [body[0]] + body[1..];
    }
  }

  /** Additions and removals swapped, starts recomputed in the new file. */
  function Reverse(script: Script, from: nat, made: nat): Script
    requires Ordered(from, script)
    decreases script
  {
    match script
    case Done => Done
    case Then(h, rest) =>
      Then(Hunk(NewAt(h, from, made), Flip(h.body)), Reverse(rest, End(h), NewEnd(h, from, made)))
  }

  lemma StandsInConcat(news: seq<string>, made: nat, gap: seq<string>, mid: seq<string>, tail: seq<string>)
    requires made <= |news| && news[made..] == gap + mid + tail
    ensures made + |gap| + |mid| <= |news|
    ensures Stands(news, made + |gap|, mid)
    ensures news[made..made + |gap|] == gap && news[made + |gap| + |mid|..] == tail
  {
    var all := gap + mid + tail;
    assert |news[made..]| == |all|;
    forall i | 0 <= i < |all| ensures news[made + i] == all[i] {
      assert news[made..][i] == all[i];
    }
    forall i | 0 <= i < |mid| ensures news[made + |gap| + i] == mid[i] {
      assert all[|gap| + i] == mid[i];
    }
  }

  lemma ThreeSlices(src: seq<string>, from: nat, at: nat, olds: seq<string>)
    requires from <= at && Stands(src, at, olds)
    ensures src[from..at] + olds + src[at + |olds|..] == src[from..]
  {
    assert src[at..at + |olds|] == olds;
  }

  lemma PutBack(src: seq<string>, from: nat, h: Hunk, news: seq<string>, made: nat, newAt: nat, back: Script)
    requires from <= h.at && Stands(src, h.at, OldSide(h.body))
    requires made <= newAt && Stands(news, newAt, NewSide(h.body)) && news[made..newAt] == src[from..h.at]
    requires Fits(news, newAt + |NewSide(h.body)|, back)
    requires NewLines(news, newAt + |NewSide(h.body)|, back) == src[End(h)..]
    ensures Fits(news, made, Then(Hunk(newAt, Flip(h.body)), back))
    ensures NewLines(news, made, Then(Hunk(newAt, Flip(h.body)), back)) == src[from..]
  {
    FlipSides(h.body);
    ThreeSlices(src, from, h.at, OldSide(h.body));
  }

  lemma NewsOf(src: seq<string>, from: nat, h: Hunk, rest: Script, news: seq<string>, made: nat)
    requires Fits(src, from, Then(h, rest)) && made <= |news| && news[made..] == NewLines(src, from, Then(h, rest))
    ensures var newAt, newEnd := NewAt(h, from, made), NewEnd(h, from, made);
            && newEnd <= |news| && Stands(news, newAt, NewSide(h.body)) && news[made..newAt] == src[from..h.at]
            && news[newEnd..] == NewLines(src, End(h), rest)
  {
    StandsInConcat(news, made, src[from..h.at], NewSide(h.body), NewLines(src, End(h), rest));
  }

  lemma {:induction false} ReverseFits(src: seq<string>, from: nat, script: Script, news: seq<string>, made: nat)
    requires Fits(src, from, script) && Ordered(from, script)
    requires made <= |news| && news[made..] == NewLines(src, from, script)
    ensures Fits(news, made, Reverse(script, from, made))
    ensures NewLines(news, made, Reverse(script, from, made)) == src[from..]
    decreases script
  {
    match script
    case Done =>
    case Then(h, rest) =>
      var newAt, newEnd := NewAt(h, from, made), NewEnd(h, from, made);
      NewsOf(src, from, h, rest, news, made);
      ReverseFits(src, End(h), rest, news, newEnd);
      PutBack(src, from, h, news, made, newAt, Reverse(rest, End(h), newEnd));
  }

  lemma {:induction false} FlipKeeps(body: seq<Line>)
    requires PrintableBody(body) && CleanBody(body)
    ensures PrintableBody(Flip(body)) && CleanBody(Flip(body)) && (Flip(body) == [] <==> body == [])
  {
    if body != [] {
      FlipKeeps(body[1..]);
      assert Flip(body)[1..] == Flip(body[1..]);
    }
  }

  lemma {:induction false} ReverseKeeps(script: Script, from: nat, made: nat)
    requires Ordered(from, script) && Printable(script) && Clean(script)
    ensures Printable(Reverse(script, from, made)) && Clean(Reverse(script, from, made))
    ensures NoBody(Reverse(script, from, made)) <==> NoBody(script)
    decreases script
  {
    match script
    case Done =>
    case Then(h, rest) =>
      FlipKeeps(h.body);
      ReverseKeeps(rest, End(h), NewEnd(h, from, made));
  }

  lemma {:induction false} NewSideIsOneLine(body: seq<Line>)
    requires PrintableBody(body)
    ensures AllOneLine(NewSide(body))
  {
    if body != [] {
      SidesOfCons(body[0], body[1..]);
      assert body == [body[0]] + body[1..];
      NewSideIsOneLine(body[1..]);
    }
  }

  lemma {:induction false} NewLinesAreOneLine(src: seq<string>, from: nat, script: Script)
    requires AllOneLine(src) && Fits(src, from, script) && Printable(script)
    ensures AllOneLine(NewLines(src, from, script))
    decreases script
  {
    match script
    case Done =>
    case Then(h, rest) =>
      NewSideIsOneLine(h.body);
      NewLinesAreOneLine(src, End(h), rest);
  }

  /** Applying a printed script and then its printed reverse returns the text, with a
      line feed appended when it had none, exactly when the text in between is not
      the single empty line. */
  lemma PrintedReverseUndoes(text: string, script: Script, terse: bool)
    requires Fits(Decode(text), 0, script) && Printable(script) && Clean(script)
    requires |Decode(text)| < MAX_INT && |NewLines(Decode(text), 0, script)| < MAX_INT
    ensures Ordered(0, script) && Ordered(0, Reverse(script, 0, 0))
    ensures var news := NewLines(Decode(text), 0, script);
            && Apply(text, Print(script, terse)) == Ok(Encode(news))
            && (news != [""] <==>
                Apply(Encode(news), Print(Reverse(script, 0, 0), terse))
                == Ok(if Terminated(text) then text else text + "\n"))
  {
    var src := Decode(text);
    var news := NewLines(src, 0, script);
    PrintedScriptApplies(text, script, terse);
    NewLinesAreOneLine(src, 0, script);
    assert news[0..] == news && src[0..] == src;
    ReverseFits(src, 0, script, news, 0);
    ReverseKeeps(script, 0, 0);
    EncodedLinesRoundTrip(news, Reverse(script, 0, 0), terse);
    EncodeOfDecode(text);
    if NoBody(script) {
      NoBodyChangesNothing(src, 0, script);
    }
  }

  /** The empty diff changes nothing but a missing final line feed. */
  lemma EmptyDiffTerminates(text: string)
    ensures Apply(text, "") == Ok(if Terminated(text) then text else text + "\n")
  {
    assert DropCr("") == "" && Split("", '\n') == [""];
    assert ParseAll([""]) == [Noise];
    assert FeedAll(Decode(text), START, [Noise]) == Ok(START);
    assert [] + Decode(text) == Decode(text) && Decode(text)[0..] == Decode(text);
    EncodeOfDecode(text);
  }
}
