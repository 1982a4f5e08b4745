/** How the diff interpreter takes a diff it was not printed for: what it ignores, and the
    line it refuses. */
module DiffReading {
  import opened Results
  import opened Text
  import opened UnifiedDiff
  import opened EditScript

  /** Neither a header nor a body line: blank, the no-newline mark, or another first letter. */
  predicate IsNoise(line: string) {
    line == "" || line == NO_NEWLINE || (!HasPrefix(line, "@@") && line[0] !in {' ', '-', '+'})
  }

  lemma NoiseFeeds(src: seq<string>, before: seq<Instruction>, after: seq<Instruction>)
    ensures FeedAll(src, START, before + [Noise] + after) == FeedAll(src, START, before + after)
  {
    FeedConcat(src, START, before + [Noise], after);
    FeedNoise(src, START, before);
    FeedConcat(src, START, before, after);
  }

  lemma ParsesAsNoise(line: string)
    requires IsNoise(line)
    ensures ParseAll([line]) == [Noise]
  {
    assert NO_NEWLINE[0] == '\\' && "@@"[0] == '@';
    assert Parse(line) == Noise;
  }

  lemma NoiseParses(before: seq<string>, line: string, after: seq<string>)
    requires ParseAll([line]) == [Noise]
    ensures ParseAll(before + [line] + after) == ParseAll(before) + [Noise] + ParseAll(after)
  {
    ParseConcat(before + [line], after);
    ParseConcat(before, [line]);
  }

  /** Wherever such a line stands, it changes nothing. */
  lemma NoiseIsIgnored(src: seq<string>, before: seq<string>, line: string, after: seq<string>)
    requires IsNoise(line)
    ensures PatchLines(src, before + [line] + after) == PatchLines(src, before + after)
  {
    ParsesAsNoise(line);
    NoiseParses(before, line, after);
    ParseConcat(before, after);
    NoiseFeeds(src, ParseAll(before), ParseAll(after));
  }

  lemma {:induction false} PreambleFeeds(src: seq<string>, c: Cursor, lines: seq<string>)
    requires c.oi <= |src| && !c.inHunk && forall l :: l in lines ==> !HasPrefix(l, "@@")
    ensures FeedAll(src, c, ParseAll(lines)) == Ok(c)
    decreases |lines|
  {
    if lines != [] {
      PreambleFeeds(src, c, lines[1..]);
      FeedCons(src, c, Parse(lines[0]), ParseAll(lines[1..]));
    }
  }

  /** Everything in front of the first hunk header is ignored. */
  lemma PreambleIsIgnored(src: seq<string>, preamble: seq<string>, lines: seq<string>)
    requires forall l :: l in preamble ==> !HasPrefix(l, "@@")
    ensures PatchLines(src, preamble + lines) == PatchLines(src, lines)
  {
    ParseConcat(preamble, lines);
    FeedConcat(src, START, ParseAll(preamble), ParseAll(lines));
    PreambleFeeds(src, START, preamble);
  }

  lemma SplitTwo(first: string, second: string, rest: string)
    requires OneLine(first) && OneLine(second)
    ensures Split(first + "\n" + (second + "\n" + rest), '\n') == [first, second] + Split(rest, '\n')
  {
    SplitFirst(first, second + "\n" + rest, '\n');
    SplitFirst(second, rest, '\n');
  }

  /** A pair of file headers in front of a diff that has none changes nothing. */
  lemma FileHeadersAreDropped(text: string, first: string, second: string, diff: string)
    requires OneLine(first) && OneLine(second) && HasPrefix(ChompCr(first), "---")
    requires !HasPrefix(Split(DropCr(diff), '\n')[0], "---")
    ensures Apply(text, first + "\n" + (second + "\n" + diff)) == Apply(text, diff)
  {
    DropCrFirst(first, second + "\n" + diff);
    DropCrFirst(second, diff);
    SplitTwo(ChompCr(first), ChompCr(second), DropCr(diff));
    assert ([ChompCr(first), ChompCr(second)] + Split(DropCr(diff), '\n'))[2..] == Split(DropCr(diff), '\n');
  }

  predicate StandsAt(src: seq<string>, at: nat, line: string) { at < |src| && src[at] == line }

  /** The lines before are accepted, and this one is refused: a header with fewer than three
      fields, or a body line that the old line at the cursor contradicts. */
  predicate Refuses(src: seq<string>, lines: seq<string>, i: nat, e: DiffError)
    requires i < |lines|
  {
    var r, line := FeedAll(src, START, ParseAll(lines[..i])), lines[i];
    r.Ok? &&
    match e
    case InvalidHunk => HasPrefix(line, "@@") && |Fields(line)| < 3
    case ContextMismatch => r.value.inHunk && HasPrefix(line, " ") && !StandsAt(src, r.value.oi, line[1..])
    case RemovalMismatch => r.value.inHunk && HasPrefix(line, "-") && !StandsAt(src, r.value.oi, line[1..])
    case OutOfRange => false
  }

  lemma RefusedLine(src: seq<string>, c: Cursor, line: string, e: DiffError)
    requires c.oi <= |src|
    ensures Feed(src, c, Parse(line)) == Err(e) <==>
            match e
            case InvalidHunk => HasPrefix(line, "@@") && |Fields(line)| < 3
            case ContextMismatch => c.inHunk && HasPrefix(line, " ") && !StandsAt(src, c.oi, line[1..])
            case RemovalMismatch => c.inHunk && HasPrefix(line, "-") && !StandsAt(src, c.oi, line[1..])
            case OutOfRange => false
  {
  }

  predicate SomeRefused(src: seq<string>, lines: seq<string>, e: DiffError) {
    exists i :: 0 <= i < |lines| && Refuses(src, lines, i, e)
  }

  lemma RefusesInFront(src: seq<string>, lines: seq<string>, n: nat, i: nat, e: DiffError)
    requires i < n <= |lines|
    ensures Refuses(src, lines[..n], i, e) <==> Refuses(src, lines, i, e)
  {
    assert lines[..n][..i] == lines[..i] && lines[..n][i] == lines[i];
  }

  lemma RefusedLast(src: seq<string>, lines: seq<string>, e: DiffError)
    requires lines != []
    ensures var n := |lines| - 1;
            SomeRefused(src, lines, e) <==> SomeRefused(src, lines[..n], e) || Refuses(src, lines, n, e)
  {
    var n := |lines| - 1;
    if SomeRefused(src, lines, e) {
      var i :| 0 <= i < |lines| && Refuses(src, lines, i, e);
      if i < n {
        RefusesInFront(src, lines, n, i, e);
      }
    }
    if SomeRefused(src, lines[..n], e) {
      var i :| 0 <= i < n && Refuses(src, lines[..n], i, e);
      RefusesInFront(src, lines, n, i, e);
    }
  }

  lemma LastFeeds(src: seq<string>, lines: seq<string>)
    requires lines != []
    ensures var n := |lines| - 1;
            var r := FeedAll(src, START, ParseAll(lines[..n]));
            FeedAll(src, START, ParseAll(lines)) == if r.Err? then r else Feed(src, r.value, Parse(lines[n]))
  {
    var n := |lines| - 1;
    assert lines == lines[..n] + [lines[n]] && ParseAll([lines[n]]) == [Parse(lines[n])];
    ParseConcat(lines[..n], [lines[n]]);
    FeedConcat(src, START, ParseAll(lines[..n]), [Parse(lines[n])]);
    var r := FeedAll(src, START, ParseAll(lines[..n]));
    if r.Ok? {
      FeedCons(src, r.value, Parse(lines[n]), []);
    }
  }

  /** The interpreter refuses a diff exactly for such a line, and says which kind it is. */
  lemma {:induction false} RefusedExactly(src: seq<string>, lines: seq<string>, e: DiffError)
    ensures PatchLines(src, lines) == Err(e) <==> SomeRefused(src, lines, e)
    decreases |lines|
  {
    if lines != [] {
      var n := |lines| - 1;
      var r := FeedAll(src, START, ParseAll(lines[..n]));
      RefusedExactly(src, lines[..n], e);
      RefusedLast(src, lines, e);
      LastFeeds(src, lines);
      if r.Ok? {
        RefusedLine(src, r.value, lines[n], e);
      }
    }
  }
}
