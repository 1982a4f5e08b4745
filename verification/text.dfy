/** Text primitives the Go code takes from its standard library: splitting and
    joining lines, CRLF normalisation, white-space fields and decimal numbers.
    A string is a sequence of code points. */
module Text {

  const MAX_INT: int := 0x7fff_ffff_ffff_ffff
  const MIN_INT: int := -0x8000_0000_0000_0000
  const MAX_UINT: int := 0xffff_ffff_ffff_ffff

  // ---------------------------------------------------------------- lines

  predicate HasPrefix(s: string, p: string) {
    |p| <= |s| && s[..|p|] == p
  }

  /** Every piece between separators; at least one piece, possibly empty. */
  function Split(s: string, sep: char): (pieces: seq<string>)
    ensures |pieces| >= 1
    ensures forall p :: p in pieces ==> sep !in p
  {
    if s == "" then [""]
    else
      var rest := Split(s[1..], sep);
      if s[0] == sep then [""] + rest else [[s[0]] + rest[0]] + rest[1..]
  }

  /** One piece exactly when there is no separator, and then it is the whole text. */
  lemma {:induction false} SplitIsWhole(s: string, sep: char)
    ensures |Split(s, sep)| == 1 <==> sep !in s
    ensures sep !in s ==> Split(s, sep) == [s]
  {
    if s != "" {
      SplitIsWhole(s[1..], sep);
      assert s == [s[0]] + s[1..];
    }
  }

  /** The pieces with a line feed between neighbours. */
  function Join(pieces: seq<string>): string {
    if pieces == [] then ""
    else if |pieces| == 1 then pieces[0]
    else pieces[0] + "\n" + Join(pieces[1..])
  }

  /** Every line followed by a line feed. */
  function Unlines(lines: seq<string>): string {
    if lines == [] then "" else lines[0] + "\n" + Unlines(lines[1..])
  }

  predicate OneLine(s: string) { '\n' !in s }

  predicate AllOneLine(lines: seq<string>) { forall l :: l in lines ==> OneLine(l) }

  lemma {:induction false} SplitFirst(line: string, rest: string, sep: char)
    requires sep !in line
    ensures Split(line + [sep] + rest, sep) == [line] + Split(rest, sep)
  {
    var s := line + [sep] + rest;
    if line == "" {
      assert s[1..] == rest;
    } else {
      assert s[1..] == line[1..] + [sep] + rest;
      SplitFirst(line[1..], rest, sep);
      assert [line[0]] + line[1..] == line;
    }
  }

  lemma {:induction false} SplitOfJoin(lines: seq<string>)
    requires lines != [] && AllOneLine(lines)
    ensures Split(Join(lines), '\n') == lines
  {
    assert OneLine(lines[0]);
    if |lines| == 1 {
      SplitIsWhole(lines[0], '\n');
    } else {
      SplitOfJoin(lines[1..]);
      SplitFirst(lines[0], Join(lines[1..]), '\n');
    }
  }

  lemma {:induction false} JoinOfSplit(s: string)
    ensures Join(Split(s, '\n')) == s
  {
    if s != "" {
      JoinOfSplit(s[1..]);
      var rest := Split(s[1..], '\n');
      if s[0] == '\n' {
        assert ([""] + rest)[1..] == rest;
      } else if |rest| == 1 {
        assert Join(rest) == rest[0];
      } else {
        var first := [s[0]] + rest[0];
        assert ([first] + rest[1..])[1..] == rest[1..];
        assert first + "\n" + Join(rest[1..]) == [s[0]] + (rest[0] + "\n" + Join(rest[1..]));
      }
    }
  }

  lemma {:induction false} SplitOfUnlines(lines: seq<string>)
    requires AllOneLine(lines)
    ensures Split(Unlines(lines), '\n') == lines + [""]
  {
    if lines != [] {
      assert OneLine(lines[0]);
      SplitOfUnlines(lines[1..]);
      SplitFirst(lines[0], Unlines(lines[1..]), '\n');
    }
  }

  function TrimNewline(s: string): string {
    if s != "" && s[|s| - 1] == '\n' then s[..|s| - 1] else s
  }

  // ------------------------------------------------------- CRLF to LF

  /** Replaces every carriage return, line feed pair with a line feed. */
  function DropCr(s: string): string {
    if |s| < 2 then s
    else if s[0] == '\r' && s[1] == '\n' then "\n" + DropCr(s[2..])
    else [s[0]] + DropCr(s[1..])
  }

  lemma {:induction false} DropCrKeepsLines(s: string)
    ensures '\n' in DropCr(s) <==> '\n' in s
    ensures '\n' !in s ==> DropCr(s) == s
  {
    if |s| >= 2 {
      assert s == [s[0]] + s[1..] && s[1..] == [s[1]] + s[2..];
      DropCrKeepsLines(s[1..]);
    }
  }

  predicate EndsCr(line: string) { line != "" && line[|line| - 1] == '\r' }

  function ChompCr(line: string): string {
    if EndsCr(line) then line[..|line| - 1] else line
  }

  function ChompAll(lines: seq<string>): (r: seq<string>)
    ensures |r| == |lines|
    ensures forall i :: 0 <= i < |lines| ==> r[i] == ChompCr(lines[i])
  {
    if lines == [] then [] else [ChompCr(lines[0])] + ChompAll(lines[1..])
  }

  lemma {:induction false} DropCrFirst(line: string, rest: string)
    requires OneLine(line)
    ensures DropCr(line + "\n" + rest) == ChompCr(line) + "\n" + DropCr(rest)
  {
    var s := line + "\n" + rest;
    if line == "" {
      if rest == "" { assert s == "\n"; } else { assert s[1..] == rest; }
    } else if line == "\r" {
      assert s[2..] == rest;
    } else {
      assert s[1..] == line[1..] + "\n" + rest;
      if |line| == 1 {
        assert s[1] == '\n' && s[0] != '\r';
        DropCrFirst("", rest);
        assert line[1..] == "";
      } else {
        assert s[1] == line[1] != '\n';
        DropCrFirst(line[1..], rest);
        assert ChompCr(line) == [line[0]] + ChompCr(line[1..]);
      }
    }
  }

  /** Normalising printed lines strips exactly one trailing carriage return from each. */
  lemma {:induction false} DropCrOfUnlines(lines: seq<string>)
    requires AllOneLine(lines)
    ensures DropCr(Unlines(lines)) == Unlines(ChompAll(lines))
  {
    if lines != [] {
      DropCrOfUnlines(lines[1..]);
      DropCrFirst(lines[0], Unlines(lines[1..]));
      assert ChompAll(lines)[1..] == ChompAll(lines[1..]);
    }
  }

  // --------------------------------------------------- white-space fields

  /** unicode.IsSpace. */
  predicate IsSpace(c: char) {
    || c == ' ' || c == '\t' || c == '\n' || c == '\r' || c == '\U{0B}' || c == '\U{0C}'
    || c == '\U{85}' || c == '\U{A0}' || c == '\U{1680}' || '\U{2000}' <= c <= '\U{200A}'
    || c == '\U{2028}' || c == '\U{2029}' || c == '\U{202F}' || c == '\U{205F}' || c == '\U{3000}'
  }

  predicate IsWord(s: string) { s != "" && forall c :: c in s ==> !IsSpace(c) }

  function WordLength(s: string): (n: nat)
    ensures n <= |s|
  {
    if s == "" || IsSpace(s[0]) then 0 else 1 + WordLength(s[1..])
  }

  function Fields(s: string): seq<string>
    decreases |s|
  {
    if s == "" then []
    else if IsSpace(s[0]) then Fields(s[1..])
    else [s[..WordLength(s)]] + Fields(s[WordLength(s)..])
  }

  lemma {:induction false} WordLengthOf(word: string, rest: string)
    requires forall c :: c in word ==> !IsSpace(c)
    requires rest == "" || IsSpace(rest[0])
    ensures WordLength(word + rest) == |word|
  {
    if word == "" {
      assert word + rest == rest;
    } else {
      assert (word + rest)[1..] == word[1..] + rest;
      WordLengthOf(word[1..], rest);
    }
  }

  lemma FieldsFirst(word: string, rest: string)
    requires IsWord(word) && (rest == "" || IsSpace(rest[0]))
    ensures Fields(word + rest) == [word] + Fields(rest)
  {
    WordLengthOf(word, rest);
    assert (word + rest)[|word|..] == rest && (word + rest)[..|word|] == word;
    assert (word + rest)[0] == word[0] && word[0] in word;
  }

  // ---------------------------------------------------- decimal numbers

  predicate IsDigit(c: char) { '0' <= c <= '9' }

  /** strconv.Itoa on a natural number. */
  function Dec(n: nat): (s: string)
    ensures s != "" && forall c :: c in s ==> IsDigit(c)
  {
    var digit := ['0' + (n % 10) as char];
    if n < 10 then digit else Dec(n / 10) + digit
  }

  /** strconv.Itoa on any integer. */
  function Itoa(n: int): string {
    if n < 0 then "-" + Dec(-n) else Dec(n)
  }

  /** The digit loop of strconv.ParseUint in base ten: -1 for a syntax error, and
      the largest value as soon as the digits read so far exceed it. */
  function ScanDigits(s: string, acc: nat): int {
    if s == "" then acc
    else if !IsDigit(s[0]) then -1
    else
      var next := acc * 10 + (s[0] - '0') as int;
      if next > MAX_UINT then MAX_UINT else ScanDigits(s[1..], next)
  }

  /** The value strconv.Atoi returns, its error ignored: 0 on a syntax error and
      the nearest int64 when out of range. */
  function Atoi(s: string): int {
    var signed := s != "" && (s[0] == '-' || s[0] == '+');
    var digits := if signed then s[1..] else s;
    var v := if digits == "" then -1 else ScanDigits(digits, 0);
    if v < 0 then 0
    else if s[0] == '-' then (if -v < MIN_INT then MIN_INT else -v)
    else if v > MAX_INT then MAX_INT else v
  }

  /** How many characters at the front are digits. */
  function LeadingDigits(s: string): (n: nat)
    ensures n <= |s| && (n < |s| ==> !IsDigit(s[n]))
    ensures forall i :: 0 <= i < n ==> IsDigit(s[i])
  {
    if s == "" || !IsDigit(s[0]) then 0 else 1 + LeadingDigits(s[1..])
  }

  predicate AllDigits(s: string) { forall i :: 0 <= i < |s| ==> IsDigit(s[i]) }

  /** The number `acc` followed by digits. */
  function Value(s: string, acc: nat): (v: nat)
    requires AllDigits(s)
    ensures v >= acc
    ensures v == 0 <==> acc == 0 && forall i :: 0 <= i < |s| ==> s[i] == '0'
  {
    if s == "" then acc else Value(s[1..], acc * 10 + (s[0] - '0') as int)
  }

  /** The digit loop ends with the value, with a syntax error at the first character
      that is no digit, or with the largest value if the digits before it exceed it. */
  lemma {:induction false} ScanIs(s: string, acc: nat)
    requires acc <= MAX_UINT
    ensures var digits := s[..LeadingDigits(s)];
            ScanDigits(s, acc) == if Value(digits, acc) > MAX_UINT then MAX_UINT
                                  else if digits == s then Value(digits, acc) else -1
  {
    if s != "" && IsDigit(s[0]) {
      var next := acc * 10 + (s[0] - '0') as int;
      var rest := s[1..][..LeadingDigits(s[1..])];
      assert s[..LeadingDigits(s)] == [s[0]] + rest && s == [s[0]] + s[1..];
      assert s[..LeadingDigits(s)][1..] == rest;
      if next <= MAX_UINT {
        ScanIs(s[1..], next);
      }
    }
  }

  /** What follows the sign. */
  function Unsigned(s: string): string { if s != "" && (s[0] == '-' || s[0] == '+') then s[1..] else s }

  /** Not a number: no digits, or something else after digits that are still in range. */
  predicate NoNumber(s: string) {
    var n := LeadingDigits(s);
    s == "" || (n < |s| && Value(s[..n], 0) <= MAX_UINT)
  }

  /** Atoi gives 0 exactly for what is no number and for a zero. */
  lemma AtoiIsZero(s: string)
    ensures Atoi(s) == 0 <==> NoNumber(Unsigned(s)) || forall i :: 0 <= i < |Unsigned(s)| ==> Unsigned(s)[i] == '0'
  {
    var digits := Unsigned(s);
    ScanIs(digits, 0);
    var n := LeadingDigits(digits);
    if forall i :: 0 <= i < |digits| ==> digits[i] == '0' {
      assert n == |digits| && digits[..n] == digits;
    }
    assert n == |digits| ==> digits[..n] == digits;
    assert n < |digits| ==> digits[..n] != digits;
  }

  function Nearest(v: int): int { if v < MIN_INT then MIN_INT else if v > MAX_INT then MAX_INT else v }

  /** Atoi gives 0 for what is no number, and otherwise the int64 nearest to the value of
      the digits with their sign. */
  lemma AtoiIs(s: string)
    ensures var digits := Unsigned(s);
            var v: int := Value(digits[..LeadingDigits(digits)], 0);
            Atoi(s) == if NoNumber(digits) then 0 else Nearest(if HasPrefix(s, "-") then -v else v)
  {
    var digits := Unsigned(s);
    ScanIs(digits, 0);
    assert LeadingDigits(digits) == |digits| <==> digits[..LeadingDigits(digits)] == digits;
  }

  lemma {:induction false} ScanAppend(s: string, d: char, acc: nat, v: nat)
    requires IsDigit(d) && ScanDigits(s, acc) == v
    requires v * 10 + (d - '0') as int <= MAX_UINT
    ensures ScanDigits(s + [d], acc) == v * 10 + (d - '0') as int
  {
    if s == "" {
      assert s + [d] == [d];
    } else {
      assert (s + [d])[1..] == s[1..] + [d];
      ScanAppend(s[1..], d, acc * 10 + (s[0] - '0') as int, v);
    }
  }

  lemma {:induction false} ScanOfDec(n: nat)
    requires n <= MAX_UINT
    ensures ScanDigits(Dec(n), 0) == n
  {
    var d := '0' + (n % 10) as char;
    if n < 10 {
      assert Dec(n) == [d] && ScanDigits([d][1..], n) == n;
    } else {
      ScanOfDec(n / 10);
      ScanAppend(Dec(n / 10), d, 0, n / 10);
    }
  }

  lemma AtoiOfDec(n: nat)
    requires n <= MAX_INT
    ensures Atoi(Dec(n)) == n
  {
    ScanOfDec(n);
    assert Dec(n)[0] in Dec(n);
  }

  lemma {:induction false} DecInjective(a: nat, b: nat)
    requires Dec(a) == Dec(b)
    ensures a == b
  {
    var x, y := Dec(a), Dec(b);
    if a >= 10 && b >= 10 {
      assert x[..|x| - 1] == Dec(a / 10) && y[..|y| - 1] == Dec(b / 10);
      DecInjective(a / 10, b / 10);
      assert x[|x| - 1] == y[|y| - 1];
    } else {
      assert |x| == |y| && x[0] == y[0];
    }
  }
}
