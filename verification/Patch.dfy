/** Counting a patch by scanning its lines (`patch_metrics` in results.py). */
module PatchCounting {

  // ---------------------------------------------------------------- lines

  /** The characters at which `str.splitlines` breaks, a carriage return and line feed
      together counting as one break. */
  predicate IsBreak(c: char) {
    || c == '\n' || c == '\r'
    || c == '\U{0b}' || c == '\U{0c}'
    || '\U{1c}' <= c <= '\U{1e}'
    || c == '\U{85}' || c == '\U{2028}' || c == '\U{2029}'
  }

  /** The lines of `s`, the first of which already holds `line`. */
  function SplitFrom(line: string, s: string): seq<string>
    decreases |s|
  {
    if s == "" then (if line == "" then [] else [line])
    else if s[0] == '\r' && |s| > 1 && s[1] == '\n' then [line] + SplitFrom("", s[2..])
    else if IsBreak(s[0]) then [line] + SplitFrom("", s[1..])
    else SplitFrom(line + [s[0]], s[1..])
  }

  function SplitLines(s: string): seq<string> { SplitFrom("", s) }

  /** A character ends a line if and only if it is one of these, and a carriage return with
      its line feed ends one line, not two. */
  lemma BreaksAre(c: char)
    ensures SplitLines(['a', c, 'b']) == ["a", "b"] <==>
              c in {'\n', '\r', '\U{0b}', '\U{0c}', '\U{1c}', '\U{1d}', '\U{1e}', '\U{85}', '\U{2028}', '\U{2029}'}
    ensures SplitLines("a\r\nb") == ["a", "b"] && SplitLines("a\n") == ["a"] && SplitLines("") == []
  {
    SplitThree(c);
    SplitAtPair();
  }

  lemma SplitThree(c: char)
    ensures SplitLines(['a', c, 'b']) == if IsBreak(c) then ["a", "b"] else [['a', c, 'b']]
  {
    var s: string := ['a', c, 'b'];
    assert s[1..] == [c, 'b'] && s[1..][1..] == "b" && ("b")[1..] == "";
    assert "" + ['a'] == "a" && "" + ['b'] == "b" && "a" + [c] + ['b'] == s;
    if IsBreak(c) {
      assert SplitFrom("a", [c, 'b']) == ["a"] + SplitFrom("", "b");
    } else {
      assert SplitFrom("a", [c, 'b']) == SplitFrom("a" + [c], "b");
    }
  }

  lemma SplitAtPair()
    ensures SplitLines("a\r\nb") == ["a", "b"] && SplitLines("a\n") == ["a"]
  {
    var s := "a\r\nb";
    assert s[1..] == "\r\nb" && s[1..][2..] == "b" && ("b")[1..] == "";
    assert "" + ['a'] == "a" && "" + ['b'] == "b";
    assert ("a\n")[1..] == "\n" && ("\n")[1..] == "";
    assert SplitFrom("a", "\r\nb") == ["a"] + SplitFrom("", "b");
    assert SplitFrom("a", "\n") == ["a"] + SplitFrom("", "");
  }

  predicate StartsWith(line: string, prefix: string) { prefix <= line }

  // ---------------------------------------------------------------- the scan

  const FILE_HEADER := "diff --git "
  const HUNK_HEADER := "@@"

  datatype Tally = Tally(files: set<string>, inHunk: bool, additions: nat, deletions: nat)

  const NOTHING := Tally({}, false, 0, 0)

  function Step(t: Tally, line: string): Tally {
    if StartsWith(line, FILE_HEADER) then t.(files := t.files + {line}, inHunk := false)
    else if StartsWith(line, HUNK_HEADER) then t.(inHunk := true)
    else if t.inHunk then
      t.(additions := t.additions + (if StartsWith(line, "+") then 1 else 0),
         deletions := t.deletions + (if StartsWith(line, "-") then 1 else 0))
    else t
  }

  function Scan(t: Tally, lines: seq<string>): Tally
    decreases |lines|
  {
    if lines == [] then t else Scan(Step(t, lines[0]), lines[1..])
  }

  method PatchMetrics(patch: string) returns (filesChanged: nat, insertions: nat, deletions: nat)
    ensures var t := Scan(NOTHING, SplitLines(patch));
            filesChanged == |t.files| && insertions == t.additions && deletions == t.deletions
  {
    var files: set<string> := {};
    insertions, deletions := 0, 0;
    var inHunk := false;
    var lines := SplitLines(patch);
    for i := 0 to |lines|
      invariant Scan(Tally(files, inHunk, insertions, deletions), lines[i..]) == Scan(NOTHING, lines)
    {
      var line := lines[i];
      assert lines[i..][1..] == lines[i + 1..];
      if StartsWith(line, FILE_HEADER) {
        files := files + {line};
        inHunk := false;
      } else if StartsWith(line, HUNK_HEADER) {
        inHunk := true;
      } else if inHunk {
        if StartsWith(line, "+") { insertions := insertions + 1; }
        if StartsWith(line, "-") { deletions := deletions + 1; }
      }
    }
    filesChanged := |files|;
  }

  // ---------------------------------------------------------------- concatenation

  /** One step of the split: the line and the text that remain, and what was finished. */
  function Taken(line: string, s: string): (seq<string>, string, string)
    requires s != ""
    ensures Taken(line, s).2 == s[1..] || (|s| > 1 && Taken(line, s).2 == s[2..])
  {
    if s[0] == '\r' && |s| > 1 && s[1] == '\n' then ([line], "", s[2..])
    else if IsBreak(s[0]) then ([line], "", s[1..])
    else ([], line + [s[0]], s[1..])
  }

  lemma SplitTakes(line: string, s: string)
    requires s != ""
    ensures SplitFrom(line, s) == Taken(line, s).0 + SplitFrom(Taken(line, s).1, Taken(line, s).2)
  {
  }

  lemma TakenLocally(line: string, n: string, b: string)
    requires n != "" && n[|n| - 1] == '\n'
    ensures Taken(line, n + b) == (Taken(line, n).0, Taken(line, n).1, Taken(line, n).2 + b)
    ensures Taken(line, n).2 == "" ==> Taken(line, n).1 == ""
    ensures Taken(line, n).2 != "" ==> Taken(line, n).2[|Taken(line, n).2| - 1] == '\n'
  {
    assert (n + b)[1..] == n[1..] + b;
    if |n| > 1 { assert (n + b)[2..] == n[2..] + b; }
  }

  /** Text that ends in a line feed is split without regard to what follows. */
  lemma {:induction false} SplitEnded(line: string, n: string, b: string)
    requires n != "" && n[|n| - 1] == '\n'
    ensures SplitFrom(line, n + b) == SplitFrom(line, n) + SplitLines(b)
    decreases |n|
  {
    var (done, line', rest) := Taken(line, n);
    SplitTakes(line, n);
    SplitTakes(line, n + b);
    TakenLocally(line, n, b);
    if rest == "" {
      assert "" + b == b;
      assert SplitFrom(line', rest) == [];
    } else {
      SplitEnded(line', rest, b);
    }
  }

  lemma SplitAtNewline(line: string, a: string, b: string)
    ensures SplitFrom(line, a + "\n" + b) == SplitFrom(line, a + "\n") + SplitLines(b)
  {
    SplitEnded(line, a + "\n", b);
  }

  lemma {:induction false} ScanConcat(t: Tally, a: seq<string>, b: seq<string>)
    ensures Scan(t, a + b) == Scan(Scan(t, a), b)
    decreases |a|
  {
    if a == [] {
      assert a + b == b;
    } else {
      assert (a + b)[1..] == a[1..] + b;
      ScanConcat(Step(t, a[0]), a[1..], b);
    }
  }

  /** A scan only adds to what it started from. */
  lemma {:induction false} ScanAdds(t: Tally, lines: seq<string>)
    ensures var z := Scan(Tally({}, t.inHunk, 0, 0), lines);
            Scan(t, lines) == Tally(t.files + z.files, z.inHunk, t.additions + z.additions, t.deletions + z.deletions)
    decreases |lines|
  {
    var z := Tally({}, t.inHunk, 0, 0);
    if lines == [] {
      assert t.files + {} == t.files;
    } else {
      ScanAdds(Step(t, lines[0]), lines[1..]);
      ScanAdds(Step(z, lines[0]), lines[1..]);
      var y := Scan(Tally({}, Step(z, lines[0]).inHunk, 0, 0), lines[1..]);
      assert t.files + ({lines[0]} + y.files) == t.files + {lines[0]} + y.files;
    }
  }

  lemma {:induction false} SplitStarts(line: string, s: string)
    requires forall i | 0 <= i < |s| :: i < 11 - |line| ==> !IsBreak(s[i])
    requires |line + s| >= 11 >= |line|
    ensures SplitFrom(line, s) != [] && (line + s)[..11] <= SplitFrom(line, s)[0]
    decreases |s|
  {
    if |line| == 11 {
      SplitKeeps(line, s);
      assert (line + s)[..11] == line;
    } else {
      assert line + s == line + [s[0]] + s[1..];
      SplitStarts(line + [s[0]], s[1..]);
    }
  }

  lemma {:induction false} SplitKeeps(line: string, s: string)
    requires line != ""
    ensures SplitFrom(line, s) != [] && line <= SplitFrom(line, s)[0]
    decreases |s|
  {
    if s != "" && !IsBreak(s[0]) {
      SplitKeeps(line + [s[0]], s[1..]);
    }
  }

  /** Counts of patches put one after another add up: the second one starts with a file
      header, so whatever hunk the first one ended in is over. */
  lemma CountsAddUp(p: string, q: string)
    requires FILE_HEADER <= q
    ensures var a, b := Scan(NOTHING, SplitLines(p + "\n")), Scan(NOTHING, SplitLines(q));
            var t := Scan(NOTHING, SplitLines(p + "\n" + q));
            && t.files == a.files + b.files
            && t.additions == a.additions + b.additions
            && t.deletions == a.deletions + b.deletions
  {
    var a := Scan(NOTHING, SplitLines(p + "\n"));
    SplitAtNewline("", p, q);
    ScanConcat(NOTHING, SplitLines(p + "\n"), SplitLines(q));
    var lines := SplitLines(q);
    assert forall i | 0 <= i < 11 :: q[i] == FILE_HEADER[i];
    SplitStarts("", q);
    assert ("" + q)[..11] == FILE_HEADER;
    ScanAdds(a, lines);
    assert Scan(Tally({}, a.inHunk, 0, 0), lines) == Scan(NOTHING, lines) by {
      assert Step(Tally({}, a.inHunk, 0, 0), lines[0]) == Step(NOTHING, lines[0]);
    }
  }

  // ---------------------------------------------------------------- patches as git writes them

  datatype HunkLine = Context(text: string) | Added(text: string) | Removed(text: string) | NoNewline(text: string)

  datatype Hunk = Hunk(heading: string, lines: seq<HunkLine>)

  /** `preamble` holds the mode, index, `---` and `+++` lines. */
  datatype FileDiff = FileDiff(header: string, preamble: seq<string>, hunks: seq<Hunk>)

  function Prefix(l: HunkLine): char {
    match l
    case Context(_) => ' '
    case Added(_) => '+'
    case Removed(_) => '-'
    case NoNewline(_) => '\\'
  }

  function Render(l: HunkLine): string { [Prefix(l)] + l.text }

  function RenderedLines(ls: seq<HunkLine>): seq<string> {
    if ls == [] then [] else [Render(ls[0])] + RenderedLines(ls[1..])
  }

  function RenderedHunk(h: Hunk): seq<string> { ["@@" + h.heading] + RenderedLines(h.lines) }

  function RenderedHunks(hunks: seq<Hunk>): seq<string> {
    if hunks == [] then [] else RenderedHunk(hunks[0]) + RenderedHunks(hunks[1..])
  }

  function RenderedFile(f: FileDiff): seq<string> {
    ["diff --git " + f.header] + f.preamble + RenderedHunks(f.hunks)
  }

  function RenderedFiles(files: seq<FileDiff>): seq<string> {
    if files == [] then [] else RenderedFile(files[0]) + RenderedFiles(files[1..])
  }

  /** The text of a patch: every line ended by a line feed. */
  function Text(lines: seq<string>): string {
    if lines == [] then "" else lines[0] + "\n" + Text(lines[1..])
  }

  predicate Unbroken(s: string) { forall i | 0 <= i < |s| :: !IsBreak(s[i]) }

  /** Git quotes file names, so headers and preambles hold no break; the text of a hunk
      is the file's own and holds no line feed. */
  predicate WellFormedFile(f: FileDiff) {
    && Unbroken(f.header)
    && (forall i | 0 <= i < |f.preamble| ::
          Unbroken(f.preamble[i]) && !(FILE_HEADER <= f.preamble[i]) && !(HUNK_HEADER <= f.preamble[i]))
  }

  /** What the lines of a patch come to when `splitlines` has broken them up. */
  function Broken(lines: seq<string>): seq<string> {
    if lines == [] then [] else SplitLines(lines[0] + "\n") + Broken(lines[1..])
  }

  lemma {:induction false} SplitText(lines: seq<string>)
    ensures SplitLines(Text(lines)) == Broken(lines)
  {
    if lines != [] {
      SplitAtNewline("", lines[0], Text(lines[1..]));
      SplitText(lines[1..]);
    }
  }

  lemma {:induction false} BrokenConcat(a: seq<string>, b: seq<string>)
    ensures Broken(a + b) == Broken(a) + Broken(b)
  {
    if a == [] {
      assert a + b == b;
    } else {
      assert (a + b)[1..] == a[1..] + b;
      BrokenConcat(a[1..], b);
    }
  }

  lemma {:induction false} UnbrokenLine(line: string, s: string)
    requires Unbroken(s)
    ensures SplitFrom(line, s + "\n") == [line + s]
    decreases |s|
  {
    if s == "" {
      assert s + "\n" == "\n" && line + s == line && ("\n")[1..] == "";
    } else {
      assert (s + "\n")[1..] == s[1..] + "\n" && line + [s[0]] + s[1..] == line + s;
      UnbrokenLine(line + [s[0]], s[1..]);
    }
  }

  // ---------------------------------------------------------------- exact totals

  /** The further lines that `splitlines` makes of one line of a hunk. */
  function Fragments(line: string): seq<string> {
    var pieces := SplitLines(line + "\n");
    if pieces == [] then [] else pieces[1..]
  }

  function CountStarting(lines: seq<string>, prefix: string): nat {
    if lines == [] then 0 else (if prefix <= lines[0] then 1 else 0) + CountStarting(lines[1..], prefix)
  }

  /** The lines that pass for file headers. */
  function HeadersIn(lines: seq<string>): set<string> {
    if lines == [] then {} else (if FILE_HEADER <= lines[0] then {lines[0]} else {}) + HeadersIn(lines[1..])
  }

  /** How many lines starting with `prefix` come while no hunk is open: a file header closes
      the hunk, the next hunk header opens one again. */
  function Missed(open: bool, lines: seq<string>, prefix: string): nat
    decreases |lines|
  {
    if lines == [] then 0
    else if FILE_HEADER <= lines[0] then Missed(false, lines[1..], prefix)
    else if HUNK_HEADER <= lines[0] then Missed(true, lines[1..], prefix)
    else (if !open && prefix <= lines[0] then 1 else 0) + Missed(open, lines[1..], prefix)
  }

  /** A scan counts, whatever the lines, those that start with + or - except those it misses. */
  lemma {:induction false} ScanCounts(t: Tally, lines: seq<string>)
    ensures var z := Scan(t, lines);
            && z.files == t.files + HeadersIn(lines)
            && z.additions + Missed(t.inHunk, lines, "+") == t.additions + CountStarting(lines, "+")
            && z.deletions + Missed(t.inHunk, lines, "-") == t.deletions + CountStarting(lines, "-")
    decreases |lines|
  {
    if lines == [] {
      assert t.files + {} == t.files;
    } else {
      OneSign(lines[0]);
      ScanCounts(Step(t, lines[0]), lines[1..]);
      var first: set<string> := if FILE_HEADER <= lines[0] then {lines[0]} else {};
      assert t.files + (first + HeadersIn(lines[1..])) == t.files + first + HeadersIn(lines[1..]);
    }
  }

  /** A line starts in at most one of these ways. */
  lemma OneSign(line: string)
    ensures FILE_HEADER <= line || HUNK_HEADER <= line ==> !("+" <= line) && !("-" <= line)
    ensures FILE_HEADER <= line ==> line[0] == 'd'
    ensures HUNK_HEADER <= line ==> line[0] == '@'
    ensures "+" <= line <==> line != "" && line[0] == '+'
    ensures "-" <= line <==> line != "" && line[0] == '-'
  {
    assert FILE_HEADER[0] == 'd' && HUNK_HEADER[0] == '@' && "+"[0] == '+' && "-"[0] == '-';
  }

  lemma {:induction false} CountConcat(a: seq<string>, b: seq<string>, prefix: string)
    ensures CountStarting(a + b, prefix) == CountStarting(a, prefix) + CountStarting(b, prefix)
  {
    if a == [] {
      assert a + b == b;
    } else {
      assert (a + b)[1..] == a[1..] + b;
      CountConcat(a[1..], b, prefix);
    }
  }

  /** How many lines of a hunk, as git wrote it, were added (or removed). */
  function Written(lines: seq<HunkLine>, prefix: char): nat {
    if lines == [] then 0 else (if Prefix(lines[0]) == prefix then 1 else 0) + Written(lines[1..], prefix)
  }

  function WrittenHunks(hunks: seq<Hunk>, prefix: char): nat {
    if hunks == [] then 0 else Written(hunks[0].lines, prefix) + WrittenHunks(hunks[1..], prefix)
  }

  function WrittenFiles(files: seq<FileDiff>, prefix: char): nat {
    if files == [] then 0 else WrittenHunks(files[0].hunks, prefix) + WrittenFiles(files[1..], prefix)
  }

  /** How many lines starting with `prefix` the breaks inside lines make up. */
  function Strays(lines: seq<string>, prefix: string): nat {
    if lines == [] then 0 else CountStarting(Fragments(lines[0]), prefix) + Strays(lines[1..], prefix)
  }

  lemma {:induction false} StraysConcat(a: seq<string>, b: seq<string>, prefix: string)
    ensures Strays(a + b, prefix) == Strays(a, prefix) + Strays(b, prefix)
  {
    if a == [] {
      assert a + b == b;
    } else {
      assert (a + b)[1..] == a[1..] + b;
      StraysConcat(a[1..], b, prefix);
    }
  }

  lemma {:induction false} HeadersConcat(a: seq<string>, b: seq<string>)
    ensures HeadersIn(a + b) == HeadersIn(a) + HeadersIn(b)
  {
    if a == [] {
      assert a + b == b;
    } else {
      assert (a + b)[1..] == a[1..] + b;
      HeadersConcat(a[1..], b);
    }
  }

  /** The fragments of lines that pass for file headers. */
  function StrayHeaders(lines: seq<string>): set<string> {
    if lines == [] then {} else HeadersIn(Fragments(lines[0])) + StrayHeaders(lines[1..])
  }

  lemma {:induction false} StrayHeadersConcat(a: seq<string>, b: seq<string>)
    ensures StrayHeaders(a + b) == StrayHeaders(a) + StrayHeaders(b)
  {
    if a == [] {
      assert a + b == b;
    } else {
      assert (a + b)[1..] == a[1..] + b;
      StrayHeadersConcat(a[1..], b);
    }
  }

  /** The first piece of a line starts as the line does. */
  lemma FirstPiece(line: string)
    requires line != "" && !IsBreak(line[0])
    ensures SplitLines(line + "\n") != [] && SplitLines(line + "\n") == [SplitLines(line + "\n")[0]] + Fragments(line)
    ensures SplitLines(line + "\n")[0] != "" && SplitLines(line + "\n")[0][0] == line[0]
  {
    var s := line + "\n";
    assert s[0] == line[0] && "" + [s[0]] == [s[0]];
    SplitKeeps([s[0]], s[1..]);
    assert [s[0]] <= SplitLines(s)[0];
  }

  /** The two signs of a change, as a prefix and as a character. */
  predicate Sign(prefix: string, c: char) { (prefix == "+" && c == '+') || (prefix == "-" && c == '-') }

  lemma CountOne(line: string, rest: seq<string>, prefix: string, c: char)
    requires Sign(prefix, c) && line != ""
    ensures CountStarting([line] + rest, prefix) == (if line[0] == c then 1 else 0) + CountStarting(rest, prefix)
    ensures line[0] != 'd' ==> HeadersIn([line] + rest) == HeadersIn(rest)
  {
    OneSign(line);
    assert ([line] + rest)[1..] == rest;
  }

  /** The pieces of the lines of a hunk: those git wrote, and the fragments. */
  lemma {:induction false} LinesCount(ls: seq<HunkLine>, prefix: string, c: char)
    requires Sign(prefix, c)
    ensures var lines := RenderedLines(ls);
            && CountStarting(Broken(lines), prefix) == Written(ls, c) + Strays(lines, prefix)
            && HeadersIn(Broken(lines)) == StrayHeaders(lines)
  {
    if ls != [] {
      var line, rest := Render(ls[0]), RenderedLines(ls[1..]);
      var pieces := SplitLines(line + "\n");
      assert RenderedLines(ls)[1..] == rest;
      FirstPiece(line);
      CountOne(pieces[0], Fragments(line), prefix, c);
      CountConcat(pieces, Broken(rest), prefix);
      HeadersConcat(pieces, Broken(rest));
      LinesCount(ls[1..], prefix, c);
    }
  }

  lemma HunkCount(h: Hunk, prefix: string, c: char)
    requires Sign(prefix, c)
    ensures var lines := RenderedHunk(h);
            && CountStarting(Broken(lines), prefix) == Written(h.lines, c) + Strays(lines, prefix)
            && HeadersIn(Broken(lines)) == StrayHeaders(lines)
  {
    var head, rest := HUNK_HEADER + h.heading, RenderedLines(h.lines);
    var pieces := SplitLines(head + "\n");
    assert RenderedHunk(h)[1..] == rest && RenderedHunk(h)[0] == head;
    HeadingPiece(h.heading);
    OneSign(pieces[0]);
    CountOne(pieces[0], Fragments(head), prefix, c);
    CountConcat(pieces, Broken(rest), prefix);
    HeadersConcat(pieces, Broken(rest));
    LinesCount(h.lines, prefix, c);
  }

  lemma {:induction false} HunksCount(hunks: seq<Hunk>, prefix: string, c: char)
    requires Sign(prefix, c)
    ensures var lines := RenderedHunks(hunks);
            && CountStarting(Broken(lines), prefix) == WrittenHunks(hunks, c) + Strays(lines, prefix)
            && HeadersIn(Broken(lines)) == StrayHeaders(lines)
  {
    if hunks != [] {
      var first, rest := RenderedHunk(hunks[0]), RenderedHunks(hunks[1..]);
      BrokenConcat(first, rest);
      StraysConcat(first, rest, prefix);
      StrayHeadersConcat(first, rest);
      CountConcat(Broken(first), Broken(rest), prefix);
      HeadersConcat(Broken(first), Broken(rest));
      HunkCount(hunks[0], prefix, c);
      HunksCount(hunks[1..], prefix, c);
    }
  }

  lemma HeadingPiece(heading: string)
    ensures var head := HUNK_HEADER + heading;
            var pieces := SplitLines(head + "\n");
            pieces != [] && pieces == [pieces[0]] + Fragments(head) && HUNK_HEADER <= pieces[0]
  {
    var s := HUNK_HEADER + heading + "\n";
    assert s[1..][1..] == heading + "\n";
    assert SplitFrom("", s) == SplitFrom("@", s[1..]) == SplitFrom("@@", heading + "\n") by {
      assert "" + [s[0]] == "@" && "@" + [s[1..][0]] == "@@";
    }
    SplitKeeps("@@", heading + "\n");
    assert HUNK_HEADER == "@@";
  }

  /** How many lines of the hunks of a file are not counted. The first of them opens a hunk,
      so only a fragment that passes for a file header makes the scan miss any. */
  function Lost(hunks: seq<Hunk>, prefix: string): nat { Missed(false, Broken(RenderedHunks(hunks)), prefix) }

  function LostFiles(files: seq<FileDiff>, prefix: string): nat {
    if files == [] then 0 else Lost(files[0].hunks, prefix) + LostFiles(files[1..], prefix)
  }

  lemma {:induction false} NothingMissed(open: bool, lines: seq<string>, prefix: string)
    requires HeadersIn(lines) == {} && (open || lines == [] || HUNK_HEADER <= lines[0])
    ensures Missed(open, lines, prefix) == 0
    decreases |lines|
  {
    if lines != [] {
      var first := lines[0];
      assert FILE_HEADER <= first ==> first in HeadersIn(lines);
      NothingMissed(true, lines[1..], prefix);
    }
  }

  lemma LostNeedsStrayHeader(hunks: seq<Hunk>, prefix: string)
    requires StrayHeaders(RenderedHunks(hunks)) == {}
    ensures Lost(hunks, prefix) == 0
  {
    HunksCount(hunks, "+", '+');
    if hunks != [] {
      var first := RenderedHunk(hunks[0]);
      HeadingPiece(hunks[0].heading);
      assert RenderedHunks(hunks)[0] == first[0] == HUNK_HEADER + hunks[0].heading;
    }
    NothingMissed(false, Broken(RenderedHunks(hunks)), prefix);
  }

  /** Lines before the first hunk count for nothing and break into nothing. */
  lemma {:induction false} ScanPreamble(t: Tally, preamble: seq<string>)
    requires !t.inHunk
    requires forall i | 0 <= i < |preamble| ::
               Unbroken(preamble[i]) && !(FILE_HEADER <= preamble[i]) && !(HUNK_HEADER <= preamble[i])
    ensures Scan(t, Broken(preamble)) == t
    ensures forall prefix :: Strays(preamble, prefix) == 0
    ensures StrayHeaders(preamble) == {}
    decreases |preamble|
  {
    if preamble != [] {
      UnbrokenLine("", preamble[0]);
      assert "" + preamble[0] == preamble[0];
      assert Fragments(preamble[0]) == [];
      ScanConcat(t, [preamble[0]], Broken(preamble[1..]));
      assert Scan(t, [preamble[0]]) == t by { assert [preamble[0]][1..] == []; }
      ScanPreamble(t, preamble[1..]);
    }
  }

  /** What a file's header and preamble come to. */
  lemma ScanHead(t: Tally, f: FileDiff)
    requires WellFormedFile(f)
    ensures var head := [FILE_HEADER + f.header] + f.preamble;
            && Scan(t, Broken(head)) == t.(files := t.files + {FILE_HEADER + f.header}, inHunk := false)
            && StrayHeaders(head) == {} && Strays(head, "+") == 0 && Strays(head, "-") == 0
  {
    var head := FILE_HEADER + f.header;
    assert Unbroken(head);
    UnbrokenLine("", head);
    assert "" + head == head && Fragments(head) == [];
    var t1 := t.(files := t.files + {head}, inHunk := false);
    assert ([head] + f.preamble)[1..] == f.preamble;
    assert [head][1..] == [] && Scan(t, [head]) == Scan(Step(t, head), []) == t1;
    ScanPreamble(t1, f.preamble);
    ScanConcat(t, [head], Broken(f.preamble));
  }

  lemma ScanFile(t: Tally, f: FileDiff)
    requires WellFormedFile(f)
    ensures var lines := RenderedFile(f);
            var z := Scan(t, Broken(lines));
            && z.files == t.files + {FILE_HEADER + f.header} + StrayHeaders(lines)
            && z.additions + Lost(f.hunks, "+") == t.additions + WrittenHunks(f.hunks, '+') + Strays(lines, "+")
            && z.deletions + Lost(f.hunks, "-") == t.deletions + WrittenHunks(f.hunks, '-') + Strays(lines, "-")
  {
    var head, hunks := [FILE_HEADER + f.header] + f.preamble, RenderedHunks(f.hunks);
    ScanHead(t, f);
    BrokenConcat(head, hunks);
    ScanConcat(t, Broken(head), Broken(hunks));
    StraysConcat(head, hunks, "+");
    StraysConcat(head, hunks, "-");
    StrayHeadersConcat(head, hunks);
    ScanCounts(Scan(t, Broken(head)), Broken(hunks));
    HunksCount(f.hunks, "+", '+');
    HunksCount(f.hunks, "-", '-');
  }

  function Headers(files: seq<FileDiff>): set<string> {
    if files == [] then {} else {FILE_HEADER + files[0].header} + Headers(files[1..])
  }

  lemma {:induction false} ScanFiles(t: Tally, files: seq<FileDiff>)
    requires forall i | 0 <= i < |files| :: WellFormedFile(files[i])
    ensures var lines := RenderedFiles(files);
            var z := Scan(t, Broken(lines));
            && z.files == t.files + Headers(files) + StrayHeaders(lines)
            && z.additions + LostFiles(files, "+") == t.additions + WrittenFiles(files, '+') + Strays(lines, "+")
            && z.deletions + LostFiles(files, "-") == t.deletions + WrittenFiles(files, '-') + Strays(lines, "-")
    decreases |files|
  {
    if files != [] {
      var first, rest := RenderedFile(files[0]), RenderedFiles(files[1..]);
      BrokenConcat(first, rest);
      StraysConcat(first, rest, "+");
      StraysConcat(first, rest, "-");
      StrayHeadersConcat(first, rest);
      ScanConcat(t, Broken(first), Broken(rest));
      ScanFile(t, files[0]);
      ScanFiles(Scan(t, Broken(first)), files[1..]);
    }
  }

  predicate DistinctHeaders(files: seq<FileDiff>) {
    forall i, j | 0 <= i < j < |files| :: files[i].header != files[j].header
  }

  lemma {:induction false} HeadersCount(files: seq<FileDiff>)
    requires DistinctHeaders(files)
    ensures |Headers(files)| == |files|
    ensures forall h: string :: h in Headers(files) ==>
            exists i :: 0 <= i < |files| && h == FILE_HEADER + files[i].header
    decreases |files|
  {
    if files != [] {
      HeadersCount(files[1..]);
      var h := FILE_HEADER + files[0].header;
      forall i | 0 <= i < |files[1..]| ensures h != FILE_HEADER + files[1..][i].header {
        assert files[1..][i] == files[i + 1];
        assert (FILE_HEADER + files[0].header)[11..] == files[0].header;
        assert (FILE_HEADER + files[i + 1].header)[11..] == files[i + 1].header;
      }
      forall g: string | g in Headers(files)
        ensures exists i :: 0 <= i < |files| && g == FILE_HEADER + files[i].header
      {
        if g != h {
          var i :| 0 <= i < |files[1..]| && g == FILE_HEADER + files[1..][i].header;
          assert files[1..][i] == files[i + 1];
        }
      }
    }
  }

  lemma UnionSize(a: set<string>, b: set<string>)
    ensures |a + b| == |a| <==> b <= a
  {
    assert a + b == a + (b - a) && a !! (b - a);
    if b <= a { assert b - a == {}; }
  }

  /** The totals of every patch that git renders with distinct file headers: the files are
      its own and the fragments that pass for file headers, and the lines are those git
      wrote and the fragments that pass for changes, less those missed after such a header.
      Each total is exact under the condition that says so. */
  lemma TotalsOfRenderedPatch(files: seq<FileDiff>)
    requires DistinctHeaders(files) && forall i | 0 <= i < |files| :: WellFormedFile(files[i])
    ensures var lines := RenderedFiles(files);
            var t := Scan(NOTHING, SplitLines(Text(lines)));
            && t.files == Headers(files) + StrayHeaders(lines)
            && (|t.files| == |files| <==> StrayHeaders(lines) <= Headers(files))
            && t.additions == WrittenFiles(files, '+') + Strays(lines, "+") - LostFiles(files, "+")
            && t.deletions == WrittenFiles(files, '-') + Strays(lines, "-") - LostFiles(files, "-")
            && (t.additions == WrittenFiles(files, '+') <==> Strays(lines, "+") == LostFiles(files, "+"))
            && (t.deletions == WrittenFiles(files, '-') <==> Strays(lines, "-") == LostFiles(files, "-"))
  {
    var lines := RenderedFiles(files);
    SplitText(lines);
    ScanFiles(NOTHING, files);
    HeadersCount(files);
    assert {} + Headers(files) == Headers(files);
    UnionSize(Headers(files), StrayHeaders(lines));
  }

  /** Lines are lost only after a fragment that passes for a file header. */
  lemma {:induction false} NothingLost(files: seq<FileDiff>, prefix: string)
    requires StrayHeaders(RenderedFiles(files)) == {}
    ensures LostFiles(files, prefix) == 0
    decreases |files|
  {
    if files != [] {
      var head, hunks := [FILE_HEADER + files[0].header] + files[0].preamble, RenderedHunks(files[0].hunks);
      StrayHeadersConcat(RenderedFile(files[0]), RenderedFiles(files[1..]));
      StrayHeadersConcat(head, hunks);
      LostNeedsStrayHeader(files[0].hunks, prefix);
      NothingLost(files[1..], prefix);
    }
  }

  lemma {:induction false} UnbrokenHasNoFragments(lines: seq<string>)
    requires forall i | 0 <= i < |lines| :: Unbroken(lines[i])
    ensures StrayHeaders(lines) == {} && Strays(lines, "+") == 0 && Strays(lines, "-") == 0
    decreases |lines|
  {
    if lines != [] {
      UnbrokenLine("", lines[0]);
      UnbrokenHasNoFragments(lines[1..]);
    }
  }

  /** In particular all three totals are exact when no line holds a break of its own. */
  lemma ExactTotals(files: seq<FileDiff>)
    requires DistinctHeaders(files) && forall i | 0 <= i < |files| :: WellFormedFile(files[i])
    requires forall i | 0 <= i < |RenderedFiles(files)| :: Unbroken(RenderedFiles(files)[i])
    ensures var t := Scan(NOTHING, SplitLines(Text(RenderedFiles(files))));
            |t.files| == |files| && t.additions == WrittenFiles(files, '+') && t.deletions == WrittenFiles(files, '-')
  {
    UnbrokenHasNoFragments(RenderedFiles(files));
    NothingLost(files, "+");
    NothingLost(files, "-");
    TotalsOfRenderedPatch(files);
  }

  // ---------------------------------------------------------------- patches that are miscounted

  lemma {:induction false} SplitPast(line: string, a: string, s: string)
    requires Unbroken(a)
    ensures SplitFrom(line, a + s) == SplitFrom(line + a, s)
    decreases |a|
  {
    if a == "" {
      assert a + s == s && line + a == line;
    } else {
      assert (a + s)[1..] == a[1..] + s && line + [a[0]] + a[1..] == line + a;
      SplitPast(line + [a[0]], a[1..], s);
    }
  }

  const FORM_FEED := ['\U{0c}']

  lemma FormFeedSplits(a: string, b: string)
    requires Unbroken(a) && Unbroken(b)
    ensures Fragments(a + FORM_FEED + b) == [b]
  {
    var rest := FORM_FEED + b + "\n";
    assert a + FORM_FEED + b + "\n" == a + rest && "" + a == a && "" + b == b;
    SplitPast("", a, rest);
    assert rest[1..] == b + "\n" && rest[0] == FORM_FEED[0];
    UnbrokenLine("", b);
    assert SplitFrom(a, rest) == [a] + SplitFrom("", b + "\n");
  }

  /** A patch of one added line that a form feed breaks in two. */
  function OneLine(header: string, heading: string, a: string, b: string): seq<FileDiff> {
    [FileDiff(header, [], [Hunk(heading, [Added(a + FORM_FEED + b)])])]
  }

  lemma OneLineRendered(header: string, heading: string, line: HunkLine)
    ensures RenderedFiles([FileDiff(header, [], [Hunk(heading, [line])])])
         == [FILE_HEADER + header, HUNK_HEADER + heading] + [Render(line)]
    ensures RenderedHunks([Hunk(heading, [line])]) == [HUNK_HEADER + heading, Render(line)]
  {
    var hunk := Hunk(heading, [line]);
    var file := FileDiff(header, [], [hunk]);
    assert [file][1..] == [] && [hunk][1..] == [] && [line][1..] == [];
    assert RenderedHunks([hunk]) == RenderedHunk(hunk) + RenderedHunks([]);
    assert RenderedLines([line]) == [Render(line)] + RenderedLines([]);
    assert RenderedHunk(hunk) == [HUNK_HEADER + heading] + [Render(line)];
    assert RenderedFile(file) == [FILE_HEADER + header] + RenderedHunk(hunk);
    assert RenderedFiles([file]) == RenderedFile(file) + RenderedFiles([]);
  }

  /** The second half of the line is taken for a line of its own. */
  lemma OneLineTotals(header: string, heading: string, a: string, b: string)
    requires Unbroken(header) && Unbroken(heading) && Unbroken(a) && Unbroken(b)
    ensures var t := Scan(NOTHING, SplitLines(Text(RenderedFiles(OneLine(header, heading, a, b)))));
            && t.files == {FILE_HEADER + header} + HeadersIn([b])
            && t.deletions == CountStarting([b], "-")
  {
    var line := Added(a + FORM_FEED + b);
    var files := OneLine(header, heading, a, b);
    var heads, lines := [FILE_HEADER + header, HUNK_HEADER + heading], RenderedFiles(files);
    OneLineRendered(header, heading, line);
    assert Render(line) == (['+'] + a) + FORM_FEED + b && Unbroken(['+'] + a);
    FormFeedSplits(['+'] + a, b);
    assert Unbroken(heads[0]) && Unbroken(heads[1]);
    UnbrokenHasNoFragments(heads);
    StraysConcat(heads, [Render(line)], "-");
    StrayHeadersConcat(heads, [Render(line)]);
    assert [Render(line)][1..] == [];
    assert Strays([Render(line)], "-") == CountStarting([b], "-") + Strays([], "-");
    assert StrayHeaders([Render(line)]) == HeadersIn([b]) + StrayHeaders([]);
    OneLineLosesNothing(heading, a, b);
    OneLineWritten(header, heading, line);
    assert files[1..] == [] && LostFiles(files, "-") == Lost(files[0].hunks, "-") + LostFiles([], "-");
    SplitText(lines);
    ScanFiles(NOTHING, files);
    assert Headers(files) == {FILE_HEADER + header} + Headers([]);
  }

  lemma OneLineWritten(header: string, heading: string, line: HunkLine)
    requires line.Added?
    ensures WrittenFiles([FileDiff(header, [], [Hunk(heading, [line])])], '-') == 0
    ensures WrittenFiles([FileDiff(header, [], [Hunk(heading, [line])])], '+') == 1
  {
    var hunk := Hunk(heading, [line]);
    var file := FileDiff(header, [], [hunk]);
    assert [file][1..] == [] && [hunk][1..] == [] && [line][1..] == [];
    assert forall p :: Written([line], p) == (if Prefix(line) == p then 1 else 0) + Written([], p);
    assert forall p :: WrittenHunks([hunk], p) == Written([line], p) + WrittenHunks([], p);
    assert forall p :: WrittenFiles([file], p) == WrittenHunks([hunk], p) + WrittenFiles([], p);
  }

  lemma OneLineLosesNothing(heading: string, a: string, b: string)
    requires Unbroken(heading) && Unbroken(a) && Unbroken(b)
    ensures Lost([Hunk(heading, [Added(a + FORM_FEED + b)])], "-") == 0
  {
    var line := Added(a + FORM_FEED + b);
    var head, text := HUNK_HEADER + heading, Render(line);
    OneLineRendered("", heading, line);
    UnbrokenLine("", head);
    assert Unbroken(head) && "" + head == head;
    assert text == (['+'] + a) + FORM_FEED + b && Unbroken(['+'] + a);
    FormFeedSplits(['+'] + a, b);
    FirstPiece(text);
    var first := SplitLines(text + "\n")[0];
    OneSign(first);
    assert [head, text][1..] == [text] && [text][1..] == [];
    var pieces := [head, first, b];
    assert Broken([text]) == SplitLines(text + "\n") + Broken([]);
    assert Broken([head, text]) == SplitLines(head + "\n") + Broken([text]);
    assert Broken([head, text]) == pieces && pieces[1..] == [first, b] && [first, b][1..] == [b] && [b][1..] == [];
    OneSign(head);
    assert Missed(false, pieces, "-") == Missed(true, [first, b], "-") == Missed(true, [b], "-") == 0;
  }

  /** A form feed before a minus in an added line: git adds one line, and the scan also sees
      a deletion that is not there. */
  lemma FormFeedMiscounts(header: string, heading: string, a: string, b: string)
    requires Unbroken(header) && Unbroken(heading) && Unbroken(a) && Unbroken(b)
    ensures var files := OneLine(header, heading, a, "-" + b);
            && WrittenFiles(files, '-') == 0
            && Scan(NOTHING, SplitLines(Text(RenderedFiles(files)))).deletions == 1
  {
    OneLineTotals(header, heading, a, "-" + b);
    OneLineWritten(header, heading, Added(a + FORM_FEED + ("-" + b)));
    OneSign("-" + b);
    assert ["-" + b][1..] == [] && CountStarting(["-" + b], "-") == 1 + CountStarting([], "-");
  }

  /** A form feed before the words of a file header: one file, and the scan sees two. */
  lemma StrayHeaderMiscounts(header: string, heading: string, a: string, b: string)
    requires Unbroken(header) && Unbroken(heading) && Unbroken(a) && Unbroken(b) && b != header
    ensures var files := OneLine(header, heading, a, FILE_HEADER + b);
            |Scan(NOTHING, SplitLines(Text(RenderedFiles(files)))).files| == 2
  {
    FileHeaderAlone(b);
    OneLineTotals(header, heading, a, FILE_HEADER + b);
    HeadersDiffer(header, b);
    var one, two := FILE_HEADER + header, FILE_HEADER + b;
    assert {one} + {two} == {one, two};
  }

  lemma FileHeaderAlone(b: string)
    requires Unbroken(b)
    ensures Unbroken(FILE_HEADER + b) && HeadersIn([FILE_HEADER + b]) == {FILE_HEADER + b}
  {
    var h := FILE_HEADER + b;
    assert [h][1..] == [] && HeadersIn([h]) == {h} + HeadersIn([]);
  }

  lemma HeadersDiffer(a: string, b: string)
    requires a != b
    ensures FILE_HEADER + a != FILE_HEADER + b
  {
    assert (FILE_HEADER + a)[11..] == a && (FILE_HEADER + b)[11..] == b;
  }
}
