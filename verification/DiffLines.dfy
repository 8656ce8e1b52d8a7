/** The lines of a zero-context unified diff that a review finding may point
    at. */
module DiffLines {
  import opened Base

  datatype LineKey = LineKey(path: string, line: int)
  datatype Allowed = Allowed(left: set<LineKey>, right: set<LineKey>)

  predicate Prefix(p: string, s: string) { |p| <= |s| && s[..|p|] == p }

  lemma PrefixOfConcat(p: string, rest: string)
    ensures Prefix(p, p + rest) && (p + rest)[|p|..] == rest
  {
  }

  // ----- Numbers -----

  /** The largest number the parser accepts; anything larger reads as zero. */
  const MAX_INT := 0x7FFF_FFFF_FFFF_FFFF

  predicate IsDigit(c: char) { '0' <= c <= '9' }

  function DigitValue(c: char): nat
    requires IsDigit(c)
  {
    c as int - '0' as int
  }

  function DigitChar(d: nat): (c: char)
    requires d < 10
    ensures IsDigit(c) && DigitValue(c) == d
  {
    ('0' as int + d) as char
  }

  predicate AllDigits(s: string) { forall c :: c in s ==> IsDigit(c) }

  function Decimal(s: string): nat
    requires AllDigits(s)
  {
    if s == "" then 0
    else
      assert s[|s| - 1] in s && forall c :: c in s[..|s| - 1] ==> c in s;
      10 * Decimal(s[..|s| - 1]) + DigitValue(s[|s| - 1])
  }

  function MustInt(s: string): nat
    requires AllDigits(s)
  {
    if Decimal(s) > MAX_INT then 0 else Decimal(s)
  }

  function Printed(n: nat): (s: string)
    ensures s != "" && AllDigits(s)
  {
    (if n < 10 then "" else Printed(n / 10)) + [DigitChar(n % 10)]
  }

  lemma {:induction false} DecimalPrinted(n: nat)
    ensures Decimal(Printed(n)) == n
  {
    var s := Printed(n);
    if n >= 10 {
      DecimalPrinted(n / 10);
      assert s[..|s| - 1] == Printed(n / 10);
    }
  }

  /** The leading digits of a text. */
  function Digits(s: string): (d: string)
    ensures |d| <= |s| && AllDigits(d)
  {
    if s == "" || !IsDigit(s[0]) then "" else [s[0]] + Digits(s[1..])
  }

  lemma {:induction false} DigitsThen(d: string, rest: string)
    requires AllDigits(d) && (rest == "" || !IsDigit(rest[0]))
    ensures Digits(d + rest) == d && (d + rest)[|d|..] == rest
  {
    if d == "" {
      assert d + rest == rest;
    } else {
      assert d[0] in d;
      DigitsThen(d[1..], rest);
      assert (d + rest)[1..] == d[1..] + rest;
      assert d == [d[0]] + d[1..];
    }
  }

  // ----- Hunk headers -----

  /** A start and an optional count; the count is not used. */
  datatype Scanned = Scanned(start: string, rest: string)

  function ScanRange(s: string): (r: Option<Scanned>)
    ensures r.Some? ==> AllDigits(r.value.start)
  {
    var start := Digits(s);
    var rest := s[|start|..];
    if start == "" then None
    else if Prefix(",", rest) && Digits(rest[1..]) != "" then Some(Scanned(start, rest[1..][|Digits(rest[1..])|..]))
    else Some(Scanned(start, rest))
  }

  datatype HunkStart = HunkStart(oldLine: nat, newLine: nat)

  /** Matches `@@ -start[,count] +start[,count] @@` at the front of a line. */
  function HunkHeader(line: string): Option<HunkStart> {
    if !Prefix("@@ -", line) then None
    else
      var before := ScanRange(line[4..]);
      if before.None? || !Prefix(" +", before.value.rest) then None
      else
        var after := ScanRange(before.value.rest[2..]);
        if after.None? || !Prefix(" @@", after.value.rest) then None
        else Some(HunkStart(MustInt(before.value.start), MustInt(after.value.start)))
  }

  function BeforeTab(s: string): string {
    if s == "" || s[0] == '\t' then "" else [s[0]] + BeforeTab(s[1..])
  }

  function TrimPrefix(p: string, s: string): string { if Prefix(p, s) then s[|p|..] else s }

  function HeaderPath(line: string): string
    requires |line| >= 4
  {
    var value := BeforeTab(line[4..]);
    if value == "/dev/null" then "" else TrimPrefix("b/", TrimPrefix("a/", value))
  }

  // ----- Scanning -----

  datatype Cursor = Cursor(
    oldPath: string, newPath: string, oldLine: int, newLine: int, inHunk: bool, left: set<LineKey>, right: set<LineKey>)

  function Content(c: Cursor, line: string): Cursor {
    if Prefix("-", line) then
      c.(left := if c.oldPath != "" then c.left + {LineKey(c.oldPath, c.oldLine)} else c.left,
         oldLine := c.oldLine + 1)
    else if Prefix("+", line) then
      c.(right := if c.newPath != "" then c.right + {LineKey(c.newPath, c.newLine)} else c.right,
         newLine := c.newLine + 1)
    else if Prefix(" ", line) then c.(oldLine := c.oldLine + 1, newLine := c.newLine + 1)
    else c.(inHunk := false)
  }

  function Step(c: Cursor, line: string): Cursor {
    if Prefix("diff --git ", line) then c.(oldPath := "", newPath := "", inHunk := false)
    else if !c.inHunk && Prefix("--- ", line) then c.(oldPath := HeaderPath(line))
    else if !c.inHunk && Prefix("+++ ", line) then c.(newPath := HeaderPath(line))
    else
      var header := HunkHeader(line);
      if header.Some? then c.(oldLine := header.value.oldLine, newLine := header.value.newLine, inHunk := true)
      else if !c.inHunk || Prefix("\\", line) then c
      else Content(c, line)
  }

  function Scan(c: Cursor, lines: seq<string>): Cursor {
    if lines == [] then c else Step(Scan(c, lines[..|lines| - 1]), lines[|lines| - 1])
  }

  const START := Cursor("", "", 0, 0, false, {}, {})

  function AllowedBy(c: Cursor): Allowed { Allowed(c.left, c.right) }

  method ChangedLines(diff: seq<string>) returns (allowed: Allowed)
    ensures allowed == AllowedBy(Scan(START, diff))
  {
    var oldPath, newPath, oldLine, newLine, inHunk := "", "", 0, 0, false;
    var left: set<LineKey>, right: set<LineKey> := {}, {};
    var i := 0;
    while i < |diff|
      invariant 0 <= i <= |diff|
      invariant Cursor(oldPath, newPath, oldLine, newLine, inHunk, left, right) == Scan(START, diff[..i])
    {
      var line := diff[i];
      ScanStep(START, diff, i);
      i := i + 1;
      if Prefix("diff --git ", line) {
        oldPath, newPath, inHunk := "", "", false;
        continue;
      }
      if !inHunk && Prefix("--- ", line) {
        oldPath := HeaderPath(line);
        continue;
      }
      if !inHunk && Prefix("+++ ", line) {
        newPath := HeaderPath(line);
        continue;
      }
      var header := HunkHeader(line);
      if header.Some? {
        oldLine, newLine, inHunk := header.value.oldLine, header.value.newLine, true;
        continue;
      }
      if !inHunk || Prefix("\\", line) { continue; }
      if Prefix("-", line) {
        if oldPath != "" { left := left + {LineKey(oldPath, oldLine)}; }
        oldLine := oldLine + 1;
      } else if Prefix("+", line) {
        if newPath != "" { right := right + {LineKey(newPath, newLine)}; }
        newLine := newLine + 1;
      } else if Prefix(" ", line) {
        oldLine, newLine := oldLine + 1, newLine + 1;
      } else {
        inHunk := false;
      }
    }
    assert diff[..i] == diff;
    return Allowed(left, right);
  }

  lemma ScanStep(c: Cursor, lines: seq<string>, i: nat)
    requires i < |lines|
    ensures Scan(c, lines[..i + 1]) == Step(Scan(c, lines[..i]), lines[i])
  {
    assert lines[..i + 1][..i] == lines[..i];
  }

  lemma ScanOne(c: Cursor, line: string)
    ensures Scan(c, [line]) == Step(c, line)
  {
    var one, none: seq<string> := [line], [];
    assert one[..0] == none;
  }

  lemma {:induction false} ScanAppend(c: Cursor, a: seq<string>, b: seq<string>)
    ensures Scan(c, a + b) == Scan(Scan(c, a), b)
  {
    if b == [] {
      assert a + b == a;
    } else {
      var n := |b| - 1;
      ScanAppend(c, a, b[..n]);
      assert (a + b)[..|a + b| - 1] == a + b[..n];
    }
  }

  // ----- Printed diffs -----

  /** One change without context: lines removed from one place of the old file
      and lines added at one place of the new file. A file without a final
      newline gets a marker line. */
  datatype Hunk = Hunk(
    oldStart: nat, removed: seq<string>, oldMark: bool, newStart: nat, added: seq<string>, newMark: bool,
    heading: string)

  /** The change of one file, present or not on each side. */
  datatype FileDiff = FileDiff(path: string, onLeft: bool, onRight: bool, extended: seq<string>, hunks: seq<Hunk>)

  function PrintedRange(start: nat, count: nat): string {
    if count == 1 then Printed(start) else Printed(start) + "," + Printed(count)
  }

  function HunkLine(h: Hunk): string {
    "@@ -" + (PrintedRange(h.oldStart, |h.removed|)
      + (" +" + (PrintedRange(h.newStart, |h.added|) + (" @@" + h.heading))))
  }

  function Marked(mark: char, lines: seq<string>): seq<string> { MapSeq((l: string) => [mark] + l, lines) }

  function Marker(present: bool): seq<string> { if present then [['\\'] + " No newline at end of file"] else [] }

  function PrintedHunk(h: Hunk): seq<string> {
    [HunkLine(h)] + (Marked('-', h.removed) + Marker(h.oldMark)) + (Marked('+', h.added) + Marker(h.newMark))
  }

  function PrintedHunks(hs: seq<Hunk>): seq<string> {
    if hs == [] then [] else PrintedHunks(hs[..|hs| - 1]) + PrintedHunk(hs[|hs| - 1])
  }

  function NameLine(mark: string, side: string, path: string, present: bool): string {
    mark + if present then side + path + (if ' ' in path then "\t" else "") else "/dev/null"
  }

  function PrintedHeader(f: FileDiff): seq<string> {
    ["diff --git a/" + f.path + " b/" + f.path] + f.extended
  }

  function PrintedNames(f: FileDiff): seq<string> {
    [NameLine("--- ", "a/", f.path, f.onLeft), NameLine("+++ ", "b/", f.path, f.onRight)]
  }

  function PrintedFile(f: FileDiff): seq<string> {
    PrintedHeader(f) + if f.hunks == [] then [] else PrintedNames(f) + PrintedHunks(f.hunks)
  }

  function PrintedFiles(fs: seq<FileDiff>): seq<string> {
    if fs == [] then [] else PrintedFiles(fs[..|fs| - 1]) + PrintedFile(fs[|fs| - 1])
  }

  /** The lines of the printed text: every line ends in a newline, so an empty
      one follows the last. */
  function PrintedDiff(fs: seq<FileDiff>): seq<string> { PrintedFiles(fs) + [""] }

  /** Lines between the first header line and the file names. */
  predicate ExtendedHeader(line: string) {
    !Prefix("diff --git ", line) && !Prefix("--- ", line) && !Prefix("+++ ", line) && HunkHeader(line).None?
  }

  /** A path that is printed as it is: git quotes a tab in a file name. */
  predicate PlainPath(p: string) { p != "" && '\t' !in p && p[|p| - 1] != '/' }

  predicate Printable(f: FileDiff) {
    && PlainPath(f.path) && (forall l :: l in f.extended ==> ExtendedHeader(l))
    && forall h :: h in f.hunks ==> h.oldStart <= MAX_INT && h.newStart <= MAX_INT
  }

  // ----- What the scan finds in a printed diff -----

  lemma PlainRangeRead(d: string, rest: string)
    requires AllDigits(d) && d != "" && Prefix(" ", rest)
    ensures ScanRange(d + rest) == Some(Scanned(d, rest))
  {
    assert rest[0] == ' ';
    DigitsThen(d, rest);
  }

  lemma CountedRangeRead(d: string, e: string, rest: string)
    requires AllDigits(d) && d != "" && AllDigits(e) && e != "" && Prefix(" ", rest)
    ensures ScanRange(d + ("," + (e + rest))) == Some(Scanned(d, rest))
  {
    var tail := "," + (e + rest);
    assert rest[0] == ' ' && tail[0] == ',';
    DigitsThen(d, tail);
    PrefixOfConcat(",", e + rest);
    DigitsThen(e, rest);
  }

  lemma RangeRead(start: nat, count: nat, rest: string)
    requires Prefix(" ", rest)
    ensures ScanRange(PrintedRange(start, count) + rest) == Some(Scanned(Printed(start), rest))
  {
    if count == 1 {
      PlainRangeRead(Printed(start), rest);
    } else {
      CountedRangeRead(Printed(start), Printed(count), rest);
      Regroup(Printed(start), Printed(count), rest);
    }
  }

  lemma Regroup(d: string, e: string, rest: string)
    ensures d + "," + e + rest == d + ("," + (e + rest))
  {
  }

  /** A header is read once its two ranges are. */
  lemma HeaderAssembled(body: string, after: string, heading: string, d: string, e: string)
    requires AllDigits(d) && AllDigits(e)
    requires ScanRange(body) == Some(Scanned(d, " +" + after)) && ScanRange(after) == Some(Scanned(e, " @@" + heading))
    ensures HunkHeader("@@ -" + body) == Some(HunkStart(MustInt(d), MustInt(e)))
  {
    PrefixOfConcat("@@ -", body);
    PrefixOfConcat(" +", after);
    PrefixOfConcat(" @@", heading);
  }

  lemma HunkLineRead(h: Hunk)
    requires h.oldStart <= MAX_INT && h.newStart <= MAX_INT
    ensures HunkHeader(HunkLine(h)) == Some(HunkStart(h.oldStart, h.newStart))
  {
    var tail := " @@" + h.heading;
    var after := PrintedRange(h.newStart, |h.added|) + tail;
    var middle := " +" + after;
    StartsWithSpace(tail, " @@", h.heading);
    StartsWithSpace(middle, " +", after);
    RangeRead(h.oldStart, |h.removed|, middle);
    RangeRead(h.newStart, |h.added|, tail);
    DecimalPrinted(h.oldStart);
    DecimalPrinted(h.newStart);
    HeaderAssembled(PrintedRange(h.oldStart, |h.removed|) + middle, after, h.heading,
                    Printed(h.oldStart), Printed(h.newStart));
  }

  lemma StartsWithSpace(s: string, head: string, rest: string)
    requires s == head + rest && head != "" && head[0] == ' '
    ensures Prefix(" ", s)
  {
    assert s[0] == ' ';
  }

  function LinesAt(path: string, start: int, n: nat): set<LineKey> {
    if n == 0 then {} else LinesAt(path, start, n - 1) + {LineKey(path, start + n - 1)}
  }

  /** A marked line is content, whatever follows its mark. */
  lemma MarkedStep(c: Cursor, l: string)
    requires c.inHunk
    ensures Step(c, ['-'] + l) ==
      c.(left := if c.oldPath != "" then c.left + {LineKey(c.oldPath, c.oldLine)} else c.left, oldLine := c.oldLine + 1)
    ensures Step(c, ['+'] + l) ==
      c.(right := if c.newPath != "" then c.right + {LineKey(c.newPath, c.newLine)} else c.right,
         newLine := c.newLine + 1)
  {
    assert (['-'] + l)[0] == '-' && (['+'] + l)[0] == '+';
    assert !Prefix("diff --git ", ['-'] + l) && !Prefix("diff --git ", ['+'] + l);
    assert !Prefix("@@ -", ['-'] + l) && !Prefix("@@ -", ['+'] + l);
  }

  lemma MarkerStep(c: Cursor, present: bool)
    requires c.inHunk
    ensures Scan(c, Marker(present)) == c
  {
    if present {
      ScanOne(c, ['\\'] + " No newline at end of file");
      BackslashStep(c, " No newline at end of file");
    }
  }

  lemma BackslashStep(c: Cursor, rest: string)
    requires c.inHunk
    ensures Step(c, ['\\'] + rest) == c
  {
    var l := ['\\'] + rest;
    assert l[0] == '\\';
    assert !Prefix("diff --git ", l) && !Prefix("@@ -", l) && Prefix("\\", l);
  }

  lemma MarkedPrefix(mark: char, lines: seq<string>)
    requires lines != []
    ensures Marked(mark, lines)[..|lines| - 1] == Marked(mark, lines[..|lines| - 1])
  {
  }

  function AfterRemoved(c: Cursor, n: nat): Cursor {
    c.(left := c.left + if c.oldPath != "" then LinesAt(c.oldPath, c.oldLine, n) else {}, oldLine := c.oldLine + n)
  }

  function AfterAdded(c: Cursor, n: nat): Cursor {
    c.(right := c.right + if c.newPath != "" then LinesAt(c.newPath, c.newLine, n) else {}, newLine := c.newLine + n)
  }

  lemma OneMoreContent(c: Cursor, l: string, n: nat)
    requires c.inHunk
    ensures Step(AfterRemoved(c, n), ['-'] + l) == AfterRemoved(c, n + 1)
    ensures Step(AfterAdded(c, n), ['+'] + l) == AfterAdded(c, n + 1)
  {
    MarkedStep(AfterRemoved(c, n), l);
    MarkedStep(AfterAdded(c, n), l);
  }

  lemma {:induction false} ScanRemoved(c: Cursor, lines: seq<string>)
    requires c.inHunk
    ensures Scan(c, Marked('-', lines)) == AfterRemoved(c, |lines|)
  {
    if lines != [] {
      var n := |lines| - 1;
      ScanRemoved(c, lines[..n]);
      MarkedPrefix('-', lines);
      OneMoreContent(c, lines[n], n);
    }
  }

  lemma {:induction false} ScanAdded(c: Cursor, lines: seq<string>)
    requires c.inHunk
    ensures Scan(c, Marked('+', lines)) == AfterAdded(c, |lines|)
  {
    if lines != [] {
      var n := |lines| - 1;
      ScanAdded(c, lines[..n]);
      MarkedPrefix('+', lines);
      OneMoreContent(c, lines[n], n);
    }
  }

  function HunkLeft(path: string, h: Hunk): set<LineKey> {
    if path == "" then {} else LinesAt(path, h.oldStart, |h.removed|)
  }

  function HunkRight(path: string, h: Hunk): set<LineKey> {
    if path == "" then {} else LinesAt(path, h.newStart, |h.added|)
  }

  lemma HunkStep(c: Cursor, h: Hunk)
    requires h.oldStart <= MAX_INT && h.newStart <= MAX_INT
    ensures Scan(c, [HunkLine(h)]) == c.(oldLine := h.oldStart, newLine := h.newStart, inHunk := true)
  {
    HunkLineRead(h);
    ScanOne(c, HunkLine(h));
    AtStep(c, HunkLine(h), HunkStart(h.oldStart, h.newStart));
  }

  lemma AtStep(c: Cursor, line: string, start: HunkStart)
    requires HunkHeader(line) == Some(start)
    ensures Step(c, line) == c.(oldLine := start.oldLine, newLine := start.newLine, inHunk := true)
  {
    assert line[..4] == "@@ -" && line[0] == line[..4][0] == '@';
    assert !Prefix("diff --git ", line) && !Prefix("--- ", line) && !Prefix("+++ ", line);
  }

  lemma ScanHunk(c: Cursor, h: Hunk)
    requires h.oldStart <= MAX_INT && h.newStart <= MAX_INT
    ensures var d := Scan(c, PrintedHunk(h));
      && d.oldPath == c.oldPath && d.newPath == c.newPath && d.inHunk
      && d.left == c.left + HunkLeft(c.oldPath, h) && d.right == c.right + HunkRight(c.newPath, h)
  {
    var minus, plus := Marked('-', h.removed), Marked('+', h.added);
    var atHunk := c.(oldLine := h.oldStart, newLine := h.newStart, inHunk := true);
    HunkStep(c, h);
    ScanAppend(c, [HunkLine(h)] + (minus + Marker(h.oldMark)), plus + Marker(h.newMark));
    ScanAppend(c, [HunkLine(h)], minus + Marker(h.oldMark));
    ScanAppend(atHunk, minus, Marker(h.oldMark));
    ScanRemoved(atHunk, h.removed);
    var removed := Scan(atHunk, minus);
    MarkerStep(removed, h.oldMark);
    ScanAppend(removed, plus, Marker(h.newMark));
    ScanAdded(removed, h.added);
    MarkerStep(Scan(removed, plus), h.newMark);
  }

  function Removed(path: string, hs: seq<Hunk>): set<LineKey> {
    if hs == [] then {} else Removed(path, hs[..|hs| - 1]) + HunkLeft(path, hs[|hs| - 1])
  }

  function Added(path: string, hs: seq<Hunk>): set<LineKey> {
    if hs == [] then {} else Added(path, hs[..|hs| - 1]) + HunkRight(path, hs[|hs| - 1])
  }

  ghost predicate SmallStarts(hs: seq<Hunk>) {
    forall h :: h in hs ==> h.oldStart <= MAX_INT && h.newStart <= MAX_INT
  }

  lemma {:induction false} ScanHunks(c: Cursor, hs: seq<Hunk>)
    requires SmallStarts(hs)
    ensures var d := Scan(c, PrintedHunks(hs));
      && d.oldPath == c.oldPath && d.newPath == c.newPath
      && d.left == c.left + Removed(c.oldPath, hs) && d.right == c.right + Added(c.newPath, hs)
  {
    if hs != [] {
      var n := |hs| - 1;
      assert hs[n] in hs;
      ScanHunks(c, hs[..n]);
      ScanAppend(c, PrintedHunks(hs[..n]), PrintedHunk(hs[n]));
      ScanHunk(Scan(c, PrintedHunks(hs[..n])), hs[n]);
    }
  }

  // ----- File names -----

  lemma {:induction false} BeforeTabOf(s: string, tail: string)
    requires '\t' !in s && (tail == "" || tail[0] == '\t')
    ensures BeforeTab(s + tail) == s
  {
    if s == "" {
      assert s + tail == tail;
    } else {
      assert s[0] in s;
      assert forall c :: c in s[1..] ==> c in s;
      BeforeTabOf(s[1..], tail);
      assert (s + tail)[1..] == s[1..] + tail;
      assert s == [s[0]] + s[1..];
    }
  }

  /** The name a finding must use on the left side. */
  function LeftName(path: string): string { TrimPrefix("b/", path) }

  function SideName(name: string, present: bool): string { if present then name else "" }

  lemma PathLine(mark: string, side: string, path: string)
    requires |mark| == 4 && '\t' !in side && PlainPath(path) && |side| == 2 && side[0] != '/'
    ensures HeaderPath(NameLine(mark, side, path, true)) == TrimPrefix("b/", TrimPrefix("a/", side + path))
  {
    var tail := if ' ' in path then "\t" else "";
    var line := NameLine(mark, side, path, true);
    assert line == mark + ((side + path) + tail);
    assert line[4..] == (side + path) + tail;
    BeforeTabOf(side + path, tail);
    assert (side + path)[0] == side[0];
  }

  lemma AbsentLine(mark: string, side: string, path: string)
    requires |mark| == 4
    ensures HeaderPath(NameLine(mark, side, path, false)) == ""
  {
    var line := NameLine(mark, side, path, false);
    assert line[4..] == "/dev/null" + "";
    BeforeTabOf("/dev/null", "");
  }

  lemma NamesRead(path: string, onLeft: bool, onRight: bool)
    requires PlainPath(path)
    ensures HeaderPath(NameLine("--- ", "a/", path, onLeft)) == SideName(LeftName(path), onLeft)
    ensures HeaderPath(NameLine("+++ ", "b/", path, onRight)) == SideName(path, onRight)
  {
    if onLeft {
      PathLine("--- ", "a/", path);
      PrefixOfConcat("a/", path);
    } else {
      AbsentLine("--- ", "a/", path);
    }
    if onRight {
      PathLine("+++ ", "b/", path);
      PrefixOfConcat("b/", path);
      assert !Prefix("a/", "b/" + path) by { assert ("b/" + path)[0] == 'b'; }
    } else {
      AbsentLine("+++ ", "b/", path);
    }
  }

  lemma NameStep(c: Cursor, path: string, onLeft: bool, onRight: bool)
    requires !c.inHunk && PlainPath(path)
    ensures Scan(c, [NameLine("--- ", "a/", path, onLeft), NameLine("+++ ", "b/", path, onRight)])
         == c.(oldPath := SideName(LeftName(path), onLeft), newPath := SideName(path, onRight))
  {
    var minus, plus := NameLine("--- ", "a/", path, onLeft), NameLine("+++ ", "b/", path, onRight);
    NamesRead(path, onLeft, onRight);
    assert minus[0] == '-' && plus[0] == '+';
    assert Prefix("--- ", minus) && Prefix("+++ ", plus);
    assert !Prefix("diff --git ", minus) && !Prefix("diff --git ", plus) && !Prefix("--- ", plus);
    ScanOne(c, minus);
    assert [minus, plus][..1] == [minus];
  }

  lemma {:induction false} ScanExtended(c: Cursor, lines: seq<string>)
    requires !c.inHunk && forall l :: l in lines ==> ExtendedHeader(l)
    ensures Scan(c, lines) == c
  {
    if lines != [] {
      var n := |lines| - 1;
      assert lines[n] in lines;
      ScanExtended(c, lines[..n]);
    }
  }

  lemma ScanHeader(c: Cursor, f: FileDiff)
    requires Printable(f)
    ensures Scan(c, PrintedHeader(f)) == c.(oldPath := "", newPath := "", inHunk := false)
  {
    var first := "diff --git a/" + f.path + " b/" + f.path;
    var cleared := c.(oldPath := "", newPath := "", inHunk := false);
    assert first == "diff --git " + ("a/" + f.path + " b/" + f.path);
    assert Prefix("diff --git ", first);
    ScanOne(c, first);
    assert Scan(c, [first]) == cleared;
    ScanAppend(c, [first], f.extended);
    ScanExtended(cleared, f.extended);
  }

  function FileLeft(name: string, f: FileDiff): set<LineKey> { if f.onLeft then Removed(name, f.hunks) else {} }

  function FileRight(f: FileDiff): set<LineKey> { if f.onRight then Added(f.path, f.hunks) else {} }

  lemma {:induction false} NothingWithoutName(hs: seq<Hunk>)
    ensures Removed("", hs) == {} && Added("", hs) == {}
  {
    if hs != [] { NothingWithoutName(hs[..|hs| - 1]); }
  }

  lemma ScanFile(c: Cursor, f: FileDiff)
    requires Printable(f)
    ensures var d := Scan(c, PrintedFile(f));
      d.left == c.left + FileLeft(LeftName(f.path), f) && d.right == c.right + FileRight(f)
  {
    ScanHeader(c, f);
    var header := Scan(c, PrintedHeader(f));
    if f.hunks == [] {
      assert PrintedFile(f) == PrintedHeader(f);
    } else {
      ScanAppend(c, PrintedHeader(f), PrintedNames(f) + PrintedHunks(f.hunks));
      ScanAppend(header, PrintedNames(f), PrintedHunks(f.hunks));
      NameStep(header, f.path, f.onLeft, f.onRight);
      ScanHunks(Scan(header, PrintedNames(f)), f.hunks);
      NothingWithoutName(f.hunks);
    }
  }

  // ----- The lines of a diff -----

  function LeftLines(fs: seq<FileDiff>): set<LineKey> {
    if fs == [] then {} else LeftLines(fs[..|fs| - 1]) + FileLeft(fs[|fs| - 1].path, fs[|fs| - 1])
  }

  function RightLines(fs: seq<FileDiff>): set<LineKey> {
    if fs == [] then {} else RightLines(fs[..|fs| - 1]) + FileRight(fs[|fs| - 1])
  }

  /** The removed lines under the names the parser gives them. */
  function LeftRead(fs: seq<FileDiff>): set<LineKey> {
    if fs == [] then {} else LeftRead(fs[..|fs| - 1]) + FileLeft(LeftName(fs[|fs| - 1].path), fs[|fs| - 1])
  }

  lemma {:induction false} PrintedFilesRead(fs: seq<FileDiff>)
    requires forall f :: f in fs ==> Printable(f)
    ensures AllowedBy(Scan(START, PrintedFiles(fs))) == Allowed(LeftRead(fs), RightLines(fs))
  {
    if fs != [] {
      var n := |fs| - 1;
      assert fs[n] in fs;
      PrintedFilesRead(fs[..n]);
      ScanAppend(START, PrintedFiles(fs[..n]), PrintedFile(fs[n]));
      ScanFile(Scan(START, PrintedFiles(fs[..n])), fs[n]);
    }
  }

  lemma ScanEmptyLine(c: Cursor)
    ensures AllowedBy(Step(c, "")) == AllowedBy(c)
  {
  }

  /** In any printed diff the parser finds exactly the added lines on the right
      and exactly the removed lines, under their left names, on the left,
      whatever the content of the lines looks like. */
  lemma PrintedDiffRead(fs: seq<FileDiff>)
    requires forall f :: f in fs ==> Printable(f)
    ensures AllowedBy(Scan(START, PrintedDiff(fs))) == Allowed(LeftRead(fs), RightLines(fs))
  {
    PrintedFilesRead(fs);
    ScanAppend(START, PrintedFiles(fs), [""]);
    ScanOne(Scan(START, PrintedFiles(fs)), "");
    ScanEmptyLine(Scan(START, PrintedFiles(fs)));
  }

  /** A removed line of a file below a directory named `b`. */
  ghost predicate BelowB(f: FileDiff) {
    f.onLeft && Prefix("b/", f.path) && Removed(f.path, f.hunks) != {}
  }

  lemma {:induction false} LinesNamed(path: string, start: int, n: nat, k: LineKey)
    requires k in LinesAt(path, start, n)
    ensures k.path == path && start <= k.line < start + n
  {
    if k in LinesAt(path, start, n - 1) { LinesNamed(path, start, n - 1, k); }
  }

  lemma {:induction false} LinesRenamed(path: string, other: string, start: int, n: nat, k: LineKey)
    requires k in LinesAt(path, start, n)
    ensures LineKey(other, k.line) in LinesAt(other, start, n)
  {
    if k in LinesAt(path, start, n - 1) {
      LinesRenamed(path, other, start, n - 1, k);
    } else {
      LinesNamed(path, start, n, k);
    }
  }

  lemma {:induction false} RemovedRenamed(path: string, other: string, hs: seq<Hunk>, k: LineKey)
    requires k in Removed(path, hs) && other != ""
    ensures k.path == path != "" && LineKey(other, k.line) in Removed(other, hs)
  {
    var n := |hs| - 1;
    if k in Removed(path, hs[..n]) {
      RemovedRenamed(path, other, hs[..n], k);
    } else {
      LinesNamed(path, hs[n].oldStart, |hs[n].removed|, k);
      LinesRenamed(path, other, hs[n].oldStart, |hs[n].removed|, k);
    }
  }

  lemma {:induction false} LeftReadFrom(fs: seq<FileDiff>, k: LineKey) returns (f: FileDiff)
    requires k in LeftRead(fs)
    ensures f in fs && f.onLeft && k in Removed(LeftName(f.path), f.hunks)
  {
    var n := |fs| - 1;
    if k in LeftRead(fs[..n]) { f := LeftReadFrom(fs[..n], k); } else { f := fs[n]; }
  }

  lemma {:induction false} LeftLinesInto(fs: seq<FileDiff>, f: FileDiff, k: LineKey)
    requires f in fs && f.onLeft && k in Removed(f.path, f.hunks)
    ensures k in LeftLines(fs)
  {
    var n := |fs| - 1;
    if f != fs[n] { LeftLinesInto(fs[..n], f, k); }
  }

  lemma {:induction false} SameUnlessBelowB(fs: seq<FileDiff>)
    requires (forall f :: f in fs ==> !BelowB(f)) && forall f :: f in fs ==> Printable(f)
    ensures LeftRead(fs) == LeftLines(fs)
  {
    if fs != [] {
      var n := |fs| - 1;
      var f := fs[n];
      assert f in fs;
      SameUnlessBelowB(fs[..n]);
      if f.onLeft && Prefix("b/", f.path) {
        assert Removed(f.path, f.hunks) == {};
        forall k | k in Removed(LeftName(f.path), f.hunks) ensures false {
          RemovedRenamed(LeftName(f.path), f.path, f.hunks, k);
        }
      }
    }
  }

  function Longest(fs: seq<FileDiff>): (n: nat)
    ensures forall f :: f in fs ==> |f.path| <= n
  {
    if fs == [] then 0
    else
      var rest, last := Longest(fs[..|fs| - 1]), fs[|fs| - 1];
      assert fs == fs[..|fs| - 1] + [last];
      if |last.path| > rest then |last.path| else rest
  }

  /** Whatever claims a line below `b` must come from a longer such path. */
  lemma {:induction false} BelowBIsLost(fs: seq<FileDiff>, f: FileDiff, k: LineKey)
    requires f in fs && f.onLeft && Prefix("b/", f.path) && k in Removed(f.path, f.hunks)
    ensures LeftRead(fs) != LeftLines(fs)
    decreases Longest(fs) - |f.path|
  {
    LeftLinesInto(fs, f, k);
    if k in LeftRead(fs) {
      var g := LeftReadFrom(fs, k);
      RemovedRenamed(f.path, f.path, f.hunks, k);
      RemovedRenamed(LeftName(g.path), "b/" + f.path, g.hunks, k);
      LongerPath(f.path, g.path);
      BelowBIsLost(fs, g, LineKey(g.path, k.line));
    }
  }

  lemma LongerPath(p: string, q: string)
    requires Prefix("b/", p) && LeftName(q) == p
    ensures q == "b/" + p
  {
    if Prefix("b/", q) { assert q == q[..2] + q[2..]; }
  }

  ghost predicate NoneBelowB(fs: seq<FileDiff>) {
    forall f :: f in fs ==> !BelowB(f)
  }

  /** The lines read are exactly the changed lines when, and only when, no
      removed line belongs to a file below a directory named `b`. */
  lemma PrintedDiffExactly(fs: seq<FileDiff>)
    requires forall f :: f in fs ==> Printable(f)
    ensures AllowedBy(Scan(START, PrintedDiff(fs))) == Allowed(LeftLines(fs), RightLines(fs)) <==> NoneBelowB(fs)
  {
    PrintedDiffRead(fs);
    if NoneBelowB(fs) {
      SameUnlessBelowB(fs);
    } else {
      var f :| f in fs && BelowB(f);
      var k :| k in Removed(f.path, f.hunks);
      BelowBIsLost(fs, f, k);
    }
  }

  /** A line removed from `b/x` is read as a line of `x`. */
  lemma RemovedBelowB()
    ensures var f := FileDiff("b/x", true, true, [], [Hunk(7, ["gone"], false, 6, [], false, "")]);
      AllowedBy(Scan(START, PrintedDiff([f]))) == Allowed({LineKey("x", 7)}, {})
  {
    var h := Hunk(7, ["gone"], false, 6, [], false, "");
    var f := FileDiff("b/x", true, true, [], [h]);
    PrintedDiffRead([f]);
    assert [f][..0] == [] && [h][..0] == [];
    assert LeftName("b/x") == "x";
    assert LinesAt("x", 7, 0) == {} && LinesAt("x", 7, 1) == {LineKey("x", 7)};
    assert Removed("x", [h]) == {LineKey("x", 7)} && Added("b/x", [h]) == {};
  }

  // ----- Anchors -----

  /** Where a finding points; without a path its path did not normalize. */
  datatype Anchor = Anchor(path: Option<string>, side: string, start: int, end: int)

  function SideOf(a: Allowed, side: string): Option<set<LineKey>> {
    if side == "LEFT" then Some(a.left) else if side == "RIGHT" then Some(a.right) else None
  }

  /** The whole range, which is not empty, consists of changed lines. */
  ghost predicate Anchored(a: Anchor, allowed: Allowed) {
    && a.path.Some? && SideOf(allowed, a.side).Some? && a.start <= a.end
    && forall n :: a.start <= n <= a.end ==> LineKey(a.path.value, n) in SideOf(allowed, a.side).value
  }

  method AnchorFails(a: Anchor, allowed: Allowed) returns (failed: bool)
    ensures failed <==> !Anchored(a, allowed)
  {
    if a.path.None? { return true; }
    var side := SideOf(allowed, a.side);
    if side.None? { return true; }
    if a.start > a.end { return true; }
    var line := a.start;
    while line <= a.end
      invariant a.start <= line <= a.end + 1
      invariant forall n :: a.start <= n < line ==> LineKey(a.path.value, n) in side.value
    {
      if LineKey(a.path.value, line) !in side.value { return true; }
      line := line + 1;
    }
    return false;
  }
}
