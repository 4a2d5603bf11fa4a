/**
 * The trailing-whitespace stripper of `tools/strip_trailing_ws.py`: the
 * per-line transform of `strip_file`, its loop over the lines of a file,
 * and the directory filter `should_visit`. Reading and writing the file are
 * not modelled: a file is the list of its lines, each keeping its
 * terminator, as `splitlines(keepends=True)` gives them.
 */
module StripWs {

  /** The directory names whose files are never visited. */
  const Excluded: set<string> := {".venv", "venv", "__pycache__", "build", "dist", ".git"}

  /** The characters `rstrip(' \t')` removes. */
  predicate Blank(c: char) {
    c == ' ' || c == '\t'
  }

  /** `s.rstrip(' \t')`. */
  function TrimEnd(s: string): (r: string)
    ensures |r| <= |s| && r == s[..|r|]
    ensures r == [] || !Blank(r[|r| - 1])
    ensures forall i :: |r| <= i < |s| ==> Blank(s[i])
  {
    if s != [] && Blank(s[|s| - 1]) then TrimEnd(s[..|s| - 1]) else s
  }

  /**
   * The new text of one line: a line ending in a newline loses the spaces
   * and tabs just before that newline and keeps the newline; any other line
   * loses its trailing spaces and tabs.
   */
  function StripLine(line: string): string {
    if line != [] && line[|line| - 1] == '\n' then
      TrimEnd(line[..|line| - 1]) + [line[|line| - 1]]
    else TrimEnd(line)
  }

  /** A line as `splitlines(keepends=True)` yields it: a newline can only be its last character. */
  predicate IsLine(line: string) {
    forall i :: 0 <= i < |line| - 1 ==> line[i] != '\n'
  }

  /** A line whose text before its newline does not end in a space or tab. */
  predicate Stripped(line: string) {
    if line != [] && line[|line| - 1] == '\n' then
      |line| < 2 || !Blank(line[|line| - 2])
    else line == [] || !Blank(line[|line| - 1])
  }

  /**
   * The transform keeps the newline, removes only spaces and tabs at the end
   * of the line's text, and leaves a line with no such trailing characters.
   */
  lemma StripLineShape(line: string)
    requires IsLine(line)
    ensures IsLine(StripLine(line))
    ensures var r := StripLine(line);
      && Stripped(r)
      && ((line != [] && line[|line| - 1] == '\n') <==> (r != [] && r[|r| - 1] == '\n'))
      && (forall i :: 0 <= i < |r| && !(r[i] == '\n' && i == |r| - 1) ==> r[i] == line[i])
  {
    var r := StripLine(line);
    if line != [] && line[|line| - 1] == '\n' {
      var t := TrimEnd(line[..|line| - 1]);
      assert r == t + ['\n'];
      assert r[|r| - 1] == '\n';
    }
  }

  /** Stripping a stripped line changes nothing: the transform is idempotent. */
  lemma StripLineIdempotent(line: string)
    requires IsLine(line)
    ensures StripLine(StripLine(line)) == StripLine(line)
  {
    var r := StripLine(line);
    StripLineShape(line);
    if r != [] && r[|r| - 1] == '\n' {
      var body := r[..|r| - 1];
      assert body == [] || !Blank(body[|body| - 1]);
      assert TrimEnd(body) == body;
      assert r == body + ['\n'];
    } else {
      assert TrimEnd(r) == r;
    }
  }

  /** A line that is already stripped is left exactly as it is. */
  lemma StrippedUnchanged(line: string)
    requires Stripped(line)
    ensures StripLine(line) == line
  {
    if line != [] && line[|line| - 1] == '\n' {
      var body := line[..|line| - 1];
      assert TrimEnd(body) == body;
      assert line == body + ['\n'];
    }
  }

  /** The new lines of a file, one per old line. */
  function StripLines(lines: seq<string>): (r: seq<string>)
    ensures |r| == |lines|
    ensures forall i :: 0 <= i < |lines| ==> r[i] == StripLine(lines[i])
  {
    seq(|lines|, i requires 0 <= i < |lines| => StripLine(lines[i]))
  }

  /** Some line is changed by the transform. */
  predicate AnyChanged(lines: seq<string>) {
    exists i :: 0 <= i < |lines| && StripLine(lines[i]) != lines[i]
  }

  /** The file changes exactly when one of its lines does. */
  lemma ChangedLines(lines: seq<string>)
    ensures StripLines(lines) != lines <==> AnyChanged(lines)
  {
    if AnyChanged(lines) {
      var i :| 0 <= i < |lines| && StripLine(lines[i]) != lines[i];
      assert StripLines(lines)[i] != lines[i];
    }
  }

  /**
   * `strip_file` on a file read as `lines`: the new lines, and whether any
   * line differed, which is when the file would be written back.
   */
  method StripFile(lines: seq<string>) returns (newLines: seq<string>, changed: bool)
    ensures newLines == StripLines(lines)
    ensures changed <==> AnyChanged(lines)
  {
    changed := false;
    newLines := [];
    for i := 0 to |lines|
      invariant newLines == StripLines(lines[..i])
      invariant changed <==> newLines != lines[..i]
    {
      var next, differs := StripStep(lines[i]);
      if differs {
        changed := true;
      }
      StripLinesSnoc(lines, i);
      SnocDiffers(newLines, next, lines[..i], lines[i]);
      newLines := newLines + [next];
    }
    assert lines[..|lines|] == lines;
    ChangedLines(lines);
  }

  lemma StripLinesSnoc(lines: seq<string>, i: nat)
    requires i < |lines|
    ensures lines[..i + 1] == lines[..i] + [lines[i]]
    ensures StripLines(lines[..i + 1]) == StripLines(lines[..i]) + [StripLine(lines[i])]
  {
    assert lines[..i + 1] == lines[..i] + [lines[i]];
  }

  lemma SnocDiffers(a: seq<string>, x: string, b: seq<string>, y: string)
    requires |a| == |b|
    ensures a + [x] != b + [y] <==> a != b || x != y
  {
    if a + [x] == b + [y] {
      assert a == (a + [x])[..|a|] && b == (b + [y])[..|b|];
      assert x == (a + [x])[|a|];
    }
  }

  /** One pass of the loop of `strip_file`: the new line, and whether it differs from the old one. */
  method StripStep(ln: string) returns (next: string, differs: bool)
    ensures next == StripLine(ln)
    ensures differs <==> next != ln
  {
    if ln != [] && ln[|ln| - 1] == '\n' {
      var content := ln[..|ln| - 1];
      var newline := ln[|ln| - 1];
      var newContent := TrimEnd(content);
      differs := newContent != content;
      next := newContent + [newline];
      assert ln == content + [newline];
    } else {
      var newContent := TrimEnd(ln);
      differs := newContent != ln;
      next := newContent;
    }
  }

  /** Stripping a file twice writes nothing the second time. */
  lemma StripFileOnce(lines: seq<string>)
    requires forall i :: 0 <= i < |lines| ==> IsLine(lines[i])
    ensures !AnyChanged(StripLines(lines))
  {
    forall i | 0 <= i < |lines|
      ensures StripLine(StripLines(lines)[i]) == StripLines(lines)[i]
    {
      StripLineIdempotent(lines[i]);
    }
  }

  /** `should_visit` on the parts of a path. */
  predicate ShouldVisit(parts: seq<string>) {
    forall i :: 0 <= i < |parts| ==> parts[i] !in Excluded
  }

  /** A path is skipped exactly when one of its parts is an excluded directory name. */
  lemma ShouldVisitExcluded(parts: seq<string>)
    ensures !ShouldVisit(parts) <==> exists p :: p in parts && p in Excluded
  {
    if !ShouldVisit(parts) {
      var i :| 0 <= i < |parts| && parts[i] in Excluded;
      assert parts[i] in parts;
    }
  }
}
