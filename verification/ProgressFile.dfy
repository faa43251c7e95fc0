/** examples/workflow/operate_nvcf_functions.py: the append-only progress file and how it is read back. */
module ProgressFile {

  /** str.isspace for one character. */
  predicate IsSpace(c: char) {
    var n := c as int;
    || 0x09 <= n <= 0x0d || 0x1c <= n <= 0x20 || n == 0x85 || n == 0xa0 || n == 0x1680
    || 0x2000 <= n <= 0x200a || n == 0x2028 || n == 0x2029 || n == 0x202f || n == 0x205f || n == 0x3000
  }

  /** In text mode a line ends at "\n", "\r" or "\r\n"; the last adds only an empty line, which is skipped. */
  predicate IsBreak(c: char) {
    c == '\n' || c == '\r'
  }

  function LStrip(s: string): string {
    if s != "" && IsSpace(s[0]) then LStrip(s[1..]) else s
  }

  function RStrip(s: string): string {
    if s != "" && IsSpace(s[|s| - 1]) then RStrip(s[..|s| - 1]) else s
  }

  function Strip(s: string): string {
    RStrip(LStrip(s))
  }

  /** The stripped non-blank lines of `content`, where `line` is what has been read of the current line. */
  function ReadLines(content: string, line: string): set<string> {
    if content == "" then
      if Strip(line) == "" then {} else {Strip(line)}
    else if IsBreak(content[0]) then
      (if Strip(line) == "" then {} else {Strip(line)}) + ReadLines(content[1..], "")
    else ReadLines(content[1..], line + [content[0]])
  }

  /** _read_progress_file */
  function FinishedJobs(content: string): set<string> {
    ReadLines(content, "")
  }

  /** What appending `path + "\n"` for each path in turn leaves in the file. */
  function FileOf(paths: seq<string>): string {
    if paths == [] then "" else FileOf(paths[..|paths| - 1]) + paths[|paths| - 1] + "\n"
  }

  /** Non-blank, single-line and unpadded. */
  predicate Clean(path: string) {
    && path != ""
    && !IsSpace(path[0]) && !IsSpace(path[|path| - 1])
    && forall i :: 0 <= i < |path| ==> !IsBreak(path[i])
  }

  lemma {:induction false} LStripFacts(s: string)
    ensures |LStrip(s)| <= |s| && LStrip(s) == s[|s| - |LStrip(s)|..]
    ensures LStrip(s) != "" ==> !IsSpace(LStrip(s)[0])
  {
    hide IsSpace;
    if s != "" && IsSpace(s[0]) {
      LStripFacts(s[1..]);
    }
  }

  lemma {:induction false} LStripTakesSpace(s: string, i: nat)
    requires |LStrip(s)| <= |s| && i < |s| - |LStrip(s)|
    ensures IsSpace(s[i])
  {
    hide IsSpace;
    if i > 0 {
      LStripFacts(s[1..]);
      LStripTakesSpace(s[1..], i - 1);
    }
  }

  lemma {:induction false} RStripFacts(s: string)
    ensures |RStrip(s)| <= |s| && RStrip(s) == s[..|RStrip(s)|]
    ensures RStrip(s) != "" ==> !IsSpace(RStrip(s)[|RStrip(s)| - 1])
  {
    hide IsSpace;
    if s != "" && IsSpace(s[|s| - 1]) {
      RStripFacts(s[..|s| - 1]);
    }
  }

  lemma {:induction false} RStripTakesSpace(s: string, i: nat)
    requires |RStrip(s)| <= i < |s|
    ensures IsSpace(s[i])
  {
    hide IsSpace;
    if i < |s| - 1 {
      RStripTakesSpace(s[..|s| - 1], i);
    }
  }

  lemma LStripSplit(s: string) returns (front: string)
    ensures s == front + LStrip(s) && forall i :: 0 <= i < |front| ==> IsSpace(front[i])
  {
    hide IsSpace;
    hide LStrip;
    LStripFacts(s);
    front := s[..|s| - |LStrip(s)|];
    forall i | 0 <= i < |front|
      ensures IsSpace(front[i])
    {
      LStripTakesSpace(s, i);
    }
  }

  lemma RStripSplit(s: string) returns (back: string)
    ensures s == RStrip(s) + back && forall i :: 0 <= i < |back| ==> IsSpace(back[i])
  {
    hide IsSpace;
    hide RStrip;
    RStripFacts(s);
    back := s[|RStrip(s)|..];
    forall i | 0 <= i < |back|
      ensures IsSpace(back[i])
    {
      RStripTakesSpace(s, |RStrip(s)| + i);
    }
  }

  /** Stripping takes white space off both ends, and leaves text that starts and ends without it. */
  lemma StripMeaning(s: string) returns (front: string, back: string)
    ensures s == front + Strip(s) + back
    ensures forall i :: 0 <= i < |front| ==> IsSpace(front[i])
    ensures forall i :: 0 <= i < |back| ==> IsSpace(back[i])
    ensures Strip(s) != "" ==> !IsSpace(Strip(s)[0]) && !IsSpace(Strip(s)[|Strip(s)| - 1])
  {
    hide IsSpace;
    hide LStrip;
    hide RStrip;
    LStripFacts(s);
    RStripFacts(LStrip(s));
    front := LStripSplit(s);
    back := RStripSplit(LStrip(s));
  }

  /** All white space characters. */
  const SPACES: string :=
    "\t\n\U{000b}\U{000c}\r\U{001c}\U{001d}\U{001e}\U{001f} \U{0085}\U{00a0}\U{1680}" +
    "\U{2000}\U{2001}\U{2002}\U{2003}\U{2004}\U{2005}\U{2006}\U{2007}\U{2008}\U{2009}\U{200a}" +
    "\U{2028}\U{2029}\U{202f}\U{205f}\U{3000}"

  lemma SpaceTable(c: char)
    ensures IsSpace(c) <==> c in SPACES
  {
  }

  /** A stripped non-blank line is a clean path. */
  lemma StripIsClean(line: string)
    requires forall i :: 0 <= i < |line| ==> !IsBreak(line[i])
    ensures Strip(line) != "" ==> Clean(Strip(line))
  {
    LStripFacts(line);
    RStripFacts(LStrip(line));
  }

  /** Whatever the file holds, only clean paths are read from it. */
  lemma {:induction false} ReadsAreClean(content: string, line: string)
    requires forall i :: 0 <= i < |line| ==> !IsBreak(line[i])
    ensures forall p :: p in ReadLines(content, line) ==> Clean(p)
    decreases |content|
  {
    StripIsClean(line);
    if content != "" {
      if IsBreak(content[0]) {
        ReadsAreClean(content[1..], "");
      } else {
        ReadsAreClean(content[1..], line + [content[0]]);
      }
    }
  }

  /** Reading on past a complete line adds what follows to what has been read. */
  lemma {:induction false} ReadPastBreak(before: string, after: string, line: string)
    ensures ReadLines(before + "\n" + after, line) == ReadLines(before, line) + ReadLines(after, "")
    decreases |before|
  {
    var whole := before + "\n" + after;
    if before == "" {
      assert whole[1..] == after;
    } else {
      assert whole[1..] == before[1..] + "\n" + after;
      if IsBreak(whole[0]) {
        ReadPastBreak(before[1..], after, "");
      } else {
        ReadPastBreak(before[1..], after, line + [whole[0]]);
      }
    }
  }

  lemma {:induction false} ReadOneLine(rest: string, line: string)
    requires forall i :: 0 <= i < |rest| ==> !IsBreak(rest[i])
    ensures ReadLines(rest, line) == if Strip(line + rest) == "" then {} else {Strip(line + rest)}
    decreases |rest|
  {
    if rest == "" {
      assert line + rest == line;
    } else {
      ReadOneLine(rest[1..], line + [rest[0]]);
      assert line + [rest[0]] + rest[1..] == line + rest;
    }
  }

  lemma ReadCleanPath(path: string)
    requires Clean(path)
    ensures FinishedJobs(path) == {path}
  {
    assert Strip(path) == path;
    ReadOneLine(path, "");
    assert "" + path == path;
  }

  /** Appending a path adds what that path alone would be read as. */
  lemma AppendIsRead(paths: seq<string>, path: string)
    ensures FinishedJobs(FileOf(paths + [path])) == FinishedJobs(FileOf(paths)) + FinishedJobs(path)
  {
    assert (paths + [path])[..|paths|] == paths;
    var file := FileOf(paths);
    if paths == [] {
      ReadPastBreak(path, "", "");
      assert file + path + "\n" == path + "\n" + "";
    } else {
      var body := file[..|file| - 1];
      assert file == body + "\n";
      ReadPastBreak(body, "", "");
      assert body + "\n" + "" == file;
      ReadPastBreak(body, path + "\n", "");
      ReadPastBreak(path, "", "");
      assert path + "\n" + "" == path + "\n";
      assert body + "\n" + (path + "\n") == file + path + "\n";
    }
  }

  /** A recorded path is recognised on the next start if and only if it is clean, whatever else is in the file. */
  lemma {:induction false} RecognisedIffClean(paths: seq<string>, path: string)
    requires path in paths
    ensures path in FinishedJobs(FileOf(paths)) <==> Clean(path)
  {
    ReadsAreClean(FileOf(paths), "");
    if Clean(path) {
      var init, last := paths[..|paths| - 1], paths[|paths| - 1];
      assert paths == init + [last];
      AppendIsRead(init, last);
      if path == last {
        ReadCleanPath(path);
      } else {
        RecognisedIffClean(init, path);
      }
    }
  }

  /** The file reads back as exactly the paths appended to it if and only if all of them are clean. */
  lemma {:induction false} FileRoundTrip(paths: seq<string>)
    ensures FinishedJobs(FileOf(paths)) == (set p | p in paths) <==> forall p :: p in paths ==> Clean(p)
  {
    if forall p :: p in paths ==> Clean(p) {
      CleanFile(paths);
    } else {
      ReadsAreClean(FileOf(paths), "");
      var p :| p in paths && !Clean(p);
      assert p in (set q | q in paths);
    }
  }

  lemma {:induction false} CleanFile(paths: seq<string>)
    requires forall p :: p in paths ==> Clean(p)
    ensures FinishedJobs(FileOf(paths)) == set p | p in paths
  {
    if paths != [] {
      var init, last := paths[..|paths| - 1], paths[|paths| - 1];
      assert paths == init + [last];
      CleanFile(init);
      AppendIsRead(init, last);
      ReadCleanPath(last);
    }
  }

  /** What is read is what each appended path reads as on its own. */
  lemma {:induction false} FileReadsAs(paths: seq<string>)
    ensures forall q :: q in FinishedJobs(FileOf(paths)) <==> exists p :: p in paths && q in FinishedJobs(p)
  {
    if paths != [] {
      var init, last := paths[..|paths| - 1], paths[|paths| - 1];
      assert paths == init + [last];
      FileReadsAs(init);
      AppendIsRead(init, last);
      forall q
        ensures (exists p :: p in paths && q in FinishedJobs(p)) <==>
                (exists p :: p in init && q in FinishedJobs(p)) || q in FinishedJobs(last)
      {
        assert last in paths;
      }
    }
  }

  /** The lines of a text, cut at every break. */
  function Lines(s: string): (lines: seq<string>)
    ensures lines != []
  {
    if s == "" then [""]
    else
      var rest := Lines(s[1..]);
      if IsBreak(s[0]) then [""] + rest else [[s[0]] + rest[0]] + rest[1..]
  }

  /** The lines are fixed by these two: a text without a break is one line, and a break ends one. */
  lemma {:induction false} LinesOfOne(a: string)
    requires forall i :: 0 <= i < |a| ==> !IsBreak(a[i])
    ensures Lines(a) == [a]
  {
    hide IsBreak;
    if a != "" {
      LinesOfOne(a[1..]);
      assert [a[0]] + a[1..] == a;
    }
  }

  lemma {:induction false} LinesOfParts(a: string, c: char, b: string)
    requires IsBreak(c)
    ensures Lines(a + [c] + b) == Lines(a) + Lines(b)
  {
    hide IsBreak;
    var whole := a + [c] + b;
    if a == "" {
      assert whole[0] == c && whole[1..] == b;
    } else {
      LinesOfParts(a[1..], c, b);
      assert whole[0] == a[0] && whole[1..] == a[1..] + [c] + b;
      LinesStep(a[1..], b, a[0]);
      assert a == [a[0]] + a[1..];
    }
  }

  lemma LinesStep(rest: string, b: string, first: char)
    ensures var joined := Lines(rest) + Lines(b);
            Lines([first] + rest) + Lines(b) ==
            if IsBreak(first) then [""] + joined else [[first] + joined[0]] + joined[1..]
  {
    hide IsBreak;
    assert ([first] + rest)[1..] == rest;
  }

  /** What is read are the stripped lines that are not blank. */
  lemma {:induction false} ReadsStrippedLines(content: string, line: string, q: string)
    ensures q in ReadLines(content, line) <==>
            q != "" && (q == Strip(line + Lines(content)[0])
                        || exists k :: 1 <= k < |Lines(content)| && q == Strip(Lines(content)[k]))
    decreases |content|
  {
    hide Strip;
    if content == "" {
      assert line + "" == line;
    } else {
      var rest, lines := Lines(content[1..]), Lines(content);
      if IsBreak(content[0]) {
        ReadsStrippedLines(content[1..], "", q);
        assert line + lines[0] == line && "" + rest[0] == rest[0] == lines[1];
        assert forall k :: 1 <= k < |lines| ==> lines[k] == rest[k - 1];
        if k :| 1 <= k < |rest| && q == Strip(rest[k]) {
          assert lines[k + 1] == rest[k];
        }
      } else {
        ReadsStrippedLines(content[1..], line + [content[0]], q);
        assert line + lines[0] == line + [content[0]] + rest[0];
        assert forall k :: 1 <= k < |lines| ==> lines[k] == rest[k];
      }
    }
  }

  /** Every line of a path is blank or reads as an appended path. */
  ghost predicate LinesAreListed(path: string, paths: seq<string>) {
    forall k :: 0 <= k < |Lines(path)| ==> Strip(Lines(path)[k]) == "" || Strip(Lines(path)[k]) in paths
  }

  lemma LinesAreListedIff(path: string, paths: seq<string>)
    ensures LinesAreListed(path, paths) <==> forall q :: q in FinishedJobs(path) ==> q in paths
  {
    hide Strip;
    forall q
      ensures q in FinishedJobs(path) <==> q != "" && exists k :: 0 <= k < |Lines(path)| && q == Strip(Lines(path)[k])
    {
      ReadsStrippedLines(path, "", q);
      assert "" + Lines(path)[0] == Lines(path)[0];
    }
    if forall q :: q in FinishedJobs(path) ==> q in paths {
      forall k | 0 <= k < |Lines(path)|
        ensures Strip(Lines(path)[k]) == "" || Strip(Lines(path)[k]) in paths
      {
        assert Strip(Lines(path)[k]) != "" ==> Strip(Lines(path)[k]) in FinishedJobs(path);
      }
    }
  }

  /**
   Nothing but appended paths is read if and only if every line of each path is blank or, stripped,
   an appended path.
   */
  lemma NothingElseIsReadIff(paths: seq<string>)
    ensures FinishedJobs(FileOf(paths)) <= (set p | p in paths) <==>
            forall p :: p in paths ==> LinesAreListed(p, paths)
  {
    FileReadsAs(paths);
    forall p | p in paths
      ensures LinesAreListed(p, paths) <==> forall q :: q in FinishedJobs(p) ==> q in paths
    {
      LinesAreListedIff(p, paths);
    }
    hide LinesAreListed;
    if FinishedJobs(FileOf(paths)) <= (set p | p in paths) {
      forall p, q | p in paths && q in FinishedJobs(p)
        ensures q in paths
      {
        assert q in FinishedJobs(FileOf(paths));
      }
    }
  }

  lemma StripPadded(core: string)
    requires Clean(core)
    ensures Strip(" " + core) == core
  {
    var padded := " " + core;
    assert padded[0] == ' ' && padded[1..] == core;
    assert LStrip(padded) == LStrip(core) == core;
  }

  lemma SingleLine(path: string)
    requires forall i :: 0 <= i < |path| ==> !IsBreak(path[i])
    ensures FinishedJobs(path) == if Strip(path) == "" then {} else {Strip(path)}
  {
    hide Strip;
    hide ReadLines;
    ReadOneLine(path, "");
    assert "" + path == path;
  }

  lemma SinglePath(path: string)
    ensures FinishedJobs(FileOf([path])) == FinishedJobs(path)
  {
    EmptyFile();
    hide FinishedJobs;
    hide FileOf;
    AppendIsRead([], path);
    assert [] + [path] == [path];
  }

  /** A padded path reads as its core: a job of that name is then skipped although it has never run. */
  lemma PaddedPathHidesItsCore(core: string)
    requires Clean(core)
    ensures FinishedJobs(" " + core) == {core}
    ensures FinishedJobs(FileOf([" " + core])) == {core} && core !in [" " + core]
  {
    var padded := " " + core;
    StripPadded(core);
    hide Strip;
    hide FinishedJobs;
    hide FileOf;
    assert |padded| == |core| + 1;
    assert forall i :: 0 <= i < |padded| ==> padded[i] == if i == 0 then ' ' else core[i - 1];
    SingleLine(padded);
    SinglePath(padded);
  }

  lemma EmptyFile()
    ensures FinishedJobs(FileOf([])) == {}
  {
  }

  // ----- a file that was not empty at first -----

  /** Empty, or ended by a line break. */
  predicate Terminated(base: string) {
    base == "" || base[|base| - 1] == '\n'
  }

  /** What is appended behind a complete line is read as if it stood alone. */
  lemma ReadBehind(base: string, after: string)
    requires Terminated(base)
    ensures FinishedJobs(base + after) == FinishedJobs(base) + FinishedJobs(after)
  {
    if base == "" {
      assert base + after == after;
    } else {
      var body := base[..|base| - 1];
      ReadPastBreak(body, after, "");
      ReadPastBreak(body, "", "");
      assert body + "\n" + "" == base && body + "\n" + after == base + after;
    }
  }

  /**
   Behind a line without a break a clean path is recognised if and only if that line is white space,
   or by another line.
   */
  lemma UnfinishedLineIff(base: string, rest: string, path: string)
    requires Terminated(base) && Clean(path)
    requires forall i :: 0 <= i < |rest| ==> !IsBreak(rest[i])
    ensures path in FinishedJobs(base + rest + path + "\n") <==> path in FinishedJobs(base) || Strip(rest) == ""
  {
    assert base + rest + path + "\n" == base + (rest + path + "\n");
    ReadBehind(base, rest + path + "\n");
    ReadPastBreak(rest + path, "", "");
    assert rest + path + "\n" + "" == rest + path + "\n";
    ReadOneLine(rest + path, "");
    assert "" + (rest + path) == rest + path;
    JoinedLine(rest, path);
  }

  lemma {:induction false} JoinedLine(rest: string, path: string)
    requires Clean(path)
    ensures Strip(rest + path) == path <==> Strip(rest) == ""
    ensures Strip(rest + path) != ""
  {
    LStripFacts(rest);
    RStripFacts(LStrip(rest));
    LStripJoined(rest, path);
    var joined := LStrip(rest) + path;
    assert joined[|joined| - 1] == path[|path| - 1];
    assert Strip(rest + path) == joined;
    if LStrip(rest) == "" {
      assert joined == path;
    } else {
      assert |joined| > |path|;
      RStripKeepsStart(LStrip(rest));
    }
  }

  lemma {:induction false} LStripJoined(rest: string, path: string)
    requires Clean(path)
    ensures LStrip(rest + path) == LStrip(rest) + path
  {
    if rest == "" {
      assert rest + path == path;
    } else {
      assert (rest + path)[1..] == rest[1..] + path;
      LStripJoined(rest[1..], path);
    }
  }

  lemma {:induction false} RStripKeepsStart(s: string)
    requires s != "" && !IsSpace(s[0])
    ensures RStrip(s) != ""
  {
    if IsSpace(s[|s| - 1]) {
      RStripKeepsStart(s[..|s| - 1]);
    }
  }
}
