/** The strict V4A patch parser, its printer, and the exact set of texts it accepts. */
module V4APatch {
  import opened Basics

  datatype Line = Context(content: string) | Add(content: string) | Remove(content: string)

  datatype Hunk = Hunk(context: Option<string>, lines: seq<Line>)

  datatype File =
    | AddFile(path: string, added: seq<string>)
    | DeleteFile(path: string)
    | UpdateFile(path: string, moveTo: Option<string>, hunks: seq<Hunk>)

  datatype Patch = Patch(files: seq<File>)

  const BEGIN := "*** Begin Patch"
  const END := "*** End Patch"
  const ADD := "*** Add File: "
  const DELETE := "*** Delete File: "
  const UPDATE := "*** Update File: "
  const MOVE := "*** Move to: "
  const MARKER := "*** End of File"

  // ----- text -----------------------------------------------------------------------

  /** White space and line terminators, which `String.prototype.trim` removes. */
  predicate IsSpace(c: char) {
    || '\U{9}' <= c <= '\U{D}' || c == ' ' || c == '\U{A0}' || c == '\U{1680}'
    || '\U{2000}' <= c <= '\U{200A}' || c == '\U{2028}' || c == '\U{2029}' || c == '\U{202F}'
    || c == '\U{205F}' || c == '\U{3000}' || c == '\U{FEFF}'
  }

  function Trim(s: string): string
    decreases |s|
  {
    if s == "" then s
    else if IsSpace(s[0]) then Trim(s[1..])
    else if IsSpace(s[|s| - 1]) then Trim(s[..|s| - 1])
    else s
  }

  function DropCr(s: string): string {
    if s != "" && s[|s| - 1] == '\r' then s[..|s| - 1] else s
  }

  /** `value.split(/\r?\n/)`, with the characters of the current line so far in `line`. */
  function Split(value: string, line: string): seq<string>
    decreases |value|
  {
    if value == "" then [line]
    else if value[0] == '\n' then [DropCr(line)] + Split(value[1..], "")
    else Split(value[1..], line + [value[0]])
  }

  function NormalizedLines(value: string): seq<string> {
    var lines := Split(value, "");
    if lines != [] && lines[|lines| - 1] == "" then lines[..|lines| - 1] else lines
  }

  function Join(lines: seq<string>): string {
    if lines == [] then "" else if |lines| == 1 then lines[0] else lines[0] + "\n" + Join(lines[1..])
  }

  predicate NoNewline(line: string) {
    forall i :: 0 <= i < |line| ==> line[i] != '\n'
  }

  /** A line that survives being split off again. */
  predicate Clean(line: string) {
    && NoNewline(line)
    && (line != "" ==> line[|line| - 1] != '\r')
  }

  lemma {:induction false} SplitPrefix(line: string, rest: string, seen: string)
    requires NoNewline(line)
    ensures Split(line + rest, seen) == Split(rest, seen + line)
    decreases |line|
  {
    if line == "" {
      assert line + rest == rest && seen + line == seen;
    } else {
      assert (line + rest)[1..] == line[1..] + rest;
      SplitPrefix(line[1..], rest, seen + [line[0]]);
      assert seen + [line[0]] + line[1..] == seen + line;
    }
  }

  lemma {:induction false} SplitFirst(line: string, rest: string)
    requires Clean(line)
    ensures Split(line + "\n" + rest, "") == [line] + Split(rest, "")
    ensures Split(line, "") == [line]
  {
    var tail := "\n" + rest;
    SplitPrefix(line, tail, "");
    assert line + "\n" + rest == line + tail && tail[1..] == rest && "" + line == line;
    SplitPrefix(line, "", "");
    assert line + "" == line;
  }

  lemma {:induction false} SplitJoin(lines: seq<string>)
    requires lines != [] && forall i :: 0 <= i < |lines| ==> Clean(lines[i])
    ensures Split(Join(lines), "") == lines
    ensures Split(Join(lines) + "\n", "") == lines + [""]
    decreases |lines|
  {
    var first := lines[0];
    if |lines| == 1 {
      SplitFirst(first, "");
      assert first + "\n" + "" == first + "\n";
    } else {
      var rest := Join(lines[1..]);
      SplitJoin(lines[1..]);
      SplitFirst(first, rest);
      SplitFirst(first, rest + "\n");
      assert first + "\n" + rest + "\n" == first + "\n" + (rest + "\n");
      assert [first] + lines[1..] == lines && [first] + (lines[1..] + [""]) == lines + [""];
    }
  }

  /** White space, code point by code point. */
  lemma {:induction false} SpacesAre(c: char)
    ensures IsSpace(c) <==>
              var n := c as int;
              || 9 <= n <= 13 || n == 32 || n == 160 || n == 5760 || 8192 <= n <= 8202
              || n == 8232 || n == 8233 || n == 8239 || n == 8287 || n == 12288 || n == 65279
  {
  }

  /** Trimming removes exactly the white space at both ends. */
  lemma {:induction false} TrimMeans(s: string) returns (before: string, after: string)
    ensures s == before + Trim(s) + after
    ensures (forall c :: c in before ==> IsSpace(c)) && (forall c :: c in after ==> IsSpace(c))
    ensures Trim(s) != "" ==> !IsSpace(Trim(s)[0]) && !IsSpace(Trim(s)[|Trim(s)| - 1])
    decreases |s|
  {
    before, after := "", "";
    if s == "" {
    } else if IsSpace(s[0]) {
      before, after := TrimMeans(s[1..]);
      before := [s[0]] + before;
      assert s == [s[0]] + s[1..];
    } else if IsSpace(s[|s| - 1]) {
      before, after := TrimMeans(s[..|s| - 1]);
      after := after + [s[|s| - 1]];
      assert s == s[..|s| - 1] + [s[|s| - 1]];
    }
  }

  /** Lines, each with its terminator. */
  function Terminated(lines: seq<string>, ends: seq<string>): string
    requires |lines| == |ends|
  {
    if lines == [] then "" else lines[0] + ends[0] + Terminated(lines[1..], ends[1..])
  }

  /** Either terminator; a line before a bare newline does not end in a carriage return. */
  predicate Terminates(line: string, end: string) {
    '\n' !in line && (end == "\r\n" || (end == "\n" && (line != "" ==> line[|line| - 1] != '\r')))
  }

  lemma {:induction false} TerminatedSplits(lines: seq<string>, ends: seq<string>, last: string)
    requires |lines| == |ends| && '\n' !in last
    requires forall i :: 0 <= i < |lines| ==> Terminates(lines[i], ends[i])
    ensures Split(Terminated(lines, ends) + last, "") == lines + [last]
    decreases |lines|
  {
    if lines == [] {
      SplitPrefix(last, "", "");
      assert "" + last == last && last + "" == last;
    } else {
      var rest := Terminated(lines[1..], ends[1..]) + last;
      assert Terminated(lines, ends) + last == lines[0] + ends[0] + rest;
      assert Terminates(lines[0], ends[0]);
      OneLine(lines[0], ends[0], rest);
      TerminatedSplits(lines[1..], ends[1..], last);
      assert lines + [last] == [lines[0]] + (lines[1..] + [last]);
    }
  }

  lemma {:induction false} OneLine(line: string, end: string, rest: string)
    requires Terminates(line, end)
    ensures Split(line + end + rest, "") == [line] + Split(rest, "")
  {
    var seen := if end == "\n" then line else line + "\r";
    var tail := "\n" + rest;
    assert line + end + rest == seen + tail && tail[1..] == rest;
    SplitPrefix(seen, tail, "");
    assert "" + seen == seen;
    assert DropCr(seen) == line;
  }

  /** The lines of a text are the lines it is made of, with either terminator after each, whether
      or not the last one is terminated. */
  lemma {:induction false} LinesOfText(lines: seq<string>, ends: seq<string>, last: string)
    requires |lines| == |ends| && '\n' !in last
    requires forall i :: 0 <= i < |lines| ==> Terminates(lines[i], ends[i])
    ensures NormalizedLines(Terminated(lines, ends) + last) == if last == "" then lines else lines + [last]
  {
    TerminatedSplits(lines, ends, last);
    assert (lines + [last])[..|lines|] == lines;
  }

  // ----- classifying one line --------------------------------------------------------

  function PathAfterHeader(line: string, header: string): Option<string>
    requires header <= line
  {
    var path := Trim(line[|header|..]);
    if path == "" then None else Some(path)
  }

  function PatchLine(line: string): Option<Line> {
    if " " <= line then Some(Context(line[1..]))
    else if "+" <= line then Some(Add(line[1..]))
    else if "-" <= line then Some(Remove(line[1..]))
    else None
  }

  predicate IsFileOperationHeader(line: string) {
    ADD <= line || DELETE <= line || UPDATE <= line
  }

  datatype Op = AddOp | DeleteOp | UpdateOp

  /** What a line is, whatever surrounds it.  A blank path is kept here as "". */
  datatype Token =
    | FileHeader(op: Op, path: string)
    | MoveHeader(path: string)
    | HunkStart(context: Option<string>)
    | Body(line: Line)
    | Marker
    | Junk

  function Classify(line: string): Token {
    if ADD <= line then FileHeader(AddOp, Trim(line[|ADD|..]))
    else if DELETE <= line then FileHeader(DeleteOp, Trim(line[|DELETE|..]))
    else if UPDATE <= line then FileHeader(UpdateOp, Trim(line[|UPDATE|..]))
    else if MOVE <= line then MoveHeader(Trim(line[|MOVE|..]))
    else if line == MARKER then Marker
    else if line == "@@" then HunkStart(None)
    else if "@@ " <= line then HunkStart(Some(line[3..]))
    else match PatchLine(line)
      case Some(l) => Body(l)
      case None => Junk
  }

  function Tokens(lines: seq<string>): seq<Token>
  {
    Map(Classify, lines)
  }

  lemma {:induction false} TokenAt(lines: seq<string>, i: nat)
    requires i < |lines|
    ensures Tokens(lines)[i] == Classify(lines[i])
  {
    MapAt(Classify, lines, i);
  }

  lemma {:induction false} TokensOf(lines: seq<string>, ts: seq<Token>)
    requires |ts| == |lines| && forall i :: 0 <= i < |ts| ==> ts[i] == Classify(lines[i])
    ensures Tokens(lines) == ts
  {
    forall i | 0 <= i < |ts| ensures Tokens(lines)[i] == ts[i] {
      TokenAt(lines, i);
    }
  }

  /** The parser's tests on a line, in whatever order it makes them, see its one token. */
  lemma {:induction false} Classification(line: string)
    ensures ADD <= line <==> Classify(line).FileHeader? && Classify(line).op == AddOp
    ensures DELETE <= line <==> Classify(line).FileHeader? && Classify(line).op == DeleteOp
    ensures UPDATE <= line <==> Classify(line).FileHeader? && Classify(line).op == UpdateOp
    ensures MOVE <= line <==> Classify(line).MoveHeader?
    ensures line == MARKER <==> Classify(line).Marker?
    ensures line == "@@" || "@@ " <= line <==> Classify(line).HunkStart?
    ensures Classify(line).HunkStart? ==>
              Classify(line).context == if |line| == 2 then None else Some(line[3..])
    ensures "+" <= line <==> Classify(line).Body? && Classify(line).line.Add?
    ensures Classify(line).Body? ==> PatchLine(line) == Some(Classify(line).line)
    ensures Classify(line).Junk? || Classify(line).MoveHeader? ==> PatchLine(line) == None
  {
    assert ADD[4] == 'A' && DELETE[4] == 'D' && UPDATE[4] == 'U' && MOVE[4] == 'M' && MARKER[4] == 'E';
    assert ADD[0] == DELETE[0] == UPDATE[0] == MOVE[0] == MARKER[0] == '*';
    assert " " <= line ==> line[0] == ' ';
    assert "+" <= line <==> line != "" && line[0] == '+';
    assert "-" <= line ==> line[0] == '-';
  }

  // ----- the grammar, over tokens ----------------------------------------------------------

  function Prepend<T, R>(done: seq<T>, more: Option<(seq<T>, R)>): Option<(seq<T>, R)> {
    if more.Some? then Some((done + more.value.0, more.value.1)) else None
  }

  lemma {:induction false} PrependFacts<T, R>(done: seq<T>, x: T, more: Option<(seq<T>, R)>)
    ensures Prepend([], more) == more
    ensures Prepend(done, Prepend([x], more)) == Prepend(done + [x], more)
  {
    if more.Some? {
      assert [] + more.value.0 == more.value.0;
      assert done + ([x] + more.value.0) == done + [x] + more.value.0;
    }
  }

  lemma {:induction false} PrependNothing<T, R>(done: seq<T>, rest: R)
    ensures Prepend(done, Some(([], rest))) == Some((done, rest))
  {
    assert done + [] == done;
  }

  function ParseAdded(ts: seq<Token>): (r: Option<(seq<string>, seq<Token>)>)
    ensures r.Some? ==> |r.value.1| <= |ts|
  {
    if ts == [] || ts[0].FileHeader? then Some(([], ts))
    else if !(ts[0].Body? && ts[0].line.Add?) then None
    else Prepend([ts[0].line.content], ParseAdded(ts[1..]))
  }

  function ParseHunkLines(ts: seq<Token>): (r: Option<(seq<Line>, seq<Token>)>)
    ensures r.Some? ==> |r.value.1| <= |ts|
  {
    if ts == [] || ts[0].FileHeader? || ts[0].HunkStart? then Some(([], ts))
    else if ts[0].Marker? then Some(([], ts[1..]))
    else if !ts[0].Body? then None
    else Prepend([ts[0].line], ParseHunkLines(ts[1..]))
  }

  function ParseHunks(ts: seq<Token>): (r: Option<(seq<Hunk>, seq<Token>)>)
    ensures r.Some? ==> |r.value.1| <= |ts|
    decreases |ts|
  {
    if ts == [] || ts[0].FileHeader? then Some(([], ts))
    else if !ts[0].HunkStart? then None
    else match ParseHunkLines(ts[1..])
      case None => None
      case Some((lines, rest)) =>
        if lines == [] then None else Prepend([Hunk(ts[0].context, lines)], ParseHunks(rest))
  }

  function ParseFile(ts: seq<Token>): (r: Option<(File, seq<Token>)>)
    requires ts != []
    ensures r.Some? ==> |r.value.1| < |ts|
  {
    if !ts[0].FileHeader? || ts[0].path == "" then None
    else
      var path := ts[0].path;
      match ts[0].op
      case AddOp =>
        (match ParseAdded(ts[1..])
         case None => None
         case Some((added, rest)) => Some((AddFile(path, added), rest)))
      case DeleteOp => Some((DeleteFile(path), ts[1..]))
      case UpdateOp =>
        var moved := |ts| > 1 && ts[1].MoveHeader?;
        if moved && ts[1].path == "" then None
        else
          (match ParseHunks(if moved then ts[2..] else ts[1..])
           case None => None
           case Some((hunks, rest)) =>
             if hunks == [] then None
             else Some((UpdateFile(path, if moved then Some(ts[1].path) else None, hunks), rest)))
  }

  function ParseFiles(ts: seq<Token>): Option<seq<File>>
    decreases |ts|
  {
    if ts == [] then Some([])
    else match ParseFile(ts)
      case None => None
      case Some((file, rest)) =>
        match ParseFiles(rest)
        case None => None
        case Some(files) => Some([file] + files)
  }

  function ParseText(value: string): Option<Patch> {
    var lines := NormalizedLines(value);
    if |lines| < 2 || lines[0] != BEGIN || lines[|lines| - 1] != END then None
    else match ParseFiles(Tokens(lines[1..|lines| - 1]))
      case None => None
      case Some(files) => if files == [] then None else Some(Patch(files))
  }

  // ----- the parser: nested index loops over lines --------------------------------------------

  method ParseAddedLoop(lines: seq<string>, start: nat, end: nat)
    returns (ok: bool, added: seq<string>, index: nat)
    requires start <= end <= |lines|
    ensures start <= index <= end
    ensures ParseAdded(Tokens(lines)[start..end]) == if ok then Some((added, Tokens(lines)[index..end])) else None
  {
    ghost var ts := Tokens(lines);
    index, added := start, [];
    PrependFacts([], "", ParseAdded(ts[start..end]));
    while index < end
      invariant start <= index <= end
      invariant ParseAdded(ts[start..end]) == Prepend(added, ParseAdded(ts[index..end]))
    {
      var line := lines[index];
      Classification(line);
      TokenAt(lines, index);
      SliceTail(ts, index, end);
      if IsFileOperationHeader(line) {
        break;
      }
      if !("+" <= line) {
        return false, [], index;
      }
      PrependFacts(added, line[1..], ParseAdded(ts[index + 1..end]));
      added := added + [line[1..]];
      index := index + 1;
    }
    ok := true;
    PrependNothing(added, ts[index..end]);
  }

  method ParseHunkLinesLoop(lines: seq<string>, start: nat, end: nat)
    returns (ok: bool, hunkLines: seq<Line>, index: nat)
    requires start <= end <= |lines|
    ensures start <= index <= end
    ensures ParseHunkLines(Tokens(lines)[start..end]) ==
            if ok then Some((hunkLines, Tokens(lines)[index..end])) else None
  {
    ghost var ts := Tokens(lines);
    index, hunkLines := start, [];
    PrependFacts([], Add(""), ParseHunkLines(ts[start..end]));
    while index < end
      invariant start <= index <= end
      invariant ParseHunkLines(ts[start..end]) == Prepend(hunkLines, ParseHunkLines(ts[index..end]))
    {
      var line := lines[index];
      Classification(line);
      TokenAt(lines, index);
      SliceTail(ts, index, end);
      if line == MARKER {
        PrependNothing(hunkLines, ts[index + 1..end]);
        index := index + 1;
        return true, hunkLines, index;
      }
      if IsFileOperationHeader(line) || line == "@@" || "@@ " <= line {
        break;
      }
      var parsed := PatchLine(line);
      if parsed == None {
        return false, [], index;
      }
      PrependFacts(hunkLines, parsed.value, ParseHunkLines(ts[index + 1..end]));
      hunkLines := hunkLines + [parsed.value];
      index := index + 1;
    }
    ok := true;
    PrependNothing(hunkLines, ts[index..end]);
  }

  method ParseHunksLoop(lines: seq<string>, start: nat, end: nat)
    returns (ok: bool, hunks: seq<Hunk>, index: nat)
    requires start <= end <= |lines|
    ensures start <= index <= end
    ensures ParseHunks(Tokens(lines)[start..end]) == if ok then Some((hunks, Tokens(lines)[index..end])) else None
  {
    ghost var ts := Tokens(lines);
    index, hunks := start, [];
    PrependFacts([], Hunk(None, []), ParseHunks(ts[start..end]));
    while index < end
      invariant start <= index <= end
      invariant ParseHunks(ts[start..end]) == Prepend(hunks, ParseHunks(ts[index..end]))
    {
      var hunkHeader := lines[index];
      Classification(hunkHeader);
      TokenAt(lines, index);
      SliceTail(ts, index, end);
      if IsFileOperationHeader(hunkHeader) {
        break;
      }
      if hunkHeader != "@@" && !("@@ " <= hunkHeader) {
        return false, [], index;
      }
      var context := if |hunkHeader| == 2 then None else Some(hunkHeader[3..]);
      index := index + 1;
      var hunkOk, hunkLines;
      hunkOk, hunkLines, index := ParseHunkLinesLoop(lines, index, end);
      if !hunkOk || |hunkLines| == 0 {
        return false, [], index;
      }
      PrependFacts(hunks, Hunk(context, hunkLines), ParseHunks(ts[index..end]));
      hunks := hunks + [Hunk(context, hunkLines)];
    }
    ok := true;
    PrependNothing(hunks, ts[index..end]);
  }

  /** The body of the outer loop: one file operation at `start`. */
  method ParseFileAt(lines: seq<string>, start: nat, end: nat) returns (file: Option<File>, index: nat)
    requires start < end < |lines| && lines[end] == END
    ensures start <= index <= end
    ensures ParseFile(Tokens(lines)[start..end]) ==
            if file.Some? then Some((file.value, Tokens(lines)[index..end])) else None
    ensures file.Some? ==> start < index
  {
    ghost var ts := Tokens(lines);
    index := start;
    var header := lines[index];
    Classification(header);
    TokenAt(lines, index);
    SliceTail(ts, start, end);
    if ADD <= header {
      var path := PathAfterHeader(header, ADD);
      if path == None {
        return None, index;
      }
      var ok, added;
      ok, added, index := ParseAddedLoop(lines, index + 1, end);
      return if ok then Some(AddFile(path.value, added)) else None, index;
    }
    if DELETE <= header {
      var path := PathAfterHeader(header, DELETE);
      if path == None {
        return None, index;
      }
      index := index + 1;
      return Some(DeleteFile(path.value)), index;
    }
    if UPDATE <= header {
      var path := PathAfterHeader(header, UPDATE);
      if path == None {
        return None, index;
      }
      var moved, moveTo;
      moved, moveTo, index := ParseMoveAt(lines, index + 1, end);
      if moved && moveTo == None {
        return None, index;
      }
      var ok, hunks;
      ok, hunks, index := ParseHunksLoop(lines, index, end);
      return if ok && |hunks| > 0 then Some(UpdateFile(path.value, moveTo, hunks)) else None, index;
    }
    return None, index;
  }

  /** The optional move header; the closing fence is not one, so reading it is harmless. */
  method ParseMoveAt(lines: seq<string>, start: nat, end: nat)
    returns (moved: bool, moveTo: Option<string>, index: nat)
    requires start <= end < |lines| && lines[end] == END
    ensures start <= index <= end
    ensures var ts := Tokens(lines)[start..end];
            && (moved <==> ts != [] && ts[0].MoveHeader?)
            && (moveTo.Some? ==> moved && ts[0] == MoveHeader(moveTo.value) && moveTo.value != "")
            && (moved && moveTo == None ==> ts[0].path == "")
            && Tokens(lines)[index..end] == if moveTo.Some? then ts[1..] else ts
  {
    index, moved, moveTo := start, MOVE <= lines[start], None;
    Classification(lines[index]);
    TokenAt(lines, index);
    if moved {
      assert index < end by { assert lines[index][4] == 'M' && END[4] == 'E'; }
      SliceTail(Tokens(lines), index, end);
      moveTo := PathAfterHeader(lines[index], MOVE);
      if moveTo != None {
        index := index + 1;
      }
    }
  }

  function After(done: seq<File>, more: Option<seq<File>>): Option<seq<File>> {
    if more.Some? then Some(done + more.value) else None
  }

  lemma {:induction false} AfterFacts(done: seq<File>, ts: seq<Token>)
    ensures After([], ParseFiles(ts)) == ParseFiles(ts)
    ensures ts == [] ==> After(done, ParseFiles(ts)) == Some(done)
    ensures ts != [] && ParseFile(ts) == None ==> After(done, ParseFiles(ts)) == None
    ensures ts != [] && ParseFile(ts).Some? ==>
              var (file, rest) := ParseFile(ts).value;
              After(done, ParseFiles(ts)) == After(done + [file], ParseFiles(rest))
  {
    if ParseFiles(ts).Some? {
      assert [] + ParseFiles(ts).value == ParseFiles(ts).value;
    }
    assert done + [] == done;
    if ts != [] && ParseFile(ts).Some? {
      var (file, rest) := ParseFile(ts).value;
      if ParseFiles(rest).Some? {
        Assoc(done, [file], ParseFiles(rest).value);
      }
    }
  }

  /** The parser computes the grammar above; termination of its index loops is part of the proof. */
  method ParseV4APatch(value: string) returns (r: Option<Patch>)
    ensures r == ParseText(value)
  {
    var lines := NormalizedLines(value);
    if |lines| < 2 || lines[0] != BEGIN || lines[|lines| - 1] != END {
      return None;
    }
    ghost var ts := Tokens(lines);
    var files := [];
    var index, end := 1, |lines| - 1;
    MapSlice(Classify, lines, 1, end);
    AfterFacts([], ts[1..end]);
    while index < end
      invariant 1 <= index <= end
      invariant ParseFiles(ts[1..end]) == After(files, ParseFiles(ts[index..end]))
    {
      AfterFacts(files, ts[index..end]);
      var file;
      file, index := ParseFileAt(lines, index, end);
      if file == None {
        return None;
      }
      files := files + [file.value];
    }
    AfterFacts(files, ts[index..end]);
    r := if |files| > 0 then Some(Patch(files)) else None;
  }

  // ----- what the grammar accepts, exactly -----------------------------------------------------

  function Bodies(lines: seq<Line>): seq<Token> {
    seq(|lines|, i requires 0 <= i < |lines| => Body(lines[i]))
  }

  function AddedTokens(added: seq<string>): seq<Token> {
    seq(|added|, i requires 0 <= i < |added| => Body(Add(added[i])))
  }

  /** A hunk is its header, its lines (at least one) and optionally the end-of-file marker. */
  predicate RendersHunk(hunk: Hunk, ts: seq<Token>) {
    && hunk.lines != []
    && (ts == [HunkStart(hunk.context)] + Bodies(hunk.lines)
        || ts == [HunkStart(hunk.context)] + Bodies(hunk.lines) + [Marker])
  }

  ghost predicate RendersHunks(hunks: seq<Hunk>, ts: seq<Token>) {
    if hunks == [] then ts == []
    else exists k :: 0 <= k <= |ts| && RendersHunk(hunks[0], ts[..k]) && RendersHunks(hunks[1..], ts[k..])
  }

  ghost predicate RendersFile(file: File, ts: seq<Token>) {
    ts != [] && file.path != "" &&
    match file
    case AddFile(path, added) => ts == [FileHeader(AddOp, path)] + AddedTokens(added)
    case DeleteFile(path) => ts == [FileHeader(DeleteOp, path)]
    case UpdateFile(path, moveTo, hunks) =>
      && ts[0] == FileHeader(UpdateOp, path)
      && hunks != []
      && (if moveTo == None then RendersHunks(hunks, ts[1..])
          else |ts| > 1 && moveTo.value != "" && ts[1] == MoveHeader(moveTo.value) && RendersHunks(hunks, ts[2..]))
  }

  ghost predicate Renders(files: seq<File>, ts: seq<Token>) {
    if files == [] then ts == []
    else exists k :: 0 <= k <= |ts| && RendersFile(files[0], ts[..k]) && Renders(files[1..], ts[k..])
  }

  /** What may follow a file operation, and a hunk that ended without a marker. */
  predicate EndsFile(rest: seq<Token>) {
    rest == [] || rest[0].FileHeader?
  }

  predicate EndsHunk(rest: seq<Token>) {
    EndsFile(rest) || rest[0].HunkStart?
  }

  /** `ts` without its suffix `rest`. */
  function Before(ts: seq<Token>, rest: seq<Token>): seq<Token> {
    if |rest| <= |ts| then ts[..|ts| - |rest|] else []
  }

  lemma {:induction false} AddedAccepts(added: seq<string>, rest: seq<Token>)
    requires EndsFile(rest)
    ensures ParseAdded(AddedTokens(added) + rest) == Some((added, rest))
    decreases |added|
  {
    var ts := AddedTokens(added) + rest;
    if added == [] {
      assert ts == rest;
    } else {
      AddedAccepts(added[1..], rest);
      assert ts[1..] == AddedTokens(added[1..]) + rest;
      assert [added[0]] + added[1..] == added;
    }
  }

  lemma {:induction false} AddedRenders(ts: seq<Token>)
    requires ParseAdded(ts).Some?
    ensures var (added, rest) := ParseAdded(ts).value;
            ts == AddedTokens(added) + rest && EndsFile(rest)
    decreases |ts|
  {
    var (added, rest) := ParseAdded(ts).value;
    if ts == [] || ts[0].FileHeader? {
      assert AddedTokens(added) + rest == ts;
    } else {
      AddedRenders(ts[1..]);
      var more := ParseAdded(ts[1..]).value.0;
      assert AddedTokens([ts[0].line.content] + more) == [ts[0]] + AddedTokens(more);
      HeadTail(ts);
      Assoc([ts[0]], AddedTokens(more), rest);
    }
  }

  lemma {:induction false} HunkLinesAccept(lines: seq<Line>, tail: seq<Token>, rest: seq<Token>)
    requires ParseHunkLines(tail) == Some(([], rest))
    ensures ParseHunkLines(Bodies(lines) + tail) == Some((lines, rest))
    decreases |lines|
  {
    var ts := Bodies(lines) + tail;
    if lines == [] {
      assert ts == tail;
    } else {
      HunkLinesAccept(lines[1..], tail, rest);
      assert ts[1..] == Bodies(lines[1..]) + tail;
      assert [lines[0]] + lines[1..] == lines;
    }
  }

  lemma {:induction false} HunkLinesRender(ts: seq<Token>)
    requires ParseHunkLines(ts).Some?
    ensures var (lines, rest) := ParseHunkLines(ts).value;
            (ts == Bodies(lines) + rest && EndsHunk(rest)) || ts == Bodies(lines) + [Marker] + rest
    decreases |ts|
  {
    var (lines, rest) := ParseHunkLines(ts).value;
    if ts == [] || !ts[0].Body? {
      assert Bodies(lines) + rest == rest;
      assert ts != [] && ts[0].Marker? ==> ts == Bodies(lines) + [Marker] + rest;
    } else {
      HunkLinesRender(ts[1..]);
      assert lines[1..] == ParseHunkLines(ts[1..]).value.0;
      assert Bodies(lines) == [ts[0]] + Bodies(lines[1..]);
    }
  }

  lemma {:induction false} HunkAccepts(hunk: Hunk, ts: seq<Token>, rest: seq<Token>)
    requires RendersHunk(hunk, ts) && EndsHunk(rest)
    ensures ts != [] && ts[0] == HunkStart(hunk.context)
    ensures ParseHunkLines(ts[1..] + rest) == Some((hunk.lines, rest))
  {
    var bodies := Bodies(hunk.lines);
    if ts == [HunkStart(hunk.context)] + bodies {
      HunkLinesAccept(hunk.lines, rest, rest);
      assert ts[1..] == bodies;
    } else {
      assert ([Marker] + rest)[1..] == rest;
      HunkLinesAccept(hunk.lines, [Marker] + rest, rest);
      assert ts[1..] + rest == bodies + ([Marker] + rest);
    }
  }

  lemma {:induction false} HunksSplit(hunks: seq<Hunk>, ts: seq<Token>) returns (own: seq<Token>, more: seq<Token>)
    requires RendersHunks(hunks, ts) && hunks != []
    ensures ts == own + more && RendersHunk(hunks[0], own) && RendersHunks(hunks[1..], more)
  {
    var k :| 0 <= k <= |ts| && RendersHunk(hunks[0], ts[..k]) && RendersHunks(hunks[1..], ts[k..]);
    own, more := ts[..k], ts[k..];
  }

  lemma {:induction false} FilesSplit(files: seq<File>, ts: seq<Token>) returns (own: seq<Token>, more: seq<Token>)
    requires Renders(files, ts) && files != []
    ensures ts == own + more && RendersFile(files[0], own) && Renders(files[1..], more)
  {
    var k :| 0 <= k <= |ts| && RendersFile(files[0], ts[..k]) && Renders(files[1..], ts[k..]);
    own, more := ts[..k], ts[k..];
  }

  lemma {:induction false} HunkStep(hunk: Hunk, own: seq<Token>, after: seq<Token>)
    requires RendersHunk(hunk, own) && EndsHunk(after) && ParseHunks(after).Some?
    ensures ParseHunks(own + after) == Prepend([hunk], ParseHunks(after))
    ensures EndsHunk(own + after)
  {
    HunkAccepts(hunk, own, after);
    assert (own + after)[1..] == own[1..] + after && (own + after)[0] == own[0];
  }

  lemma {:induction false} HunksAccept(hunks: seq<Hunk>, ts: seq<Token>, rest: seq<Token>)
    requires RendersHunks(hunks, ts) && EndsFile(rest)
    ensures ParseHunks(ts + rest) == Some((hunks, rest))
    ensures EndsHunk(ts + rest)
    decreases |hunks|
  {
    if hunks == [] {
      assert ts + rest == rest;
    } else {
      var first, others := hunks[0], hunks[1..];
      var own, more := HunksSplit(hunks, ts);
      HunksAccept(others, more, rest);
      HunkStep(first, own, more + rest);
      Assoc(own, more, rest);
      HeadTail(hunks);
    }
  }

  lemma {:induction false} HunkRenders(ts: seq<Token>)
    requires ts != [] && ts[0].HunkStart?
    requires ParseHunkLines(ts[1..]).Some? && ParseHunkLines(ts[1..]).value.0 != []
    ensures var (lines, after) := ParseHunkLines(ts[1..]).value;
            ts == Before(ts, after) + after && RendersHunk(Hunk(ts[0].context, lines), Before(ts, after))
  {
    var (lines, after) := ParseHunkLines(ts[1..]).value;
    HunkLinesRender(ts[1..]);
    var body := if ts[1..] == Bodies(lines) + after then Bodies(lines) else Bodies(lines) + [Marker];
    assert ts == [ts[0]] + body + after;
    assert Before(ts, after) == [ts[0]] + body;
  }

  lemma {:induction false} HunksCons(hunk: Hunk, hunks: seq<Hunk>, a: seq<Token>, b: seq<Token>)
    requires RendersHunk(hunk, a) && RendersHunks(hunks, b)
    ensures RendersHunks([hunk] + hunks, a + b)
  {
    var k := |a|;
    assert (a + b)[..k] == a && (a + b)[k..] == b && ([hunk] + hunks)[1..] == hunks;
  }

  lemma {:induction false} BeforeChain(ts: seq<Token>, after: seq<Token>, rest: seq<Token>)
    requires ts == Before(ts, after) + after && after == Before(after, rest) + rest
    ensures Before(ts, rest) == Before(ts, after) + Before(after, rest)
    ensures ts == Before(ts, rest) + rest
  {
    Assoc(Before(ts, after), Before(after, rest), rest);
  }

  lemma {:induction false} BeforeDrop(ts: seq<Token>, n: nat, rest: seq<Token>)
    requires n <= |ts| && ts[n..] == Before(ts[n..], rest) + rest && |rest| <= |ts| - n
    ensures ts == Before(ts, rest) + rest
    ensures |Before(ts, rest)| >= n && Before(ts, rest)[n..] == Before(ts[n..], rest)
    ensures forall i :: 0 <= i < n ==> Before(ts, rest)[i] == ts[i]
  {
    assert ts == ts[..n] + ts[n..];
    Assoc(ts[..n], Before(ts[n..], rest), rest);
    assert Before(ts, rest) == ts[..n] + Before(ts[n..], rest);
  }

  lemma {:induction false} HunksRender(ts: seq<Token>)
    requires ParseHunks(ts).Some?
    ensures var (hunks, rest) := ParseHunks(ts).value;
            ts == Before(ts, rest) + rest && RendersHunks(hunks, Before(ts, rest)) && EndsFile(rest)
    decreases |ts|
  {
    var (hunks, rest) := ParseHunks(ts).value;
    if ts == [] || ts[0].FileHeader? {
      assert Before(ts, rest) == [];
    } else {
      var (lines, after) := ParseHunkLines(ts[1..]).value;
      HunkRenders(ts);
      HunksRender(after);
      HunksCons(Hunk(ts[0].context, lines), ParseHunks(after).value.0, Before(ts, after), Before(after, rest));
      BeforeChain(ts, after, rest);
    }
  }

  lemma {:induction false} FileAccepts(file: File, ts: seq<Token>, rest: seq<Token>)
    requires RendersFile(file, ts) && EndsFile(rest)
    ensures ParseFile(ts + rest) == Some((file, rest))
    ensures ts != [] && ts[0].FileHeader?
  {
    var all := ts + rest;
    assert all[0] == ts[0] && all[1..] == ts[1..] + rest;
    match file
    case AddFile(_, added) =>
      AddedAccepts(added, rest);
      assert ts[1..] == AddedTokens(added);
    case DeleteFile(_) => assert all[1..] == rest;
    case UpdateFile(_, moveTo, hunks) =>
      if moveTo == None {
        HunksAccept(hunks, ts[1..], rest);
        var own, more := HunksSplit(hunks, ts[1..]);
        assert ts[1] == own[0] && own[0].HunkStart?;
      } else {
        HunksAccept(hunks, ts[2..], rest);
        assert all[2..] == ts[2..] + rest;
      }
  }

  lemma {:induction false} FileRenders(ts: seq<Token>)
    requires ts != [] && ParseFile(ts).Some?
    ensures var (file, rest) := ParseFile(ts).value;
            ts == Before(ts, rest) + rest && RendersFile(file, Before(ts, rest))
  {
    var (file, rest) := ParseFile(ts).value;
    var own := Before(ts, rest);
    match file
    case AddFile(path, added) =>
      AddedRenders(ts[1..]);
      assert own == [FileHeader(AddOp, path)] + AddedTokens(added);
    case DeleteFile(path) => assert own == [FileHeader(DeleteOp, path)];
    case UpdateFile(path, moveTo, hunks) => UpdateRenders(ts, path, moveTo, hunks, rest);
  }

  lemma {:induction false} UpdateRenders(ts: seq<Token>, path: string, moveTo: Option<string>, hunks: seq<Hunk>,
                                         rest: seq<Token>)
    requires ts != [] && ParseFile(ts) == Some((UpdateFile(path, moveTo, hunks), rest))
    ensures ts == Before(ts, rest) + rest && RendersFile(UpdateFile(path, moveTo, hunks), Before(ts, rest))
  {
    var from := if moveTo == None then 1 else 2;
    HunksRender(ts[from..]);
    BeforeDrop(ts, from, rest);
    assert Before(ts, rest)[0] == ts[0] && (moveTo.Some? ==> Before(ts, rest)[1] == ts[1]);
  }

  lemma {:induction false} FilesAccept(files: seq<File>, ts: seq<Token>)
    requires Renders(files, ts)
    ensures ParseFiles(ts) == Some(files)
    ensures EndsFile(ts)
    decreases |files|
  {
    if files != [] {
      var own, more := FilesSplit(files, ts);
      FilesAccept(files[1..], more);
      FileAccepts(files[0], own, more);
      assert [files[0]] + files[1..] == files;
    }
  }

  lemma {:induction false} FilesRender(ts: seq<Token>)
    requires ParseFiles(ts).Some?
    ensures Renders(ParseFiles(ts).value, ts)
    decreases |ts|
  {
    if ts != [] {
      var files := ParseFiles(ts).value;
      var (file, rest) := ParseFile(ts).value;
      FileRenders(ts);
      FilesRender(rest);
      var k := |ts| - |rest|;
      assert ts[k..] == rest && ts[..k] == Before(ts, rest);
      assert files[0] == file && files[1..] == ParseFiles(rest).value;
    }
  }

  /** A text is accepted as `patch` exactly when its lines are the two fences around a
      rendering of the patch's files: headers with any padding around a non-blank path, and
      hunks each optionally closed by an end-of-file marker. */
  lemma {:induction false} AcceptedExactly(value: string, patch: Patch)
    ensures ParseText(value) == Some(patch) <==>
              var lines := NormalizedLines(value);
              && |lines| >= 2 && lines[0] == BEGIN && lines[|lines| - 1] == END
              && patch.files != []
              && Renders(patch.files, Tokens(lines[1..|lines| - 1]))
  {
    var lines := NormalizedLines(value);
    if |lines| >= 2 {
      var ts := Tokens(lines[1..|lines| - 1]);
      if ParseFiles(ts).Some? {
        FilesRender(ts);
      }
      if Renders(patch.files, ts) {
        FilesAccept(patch.files, ts);
      }
    }
  }

  // ----- printing ------------------------------------------------------------------------------

  function PrintLine(line: Line): string {
    match line
    case Context(c) => " " + c
    case Add(c) => "+" + c
    case Remove(c) => "-" + c
  }

  function PrintToken(t: Token): string {
    match t
    case FileHeader(AddOp, path) => ADD + path
    case FileHeader(DeleteOp, path) => DELETE + path
    case FileHeader(UpdateOp, path) => UPDATE + path
    case MoveHeader(path) => MOVE + path
    case HunkStart(context) => if context == None then "@@" else "@@ " + context.value
    case Body(line) => PrintLine(line)
    case Marker => MARKER
    case Junk => ""
  }

  function PrintTokens(ts: seq<Token>): seq<string> {
    seq(|ts|, i requires 0 <= i < |ts| => PrintToken(ts[i]))
  }

  function HunkTokens(hunks: seq<Hunk>): seq<Token> {
    if hunks == [] then []
    else [HunkStart(hunks[0].context)] + Bodies(hunks[0].lines) + HunkTokens(hunks[1..])
  }

  function FileTokens(file: File): seq<Token> {
    match file
    case AddFile(path, added) => [FileHeader(AddOp, path)] + AddedTokens(added)
    case DeleteFile(path) => [FileHeader(DeleteOp, path)]
    case UpdateFile(path, moveTo, hunks) =>
      [FileHeader(UpdateOp, path)] + (if moveTo == None then [] else [MoveHeader(moveTo.value)]) + HunkTokens(hunks)
  }

  function FilesTokens(files: seq<File>): seq<Token> {
    if files == [] then [] else FileTokens(files[0]) + FilesTokens(files[1..])
  }

  function PrintedLines(patch: Patch): seq<string> {
    [BEGIN] + PrintTokens(FilesTokens(patch.files)) + [END]
  }

  /** How each line is printed, letter by letter. */
  lemma {:induction false} PrintedTexts(path: string, text: string)
    ensures PrintToken(FileHeader(AddOp, path)) == "*** Add File: " + path
    ensures PrintToken(FileHeader(DeleteOp, path)) == "*** Delete File: " + path
    ensures PrintToken(FileHeader(UpdateOp, path)) == "*** Update File: " + path
    ensures PrintToken(MoveHeader(path)) == "*** Move to: " + path
    ensures PrintToken(HunkStart(None)) == "@@" && PrintToken(HunkStart(Some(text))) == "@@ " + text
    ensures PrintToken(Body(Context(text))) == " " + text
    ensures PrintToken(Body(Add(text))) == "+" + text && PrintToken(Body(Remove(text))) == "-" + text
    ensures BEGIN == "*** Begin Patch" && END == "*** End Patch" && MARKER == "*** End of File"
  {
  }

  predicate PathOk(path: string) {
    path != "" && Trim(path) == path
  }

  predicate FileOk(file: File) {
    && PathOk(file.path)
    && (file.UpdateFile? ==>
          && file.hunks != []
          && (forall i :: 0 <= i < |file.hunks| ==> file.hunks[i].lines != [])
          && (file.moveTo.Some? ==> PathOk(file.moveTo.value)))
  }

  predicate TokenOk(t: Token) {
    && (t.FileHeader? ==> PathOk(t.path))
    && (t.MoveHeader? ==> PathOk(t.path))
    && !t.Junk?
  }

  lemma {:induction false} PrintedTokenClassifies(t: Token)
    requires TokenOk(t)
    ensures Classify(PrintToken(t)) == t
  {
    Classification(PrintToken(t));
    match t
    case FileHeader(AddOp, path) => assert (ADD + path)[|ADD|..] == path;
    case FileHeader(DeleteOp, path) => assert (DELETE + path)[|DELETE|..] == path;
    case FileHeader(UpdateOp, path) => assert (UPDATE + path)[|UPDATE|..] == path;
    case MoveHeader(path) => assert (MOVE + path)[|MOVE|..] == path;
    case HunkStart(context) => assert PrintToken(t)[0] == '@';
    case Body(line) => assert PrintLine(line)[1..] == line.content;
    case Marker =>
  }

  lemma {:induction false} PrintedTokensClassify(ts: seq<Token>)
    requires forall i :: 0 <= i < |ts| ==> TokenOk(ts[i])
    ensures Tokens(PrintTokens(ts)) == ts
  {
    forall i | 0 <= i < |ts| ensures ts[i] == Classify(PrintTokens(ts)[i]) {
      PrintedTokenClassifies(ts[i]);
    }
    TokensOf(PrintTokens(ts), ts);
  }

  lemma {:induction false} HunkTokensRender(hunks: seq<Hunk>)
    requires forall i :: 0 <= i < |hunks| ==> hunks[i].lines != []
    ensures RendersHunks(hunks, HunkTokens(hunks))
    ensures forall i :: 0 <= i < |HunkTokens(hunks)| ==> TokenOk(HunkTokens(hunks)[i])
  {
    if hunks != [] {
      HunkTokensRender(hunks[1..]);
      var own := [HunkStart(hunks[0].context)] + Bodies(hunks[0].lines);
      HunksCons(hunks[0], hunks[1..], own, HunkTokens(hunks[1..]));
      assert [hunks[0]] + hunks[1..] == hunks;
    }
  }

  lemma {:induction false} FileTokensRender(file: File)
    requires FileOk(file)
    ensures RendersFile(file, FileTokens(file))
    ensures forall i :: 0 <= i < |FileTokens(file)| ==> TokenOk(FileTokens(file)[i])
  {
    if file.UpdateFile? {
      HunkTokensRender(file.hunks);
      var from := if file.moveTo == None then 1 else 2;
      assert FileTokens(file)[from..] == HunkTokens(file.hunks);
    }
  }

  lemma {:induction false} FilesTokensRender(files: seq<File>)
    requires forall i :: 0 <= i < |files| ==> FileOk(files[i])
    ensures Renders(files, FilesTokens(files))
    ensures forall i :: 0 <= i < |FilesTokens(files)| ==> TokenOk(FilesTokens(files)[i])
  {
    if files != [] {
      FilesTokensRender(files[1..]);
      FileTokensRender(files[0]);
      var ts := FilesTokens(files);
      var k := |FileTokens(files[0])|;
      assert ts[..k] == FileTokens(files[0]) && ts[k..] == FilesTokens(files[1..]);
    }
  }

  // ----- round trips -----------------------------------------------------------------------------

  /** Parsing the printed text of any well-formed patch returns that patch, with or without a
      final newline. */
  lemma {:induction false} PrintThenParse(patch: Patch)
    requires patch.files != [] && forall i :: 0 <= i < |patch.files| ==> FileOk(patch.files[i])
    requires forall i :: 0 <= i < |PrintedLines(patch)| ==> Clean(PrintedLines(patch)[i])
    ensures ParseText(Join(PrintedLines(patch))) == Some(patch)
    ensures ParseText(Join(PrintedLines(patch)) + "\n") == Some(patch)
  {
    var lines := PrintedLines(patch);
    var ts := FilesTokens(patch.files);
    FilesTokensRender(patch.files);
    SplitJoin(lines);
    var body := lines[1..|lines| - 1];
    assert body == PrintTokens(ts);
    PrintedTokensClassify(ts);
    assert (lines + [""])[..|lines|] == lines && lines[|lines| - 1] == END != "";
    AcceptedExactly(Join(lines), patch);
    AcceptedExactly(Join(lines) + "\n", patch);
  }

  /** A header line with the padding around its path removed; any other line unchanged. */
  function Unpadded(line: string): string {
    if ADD <= line then ADD + Trim(line[|ADD|..])
    else if DELETE <= line then DELETE + Trim(line[|DELETE|..])
    else if UPDATE <= line then UPDATE + Trim(line[|UPDATE|..])
    else if MOVE <= line then MOVE + Trim(line[|MOVE|..])
    else line
  }

  /** The lines other than end-of-file markers, in order, without path padding. */
  function Canonical(ls: seq<string>): seq<string> {
    if ls == [] then []
    else if ls[0] == MARKER then Canonical(ls[1..])
    else [Unpadded(ls[0])] + Canonical(ls[1..])
  }

  function WithoutMarkers(ts: seq<Token>): seq<Token> {
    if ts == [] then []
    else if ts[0].Marker? then WithoutMarkers(ts[1..])
    else [ts[0]] + WithoutMarkers(ts[1..])
  }

  lemma {:induction false} WithoutMarkersConcat(a: seq<Token>, b: seq<Token>)
    ensures WithoutMarkers(a + b) == WithoutMarkers(a) + WithoutMarkers(b)
    decreases |a|
  {
    if a == [] {
      assert a + b == b;
    } else {
      WithoutMarkersConcat(a[1..], b);
      assert (a + b)[1..] == a[1..] + b;
    }
  }

  lemma {:induction false} WithoutMarkersKeeps(ts: seq<Token>)
    requires forall i :: 0 <= i < |ts| ==> !ts[i].Marker?
    ensures WithoutMarkers(ts) == ts
  {
    if ts != [] {
      WithoutMarkersKeeps(ts[1..]);
      assert [ts[0]] + ts[1..] == ts;
    }
  }

  predicate NoJunk(ts: seq<Token>) {
    forall i :: 0 <= i < |ts| ==> !ts[i].Junk?
  }

  lemma {:induction false} HunkUnmarked(hunk: Hunk, ts: seq<Token>)
    requires RendersHunk(hunk, ts)
    ensures WithoutMarkers(ts) == [HunkStart(hunk.context)] + Bodies(hunk.lines) && NoJunk(ts)
  {
    var plain := [HunkStart(hunk.context)] + Bodies(hunk.lines);
    WithoutMarkersKeeps(plain);
    if ts != plain {
      WithoutMarkersConcat(plain, [Marker]);
      assert WithoutMarkers([Marker]) == [] && plain + [] == plain;
    }
  }

  lemma {:induction false} HunksUnmarked(hunks: seq<Hunk>, ts: seq<Token>)
    requires RendersHunks(hunks, ts)
    ensures WithoutMarkers(ts) == HunkTokens(hunks) && NoJunk(ts)
    ensures forall i :: 0 <= i < |hunks| ==> hunks[i].lines != []
    decreases |hunks|
  {
    if hunks != [] {
      var own, more := HunksSplit(hunks, ts);
      HunkUnmarked(hunks[0], own);
      HunksUnmarked(hunks[1..], more);
      WithoutMarkersConcat(own, more);
    }
  }

  lemma {:induction false} FileUnmarked(file: File, ts: seq<Token>)
    requires RendersFile(file, ts)
    ensures WithoutMarkers(ts) == FileTokens(file) && NoJunk(ts)
    ensures Trimmed(ts) ==> FileOk(file)
  {
    if file.UpdateFile? {
      var from := if file.moveTo == None then 1 else 2;
      var heads, more := ts[..from], ts[from..];
      HunksUnmarked(file.hunks, more);
      WithoutMarkersKeeps(heads);
      WithoutMarkersConcat(heads, more);
      assert heads + more == ts;
      assert NoJunk(heads) && heads == FileTokens(file)[..from];
    } else {
      WithoutMarkersKeeps(ts);
    }
  }

  predicate Trimmed(ts: seq<Token>) {
    forall i :: 0 <= i < |ts| && (ts[i].FileHeader? || ts[i].MoveHeader?) ==> Trim(ts[i].path) == ts[i].path
  }

  lemma {:induction false} TrimmedConcat(a: seq<Token>, b: seq<Token>)
    requires Trimmed(a + b)
    ensures Trimmed(a) && Trimmed(b)
  {
    forall i | 0 <= i < |a| ensures a[i] == (a + b)[i] {}
    forall i | 0 <= i < |b| ensures b[i] == (a + b)[|a| + i] {}
  }

  lemma {:induction false} FilesUnmarked(files: seq<File>, ts: seq<Token>)
    requires Renders(files, ts) && Trimmed(ts)
    ensures WithoutMarkers(ts) == FilesTokens(files) && NoJunk(ts)
    ensures forall i :: 0 <= i < |files| ==> FileOk(files[i])
    decreases |files|
  {
    if files != [] {
      var own, more := FilesSplit(files, ts);
      TrimmedConcat(own, more);
      FilesUnmarked(files[1..], more);
      FileUnmarked(files[0], own);
      WithoutMarkersConcat(own, more);
    }
  }

  lemma {:induction false} TrimTrims(s: string)
    ensures Trim(Trim(s)) == Trim(s)
    decreases |s|
  {
    if s != "" {
      if IsSpace(s[0]) { TrimTrims(s[1..]); }
      else if IsSpace(s[|s| - 1]) { TrimTrims(s[..|s| - 1]); }
    }
  }

  lemma {:induction false} ClassifiedPrints(line: string)
    requires !Classify(line).Junk?
    ensures PrintToken(Classify(line)) == Unpadded(line)
    ensures Trimmed([Classify(line)])
  {
    Classification(line);
    match Classify(line)
    case FileHeader(AddOp, _) => TrimTrims(line[|ADD|..]);
    case FileHeader(DeleteOp, _) => TrimTrims(line[|DELETE|..]);
    case FileHeader(UpdateOp, _) => TrimTrims(line[|UPDATE|..]);
    case MoveHeader(_) => TrimTrims(line[|MOVE|..]);
    case HunkStart(context) =>
      if context.Some? {
        assert "@@ " <= line;
        assert line == "@@ " + line[3..];
      }
    case Body(_) => assert PatchLine(line) == Some(Classify(line).line);
    case Marker =>
  }

  lemma {:induction false} NoJunkCons(t: Token, ts: seq<Token>)
    requires NoJunk([t] + ts)
    ensures !t.Junk? && NoJunk(ts)
  {
    assert ([t] + ts)[0] == t;
    forall i | 0 <= i < |ts| ensures ts[i] == ([t] + ts)[i + 1] {}
  }

  lemma {:induction false} CanonicalTokens(ls: seq<string>)
    requires NoJunk(Tokens(ls))
    ensures Canonical(ls) == PrintTokens(WithoutMarkers(Tokens(ls)))
    decreases |ls|
  {
    if ls != [] {
      NoJunkCons(Classify(ls[0]), Tokens(ls[1..]));
      CanonicalTokens(ls[1..]);
      ClassifiedPrints(ls[0]);
      Classification(ls[0]);
    }
  }

  lemma {:induction false} TokensTrimmed(ls: seq<string>)
    ensures Trimmed(Tokens(ls))
  {
    var ts := Tokens(ls);
    forall i | 0 <= i < |ts| && (ts[i].FileHeader? || ts[i].MoveHeader?)
      ensures Trim(ts[i].path) == ts[i].path
    {
      TokenAt(ls, i);
      ClassifiedPrints(ls[i]);
      assert Trimmed([ts[i]]) && [ts[i]][0] == ts[i];
    }
  }

  /** Whatever is accepted is well formed, and printing it gives back the input lines without
      end-of-file markers and path padding: every other line is consumed exactly once. */
  lemma {:induction false} ParseThenPrint(value: string)
    requires ParseText(value).Some?
    ensures var lines := NormalizedLines(value);
            var patch := ParseText(value).value;
            && patch.files != [] && (forall i :: 0 <= i < |patch.files| ==> FileOk(patch.files[i]))
            && |lines| >= 2
            && PrintedLines(patch) == [BEGIN] + Canonical(lines[1..|lines| - 1]) + [END]
  {
    var lines := NormalizedLines(value);
    var patch := ParseText(value).value;
    AcceptedExactly(value, patch);
    var body := lines[1..|lines| - 1];
    TokensTrimmed(body);
    FilesUnmarked(patch.files, Tokens(body));
    CanonicalTokens(body);
  }
}
