/** The text-editor tool (src/tools/edit_tool.py): its name and parameter
    schema, and the `str_replace` command over a file system given as a map
    from path to file text. */
module EditTool {
  import opened Wrappers
  import opened Text
  import opened ToolBase

  /** The sub-commands the `command` parameter admits. */
  const SubCommands: seq<string> := ["view", "create", "str_replace", "insert"]

  /** The parameter descriptions shown to the model. */
  const CommandDescription: string :=
    "The command to run. Allow options are: " + Join(SubCommands, ", ") + "."
  const FileTextDescription: string :=
    "Required parameter of `create` command, with the content of the file to be created."
  const InsertLineDescription: string :=
    "Optional parameter of `insert` command. The `new_str` will be inserted AFTER the line `insert_line` of `path`."
  const NewStrDescription: string :=
    "Optional parameter of `str_replace` command containing the new string (if not given, no string will be added). Required parameter of `insert` command containing the string to insert."
  const OldStrDescription: string :=
    "Required parameter of `str_replace` command containing the string in `path` to repalce."
  const PathDescription: string :=
    "Absolute path to file or directory, e.g. `/repo/file.py` or`/repo`."
  const ViewRangeDescription: string :=
    "Optional parameter of `view` command when `path` points to a file. If none is given, the full file is shown. If provided, the file will be shown in the indicated line number range, e.g. [11, 12] will show lines 11 and 12. Indexing at 1 to start. Setting `[start_line, -1]` shows all lines from `start_line` to the end of the file."

  /** Why `str_replace` stops without an edit. */
  datatype EditError =
    | ToolFailure(error: ToolError)   // a `ToolError` raised by the tool itself
    | ReadFailed(path: string)        // the file could not be read
    | EmptySeparator                  // `str.split` was given an empty separator

  /** The lines shown around an edit: `replacementLine` is the 0-based line
      where the replaced text started, and lines `startLine` to `endLine`
      of the new content are shown. */
  datatype SnippetWindow = SnippetWindow(replacementLine: nat, startLine: int, endLine: int)

  /** What a successful `str_replace` computes before it reports. */
  datatype Edit = Edit(newContent: string, window: SnippetWindow, snippet: string)

  /** The window around an edit whose text before the occurrence is
      `prefix`: up to `snippetLines` lines before it, and `snippetLines`
      lines after the last line of the inserted text. */
  function Window(prefix: string, newStr: string, snippetLines: int): (w: SnippetWindow)
    ensures w.replacementLine == Count(prefix, "\n")
    ensures w.startLine >= 0 && w.startLine >= w.replacementLine - snippetLines
    ensures w.startLine == 0 || w.replacementLine - w.startLine == snippetLines
    ensures w.endLine == w.replacementLine + snippetLines + Count(newStr, "\n")
    ensures snippetLines >= 0 ==> 0 <= w.startLine <= w.replacementLine <= w.endLine
  {
    var line := Count(prefix, "\n");
    var start := if line - snippetLines > 0 then line - snippetLines else 0;
    SnippetWindow(line, start, line + snippetLines + Count(newStr, "\n"))
  }

  /** The lines `startLine` to `endLine` of `content`, joined again. */
  function Snippet(content: string, w: SnippetWindow): string
  {
    Join(Slice(SplitOn(content, '\n'), w.startLine, w.endLine + 1), "\n")
  }

  /** When the window starts inside the content, the snippet consists of
      exactly the content's lines from the start of the window to its end
      (or to the last line). */
  lemma SnippetIsLineWindow(content: string, w: SnippetWindow)
    requires 0 <= w.startLine <= w.endLine
    requires w.startLine < |SplitOn(content, '\n')|
    ensures var lines := SplitOn(content, '\n');
      var stop := if w.endLine + 1 < |lines| then w.endLine + 1 else |lines|;
      SplitOn(Snippet(content, w), '\n') == lines[w.startLine..stop]
  {
    WindowOfLinesSplits(SplitOn(content, '\n'), w.startLine, w.endLine + 1);
  }

  /** Joining a window of newline-free lines and splitting it again gives
      the window back. */
  lemma WindowOfLinesSplits(lines: seq<string>, a: int, b: int)
    requires 0 <= a < b && a < |lines|
    requires forall i :: 0 <= i < |lines| ==> '\n' !in lines[i]
    ensures var stop := if b < |lines| then b else |lines|;
      SplitOn(Join(Slice(lines, a, b), "\n"), '\n') == lines[a..stop]
  {
    var stop := if b < |lines| then b else |lines|;
    assert Slice(lines, a, b) == lines[a..stop];
    LinesOfSliceHaveNoSeparator(lines, a, stop, '\n');
    SplitJoin(lines[a..stop], '\n');
  }

  /** For a non-negative `snippetLines`, the window of an edit whose new
      content is `prefix + newStr + rest` starts inside that content, so
      `SnippetIsLineWindow` applies to it. */
  lemma EditWindowInsideContent(prefix: string, newStr: string, rest: string, snippetLines: int)
    requires snippetLines >= 0
    ensures var w := Window(prefix, newStr, snippetLines);
      0 <= w.startLine <= w.endLine && w.startLine < |SplitOn(prefix + newStr + rest, '\n')|
  {
    CountCharConcat(prefix, newStr + rest, '\n');
    assert prefix + newStr + rest == prefix + (newStr + rest);
  }

  lemma LinesOfSliceHaveNoSeparator(lines: seq<string>, a: nat, b: nat, sep: char)
    requires a <= b <= |lines|
    requires forall i :: 0 <= i < |lines| ==> sep !in lines[i]
    ensures forall i :: 0 <= i < b - a ==> sep !in lines[a..b][i]
  {
    forall i | 0 <= i < b - a ensures sep !in lines[a..b][i] {
      assert lines[a..b][i] == lines[a + i];
    }
  }

  /** The 1-based numbers of the lines that contain `sub`, in increasing order. */
  function LinesContaining(lines: seq<string>, sub: string): (r: seq<nat>)
    ensures forall k :: k in r <==> 1 <= k <= |lines| && Contains(lines[k - 1], sub)
    ensures forall a, b :: 0 <= a < b < |r| ==> r[a] < r[b]
    decreases |lines|
  {
    if lines == [] then []
    else
      var init := lines[..|lines| - 1];
      var earlier := LinesContaining(init, sub);
      assert forall i :: 0 <= i < |init| ==> init[i] == lines[i];
      assert forall a :: 0 <= a < |earlier| ==> earlier[a] <= |init| by {
        forall a | 0 <= a < |earlier| ensures earlier[a] <= |init| {
          assert earlier[a] in earlier;
        }
      }
      if Contains(lines[|lines| - 1], sub) then earlier + [|lines|] else earlier
  }

  function NotFoundMessage(oldStr: string, path: string): string
  {
    "No replacement was performed, old_str `" + oldStr + "` did not appear verbatim in " + path + "."
  }

  function MultipleMessage(oldStr: string, lines: seq<nat>): string
  {
    "No replacement was performed. Multiple occurrences of old_str `" + oldStr + "` in lines "
      + ReprNats(lines) + ". Please ensure it is unique."
  }

  /** A single replacement rewrites only the occurrence: the text before it
      and after it is kept, and the length changes by the difference of the
      two strings' lengths. */
  lemma SingleReplacementKeepsContext(content: string, oldStr: string, newStr: string)
    requires Count(content, oldStr) == 1
    ensures Find(content, oldStr).Some? && Find(content, oldStr).value + |oldStr| <= |content|
    ensures var k := Find(content, oldStr).value;
      var edited := ReplaceAll(content, oldStr, newStr);
      && |edited| == |content| - |oldStr| + |newStr|
      && edited[..k] == content[..k]
      && edited[k..k + |newStr|] == newStr
      && edited[k + |newStr|..] == content[k + |oldStr|..]
  {
    ReplaceSingle(content, oldStr, newStr);
  }

  /** `TextEditorTool`: the files it edits, and how many lines of context
      an edit report shows. */
  class TextEditor {
    const modelProvider: Option<string>
    const snippetLines: int
    var files: map<string, string>

    constructor (files: map<string, string>, modelProvider: Option<string> := None, snippetLines: int := 4)
      ensures this.files == files && this.modelProvider == modelProvider
      ensures this.snippetLines == snippetLines
    {
      this.files := files;
      this.modelProvider := modelProvider;
      this.snippetLines := snippetLines;
    }

    /** `get_name`. */
    function Name(): (n: string)
      ensures n == "edit_tool"
    {
      "edit_tool"
    }

    /** `get_parameters`: seven parameters in a fixed order, all of them
        required, `command` restricted to the four sub-commands. */
    function Parameters(): (ps: seq<ToolParameter>)
      ensures |ps| == 7
      ensures ps[0].name == "command" && ps[1].name == "file_text" && ps[2].name == "insert_line"
      ensures ps[3].name == "new_str" && ps[4].name == "old_str" && ps[5].name == "path"
      ensures ps[6].name == "view_range"
      ensures ps[0].enum == Some(["view", "create", "str_replace", "insert"])
      ensures forall i :: 1 <= i < 7 ==> ps[i].enum == None
      ensures forall p :: p in ps ==> p.required
      ensures ps[2].paramType == Single("integer")
      ensures ps[6].paramType == Single("array") && ps[6].items == Some(map["type" := Str("integer")])
      ensures forall i :: 0 <= i < 7 && i != 2 && i != 6 ==> ps[i].paramType == Single("string")
    {
      var command := ToolParameter(
        name := "command",
        paramType := Single("string"),
        description := CommandDescription,
        required := true,
        enum := Some(SubCommands));
      var fileText := ToolParameter(
        name := "file_text",
        paramType := Single("string"),
        description := FileTextDescription);
      var insertLine := ToolParameter(
        name := "insert_line",
        paramType := Single("integer"),
        description := InsertLineDescription);
      var newStr := ToolParameter(
        name := "new_str",
        paramType := Single("string"),
        description := NewStrDescription);
      var oldStr := ToolParameter(
        name := "old_str",
        paramType := Single("string"),
        description := OldStrDescription);
      var path := ToolParameter(
        name := "path",
        paramType := Single("string"),
        description := PathDescription,
        required := true);
      var viewRange := ToolParameter(
        name := "view_range",
        paramType := Single("array"),
        description := ViewRangeDescription,
        items := Some(map["type" := Str("integer")]));
      [command, fileText, insertLine, newStr, oldStr, path, viewRange]
    }

    /** `read_file`: the file's text, or a failure when there is no such file. */
    method ReadFile(path: string) returns (r: Result<string, EditError>)
      ensures path in files ==> r == Success(files[path])
      ensures path !in files ==> r == Failure(ReadFailed(path))
    {
      if path in files {
        r := Success(files[path]);
      } else {
        r := Failure(ReadFailed(path));
      }
    }

    /** `write_file`: replaces the file's text, creating the file if needed. */
    method WriteFile(path: string, content: string)
      modifies this
      ensures files == old(files)[path := content]
    {
      files := files[path := content];
    }

    /** `str_replace`: after tab expansion, replaces the one occurrence of
        `oldStr` in the file with `newStr` (None standing for the empty
        string) and computes the snippet around the edit. Zero or several
        occurrences raise a `ToolError` and leave every file as it was. */
    method StrReplace(path: string, oldStr: string, newStr: Option<string>) returns (r: Result<Edit, EditError>)
      modifies this
      ensures path !in old(files) ==> r == Failure(ReadFailed(path)) && files == old(files)
      ensures path in old(files) ==>
        var content := ExpandTabs(old(files)[path]);
        var o := ExpandTabs(oldStr);
        var n := if newStr.Some? then ExpandTabs(newStr.value) else "";
        && (Count(content, o) == 0 ==>
              && files == old(files)
              && r == Failure(ToolFailure(ToolError(Some(NotFoundMessage(o, path))))))
        && (Count(content, o) > 1 ==>
              && files == old(files)
              && r == Failure(ToolFailure(ToolError(Some(
                   MultipleMessage(o, LinesContaining(SplitOn(content, '\n'), o)))))))
        && (Count(content, o) == 1 ==>
              && Find(content, o).Some? && Find(content, o).value + |o| <= |content|
              && var k := Find(content, o).value;
              && files == old(files)[path := content[..k] + n + content[k + |o|..]]
              && |files[path]| == |content| - |o| + |n|
              && (o == [] ==> r == Failure(EmptySeparator))
              && (o != [] ==> r == Success(Edit(files[path], Window(content[..k], n, snippetLines),
                                                Snippet(files[path], Window(content[..k], n, snippetLines))))))
    {
      var read := ReadFile(path);
      if read.Failure? {
        r := Failure(read.error);
        return;
      }
      assert read.value == old(files)[path];
      var content := ExpandTabs(read.value);
      var o := ExpandTabs(oldStr);
      var n := if newStr.Some? then ExpandTabs(newStr.value) else "";

      var occur := Count(content, o);
      if occur == 0 {
        r := Failure(ToolFailure(ToolError(Some(NotFoundMessage(o, path)))));
        return;
      } else if occur > 1 {
        var lines := LinesContaining(SplitOn(content, '\n'), o);
        r := Failure(ToolFailure(ToolError(Some(MultipleMessage(o, lines)))));
        return;
      }

      ReplaceSingle(content, o, n);
      SingleReplacementKeepsContext(content, o, n);
      var k := Find(content, o).value;
      var newContent := ReplaceAll(content, o, n);
      assert newContent == content[..k] + n + content[k + |o|..];
      WriteFile(path, newContent);
      assert files == old(files)[path := content[..k] + n + content[k + |o|..]];

      if o == [] {
        r := Failure(EmptySeparator);
        return;
      }
      // the first piece of `content.split(o)` is the text before the first occurrence
      var head := content[..k];
      var window := Window(head, n, snippetLines);
      r := Success(Edit(newContent, window, Snippet(newContent, window)));
    }
  }
}
