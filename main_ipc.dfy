/**
 * The main process's file handlers, reduced to what they decide: the
 * display name derived from a path, and how the results of the dialogs,
 * the existence test, reads and writes are reported to the renderer.
 * Dialog answers and file-system outcomes are parameters.
 */
module MainIpc {
  import opened Wrappers

  /** `s.split(c).pop()`: the text after the last `c`, or all of `s` when it has none. */
  function AfterLast(s: string, c: char): (r: string)
    ensures |r| <= |s| && r == s[|s| - |r|..]
    ensures c !in r
    ensures |r| < |s| ==> s[|s| - |r| - 1] == c
  {
    if s == [] then []
    else if s[|s| - 1] == c then []
    else AfterLast(s[..|s| - 1], c) + [s[|s| - 1]]
  }

  /** A string without `c` comes back whole. */
  lemma AfterLastNone(s: string, c: char)
    requires c !in s
    ensures AfterLast(s, c) == s
  {
  }

  /** The result is empty exactly when `s` ends with `c` (or is empty). */
  lemma AfterLastEmpty(s: string, c: char)
    ensures AfterLast(s, c) == [] <==> s == [] || s[|s| - 1] == c
  {
  }

  /** The name shown for a path: after the last '/', else after the last '\', else "Unknown". */
  function FileNameOf(path: string): (name: string)
    ensures path == "" ==> name == "Unknown"
    ensures path != "" ==> name != [] && |name| <= |path| && name == path[|path| - |name|..]
  {
    var slash := AfterLast(path, '/');
    if slash != [] then slash
    else
      var back := AfterLast(path, '\\');
      if back != [] then back else "Unknown"
  }

  /**
   * The fallback "Unknown" is reached only for the empty path; every other
   * path is named by a non-empty tail of itself. A name such as
   * "/tabs/Unknown" yields the same text, so the text alone does not tell
   * the two apart.
   */
  lemma UnknownOnlyForEmpty(path: string)
    ensures AfterLast(path, '/') == [] && AfterLast(path, '\\') == [] <==> path == ""
  {
    AfterLastEmpty(path, '/');
    AfterLastEmpty(path, '\\');
  }

  /** A path without '/' is its own name, backslashes included. */
  lemma NoSlashKeepsWholePath(path: string)
    requires path != "" && '/' !in path
    ensures FileNameOf(path) == path
  {
    AfterLastNone(path, '/');
  }

  /** A path with a '/' not at its end is named by the part after the last '/'. */
  lemma SlashPathName(dir: string, base: string)
    requires base != "" && '/' !in base
    ensures FileNameOf(dir + "/" + base) == base
  {
    AfterLastTail(dir, base, '/');
  }

  /** Whatever precedes the last `c` does not matter. */
  lemma {:induction false} AfterLastTail(a: string, b: string, c: char)
    requires c !in b
    ensures AfterLast(a + [c] + b, c) == b
    decreases |b|
  {
    var s := a + [c] + b;
    if b == [] {
      assert s[|s| - 1] == c;
    } else {
      var init := b[..|b| - 1];
      assert s[..|s| - 1] == a + [c] + init;
      assert s[|s| - 1] == b[|b| - 1];
      assert forall x :: x in init ==> x in b;
      AfterLastTail(a, init, c);
      assert b == init + [b[|b| - 1]];
    }
  }

  /** The backslash split is consulted only for paths ending in '/', and then its name ends in '/'. */
  lemma BackslashOnlyAfterTrailingSlash(path: string)
    requires path != "" && path[|path| - 1] == '/'
    ensures FileNameOf(path) == AfterLast(path, '\\')
    ensures FileNameOf(path)[|FileNameOf(path)| - 1] == '/'
  {
    AfterLastEmpty(path, '/');
    AfterLastEmpty(path, '\\');
  }

  datatype ReadError = FileNotFound | ReadFailed

  /** What `file:readPath` answers. */
  datatype ReadResult =
    | Read(data: seq<int>, filePath: string, fileName: string)
    | ReadErr(error: ReadError)

  /**
   * `file:readPath`: not found when the path does not exist, a read error
   * when reading throws (`content` is `None`), otherwise the bytes, the
   * path and its name.
   */
  function ReadPath(path: string, exists_: bool, content: Option<seq<int>>): (r: ReadResult)
    ensures r == ReadErr(FileNotFound) <==> !exists_
    ensures r == ReadErr(ReadFailed) <==> exists_ && content.None?
    ensures r.Read? <==> exists_ && content.Some?
    ensures r.Read? ==> r.data == content.value && r.filePath == path && r.fileName == FileNameOf(path)
  {
    if !exists_ then ReadErr(FileNotFound)
    else match content
      case None => ReadErr(ReadFailed)
      case Some(data) => Read(data, path, FileNameOf(path))
  }

  datatype Opened = Opened(data: seq<int>, filePath: string, fileName: string)

  /** `dialog:openFile`: nothing when cancelled or when no file was chosen, otherwise the first file. */
  function OpenFile(canceled: bool, filePaths: seq<string>, data: seq<int>): (r: Option<Opened>)
    ensures r.None? <==> canceled || filePaths == []
    ensures r.Some? ==> r.value == Opened(data, filePaths[0], FileNameOf(filePaths[0]))
  {
    if canceled || |filePaths| == 0 then None
    else Some(Opened(data, filePaths[0], FileNameOf(filePaths[0])))
  }

  /** `dialog:saveFile`: false when cancelled or without a path (an empty one included), else written. */
  function SaveFile(canceled: bool, filePath: Option<string>): (saved: bool)
    ensures saved <==> !canceled && filePath.Some? && filePath.value != ""
  {
    !(canceled || filePath.None? || filePath.value == "")
  }
}
