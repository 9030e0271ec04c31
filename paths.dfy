/**
 * The part of Python's `pathlib` the converter uses: a path's final component
 * (`Path.name`), that component without its last suffix (`Path.stem`), and the
 * PDF path `Path(temp_dir) / (stem + ".pdf")`.  Both Windows separators are
 * recognised, as `pathlib` does on the platform the program targets.
 */
module Paths {
  import Strings

  predicate IsSeparator(c: char) {
    c == '/' || c == '\\'
  }

  /** `path` without the separators at its end. */
  function TrimTrailingSeparators(path: string): string {
    if path != [] && IsSeparator(path[|path| - 1]) then TrimTrailingSeparators(path[..|path| - 1]) else path
  }

  /** What follows the last separator of `path`. */
  function LastComponent(path: string): string {
    if path == [] || IsSeparator(path[|path| - 1]) then []
    else LastComponent(path[..|path| - 1]) + [path[|path| - 1]]
  }

  /** `Path(path).name`. */
  function BaseName(path: string): string {
    LastComponent(TrimTrailingSeparators(path))
  }

  /** Trimming keeps a prefix, drops only separators, and leaves no separator at the end. */
  lemma {:induction false} TrimTrailingShape(path: string)
    ensures var r := TrimTrailingSeparators(path);
            && |r| <= |path| && r == path[..|r|]
            && (forall i :: |r| <= i < |path| ==> IsSeparator(path[i]))
            && (r != [] ==> !IsSeparator(r[|r| - 1]))
    decreases |path|
  {
    if path != [] && IsSeparator(path[|path| - 1]) {
      TrimTrailingShape(path[..|path| - 1]);
    }
  }

  /** The last component is a separator-free suffix, preceded by a separator unless it is the whole path. */
  lemma {:induction false} LastComponentShape(path: string)
    ensures var name := LastComponent(path);
            && |name| <= |path| && name == path[|path| - |name|..]
            && (forall i :: 0 <= i < |name| ==> !IsSeparator(name[i]))
            && (|name| < |path| ==> IsSeparator(path[|path| - |name| - 1]))
    decreases |path|
  {
    if path != [] && !IsSeparator(path[|path| - 1]) {
      var init := path[..|path| - 1];
      LastComponentShape(init);
      var name := LastComponent(path);
      assert name == LastComponent(init) + [path[|path| - 1]];
      assert init[|init| - |LastComponent(init)|..] + [path[|path| - 1]] == path[|path| - |name|..];
    }
  }

  /** `.name` never contains a separator, and it is a suffix of the path with its trailing separators removed. */
  lemma BaseNameShape(path: string)
    ensures var name := BaseName(path);
            var trimmed := TrimTrailingSeparators(path);
            && (forall i :: 0 <= i < |name| ==> !IsSeparator(name[i]))
            && |name| <= |trimmed| && name == trimmed[|trimmed| - |name|..]
            && (|name| < |trimmed| ==> IsSeparator(trimmed[|trimmed| - |name| - 1]))
  {
    LastComponentShape(TrimTrailingSeparators(path));
  }

  /** `.name` never contains a separator. */
  lemma BaseNameSeparatorFree(path: string)
    ensures forall i :: 0 <= i < |BaseName(path)| ==> !IsSeparator(BaseName(path)[i])
  {
    LastComponentShape(TrimTrailingSeparators(path));
  }

  /** Joining a directory and a separator-free name, then taking `.name`, gives the name back. */
  lemma BaseNameOfJoin(dir: string, name: string)
    requires name != [] && forall i :: 0 <= i < |name| ==> !IsSeparator(name[i])
    ensures BaseName(dir + "\\" + name) == name
  {
    var path := dir + "\\" + name;
    assert TrimTrailingSeparators(path) == path;
    LastComponentOfJoin(dir, name);
  }

  lemma {:induction false} LastComponentOfJoin(dir: string, name: string)
    requires forall i :: 0 <= i < |name| ==> !IsSeparator(name[i])
    ensures LastComponent(dir + "\\" + name) == name
    decreases |name|
  {
    var path := dir + "\\" + name;
    if name != [] {
      var shorter := name[..|name| - 1];
      assert path[..|path| - 1] == dir + "\\" + shorter;
      LastComponentOfJoin(dir, shorter);
      assert name == shorter + [name[|name| - 1]];
    }
  }

  /** The index of the last `.` in `s`, or -1 when there is none. */
  function LastDot(s: string): int {
    if s == [] then -1
    else if s[|s| - 1] == '.' then |s| - 1
    else LastDot(s[..|s| - 1])
  }

  lemma {:induction false} LastDotShape(s: string)
    ensures var i := LastDot(s);
            && -1 <= i < |s|
            && (i >= 0 ==> s[i] == '.')
            && (forall j :: i < j < |s| ==> s[j] != '.')
    decreases |s|
  {
    if s != [] && s[|s| - 1] != '.' {
      LastDotShape(s[..|s| - 1]);
    }
  }

  /**
   * `Path.stem` of a final component: the part before the last dot, unless
   * that dot is the first or the last character, in which case the whole name.
   */
  function Stem(name: string): string {
    var i := LastDot(name);
    if 0 < i < |name| - 1 then name[..i] else name
  }

  /**
   * The stem is a prefix of the name.  When it is shorter, a dot follows it
   * and no later dot exists, and something follows that dot; when it is the
   * whole name, the name ends with a dot or has no dot after its first character.
   */
  lemma StemShape(name: string)
    ensures var stem := Stem(name);
            && Strings.IsPrefix(stem, name)
            && (stem != name ==> && 0 < |stem| < |name| - 1
                                 && name[|stem|] == '.'
                                 && forall j :: |stem| < j < |name| ==> name[j] != '.')
            && (stem == name ==> (name != [] && name[|name| - 1] == '.') || forall j :: 0 < j < |name| ==> name[j] != '.')
  {
    LastDotShape(name);
  }

  /** A path inside a directory: `Path(dir) / name`. */
  datatype PdfPath = PdfPath(dir: string, name: string)

  /** `Path(temp_dir) / (Path(docx_file).stem + ".pdf")`: where the converter writes its output. */
  function OutputPath(docxFile: string, tempDir: string): PdfPath {
    PdfPath(tempDir, Stem(BaseName(docxFile)) + ".pdf")
  }

  /** The output lies in the temporary directory and is named after the input's stem, with `.pdf` appended. */
  lemma OutputPathShape(docxFile: string, tempDir: string)
    ensures var p := OutputPath(docxFile, tempDir);
            && p.dir == tempDir
            && |p.name| >= 4 && p.name[|p.name| - 4..] == ".pdf"
            && p.name[..|p.name| - 4] == Stem(BaseName(docxFile))
            && forall i :: 0 <= i < |p.name| ==> !IsSeparator(p.name[i])
  {
    var stem := Stem(BaseName(docxFile));
    BaseNameSeparatorFree(docxFile);
    StemShape(BaseName(docxFile));
    assert forall i :: 0 <= i < |stem| ==> stem[i] == BaseName(docxFile)[i];
  }

  /**
   * Two inputs in different folders with the same file name share one output
   * path: nothing in the program keeps their PDFs apart.
   */
  lemma SameNameSameOutput(dir1: string, dir2: string, name: string, tempDir: string)
    requires name != [] && forall i :: 0 <= i < |name| ==> !IsSeparator(name[i])
    ensures OutputPath(dir1 + "\\" + name, tempDir) == OutputPath(dir2 + "\\" + name, tempDir)
  {
    BaseNameOfJoin(dir1, name);
    BaseNameOfJoin(dir2, name);
  }
}
