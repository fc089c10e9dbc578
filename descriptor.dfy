/**
  The throw-away application descriptor: where `_initDesktopFile` puts it
  (`<uuid>.desktop` in the user's applications directory) and the five-line
  document it writes there.
*/
module Descriptor {

  const DesktopSuffix: string := ".desktop"

  /** The file name built from a UUID's text form. */
  function FileName(uuid: string): string {
    uuid + DesktopSuffix
  }

  /** `QDir(dir).absoluteFilePath(name)` for a relative `name`. */
  function AbsoluteFilePath(dir: string, name: string): string {
    dir + "/" + name
  }

  predicate InDirectory(path: string, dir: string) {
    |path| > |dir| && path[..|dir| + 1] == dir + "/"
  }

  predicate EndsWith(s: string, suffix: string) {
    |s| >= |suffix| && s[|s| - |suffix|..] == suffix
  }

  /** The descriptor path for a UUID: a `.desktop` file in `dir`, directly
      in it when the UUID text holds no `/` (as `QUuid`'s text form does not). */
  function DescriptorPath(dir: string, uuid: string): (p: string)
    ensures InDirectory(p, dir) && EndsWith(p, DesktopSuffix)
    ensures |p| == |dir| + 1 + |uuid| + |DesktopSuffix|
    ensures '/' !in uuid ==> '/' !in p[|dir| + 1..]
  {
    var p := AbsoluteFilePath(dir, FileName(uuid));
    assert p[..|dir| + 1] == dir + "/";
    assert p[|p| - |DesktopSuffix|..] == DesktopSuffix;
    p
  }

  /** Distinct UUIDs give distinct descriptor paths in the same directory. */
  lemma DescriptorPathInjective(dir: string, u1: string, u2: string)
    ensures DescriptorPath(dir, u1) == DescriptorPath(dir, u2) <==> u1 == u2
  {
    if DescriptorPath(dir, u1) == DescriptorPath(dir, u2) {
      var p1, p2 := DescriptorPath(dir, u1), DescriptorPath(dir, u2);
      assert |u1| == |u2|;
      assert p1[|dir| + 1..|dir| + 1 + |u1|] == u1;
      assert p2[|dir| + 1..|dir| + 1 + |u2|] == u2;
    }
  }

  /** The document `_initDesktopFile` writes, chunk by chunk as the source writes it. */
  function DescriptorText(appName: string, appPath: string): string {
    "[Desktop Entry]\n" + "Type=Application\n" + "Version=1.1\n" +
    "Name=" + appName + "\n" + "Exec=" + appPath + "\n"
  }

  /** The five lines of the descriptor, in order, without their terminators. */
  function DescriptorLines(appName: string, appPath: string): seq<string> {
    ["[Desktop Entry]", "Type=Application", "Version=1.1", "Name=" + appName, "Exec=" + appPath]
  }

  /** Every line followed by a newline. */
  function Lines(ls: seq<string>): string
    decreases |ls|
  {
    if ls == [] then "" else ls[0] + "\n" + Lines(ls[1..])
  }

  /** The length of the first line of `s`: the index of its first newline, or `|s|`. */
  function LineEnd(s: string): (i: nat)
    ensures i <= |s|
    ensures forall k :: 0 <= k < i ==> s[k] != '\n'
    ensures i < |s| ==> s[i] == '\n'
    decreases |s|
  {
    if s == [] || s[0] == '\n' then 0 else 1 + LineEnd(s[1..])
  }

  /** Splits text into newline-terminated lines; a last line without a
      terminator is kept, a trailing newline adds no empty line. */
  function SplitLines(s: string): seq<string>
    decreases |s|
  {
    if s == [] then []
    else
      var i := LineEnd(s);
      if i == |s| then [s] else [s[..i]] + SplitLines(s[i + 1..])
  }

  lemma SplitLinesCons(line: string, rest: string)
    requires '\n' !in line
    ensures SplitLines(line + "\n" + rest) == [line] + SplitLines(rest)
  {
    var s := line + "\n" + rest;
    var i := LineEnd(s);
    assert s[|line|] == '\n';
    assert i == |line|;
    assert s[..i] == line;
    assert s[i + 1..] == rest;
  }

  /** Splitting joined lines gives them back, provided none holds a newline. */
  lemma {:induction false} SplitLinesOfLines(ls: seq<string>)
    requires forall k :: 0 <= k < |ls| ==> '\n' !in ls[k]
    ensures SplitLines(Lines(ls)) == ls
    decreases |ls|
  {
    if ls != [] {
      SplitLinesCons(ls[0], Lines(ls[1..]));
      SplitLinesOfLines(ls[1..]);
    }
  }

  /** The descriptor document is exactly its five lines, each terminated by a newline. */
  lemma DescriptorTextIsLines(appName: string, appPath: string)
    ensures DescriptorText(appName, appPath) == Lines(DescriptorLines(appName, appPath))
  {
    var ls := DescriptorLines(appName, appPath);
    assert Lines(ls[4..]) == ls[4] + "\n";
    assert Lines(ls[3..]) == ls[3] + "\n" + Lines(ls[4..]);
    assert Lines(ls[2..]) == ls[2] + "\n" + Lines(ls[3..]);
    assert Lines(ls[1..]) == ls[1] + "\n" + Lines(ls[2..]);
  }

  /** Read back line by line, the document holds `[Desktop Entry]`, `Type`,
      `Version`, `Name` and `Exec` in that order, carrying the application's
      name and path unchanged, when neither holds a newline. */
  lemma DescriptorTextSplits(appName: string, appPath: string)
    requires '\n' !in appName && '\n' !in appPath
    ensures SplitLines(DescriptorText(appName, appPath)) ==
            ["[Desktop Entry]", "Type=Application", "Version=1.1", "Name=" + appName, "Exec=" + appPath]
  {
    var ls := DescriptorLines(appName, appPath);
    DescriptorTextIsLines(appName, appPath);
    SplitLinesOfLines(ls);
  }
}
