/** The embedded editor's tab strip (handlers/www/assets/app-simplified.js,
    `createNewFile`, `selectFile`, `closeFile`): a list of open file objects,
    the one currently shown, and the counter behind `Untitled-N.txt`. Files
    are JavaScript objects compared by reference, so they are Dafny objects. */
module EditorTabs {
  import opened Decimal
  import opened JsValues

  // ----- The list-plus-cursor rules, on values -----

  /** `Array.prototype.indexOf`: the first position of `x`, or -1. */
  function IndexOf<T(==)>(s: seq<T>, x: T): (i: int)
    ensures -1 <= i < |s|
    ensures i == -1 <==> x !in s
    ensures i >= 0 ==> s[i] == x && forall j :: 0 <= j < i ==> s[j] != x
    decreases |s|
  {
    if s == [] then -1
    else if s[0] == x then 0
    else
      var k := IndexOf(s[1..], x);
      if k == -1 then -1 else k + 1
  }

  /** The list after `openFiles.splice(index, 1)`. */
  function RemoveAt<T>(s: seq<T>, i: nat): seq<T>
    requires i < |s|
  {
    s[..i] + s[i + 1..]
  }

  /** The elements left by `RemoveAt`: those before `i` in place, the rest
      shifted one to the left. */
  lemma RemoveAtElements<T>(s: seq<T>, i: nat)
    requires i < |s|
    ensures |RemoveAt(s, i)| == |s| - 1
    ensures forall j :: 0 <= j < |s| - 1 ==> RemoveAt(s, i)[j] == if j < i then s[j] else s[j + 1]
  {
  }

  /** The open files and current file after `closeFile(f)`: nothing changes
      when `f` is not open; otherwise its first occurrence is removed and, if
      it was the current one, the tab to its left (the new first tab when it
      was first) becomes current, or none when no tab is left. */
  function AfterClose<T(==)>(files: seq<T>, current: Option<T>, f: T): (seq<T>, Option<T>)
  {
    var index := IndexOf(files, f);
    if index == -1 then (files, current) else
      var rest := RemoveAt(files, index);
      var next :=
        if current != Some(f) then current
        else if |rest| > 0 then Some(rest[if index - 1 < 0 then 0 else index - 1])
        else None;
      (rest, next)
  }

  /** Closing removes exactly one copy of an open file and nothing else. */
  lemma CloseRemovesOne<T>(files: seq<T>, current: Option<T>, f: T)
    ensures var r := AfterClose(files, current, f);
      && (f in files ==> multiset(r.0) == multiset(files) - multiset{f} && |r.0| == |files| - 1)
      && (f !in files ==> r == (files, current))
  {
    var i := IndexOf(files, f);
    if i >= 0 {
      assert files == files[..i] + [files[i]] + files[i + 1..];
    }
  }

  /** If the current file is none or one of the open files before a close,
      it still is afterwards; and a close never leaves tabs open with none
      shown when one was shown before. */
  lemma CloseKeepsCurrentOpen<T>(files: seq<T>, current: Option<T>, f: T)
    requires current.None? || current.value in files
    ensures var r := AfterClose(files, current, f);
      && (r.1.None? || r.1.value in r.0)
      && (current.Some? && r.1.None? ==> r.0 == [])
      && (current.Some? && current.value != f ==> r.1 == current)
  {
    var i := IndexOf(files, f);
    if i >= 0 && current.Some? && current.value != f {
      var rest := RemoveAt(files, i);
      var j := IndexOf(files, current.value);
      assert j != i;
      if j < i {
        assert rest[j] == current.value;
      } else {
        assert rest[j - 1] == current.value;
      }
    }
  }

  /** Closing the current file selects the tab that was to its left, or,
      when it was the first tab, the one that was to its right; only closing
      the last open tab leaves none current. */
  lemma CloseCurrentSelectsNeighbour<T>(files: seq<T>, f: T)
    requires f in files
    ensures var i := IndexOf(files, f); var r := AfterClose(files, Some(f), f);
      && (|files| == 1 <==> r.1.None?)
      && (i > 0 ==> r.1 == Some(files[i - 1]))
      && (i == 0 && |files| > 1 ==> r.1 == Some(files[1]))
  {
    var i := IndexOf(files, f);
    var rest := RemoveAt(files, i);
    RemoveAtElements(files, i);
    var r := AfterClose(files, Some(f), f);
    assert r == (rest, if |rest| > 0 then Some(rest[if i - 1 < 0 then 0 else i - 1]) else None);
  }

  lemma CloseExample()
    ensures AfterClose([1, 2, 3], Some(1), 1) == ([2, 3], Some(2))
    ensures AfterClose([1, 2, 3], Some(3), 3) == ([1, 2], Some(2))
    ensures AfterClose([1, 2, 3], Some(3), 2) == ([1, 3], Some(3))
    ensures AfterClose([1], Some(1), 1) == ([], None)
    ensures AfterClose([1, 2], Some(1), 4) == ([1, 2], Some(1))
  {
    assert RemoveAt([1, 2, 3], 0) == [2, 3];
    assert RemoveAt([1, 2, 3], 2) == [1, 2];
    assert RemoveAt([1, 2, 3], 1) == [1, 3];
    assert RemoveAt([1], 0) == [];
    assert IndexOf([1, 2], 4) == -1;
  }

  /** The name `createNewFile` gives its N-th file. */
  function UntitledName(n: nat): (name: string)
    ensures |name| >= |"Untitled-.txt"| + 1
    ensures name[..9] == "Untitled-" && name[|name| - 4..] == ".txt"
    ensures name[9..|name| - 4] == NatToString(n)
  {
    "Untitled-" + NatToString(n) + ".txt"
  }

  /** Different counter values give different names, so files created by
      `createNewFile` never share a name. */
  lemma UntitledNameInjective(m: nat, n: nat)
    ensures UntitledName(m) == UntitledName(n) ==> m == n
  {
    if UntitledName(m) == UntitledName(n) {
      var a, b := UntitledName(m), UntitledName(n);
      assert a[9..|a| - 4] == NatToString(m);
      assert b[9..|b| - 4] == NatToString(n);
      ParseNatToString(m);
      ParseNatToString(n);
    }
  }

  /** The text every new file starts with. */
  const WelcomeText := "# Welcome to Docker Playground!\n# Write your code here and test it in the terminal\n\n"

  /** One open file `{name, content, isNew, isDirty}`. */
  class EditorFile {
    var name: string
    var content: string
    var isNew: bool
    var isDirty: bool

    constructor (name: string, content: string)
      ensures this.name == name && this.content == content && isNew && !isDirty
    {
      this.name := name;
      this.content := content;
      isNew := true;
      isDirty := false;
    }
  }

  /** The editor fields of the controller scope. */
  class Tabs {
    var openFiles: seq<EditorFile>
    var currentFile: Option<EditorFile>
    var fileCounter: nat

    /** The current file, when there is one, is among the open files. */
    predicate CurrentIsOpen()
      reads this
    {
      currentFile.None? || currentFile.value in openFiles
    }

    constructor ()
      ensures openFiles == [] && currentFile == None && fileCounter == 1
      ensures CurrentIsOpen()
    {
      openFiles := [];
      currentFile := None;
      fileCounter := 1;
    }

    /** `selectFile(file)`. */
    method SelectFile(file: EditorFile)
      modifies this`currentFile
      ensures currentFile == Some(file)
    {
      currentFile := Some(file);
    }

    /** `createNewFile()`: a fresh file named after the counter is appended
        and shown, and the counter moves on. */
    method CreateNewFile() returns (newFile: EditorFile)
      modifies this
      ensures fresh(newFile)
      ensures newFile.name == UntitledName(old(fileCounter)) && newFile.content == WelcomeText
      ensures newFile.isNew && !newFile.isDirty
      ensures fileCounter == old(fileCounter) + 1
      ensures openFiles == old(openFiles) + [newFile]
      ensures currentFile == Some(newFile) && CurrentIsOpen()
    {
      var fileName := "Untitled-" + NatToString(fileCounter) + ".txt";
      fileCounter := fileCounter + 1;
      newFile := new EditorFile(fileName, WelcomeText);
      openFiles := openFiles + [newFile];
      SelectFile(newFile);
    }

    /** `closeFile(file, event)` (the click event only has its propagation stopped). */
    method CloseFile(file: EditorFile)
      modifies this`openFiles, this`currentFile
      ensures (openFiles, currentFile) == AfterClose(old(openFiles), old(currentFile), file)
      ensures old(CurrentIsOpen()) ==> CurrentIsOpen()
    {
      if CurrentIsOpen() {
        CloseKeepsCurrentOpen(openFiles, currentFile, file);
      }
      var index := IndexOf(openFiles, file);
      if index > -1 {
        openFiles := openFiles[..index] + openFiles[index + 1..];
        if currentFile == Some(file) {
          if |openFiles| > 0 {
            currentFile := Some(openFiles[if index - 1 < 0 then 0 else index - 1]);
          } else {
            currentFile := None;
          }
        }
      }
    }
  }
}
