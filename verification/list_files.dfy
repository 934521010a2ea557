/**
 * `list_files` of `rabies/run_main.py`: the indented listing of the input directory
 * tree that is logged before preprocessing. The traversal itself (`os.walk`) is given
 * as the sequence of entries it yields.
 */
module ListFiles {
  import opened Text

  /** One step of `os.walk`: a directory path and the names of the files directly in it. */
  datatype WalkEntry = WalkEntry(root: string, files: seq<string>)

  /** The depth of `root` below `startpath`: the '/' left after every occurrence of `startpath` is removed. */
  function Level(startpath: string, root: string): nat {
    CountChar(RemoveAll(root, startpath), '/')
  }

  /** The walk's top directory is at depth 0. */
  lemma LevelOfStart(startpath: string)
    ensures Level(startpath, startpath) == 0
  {
    if startpath != [] {
      RemoveAllLeading(startpath, "");
      assert startpath + "" == startpath;
    }
  }

  /**
   * A directory `rel` below the top is one level deeper than the separators inside `rel`,
   * provided `startpath` does not occur again in the rest of the path.
   */
  lemma LevelBelowStart(startpath: string, rel: string)
    requires forall i :: 0 <= i < |"/" + rel| ==> !OccursAt("/" + rel, startpath, i)
    ensures Level(startpath, startpath + "/" + rel) == 1 + CountChar(rel, '/')
  {
    AppendAssoc(startpath, "/", rel);
    if startpath != [] {
      RemoveAllLeading(startpath, "/" + rel);
    }
    RemoveAllAbsent("/" + rel, startpath);
    CountCharAppend("/", rel, '/');
  }

  /** The header line of a directory: its base name, indented four spaces per level. */
  function DirLine(startpath: string, e: WalkEntry): string {
    Indent(Level(startpath, e.root)) + AfterLast(e.root, '/') + "/ \n"
  }

  /** The line of one file name. */
  function FileLine(indent: string, name: string): string {
    indent + name + " \n"
  }

  /** One line per file name, in the given order. */
  function FileLines(indent: string, files: seq<string>): string
    decreases |files|
  {
    if files == [] then ""
    else FileLines(indent, files[..|files| - 1]) + FileLine(indent, files[|files| - 1])
  }

  /** The text one walk entry contributes: its directory line, then its files one level deeper. */
  function EntryBlock(startpath: string, e: WalkEntry): string {
    DirLine(startpath, e) + FileLines(Indent(Level(startpath, e.root) + 1), e.files)
  }

  /** The concatenation of `parts` in order. */
  function Concat(parts: seq<string>): string
    decreases |parts|
  {
    if parts == [] then "" else Concat(parts[..|parts| - 1]) + parts[|parts| - 1]
  }

  lemma {:induction false} ConcatAppend(a: seq<string>, b: seq<string>)
    ensures Concat(a + b) == Concat(a) + Concat(b)
    decreases |b|
  {
    if b == [] {
      assert a + b == a;
    } else {
      var ab := a + b;
      assert ab[..|ab| - 1] == a + b[..|b| - 1];
      assert ab[|ab| - 1] == b[|b| - 1];
      ConcatAppend(a, b[..|b| - 1]);
      AppendAssoc(Concat(a), Concat(b[..|b| - 1]), b[|b| - 1]);
    }
  }

  /** The block of each entry, in walk order. */
  function Blocks(startpath: string, entries: seq<WalkEntry>): (blocks: seq<string>)
    ensures |blocks| == |entries|
  {
    seq(|entries|, k requires 0 <= k < |entries| => EntryBlock(startpath, entries[k]))
  }

  /** The whole listing: the blocks of the entries in walk order. */
  function Tree(startpath: string, entries: seq<WalkEntry>): string {
    Concat(Blocks(startpath, entries))
  }

  /** The listing of a walk ends with the block of its last entry. */
  lemma TreeLast(startpath: string, entries: seq<WalkEntry>)
    requires entries != []
    ensures Tree(startpath, entries) == Tree(startpath, entries[..|entries| - 1]) + EntryBlock(startpath, entries[|entries| - 1])
  {
    var blocks := Blocks(startpath, entries);
    assert blocks[..|blocks| - 1] == Blocks(startpath, entries[..|entries| - 1]);
  }

  lemma FileLinesStep(indent: string, files: seq<string>, j: nat)
    requires j < |files|
    ensures FileLines(indent, files[..j + 1]) == FileLines(indent, files[..j]) + FileLine(indent, files[j])
  {
    assert files[..j + 1][..j] == files[..j];
  }

  lemma TreeStep(startpath: string, entries: seq<WalkEntry>, i: nat)
    requires i < |entries|
    ensures Tree(startpath, entries[..i + 1]) == Tree(startpath, entries[..i]) + EntryBlock(startpath, entries[i])
  {
    assert entries[..i + 1][..i] == entries[..i];
    TreeLast(startpath, entries[..i + 1]);
  }

  /** The inner loop of `list_files`: one line per file name appended to `s`, in order. */
  method AppendFileLines(s: string, indent: string, files: seq<string>) returns (t: string)
    ensures t == s + FileLines(indent, files)
  {
    t := s;
    var j := 0;
    while j < |files|
      invariant 0 <= j <= |files|
      invariant t == s + FileLines(indent, files[..j])
    {
      FileLinesStep(indent, files, j);
      AppendAssoc(s, FileLines(indent, files[..j]), FileLine(indent, files[j]));
      t := t + (indent + files[j] + " \n");
      j := j + 1;
    }
    assert files[..j] == files;
  }

  /** `list_files`, accumulating the listing with `+=` over the walk entries and their files. */
  method ListFiles(startpath: string, entries: seq<WalkEntry>) returns (s: string)
    ensures s == Tree(startpath, entries)
  {
    s := "";
    var i := 0;
    while i < |entries|
      invariant 0 <= i <= |entries|
      invariant s == Tree(startpath, entries[..i])
    {
      var e := entries[i];
      var level := Level(startpath, e.root);
      var indent := Indent(level);
      ghost var before := s;
      s := s + (indent + AfterLast(e.root, '/') + "/ \n");
      var subindent := Indent(level + 1);
      s := AppendFileLines(s, subindent, e.files);
      AppendAssoc(before, DirLine(startpath, e), FileLines(subindent, e.files));
      TreeStep(startpath, entries, i);
      i := i + 1;
    }
    assert entries[..i] == entries;
  }

  /** Lines the listing should have: one per directory plus one per file. */
  function LineTotal(entries: seq<WalkEntry>): nat
    decreases |entries|
  {
    if entries == [] then 0 else LineTotal(entries[..|entries| - 1]) + 1 + |entries[|entries| - 1].files|
  }

  /** No newline in any path or file name of the walk. */
  predicate NoNewlines(entries: seq<WalkEntry>) {
    forall k :: 0 <= k < |entries| ==>
      '\n' !in entries[k].root && forall f :: f in entries[k].files ==> '\n' !in f
  }

  /** A file line holds one newline, its last character. */
  lemma FileLineCount(indent: string, name: string)
    requires '\n' !in indent && '\n' !in name
    ensures CountChar(FileLine(indent, name), '\n') == 1
  {
    CountCharAppend(indent + name, " \n", '\n');
    CountCharAppend(indent, name, '\n');
    assert CountChar(" \n", '\n') == 1;
  }

  lemma {:induction false} FileLinesCount(indent: string, files: seq<string>)
    requires '\n' !in indent
    requires forall f :: f in files ==> '\n' !in f
    ensures CountChar(FileLines(indent, files), '\n') == |files|
    decreases |files|
  {
    if files != [] {
      var init := files[..|files| - 1];
      var last := files[|files| - 1];
      assert forall f :: f in init ==> f in files;
      FileLinesCount(indent, init);
      CountCharAppend(FileLines(indent, init), FileLine(indent, last), '\n');
      FileLineCount(indent, last);
    }
  }

  /** A directory line holds one newline, its last character. */
  lemma DirLineCount(startpath: string, e: WalkEntry)
    requires '\n' !in e.root
    ensures CountChar(DirLine(startpath, e), '\n') == 1
  {
    var name := AfterLast(e.root, '/');
    assert CountChar(name, '\n') == 0 by {
      assert name == e.root[|e.root| - |name|..];
      assert '\n' !in name;
    }
    var indent := Indent(Level(startpath, e.root));
    assert CountChar(indent, '\n') == 0 by {
      assert '\n' !in indent;
    }
    assert CountChar("/ \n", '\n') == 1;
    CountCharAppend(indent + name, "/ \n", '\n');
    CountCharAppend(indent, name, '\n');
  }

  /** Without newlines in the names, the listing has exactly one line per directory and per file. */
  lemma {:induction false} TreeLineCount(startpath: string, entries: seq<WalkEntry>)
    requires NoNewlines(entries)
    ensures CountChar(Tree(startpath, entries), '\n') == LineTotal(entries)
    decreases |entries|
  {
    if entries != [] {
      var init := entries[..|entries| - 1];
      var e := entries[|entries| - 1];
      assert NoNewlines(init) by {
        forall k | 0 <= k < |init| ensures init[k] == entries[k] { }
      }
      assert '\n' !in e.root && forall f :: f in e.files ==> '\n' !in f;
      TreeLineCount(startpath, init);
      TreeLast(startpath, entries);
      var subindent := Indent(Level(startpath, e.root) + 1);
      assert '\n' !in subindent;
      CountCharAppend(Tree(startpath, init), EntryBlock(startpath, e), '\n');
      CountCharAppend(DirLine(startpath, e), FileLines(subindent, e.files), '\n');
      DirLineCount(startpath, e);
      FileLinesCount(subindent, e.files);
    }
  }

  /** Listing two runs of the walk one after the other lists each in turn. */
  lemma TreeAppend(startpath: string, a: seq<WalkEntry>, b: seq<WalkEntry>)
    ensures Tree(startpath, a + b) == Tree(startpath, a) + Tree(startpath, b)
  {
    BlocksAppend(startpath, a, b);
    ConcatAppend(Blocks(startpath, a), Blocks(startpath, b));
  }

  lemma BlocksAppend(startpath: string, a: seq<WalkEntry>, b: seq<WalkEntry>)
    ensures Blocks(startpath, a + b) == Blocks(startpath, a) + Blocks(startpath, b)
  {
    var ab := Blocks(startpath, a + b);
    var joined := Blocks(startpath, a) + Blocks(startpath, b);
    forall k | 0 <= k < |a + b|
      ensures ab[k] == joined[k]
    {
      BlockAt(startpath, a + b, k);
      if k < |a| {
        BlockAt(startpath, a, k);
      } else {
        BlockAt(startpath, b, k - |a|);
      }
    }
  }

  lemma BlockAt(startpath: string, entries: seq<WalkEntry>, k: nat)
    requires k < |entries|
    ensures Blocks(startpath, entries)[k] == EntryBlock(startpath, entries[k])
  {
  }
}
