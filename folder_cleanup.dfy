/**
 * `cleanup_folder(directory, max_files)`: list the regular files of a
 * directory, sort them by creation time, and delete all but the newest
 * `max_files` (as Python's slice `sorted_files[:-max_files]` selects them).
 * The directory is a sequence of entries in `os.listdir` order.
 */
module FolderCleanup {

  /** A directory entry: its name, whether `os.path.isfile` holds, and `os.path.getctime`. */
  datatype Entry = Entry(name: string, isFile: bool, ctime: int)

  /** The regular files among the entries, in listing order. */
  function RegularFiles(entries: seq<Entry>): (files: seq<Entry>)
    ensures |files| <= |entries|
    ensures forall i :: 0 <= i < |files| ==> files[i].isFile && files[i] in entries
    ensures forall i :: 0 <= i < |entries| && entries[i].isFile ==> entries[i] in files
  {
    if entries == [] then []
    else (if entries[0].isFile then [entries[0]] else []) + RegularFiles(entries[1..])
  }

  /** Oldest first: creation times never decrease. */
  ghost predicate SortedByCtime(s: seq<Entry>) {
    forall i, j :: 0 <= i < j < |s| ==> s[i].ctime <= s[j].ctime
  }

  /** Places `x` after every entry that is not newer than it. */
  function InsertByCtime(x: Entry, s: seq<Entry>): (r: seq<Entry>)
    ensures |r| == |s| + 1
  {
    if s == [] then [x]
    else if x.ctime < s[0].ctime then [x] + s
    else [s[0]] + InsertByCtime(x, s[1..])
  }

  lemma {:induction false} InsertPermutes(x: Entry, s: seq<Entry>)
    ensures multiset(InsertByCtime(x, s)) == multiset(s) + multiset{x}
  {
    if s != [] && x.ctime >= s[0].ctime {
      InsertPermutes(x, s[1..]);
      assert s == [s[0]] + s[1..];
      assert InsertByCtime(x, s) == [s[0]] + InsertByCtime(x, s[1..]);
    }
  }

  /** Inserting an entry no older than `b` among entries no older than `b` gives entries no older than `b`. */
  lemma {:induction false} InsertBounded(x: Entry, s: seq<Entry>, b: int)
    requires b <= x.ctime && forall k :: 0 <= k < |s| ==> b <= s[k].ctime
    ensures forall k :: 0 <= k < |InsertByCtime(x, s)| ==> b <= InsertByCtime(x, s)[k].ctime
  {
    if s != [] && x.ctime >= s[0].ctime {
      InsertBounded(x, s[1..], b);
    }
  }

  /** Inserting into an oldest-first list keeps it oldest first. */
  lemma {:induction false} InsertSorted(x: Entry, s: seq<Entry>)
    requires SortedByCtime(s)
    ensures SortedByCtime(InsertByCtime(x, s))
  {
    if s != [] && x.ctime >= s[0].ctime {
      var rest := InsertByCtime(x, s[1..]);
      InsertSorted(x, s[1..]);
      InsertBounded(x, s[1..], s[0].ctime);
      assert InsertByCtime(x, s) == [s[0]] + rest;
    }
  }

  /** `sorted(files, key=os.path.getctime)`: a stable sort by creation time. */
  function SortByCtime(s: seq<Entry>): (r: seq<Entry>)
    ensures |r| == |s|
  {
    if s == [] then [] else InsertByCtime(s[|s| - 1], SortByCtime(s[..|s| - 1]))
  }

  /** The sorted list holds the same files. */
  lemma {:induction false} SortPermutes(s: seq<Entry>)
    ensures multiset(SortByCtime(s)) == multiset(s)
  {
    if s != [] {
      var init, x := s[..|s| - 1], s[|s| - 1];
      assert s == init + [x];
      SortPermutes(init);
      InsertPermutes(x, SortByCtime(init));
    }
  }

  /** The sorted list is oldest first. */
  lemma {:induction false} SortSorted(s: seq<Entry>)
    ensures SortedByCtime(SortByCtime(s))
  {
    if s != [] {
      var init := s[..|s| - 1];
      SortSorted(init);
      InsertSorted(s[|s| - 1], SortByCtime(init));
    }
  }

  /** The entries created at instant `c`, in order. */
  function CreatedAt(s: seq<Entry>, c: int): seq<Entry> {
    if s == [] then [] else (if s[0].ctime == c then [s[0]] else []) + CreatedAt(s[1..], c)
  }

  lemma {:induction false} CreatedAtAppend(a: seq<Entry>, b: seq<Entry>, c: int)
    ensures CreatedAt(a + b, c) == CreatedAt(a, c) + CreatedAt(b, c)
  {
    if a == [] {
      assert a + b == b;
    } else {
      assert (a + b)[0] == a[0] && (a + b)[1..] == a[1..] + b;
      CreatedAtAppend(a[1..], b, c);
      var head := if a[0].ctime == c then [a[0]] else [];
      assert CreatedAt(a + b, c) == head + CreatedAt(a[1..] + b, c);
      assert head + (CreatedAt(a[1..], c) + CreatedAt(b, c)) == (head + CreatedAt(a[1..], c)) + CreatedAt(b, c);
    }
  }

  lemma {:induction false} CreatedAtNone(s: seq<Entry>, c: int)
    requires forall k :: 0 <= k < |s| ==> s[k].ctime != c
    ensures CreatedAt(s, c) == []
  {
    if s != [] {
      CreatedAtNone(s[1..], c);
    }
  }

  lemma {:induction false} InsertKeepsTies(x: Entry, s: seq<Entry>, c: int)
    requires SortedByCtime(s)
    ensures CreatedAt(InsertByCtime(x, s), c) == CreatedAt(s, c) + (if x.ctime == c then [x] else [])
  {
    if s == [] {
    } else if x.ctime < s[0].ctime {
      CreatedAtCons(x, s, c);
      if x.ctime == c {
        SortedTail(s);
        CreatedAtNone(s, c);
      }
    } else {
      SortedTail(s);
      InsertKeepsTies(x, s[1..], c);
      InsertTiesPastHead(x, s, c);
    }
  }

  /** The step of `InsertKeepsTies` where `x` goes after the head of `s`. */
  lemma InsertTiesPastHead(x: Entry, s: seq<Entry>, c: int)
    requires s != [] && s[0].ctime <= x.ctime
    requires CreatedAt(InsertByCtime(x, s[1..]), c) == CreatedAt(s[1..], c) + (if x.ctime == c then [x] else [])
    ensures CreatedAt(InsertByCtime(x, s), c) == CreatedAt(s, c) + (if x.ctime == c then [x] else [])
  {
    var tail := s[1..];
    var ins := InsertByCtime(x, tail);
    assert InsertByCtime(x, s) == [s[0]] + ins;
    CreatedAtCons(s[0], ins, c);
    assert s == [s[0]] + tail;
    CreatedAtCons(s[0], tail, c);
    var head := if s[0].ctime == c then [s[0]] else [];
    var added := if x.ctime == c then [x] else [];
    assert head + (CreatedAt(tail, c) + added) == (head + CreatedAt(tail, c)) + added;
  }

  lemma CreatedAtCons(h: Entry, t: seq<Entry>, c: int)
    ensures CreatedAt([h] + t, c) == (if h.ctime == c then [h] else []) + CreatedAt(t, c)
  {
    assert ([h] + t)[0] == h && ([h] + t)[1..] == t;
  }

  /** The tail of a sorted list is sorted, and its head is the oldest entry. */
  lemma SortedTail(s: seq<Entry>)
    requires s != [] && SortedByCtime(s)
    ensures SortedByCtime(s[1..])
    ensures forall k :: 0 <= k < |s| ==> s[0].ctime <= s[k].ctime
  {
    var tail := s[1..];
    forall i, j | 0 <= i < j < |tail| ensures tail[i].ctime <= tail[j].ctime {
      assert tail[i] == s[i + 1] && tail[j] == s[j + 1];
    }
  }

  lemma CreatedAtSnoc(init: seq<Entry>, x: Entry, c: int)
    ensures CreatedAt(init + [x], c) == CreatedAt(init, c) + (if x.ctime == c then [x] else [])
  {
    CreatedAtAppend(init, [x], c);
    assert CreatedAt([x], c) == (if x.ctime == c then [x] else []) + CreatedAt([], c);
  }

  /** The sort is stable: files with equal creation times keep their listing order. */
  lemma {:induction false} SortKeepsTies(s: seq<Entry>, c: int)
    ensures CreatedAt(SortByCtime(s), c) == CreatedAt(s, c)
  {
    if s != [] {
      var init, x := s[..|s| - 1], s[|s| - 1];
      assert s == init + [x];
      SortKeepsTies(init, c);
      SortSorted(init);
      InsertKeepsTies(x, SortByCtime(init), c);
      CreatedAtSnoc(init, x, c);
    }
  }

  /** Python's `s[:stop]`, with a negative `stop` counted from the end. */
  function SliceTo<T>(s: seq<T>, stop: int): (r: seq<T>)
    ensures |r| <= |s| && r == s[..|r|]
    ensures 0 <= stop ==> |r| == if stop < |s| then stop else |s|
    ensures stop < 0 ==> |r| == if |s| + stop < 0 then 0 else |s| + stop
  {
    if stop >= 0 then (if stop < |s| then s[..stop] else s)
    else if |s| + stop < 0 then []
    else s[..|s| + stop]
  }

  /** The files `cleanup_folder` deletes, oldest first. */
  function FilesToDelete(entries: seq<Entry>, maxFiles: int): seq<Entry> {
    var files := RegularFiles(entries);
    if |files| > maxFiles then SliceTo(SortByCtime(files), -maxFiles) else []
  }

  /** With no more files than `max_files`, nothing is deleted. */
  lemma FewFilesKept(entries: seq<Entry>, maxFiles: int)
    requires |RegularFiles(entries)| <= maxFiles
    ensures FilesToDelete(entries, maxFiles) == []
  {
  }

  /**
   * With more files than `max_files > 0`, exactly the surplus is deleted:
   * the oldest files, none of them newer than any survivor, and the
   * survivors are the newest `max_files`.
   */
  lemma OldestDeleted(entries: seq<Entry>, maxFiles: int)
    requires 0 < maxFiles < |RegularFiles(entries)|
    ensures var files := RegularFiles(entries);
      var del := FilesToDelete(entries, maxFiles);
      && |del| == |files| - maxFiles
      && SortByCtime(files) == del + SortByCtime(files)[|del|..]
      && |SortByCtime(files)[|del|..]| == maxFiles
      && (forall i, j :: 0 <= i < |del| <= j < |files| ==> del[i].ctime <= SortByCtime(files)[j].ctime)
  {
    var files := RegularFiles(entries);
    var sorted := SortByCtime(files);
    var n := |files| - maxFiles;
    assert FilesToDelete(entries, maxFiles) == SliceTo(sorted, -maxFiles) == sorted[..n];
    SortSorted(files);
    PrefixBelowSuffix(sorted, n);
  }

  /** A list sorted by creation time splits into a prefix no entry of which is newer than any entry after it. */
  lemma PrefixBelowSuffix(s: seq<Entry>, n: nat)
    requires SortedByCtime(s) && n <= |s|
    ensures s == s[..n] + s[n..]
    ensures forall i, j :: 0 <= i < n <= j < |s| ==> s[..n][i].ctime <= s[j].ctime
  {
  }

  /** A prefix holds no element more often than the whole list. */
  lemma PrefixSubMultiset<T>(s: seq<T>, n: nat)
    requires n <= |s|
    ensures multiset(s[..n]) <= multiset(s)
  {
    assert s == s[..n] + s[n..];
  }

  /** The deletions are drawn from the directory's files, none of them twice. */
  lemma DeletedOnce(entries: seq<Entry>, maxFiles: int)
    ensures multiset(FilesToDelete(entries, maxFiles)) <= multiset(RegularFiles(entries))
  {
    var files := RegularFiles(entries);
    var del := FilesToDelete(entries, maxFiles);
    if |files| > maxFiles {
      var sorted := SortByCtime(files);
      assert del == sorted[..|del|];
      PrefixSubMultiset(sorted, |del|);
      SortPermutes(files);
    }
  }

  /** Every deleted entry is a regular file of the directory. */
  lemma OnlyFilesDeleted(entries: seq<Entry>, maxFiles: int)
    ensures forall i :: 0 <= i < |FilesToDelete(entries, maxFiles)| ==>
      FilesToDelete(entries, maxFiles)[i].isFile && FilesToDelete(entries, maxFiles)[i] in entries
  {
    var files := RegularFiles(entries);
    var del := FilesToDelete(entries, maxFiles);
    DeletedOnce(entries, maxFiles);
    forall i | 0 <= i < |del| ensures del[i].isFile && del[i] in entries {
      assert del[i] in multiset(del);
      assert del[i] in multiset(files);
    }
  }

  /** `max_files == 0` deletes nothing, however many files there are: `[:-0]` is `[:0]`. */
  lemma ZeroMaxFilesDeletesNothing(entries: seq<Entry>)
    ensures FilesToDelete(entries, 0) == []
  {
  }

  /** A directory with one file and `max_files == 0` keeps its file. */
  lemma OneFileSurvivesZero()
    ensures var entries := [Entry("capture.wav", true, 1)];
      |RegularFiles(entries)| == 1 && FilesToDelete(entries, 0) == []
  {
    var entries := [Entry("capture.wav", true, 1)];
    assert RegularFiles(entries) == [entries[0]] + RegularFiles([]);
  }

  /** The evident intent: delete the oldest files until at most `max_files` (at least zero) remain. */
  function FilesToDeleteIntended(entries: seq<Entry>, maxFiles: int): seq<Entry> {
    var files := RegularFiles(entries);
    var keep := if maxFiles < 0 then 0 else maxFiles;
    if |files| > keep then SortByCtime(files)[..|files| - keep] else []
  }

  /** The intended selection leaves exactly `min(count, max_files)` files and deletes the oldest. */
  lemma IntendedLeavesMaxFiles(entries: seq<Entry>, maxFiles: nat)
    ensures var files := RegularFiles(entries);
      var del := FilesToDeleteIntended(entries, maxFiles);
      && |files| - |del| == (if |files| < maxFiles then |files| else maxFiles)
      && del == SortByCtime(files)[..|del|]
  {
    var files := RegularFiles(entries);
    var sorted := SortByCtime(files);
    if |files| > maxFiles {
      assert FilesToDeleteIntended(entries, maxFiles) == sorted[..|files| - maxFiles];
    } else {
      assert FilesToDeleteIntended(entries, maxFiles) == [];
    }
  }

  /** For `max_files > 0` the intended selection and the code agree. */
  lemma IntendedAgreesWhenPositive(entries: seq<Entry>, maxFiles: int)
    requires maxFiles > 0
    ensures FilesToDeleteIntended(entries, maxFiles) == FilesToDelete(entries, maxFiles)
  {
  }

  /** The entries left after removing each named file of `del` in turn. */
  function Without(entries: seq<Entry>, del: seq<Entry>): (r: seq<Entry>)
    ensures forall i :: 0 <= i < |r| ==> r[i] in entries
  {
    if del == [] then entries
    else
      var before := Without(entries, del[..|del| - 1]);
      RemoveNamed(before, del[|del| - 1].name)
  }

  /** The directory after `os.remove` of the entry called `name`. */
  function RemoveNamed(entries: seq<Entry>, name: string): (r: seq<Entry>)
    ensures forall i :: 0 <= i < |r| ==> r[i] in entries && r[i].name != name
    ensures forall i :: 0 <= i < |entries| && entries[i].name != name ==> entries[i] in r
  {
    if entries == [] then []
    else (if entries[0].name == name then [] else [entries[0]]) + RemoveNamed(entries[1..], name)
  }

  /** Deleting one more file of `del` removes the entry of that name from what is left. */
  lemma WithoutStep(entries: seq<Entry>, del: seq<Entry>, i: nat)
    requires i < |del|
    ensures Without(entries, del[..i + 1]) == RemoveNamed(Without(entries, del[..i]), del[i].name)
  {
    assert del[..i + 1][..i] == del[..i];
  }

  /** An entry survives the deletions exactly when no deleted file has its name. */
  lemma {:induction false} WithoutSpares(entries: seq<Entry>, del: seq<Entry>, e: Entry)
    requires e in entries
    ensures e in Without(entries, del) <==> forall k :: 0 <= k < |del| ==> del[k].name != e.name
  {
    if del != [] {
      var init := del[..|del| - 1];
      WithoutSpares(entries, init, e);
      assert forall k :: 0 <= k < |init| ==> init[k] == del[k];
    }
  }

  /** A directory on disk. */
  class Folder {
    var entries: seq<Entry>

    constructor (entries: seq<Entry>)
      ensures this.entries == entries
    {
      this.entries := entries;
    }

    /** `os.remove(path)`. */
    method Remove(name: string)
      modifies this
      ensures entries == RemoveNamed(old(entries), name)
    {
      entries := RemoveNamed(entries, name);
    }

    /** `cleanup_folder(directory, max_files)`. */
    method CleanupFolder(maxFiles: int)
      modifies this
      ensures entries == Without(old(entries), FilesToDelete(old(entries), maxFiles))
    {
      var files := RegularFiles(entries);
      if |files| > maxFiles {
        var sortedFiles := SortByCtime(files);
        var filesToDelete := SliceTo(sortedFiles, -maxFiles);
        ghost var listed := entries;
        assert filesToDelete == FilesToDelete(listed, maxFiles);
        for i := 0 to |filesToDelete|
          invariant entries == Without(listed, filesToDelete[..i])
        {
          WithoutStep(listed, filesToDelete, i);
          Remove(filesToDelete[i].name);
        }
        assert filesToDelete[..|filesToDelete|] == filesToDelete;
      }
    }
  }
}
