/** The update_file and multi_edit tools of pkg/agent/tools/files.go. */
module Edits {
  import opened Wrappers
  import opened Basics
  import opened Files
  import opened Replacing

  datatype Edit = Edit(oldString: string, newString: string, replaceAll: bool)

  datatype EditError =
    | EmptyList
    | Identical(index: nat)
    | Unreadable
    | NotFound(index: nat)
    | Ambiguous(index: nat, count: nat)
    | WriteFailed

  // ---- one edit ---------------------------------------------------------------------------

  predicate Applicable(content: string, e: Edit) {
    var n := Count(content, e.oldString);
    n > 0 && (e.replaceAll || n == 1)
  }

  function Applied(content: string, e: Edit): string {
    if e.replaceAll then ReplaceAll(content, e.oldString, e.newString)
    else Replace(content, e.oldString, e.newString)
  }

  function Refusal(content: string, e: Edit, index: nat): EditError {
    var n := Count(content, e.oldString);
    if n == 0 then NotFound(index) else Ambiguous(index, n)
  }

  // ---- a batch ----------------------------------------------------------------------------

  // The buffer the first n edits leave.
  function Buffer(content: string, edits: seq<Edit>, n: nat): string
    requires n <= |edits|
  {
    FoldLeft(Applied, content, edits, n)
  }

  predicate AppliesAt(content: string, edits: seq<Edit>, i: nat)
    requires i < |edits|
  {
    Applicable(Buffer(content, edits, i), edits[i])
  }

  // Every edit applies to the buffer the edits before it leave.
  predicate AllApply(content: string, edits: seq<Edit>) {
    forall i :: 0 <= i < |edits| ==> AppliesAt(content, edits, i)
  }

  predicate NoIdentity(edits: seq<Edit>) {
    forall i :: 0 <= i < |edits| ==> edits[i].oldString != edits[i].newString
  }

  function FirstIdentity(edits: seq<Edit>, k: nat): (i: nat)
    requires k <= |edits|
    ensures k <= i <= |edits|
    ensures i < |edits| ==> edits[i].oldString == edits[i].newString
    ensures forall j :: k <= j < i ==> edits[j].oldString != edits[j].newString
    decreases |edits| - k
  {
    if k == |edits| || edits[k].oldString == edits[k].newString then k else FirstIdentity(edits, k + 1)
  }

  function FirstRefused(content: string, edits: seq<Edit>, k: nat): (i: nat)
    requires k <= |edits|
    ensures k <= i <= |edits|
    ensures i < |edits| ==> !AppliesAt(content, edits, i)
    ensures forall j :: k <= j < i ==> AppliesAt(content, edits, j)
    decreases |edits| - k
  {
    if k == |edits| || !AppliesAt(content, edits, k) then k else FirstRefused(content, edits, k + 1)
  }

  // What the tool answers, and the files it leaves, when the write goes through.
  function Verdict(files: map<string, string>, path: string, edits: seq<Edit>): Result<nat, EditError> {
    var i := FirstIdentity(edits, 0);
    if edits == [] then Err(EmptyList)
    else if i < |edits| then Err(Identical(i))
    else if path !in files then Err(Unreadable)
    else
      var k := FirstRefused(files[path], edits, 0);
      if k < |edits| then Err(Refusal(Buffer(files[path], edits, k), edits[k], k))
      else Ok(|edits|)
  }

  function After(files: map<string, string>, path: string, edits: seq<Edit>): map<string, string> {
    if path in files && Verdict(files, path, edits).Ok?
    then files[path := Buffer(files[path], edits, |edits|)]
    else files
  }

  // One write, at the end: every edit is in the file or none is, unless the disk cuts it short.
  method MultiEdit(fs: FileSystem, path: string, edits: seq<Edit>, disk: Disk) returns (r: Result<nat, EditError>)
    modifies fs
    ensures var v := Verdict(old(fs.files), path, edits);
      r == if v.Ok? && !disk.Writes? then Err(WriteFailed) else v
    ensures r.Ok? ==>
      && path in old(fs.files) && r.value == |edits|
      && fs.files == old(fs.files)[path := Buffer(old(fs.files[path]), edits, |edits|)]
    ensures r.Err? && r.error != WriteFailed ==> fs.files == old(fs.files)
    ensures r == Err(WriteFailed) ==>
      && path in old(fs.files)
      && fs.files == AfterWrite(old(fs.files), path, Buffer(old(fs.files[path]), edits, |edits|), disk)
  {
    if |edits| == 0 {
      return Err(EmptyList);
    }
    for i := 0 to |edits|
      invariant FirstIdentity(edits, 0) == FirstIdentity(edits, i)
    {
      if edits[i].oldString == edits[i].newString {
        return Err(Identical(i));
      }
    }
    var data := fs.ReadFile(path);
    if data.None? {
      return Err(Unreadable);
    }
    var content := data.value;
    for i := 0 to |edits|
      invariant content == Buffer(data.value, edits, i)
      invariant FirstRefused(data.value, edits, 0) == FirstRefused(data.value, edits, i)
      invariant fs.files == old(fs.files)
    {
      var e := edits[i];
      var count := Count(content, e.oldString);
      if count == 0 {
        return Err(NotFound(i));
      }
      if !e.replaceAll && count > 1 {
        return Err(Ambiguous(i, count));
      }
      if e.replaceAll {
        content := ReplaceAll(content, e.oldString, e.newString);
      } else {
        content := Replace(content, e.oldString, e.newString);
      }
    }
    var ok := fs.WriteFile(path, content, disk);
    r := if ok then Ok(|edits|) else Err(WriteFailed);
  }

  // ---- a single update --------------------------------------------------------------------

  function UpdateVerdict(files: map<string, string>, path: string, oldString: string): Result<(), EditError> {
    if path !in files then Err(Unreadable)
    else
      var n := Count(files[path], oldString);
      if n == 0 then Err(NotFound(0)) else if n > 1 then Err(Ambiguous(0, n)) else Ok(())
  }

  function Updated(files: map<string, string>, path: string, oldString: string, newString: string):
    map<string, string>
  {
    if path in files && Count(files[path], oldString) == 1
    then files[path := Replace(files[path], oldString, newString)]
    else files
  }

  method UpdateFile(fs: FileSystem, path: string, oldString: string, newString: string, disk: Disk)
    returns (r: Result<(), EditError>)
    modifies fs
    ensures var v := UpdateVerdict(old(fs.files), path, oldString);
      r == if v.Ok? && !disk.Writes? then Err(WriteFailed) else v
    ensures r.Ok? ==> fs.files == Updated(old(fs.files), path, oldString, newString)
    ensures r.Err? && r.error != WriteFailed ==> fs.files == old(fs.files)
    ensures r == Err(WriteFailed) ==>
      && path in old(fs.files)
      && fs.files == AfterWrite(old(fs.files), path, Replace(old(fs.files[path]), oldString, newString), disk)
  {
    var data := fs.ReadFile(path);
    if data.None? {
      return Err(Unreadable);
    }
    var count := Count(data.value, oldString);
    if count == 0 {
      return Err(NotFound(0));
    }
    if count > 1 {
      return Err(Ambiguous(0, count));
    }
    var ok := fs.WriteFile(path, Replace(data.value, oldString, newString), disk);
    r := if ok then Ok(()) else Err(WriteFailed);
  }

  // ---- laws -------------------------------------------------------------------------------

  // The buffer edit by edit: replace_all replaces every occurrence, a plain edit the first.
  lemma BufferReads(content: string, edits: seq<Edit>, i: nat)
    requires i < |edits|
    ensures Buffer(content, edits, 0) == content
    ensures var before, e := Buffer(content, edits, i), edits[i];
      Buffer(content, edits, i + 1) ==
        if e.replaceAll then ReplaceAll(before, e.oldString, e.newString)
        else Replace(before, e.oldString, e.newString)
  {
  }

  // A batch succeeds exactly when it is not empty, no edit is an identity, the file can be read
  // and each edit finds its old string in what the ones before it leave: once, or at least once
  // with replace_all. The file then holds what all of them leave.
  lemma SucceedsExactlyWhen(files: map<string, string>, path: string, edits: seq<Edit>)
    ensures Verdict(files, path, edits).Ok? <==>
      && edits != [] && path in files
      && (forall i :: 0 <= i < |edits| ==> edits[i].oldString != edits[i].newString)
      && (forall i :: 0 <= i < |edits| ==>
            var n := Count(Buffer(files[path], edits, i), edits[i].oldString);
            if edits[i].replaceAll then n > 0 else n == 1)
    ensures Verdict(files, path, edits).Ok? ==>
      path in files && After(files, path, edits) == files[path := Buffer(files[path], edits, |edits|)]
    ensures !Verdict(files, path, edits).Ok? ==> After(files, path, edits) == files
  {
    AllApplyCounts(files, path, edits);
    var i := FirstIdentity(edits, 0);
    if i == |edits| && path in files {
      var k := FirstRefused(files[path], edits, 0);
      assert k == |edits| <==> AllApply(files[path], edits);
    }
  }

  lemma AppliesCounts(content: string, edits: seq<Edit>, i: nat)
    requires i < |edits|
    ensures var n := Count(Buffer(content, edits, i), edits[i].oldString);
      AppliesAt(content, edits, i) <==> if edits[i].replaceAll then n > 0 else n == 1
  {
  }

  lemma AllApplyCounts(files: map<string, string>, path: string, edits: seq<Edit>)
    ensures path in files ==> (AllApply(files[path], edits) <==>
      forall i :: 0 <= i < |edits| ==>
        var n := Count(Buffer(files[path], edits, i), edits[i].oldString);
        if edits[i].replaceAll then n > 0 else n == 1)
  {
    if path in files {
      forall i | 0 <= i < |edits|
        ensures var n := Count(Buffer(files[path], edits, i), edits[i].oldString);
          AppliesAt(files[path], edits, i) <==> if edits[i].replaceAll then n > 0 else n == 1
      {
        AppliesCounts(files[path], edits, i);
      }
    }
  }

  lemma SucceedsApplying(files: map<string, string>, path: string, edits: seq<Edit>)
    ensures Verdict(files, path, edits).Ok? <==>
      edits != [] && NoIdentity(edits) && path in files && AllApply(files[path], edits)
  {
    SucceedsExactlyWhen(files, path, edits);
    AllApplyCounts(files, path, edits);
  }

  // The first refused edit, when the earlier checks pass.
  lemma FirstRefusal(files: map<string, string>, path: string, edits: seq<Edit>)
    requires edits != [] && NoIdentity(edits) && path in files && !AllApply(files[path], edits)
    ensures var k := FirstRefused(files[path], edits, 0);
      && k < |edits| && !AppliesAt(files[path], edits, k)
      && (forall j :: 0 <= j < k ==> AppliesAt(files[path], edits, j))
      && Verdict(files, path, edits) == Err(Refusal(Buffer(files[path], edits, k), edits[k], k))
  {
  }

  // Which check answers, when the batch is refused: the list, the first identity, the file, and
  // then the first edit whose old string is not found in the buffer, or found more than once
  // where one occurrence is asked for, with its count.
  lemma RefusesExactlyWhen(files: map<string, string>, path: string, edits: seq<Edit>)
    ensures Verdict(files, path, edits) == Err(EmptyList) <==> edits == []
    ensures forall i: nat :: Verdict(files, path, edits) == Err(Identical(i)) <==>
      && i < |edits| && edits[i].oldString == edits[i].newString
      && forall j :: 0 <= j < i ==> edits[j].oldString != edits[j].newString
    ensures Verdict(files, path, edits) == Err(Unreadable) <==>
      && edits != [] && path !in files
      && forall j :: 0 <= j < |edits| ==> edits[j].oldString != edits[j].newString
  {
  }

  // The refusals of edit i.
  lemma RefusesEdit(files: map<string, string>, path: string, edits: seq<Edit>, i: nat)
    requires i < |edits| && path in files
    requires forall j :: 0 <= j < |edits| ==> edits[j].oldString != edits[j].newString
    requires forall j :: 0 <= j < i ==>
      var n := Count(Buffer(files[path], edits, j), edits[j].oldString);
      if edits[j].replaceAll then n > 0 else n == 1
    ensures var n := Count(Buffer(files[path], edits, i), edits[i].oldString);
      && (n == 0 ==> Verdict(files, path, edits) == Err(NotFound(i)))
      && (n > 1 && !edits[i].replaceAll ==> Verdict(files, path, edits) == Err(Ambiguous(i, n)))
      && (n == 1 || (n > 1 && edits[i].replaceAll) ==>
            Verdict(files, path, edits) != Err(NotFound(i)) && forall m :: Verdict(files, path, edits) != Err(Ambiguous(i, m)))
  {
    assert NoIdentity(edits);
    forall j | 0 <= j < i ensures AppliesAt(files[path], edits, j) { AppliesCounts(files[path], edits, j); }
    AppliesCounts(files[path], edits, i);
    if !AppliesAt(files[path], edits, i) {
      FirstRefusal(files, path, edits);
    } else if !AllApply(files[path], edits) {
      FirstRefusal(files, path, edits);
    }
  }

  // A batch of one edit: replace_all replaces however many occurrences there are.
  lemma OneEdit(files: map<string, string>, path: string, e: Edit)
    ensures var n := if path in files then Count(files[path], e.oldString) else 0;
      && (Verdict(files, path, [e]).Ok? <==>
            e.oldString != e.newString && path in files && if e.replaceAll then n > 0 else n == 1)
      && (Verdict(files, path, [e]).Ok? ==>
            After(files, path, [e]) ==
              files[path := if e.replaceAll then ReplaceAll(files[path], e.oldString, e.newString)
                            else Replace(files[path], e.oldString, e.newString)])
      && (path in files && e.oldString != e.newString && n == 0 ==>
            Verdict(files, path, [e]) == Err(NotFound(0)))
      && (path in files && e.oldString != e.newString && n > 1 && !e.replaceAll ==>
            Verdict(files, path, [e]) == Err(Ambiguous(0, n)))
  {
    SucceedsExactlyWhen(files, path, [e]);
    if path in files {
      BufferReads(files[path], [e], 0);
      if e.oldString != e.newString { RefusesEdit(files, path, [e], 0); }
    }
  }

  lemma AllApplySplits(content: string, es1: seq<Edit>, es2: seq<Edit>)
    ensures AllApply(content, es1 + es2) <==>
      AllApply(content, es1) && AllApply(Buffer(content, es1, |es1|), es2)
  {
    var es, mid := es1 + es2, Buffer(content, es1, |es1|);
    forall i | 0 <= i < |es1| ensures AppliesAt(content, es, i) == AppliesAt(content, es1, i) {
      FoldPrefix(Applied, content, es1, es2, i);
    }
    forall i | 0 <= i < |es2|
      ensures AppliesAt(content, es, |es1| + i) == AppliesAt(mid, es2, i)
    {
      FoldConcat(Applied, content, es1, es2, i);
    }
    if AllApply(content, es) {
      forall i | 0 <= i < |es1| ensures AppliesAt(content, es1, i) {
        assert AppliesAt(content, es, i);
      }
      forall i | 0 <= i < |es2| ensures AppliesAt(mid, es2, i) {
        assert AppliesAt(content, es, |es1| + i);
      }
    }
    if AllApply(content, es1) && AllApply(mid, es2) {
      forall i | 0 <= i < |es| ensures AppliesAt(content, es, i) {
        if i >= |es1| { assert AppliesAt(mid, es2, i - |es1|); }
      }
    }
  }

  lemma NoIdentitySplits(es1: seq<Edit>, es2: seq<Edit>)
    ensures NoIdentity(es1 + es2) <==> NoIdentity(es1) && NoIdentity(es2)
  {
    var es := es1 + es2;
    if NoIdentity(es) {
      forall i | 0 <= i < |es2| ensures es2[i].oldString != es2[i].newString {
        assert es[|es1| + i] == es2[i];
      }
      forall i | 0 <= i < |es1| ensures es1[i].oldString != es1[i].newString {
        assert es[i] == es1[i];
      }
    }
  }

  // One batch is two batches one after the other: it succeeds exactly when both do, with the
  // same files at the end. Unlike the two, it leaves nothing behind when only the first does.
  lemma BatchSplits(files: map<string, string>, path: string, es1: seq<Edit>, es2: seq<Edit>)
    requires es1 != [] && es2 != []
    ensures var mid := After(files, path, es1);
      var both := Verdict(files, path, es1).Ok? && Verdict(mid, path, es2).Ok?;
      && (Verdict(files, path, es1 + es2).Ok? <==> both)
      && After(files, path, es1 + es2) == if both then After(mid, path, es2) else files
  {
    BothSucceed(files, path, es1, es2);
    if path in files { FoldConcat(Applied, files[path], es1, es2, |es2|); }
  }

  lemma BothSucceed(files: map<string, string>, path: string, es1: seq<Edit>, es2: seq<Edit>)
    requires es1 != [] && es2 != []
    ensures Verdict(files, path, es1 + es2).Ok? <==>
      Verdict(files, path, es1).Ok? && Verdict(After(files, path, es1), path, es2).Ok?
  {
    SucceedsApplying(files, path, es1);
    SucceedsApplying(After(files, path, es1), path, es2);
    SucceedsApplying(files, path, es1 + es2);
    NoIdentitySplits(es1, es2);
    if path in files { AllApplySplits(files[path], es1, es2); }
  }

  // update_file is the batch of one edit, with or without replace_all, wherever it succeeds;
  // only multi_edit refuses an identity.
  lemma UpdateIsOneEdit(files: map<string, string>, path: string, oldString: string, newString: string)
    ensures var v, edits := UpdateVerdict(files, path, oldString), [Edit(oldString, newString, false)];
      && (Verdict(files, path, edits).Ok? <==> v.Ok? && oldString != newString)
      && (oldString != newString ==> After(files, path, edits) == Updated(files, path, oldString, newString))
    ensures UpdateVerdict(files, path, oldString).Err? && oldString != newString ==>
      Verdict(files, path, [Edit(oldString, newString, false)]) == Err(UpdateVerdict(files, path, oldString).error)
    ensures UpdateVerdict(files, path, oldString).Ok? && oldString != newString ==>
      After(files, path, [Edit(oldString, newString, true)]) == Updated(files, path, oldString, newString)
  {
    var one, all := [Edit(oldString, newString, false)], [Edit(oldString, newString, true)];
    SucceedsExactlyWhen(files, path, one);
    SucceedsExactlyWhen(files, path, all);
    if path in files {
      var s := files[path];
      assert AppliesAt(s, one, 0) <==> Count(s, oldString) == 1;
      assert AppliesAt(s, all, 0) <==> Count(s, oldString) > 0;
      assert Buffer(s, one, 1) == Applied(Buffer(s, one, 0), one[0]);
      assert Buffer(s, all, 1) == Applied(Buffer(s, all, 0), all[0]);
      if Count(s, oldString) == 1 { OneIsAll(s, oldString, newString); }
    }
  }
}
