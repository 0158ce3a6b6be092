/** The files a tool reads and writes whole, by resolved path. */
module Files {
  import opened Wrappers
  import opened Basics

  // What the operating system makes of a write: all of it, nothing, or the file cut off and a
  // first part of the data written.
  datatype Disk = Writes | Refuses | CutsShort(n: nat)

  function AfterWrite(files: map<string, string>, path: string, data: string, disk: Disk): map<string, string> {
    match disk
    case Writes => files[path := data]
    case Refuses => files
    case CutsShort(n) => files[path := data[..Min(n, |data|)]]
  }

  predicate OldOrNew(files: map<string, string>, path: string, data: string, disk: Disk) {
    var r := AfterWrite(files, path, data, disk);
    r == files || r == files[path := data]
  }

  lemma CutShort(files: map<string, string>, path: string, data: string, n: nat)
    ensures OldOrNew(files, path, data, CutsShort(n)) <==>
      n >= |data| || (path in files && files[path] == data[..n])
  {
    var part := data[..Min(n, |data|)];
    var r := AfterWrite(files, path, data, CutsShort(n));
    assert path in r && r[path] == part;
    assert r == files <==> path in files && part == files[path];
    assert r == files[path := data] <==> part == data by {
      assert files[path := data][path] == data;
    }
    assert part == data <==> n >= |data|;
  }

  // Whatever the disk does, a write leaves the old file or the new one: exactly when there is
  // nothing to write, or one character into an empty file.
  lemma WriteIsAtomicExactlyWhen(files: map<string, string>, path: string, data: string)
    ensures (forall disk :: OldOrNew(files, path, data, disk)) <==>
      data == "" || (|data| == 1 && path in files && files[path] == "")
  {
    CutShort(files, path, data, 0);
    CutShort(files, path, data, 1);
    forall n: nat ensures OldOrNew(files, path, data, CutsShort(n)) <==>
      n >= |data| || (path in files && files[path] == data[..n])
    {
      CutShort(files, path, data, n);
    }
    assert OldOrNew(files, path, data, Writes) && OldOrNew(files, path, data, Refuses);
    if forall disk :: OldOrNew(files, path, data, disk) {
      assert OldOrNew(files, path, data, CutsShort(0)) && OldOrNew(files, path, data, CutsShort(1));
    } else {
      var disk :| !OldOrNew(files, path, data, disk);
      assert disk.CutsShort? && OldOrNew(files, path, data, CutsShort(disk.n)) == false;
    }
  }

  // "cd" written over "ab" and cut off behind its first character is neither.
  lemma CutShortLeavesNeither()
    ensures AfterWrite(map["p" := "ab"], "p", "cd", CutsShort(1)) == map["p" := "c"]
    ensures !OldOrNew(map["p" := "ab"], "p", "cd", CutsShort(1))
  {
    assert "cd"[..1] == "c";
    CutShort(map["p" := "ab"], "p", "cd", 1);
  }

  class FileSystem {
    var files: map<string, string>

    constructor (files: map<string, string>)
      ensures this.files == files
    {
      this.files := files;
    }

    method ReadFile(path: string) returns (data: Option<string>)
      ensures data == if path in files then Some(files[path]) else None
    {
      data := if path in files then Some(files[path]) else None;
    }

    method WriteFile(path: string, data: string, disk: Disk) returns (ok: bool)
      modifies this
      ensures ok <==> disk.Writes?
      ensures files == AfterWrite(old(files), path, data, disk)
    {
      files := AfterWrite(files, path, data, disk);
      ok := disk.Writes?;
    }
  }
}
