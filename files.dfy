/**
 * The file system that `Generate` (docgen.go) writes the document to with
 * `os.WriteFile`: each call replaces the whole content of one file, and
 * may fail. Which calls fail is outside the program's control.
 */
module Files {
  import opened Seqs

  /** One call of `os.WriteFile`: the file name, the bytes given, and whether it succeeded. */
  datatype Attempt = Attempt(path: string, data: string, ok: bool)

  /** The bytes each attempt tried to write, in order. */
  function Written(log: seq<Attempt>): (r: seq<string>)
    ensures |r| == |log|
  {
    if log == [] then [] else Written(log[..|log| - 1]) + [log[|log| - 1].data]
  }

  /** Every attempt in `log` targets `path`. */
  predicate AllTo(log: seq<Attempt>, path: string)
  {
    forall i :: 0 <= i < |log| ==> log[i].path == path
  }

  /** Entry `i` of the written contents is the data of attempt `i`. */
  lemma {:induction false} WrittenAt(log: seq<Attempt>, i: nat)
    requires i < |log|
    ensures Written(log)[i] == log[i].data
  {
    if i < |log| - 1 {
      WrittenAt(log[..|log| - 1], i);
    }
  }

  /** The index of the last attempt that succeeded, or -1 when none did. */
  function LastOk(log: seq<Attempt>): (r: int)
    ensures -1 <= r < |log|
    ensures r >= 0 ==> log[r].ok && forall j :: r < j < |log| ==> !log[j].ok
    ensures r < 0 ==> forall j :: 0 <= j < |log| ==> !log[j].ok
  {
    if log == [] then -1
    else if log[|log| - 1].ok then |log| - 1
    else LastOk(log[..|log| - 1])
  }

  /** The files after the attempts in `log`, in order: a successful write replaces that file's content, a failed one changes nothing. */
  function Replay(files: map<string, string>, log: seq<Attempt>): map<string, string>
  {
    if log == [] then files
    else
      var before := Replay(files, log[..|log| - 1]);
      var last := log[|log| - 1];
      if last.ok then before[last.path := last.data] else before
  }

  /**
   * Writes that all go to one file leave every other file as it was; that
   * file is unchanged or holds what some successful write gave it (which
   * one is stated by `ReplayLastSuccess`).
   */
  lemma {:induction false} ReplaySinglePath(files: map<string, string>, log: seq<Attempt>, path: string)
    requires AllTo(log, path)
    ensures Replay(files, log) - {path} == files - {path}
    ensures Replay(files, log) == files
         || exists i :: 0 <= i < |log| && log[i].ok && Replay(files, log) == files[path := Written(log)[i]]
    ensures |log| > 0 && log[|log| - 1].ok ==> Replay(files, log) == files[path := log[|log| - 1].data]
  {
    if log != [] {
      var init := log[..|log| - 1];
      assert AllTo(init, path);
      ReplaySinglePath(files, init, path);
      var last := log[|log| - 1];
      assert Written(log)[|log| - 1] == last.data;
      if last.ok {
        assert files[path := last.data] - {path} == files - {path};
        if Replay(files, init) != files {
          var i :| 0 <= i < |init| && init[i].ok && Replay(files, init) == files[path := Written(init)[i]];
          assert files[path := Written(init)[i]][path := last.data] == files[path := last.data];
        }
      } else {
        if Replay(files, init) != files {
          var i :| 0 <= i < |init| && init[i].ok && Replay(files, init) == files[path := Written(init)[i]];
          assert log[i] == init[i] && Written(log)[i] == Written(init)[i];
        }
      }
    }
  }

  /**
   * Writes that all go to one file: that file holds the data of the last
   * write that succeeded, and is unchanged when none did.
   */
  lemma {:induction false} ReplayLastSuccess(files: map<string, string>, log: seq<Attempt>, path: string)
    requires AllTo(log, path)
    ensures var last := LastOk(log);
            Replay(files, log) == if last < 0 then files else files[path := log[last].data]
  {
    if log != [] {
      var init := log[..|log| - 1];
      var last := log[|log| - 1];
      assert AllTo(init, path);
      ReplayLastSuccess(files, init, path);
      if last.ok {
        ReplaySinglePath(files, init, path);
        assert Replay(files, init)[path := last.data] == files[path := last.data];
      } else if LastOk(init) >= 0 {
        assert init[LastOk(init)] == log[LastOk(init)];
      }
    }
  }

  /** One more attempt at `path` extends the history by its data and, if it succeeded, updates `path`. */
  lemma RecordAttempt(files: map<string, string>, log: seq<Attempt>, attempt: Attempt, path: string)
    requires AllTo(log, path) && attempt.path == path
    ensures AllTo(log + [attempt], path)
    ensures Written(log + [attempt]) == Written(log) + [attempt.data]
    ensures Replay(files, log + [attempt]) == if attempt.ok then Replay(files, log)[path := attempt.data] else Replay(files, log)
  {
    Appended(log, attempt, 0);
  }

  /** The files the program can see, with the history of write attempts kept beside them. */
  class FileSystem {
    var files: map<string, string>
    ghost var log: seq<Attempt>

    constructor (files: map<string, string>)
      ensures this.files == files && log == []
    {
      this.files := files;
      log := [];
    }

    /** `os.WriteFile(path, data, 0644)`: on success the file holds exactly `data`; on failure nothing changes. */
    method WriteFile(path: string, data: string) returns (ok: bool)
      modifies this
      ensures log == old(log) + [Attempt(path, data, ok)]
      ensures files == if ok then old(files)[path := data] else old(files)
    {
      ok := *;
      if ok {
        files := files[path := data];
      }
      log := log + [Attempt(path, data, ok)];
    }
  }
}
