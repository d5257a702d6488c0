/**
 * `PodDocGenerator.Generate` (docgen.go): the document is built up in a
 * buffer, one block per scenario record, and the whole buffer is written
 * to the document file after every record.
 */
module DocGen {
  import opened Wrappers
  import opened Seqs
  import opened Markdown
  import opened Files

  /** The generator's one option: the name of the file the document goes to. */
  datatype PodDocGenerator = PodDocGenerator(docName: string)

  /** The buffer as it stands after each record: the content of each write `Generate` makes. */
  function Snapshots(rules: seq<Rule>): (r: seq<string>)
    ensures |r| == |rules|
  {
    if rules == [] then [] else Snapshots(rules[..|rules| - 1]) + [Document(rules)]
  }

  /** The k-th snapshot is the heading and the blocks of the first k + 1 records. */
  lemma {:induction false} SnapshotAt(rules: seq<Rule>, k: nat)
    requires k < |rules|
    ensures Snapshots(rules)[k] == Document(rules[..k + 1])
  {
    var init := rules[..|rules| - 1];
    if k < |init| {
      SnapshotAt(init, k);
      assert init[..k + 1] == rules[..k + 1];
    } else {
      assert rules[..k + 1] == rules;
    }
  }

  /** One more record adds one more snapshot, the buffer with that record's block. */
  lemma SnapshotsAppend(rules: seq<Rule>, rule: Rule)
    ensures Snapshots(rules + [rule]) == Snapshots(rules) + [Document(rules + [rule])]
  {
    Appended(rules, rule, 0);
  }

  /** One more record and one more write of the new buffer keep the writes in step with the snapshots. */
  lemma WriteStep(files: map<string, string>, written: seq<Attempt>, docName: string, rules: seq<Rule>, rule: Rule, ok: bool)
    requires AllTo(written, docName) && Written(written) == Snapshots(rules)
    ensures var attempt := Attempt(docName, Document(rules + [rule]), ok);
            && AllTo(written + [attempt], docName)
            && Written(written + [attempt]) == Snapshots(rules + [rule])
            && Replay(files, written + [attempt]) == (if ok then Replay(files, written)[docName := attempt.data] else Replay(files, written))
  {
    RecordAttempt(files, written, Attempt(docName, Document(rules + [rule]), ok), docName);
    SnapshotsAppend(rules, rule);
  }

  /**
   * Where writes of the contents `snaps`, appended to `log` after its first
   * `start` attempts, leave the files: other files as they were, the
   * document file as the last successful write left it.
   */
  lemma WritesOutcome(files: map<string, string>, log: seq<Attempt>, start: nat, docName: string, snaps: seq<string>)
    requires start <= |log| && AllTo(log[start..], docName) && Written(log[start..]) == snaps
    ensures Replay(files, log[start..]) - {docName} == files - {docName}
    ensures var last := LastOk(log[start..]);
            Replay(files, log[start..]) == if last < 0 then files else files[docName := snaps[last]]
    ensures snaps != [] && log[|log| - 1].ok ==> Replay(files, log[start..]) == files[docName := snaps[|snaps| - 1]]
  {
    var written := log[start..];
    ReplaySinglePath(files, written, docName);
    ReplayLastSuccess(files, written, docName);
    if LastOk(written) >= 0 {
      WrittenAt(written, LastOk(written));
    }
    if snaps != [] {
      assert written[|written| - 1] == log[|log| - 1];
    }
  }

  /**
   * Renders the records of `roots` (root order, then record order) and
   * writes the buffer to `pd.docName` after each of them. A failed write is
   * only reported: it neither stops the loop nor reaches the caller, and
   * the result is always nil.
   */
  method Generate(pd: PodDocGenerator, roots: seq<seq<Rule>>, fs: FileSystem) returns (err: Option<string>)
    modifies fs
    ensures err == None
    // one write per record, in record order, each carrying the whole buffer so far
    ensures |fs.log| >= |old(fs.log)| && fs.log[..|old(fs.log)|] == old(fs.log)
    ensures AllTo(fs.log[|old(fs.log)|..], pd.docName) && Written(fs.log[|old(fs.log)|..]) == Snapshots(Flatten(roots))
    ensures fs.files == Replay(old(fs.files), fs.log[|old(fs.log)|..])
    // what that leaves on disk
    ensures fs.files - {pd.docName} == old(fs.files) - {pd.docName}
    ensures Flatten(roots) == [] ==> fs.log == old(fs.log) && fs.files == old(fs.files)
    // the document file holds the buffer as it stood after the last record whose write
    // succeeded, and is as before when no write succeeded
    ensures var last := LastOk(fs.log[|old(fs.log)|..]);
            fs.files == if last < 0 then old(fs.files) else old(fs.files)[pd.docName := Snapshots(Flatten(roots))[last]]
    ensures Flatten(roots) != [] && fs.log[|fs.log| - 1].ok ==> fs.files == old(fs.files)[pd.docName := Render(roots)]
  {
    var builder := Heading;
    ghost var done: seq<Rule> := [];
    ghost var start := |fs.log|;
    assert roots[..0] == [];
    for i := 0 to |roots|
      invariant done == Flatten(roots[..i])
      invariant builder == Document(done)
      invariant |fs.log| >= start && fs.log[..start] == old(fs.log)
      invariant AllTo(fs.log[start..], pd.docName) && Written(fs.log[start..]) == Snapshots(done)
      invariant fs.files == Replay(old(fs.files), fs.log[start..])
    {
      var markerSet := roots[i];
      for j := 0 to |markerSet|
        invariant done == Flatten(roots[..i]) + markerSet[..j]
        invariant builder == Document(done)
        invariant |fs.log| >= start && fs.log[..start] == old(fs.log)
        invariant AllTo(fs.log[start..], pd.docName) && Written(fs.log[start..]) == Snapshots(done)
        invariant fs.files == Replay(old(fs.files), fs.log[start..])
      {
        var rule := markerSet[j];
        TakeOneMore(markerSet, j);
        AppendAssoc(Flatten(roots[..i]), markerSet[..j], [rule]);
        var opvalue := Block(rule);
        DocumentAppend(done, rule);
        builder := builder + opvalue;
        ghost var before := fs.log;
        var ok := fs.WriteFile(pd.docName, builder);
        // a failed write is printed and ignored; the loop goes on
        Appended(before, Attempt(pd.docName, builder, ok), start);
        WriteStep(old(fs.files), before[start..], pd.docName, done, rule, ok);
        done := done + [rule];
      }
      assert markerSet[..|markerSet|] == markerSet;
      TakeOneMore(roots, i);
      FlattenAppend(roots[..i], roots[i]);
    }
    assert roots[..|roots|] == roots;
    err := None;

    WritesOutcome(old(fs.files), fs.log, start, pd.docName, Snapshots(done));
    assert fs.log[start..] == [] ==> fs.log == old(fs.log);
    if done != [] {
      assert Snapshots(done)[|done| - 1] == Document(done);
    }
  }
}
