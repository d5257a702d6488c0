# docgen: pod-condition Markdown generator, modelled in Dafny

docgen is a controller-tools generator. It reads `docgenerator:pod`
markers, one per documented pod scenario, and writes a Markdown document
titled "POD CONDITION TESTS". Each scenario record gets one block. The
block holds three things:

- the scenario name;
- an example `v1.PodSpec` payload, which has an optional init-container
  part and an optional volume part;
- the states the pod goes through. When the record lists failed states,
  a failure sentence with the reason follows.

The document is built up in one buffer. After every record the whole
buffer is written to the document file, overwriting what was there.

The model has these modules:

- `PodSpecs` (podspec.dfy): `podSpec`, the payload for the two textual
  flags, and `SectionsOf`, a lookup that maps each of the four payloads
  back to the blocks it holds.
- `Markdown` (render.dfy): the `Rule` record (the marker value) and the
  block for one record. It also has the document for an ordered list of
  records, and the flattening of per-root record lists into that order.
- `Format` (format.dfy): Go's `fmt.Sprintf` for the `%s` verb.
- `Strings` (strings.dfy): Go's `strings.Join`, plus the prefix, suffix
  and occurrence relations the contracts use.
- `Files` (files.dfy): the file system `os.WriteFile` acts on. It is a
  class with a file map, plus a ghost history of write attempts. Whether a
  write succeeds is chosen nondeterministically.
- `DocGen` (docgen.dfy): `Generate`, an imperative method with the
  source's two nested loops. It is proved against `Snapshots`, the
  sequence of buffers the source writes.
- `Seqs` and `Wrappers`: generic sequence lemmas and `Option`.

Three behaviours of the code that a reader may not expect:

- Failed states are joined with `" ,"`, not `", "`.
- A payload closes its outer `v1.PodSpec{` only when the volume part is
  added. Without it, the braces are unbalanced.
- A failed write is printed and ignored. The loop goes on with the next
  record, and `Generate` always returns nil; it does not abort with an
  I/O error.

## Model

| member | source | states |
|---|---|---|
| PodSpecs.PodSpecStartsWithBase | docgen.go:271-279 | every payload begins with the base container block, whatever the flags |
| PodSpecs.OnlyExactTrueEnables | docgen.go:305-313 | a flag other than exactly "true" gives the same payload as "false" |
| PodSpecs.SectionsOfRoundTrip | docgen.go:269-317 | looking up a payload gives exactly which parts were added: init containers iff the first flag is "true", volumes iff the second is |
| PodSpecs.SectionsOfSound | docgen.go:269-317 | a text the lookup maps to some sections is the payload for the matching flags, so the lookup knows only the four payloads |
| PodSpecs.InitContainersBeforeVolumes | docgen.go:305-313 | with both flags set, the init containers come right after the base block and the volumes right after them |
| PodSpecs.ClosedOnlyByVolumes | docgen.go:279-303 | the payload ends with the closing "}\n" line iff the volume flag is "true" |
| Format.SprintfText | docgen.go:57-60 | Sprintf copies text without `%` unchanged and uses no argument for it |
| Format.SprintfArg | docgen.go:57-60 | a `%s` is replaced by the next argument as it is |
| Format.SprintfFillsHoles | docgen.go:74-76 | a format of plain texts with one `%s` between each pair, filled with one argument per hole, gives the texts with the arguments in order between them |
| Strings.JoinAppend | docgen.go:74-76 | Join of one more element is the old Join, the separator, then the element |
| Strings.JoinLength | docgen.go:74-76 | Join's length is the elements' total length plus one separator between each neighbouring pair |
| Strings.JoinHoldsElement | docgen.go:74 | every element occurs in the Join at the offset of the elements before it plus their separators |
| Strings.ConcatAppend | docgen.go:79 | writing two runs of parts into a builder gives the first run's text followed by the second's |
| Markdown.HeadingIsSprintf | docgen.go:57 | the document opens with `"# %s\n\n"` filled with the title |
| Markdown.BlockIsSprintf | docgen.go:58-77 | each block is Sprintf of the success and failure templates with five arguments when failed states are listed, and of the success template plus two newlines with three arguments otherwise; the separators are " -> " and " ," |
| Markdown.BlockOpensWithScenarioAndPayload | docgen.go:58 | every block starts with the scenario heading and then the payload for the record's two flags |
| Markdown.SuccessBlockIgnoresFailureReason | docgen.go:75-77 | with no failed state, the failure reason does not affect the block |
| Markdown.SuccessBlockEndsWithBlankLines | docgen.go:76 | with no failed state, the block ends with the states line and two more newlines |
| Markdown.FailureBlockExtendsSuccessBlock | docgen.go:73-77 | with failed states, the block is the success-mode block minus its two final newlines, then the failure sentence |
| Markdown.FailureBlockEndsWithReason | docgen.go:74 | with failed states, the block ends with the reason and a newline |
| Markdown.FailureTextListsState | docgen.go:60 | every failed state occurs in the failure sentence, where Join puts it |
| Markdown.FailureBlockListsState | docgen.go:73-74 | every failed state occurs in the block, after the success text |
| Markdown.BasicScenarioBlock | docgen.go:58-76 | a concrete success-mode record (init container, no volume, states Pending and Running) renders to the expected text |
| Markdown.FailedStatesSeparator | docgen.go:74 | the failed states Pending, Running are joined as "Pending ,Running" |
| Markdown.BlocksAppend | docgen.go:79 | the blocks of two runs of records are the first run's blocks followed by the second's |
| Markdown.DocumentAppend | docgen.go:79 | appending a record appends exactly its block to the buffer |
| Markdown.DocumentPrefix | docgen.go:56-79 | the buffer after the first k records is a prefix of the buffer after all records: text already written is never changed |
| Markdown.FlattenAppend | docgen.go:63-70 | step lemma for one more root: its records come after those of the earlier roots (this is how Flatten is defined; the order guarantee of the nested loops rests on Generate's loop invariants and TwoRootsInOrder) |
| Markdown.RenderAppendRoot | docgen.go:63-86 | the buffer is not reset between roots: one more root appends its blocks to the earlier document |
| Markdown.TwoRootsInOrder | docgen.go:63-86 | two roots of two records each give the heading and then the four blocks in root order, then record order |
| Files.ReplaySinglePath | docgen.go:81 | writes that all go to one file leave every other file unchanged; that file is unchanged or holds the data of some successful write, and after a successful last write it holds that write's data |
| Files.LastOk | docgen.go:79-84 | the index of the last write attempt that succeeded: that attempt succeeded and every later one failed; it is -1 exactly when no attempt succeeded |
| Files.ReplayLastSuccess | docgen.go:79-84 | writes that all go to one file leave it holding the data of the last write that succeeded, whatever failed writes came after; with no successful write it is unchanged |
| Files.FileSystem.WriteFile | docgen.go:81 | on success the file holds exactly the data given, on failure nothing changes; every attempt is recorded |
| DocGen.SnapshotAt | docgen.go:79-81 | the k-th write carries the heading and the blocks of the first k + 1 records |
| DocGen.SnapshotsAppend | docgen.go:79-81 | step lemma for one more record: one more snapshot, the buffer with that record's block (Snapshots' own definition, stated for `rules + [rule]`) |
| DocGen.WriteStep | docgen.go:79-84 | one more record plus one write of the new buffer, whether it succeeds or not, keeps the write history in step with the snapshots and the files in step with the history |
| DocGen.WritesOutcome | docgen.go:79-84 | after writes of a sequence of contents to one file, other files are unchanged, the file holds the content of the last write that succeeded (unchanged if none did), and the last content when the last write succeeded |
| DocGen.Generate | docgen.go:54-89 | always returns nil; makes one write per record in order, each carrying the whole buffer so far; leaves other files unchanged; with no records writes nothing; the document file holds the buffer as it stood after the last record whose write succeeded, or is as before when no write succeeded; after a successful last write it holds the full rendered document |

## Left out

- RegisterMarkers and RuleDefinition (docgen.go:21-23, 46-52) are left out. They register the marker schema with the controller-tools registry, which is foreign code.
- markers.PackageMarkers and the collector (docgen.go:64-68) are left out. `Generate` takes each root's decoded records as input, and the PackageMarkers error, which is only printed, is not modelled.
- The type assertion `value.(Rule)` (docgen.go:71) is left out. Records arrive already typed, so the panic on a value of another type is not modelled.
- The `fmt.Println` and `fmt.Printf` logging (docgen.go:65, 67, 83, 87) is left out.
- The `PodSpec` struct (docgen.go:30-33) is left out. Nothing uses it.
- The OutputDoc output rule and its Open method (docgen.go:92-120) are left out. Generate does not use them.
- main (docgen.go:122-192) is left out. It only wires the generator into controller-tools.
- The older podSpec (docgen.go:193-266) is left out. It is commented out in the source.
- Format.Sprintf models only the `%s` verb with string arguments, plus the missing-argument marker. Other verbs, `%%` and Go's marker for extra arguments are not modelled, because the templates use none of them and always get exactly one argument per `%s`.
- Files.FileSystem.WriteFile: a failed write leaves the file unchanged. A real `os.WriteFile` that fails after truncating can leave the file empty or partly written. The model also does not track file permissions (0644).
- Text is `seq<char>`. The `[]byte` conversion and UTF-8 encoding are not modelled.
- PodSpecs.ClosedOnlyByVolumes states only where the closing line appears. It does not count braces, because counting over the payload literals is too costly for the verifier.
