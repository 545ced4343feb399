# Diff printer of ui_test, modelled in Dafny

This project models the diff printer in `src/diff.rs` of ui_test, a harness
for compiler UI tests. When the expected output of a test differs from the
actual output, `print_diff` writes a readable diff to standard error:

- long runs of unchanged lines are collapsed around `CONTEXT = 2` lines of context;
- a removed line followed by an added line is shown with character-level highlighting.

The model has two layers:

- `DiffSpec` (diff_spec.dfy) states, as functions over values, what each
  operation writes and how it changes the printer's state. The lemmas there
  state the display policy.
- `Diff` (diff_state.dfy) is the printer as the code runs it. The class
  `DiffState` has the fields `printStartContext`, `skippedLines` and
  `prevLeft`, updated in place. Its methods mirror the Rust methods one to
  one, and each is proved to write exactly what its `DiffSpec` function says.
  `PrintDiff` is the entry point. It normalises whitespace, feeds every
  aligned row to a fresh `DiffState` in order, and calls `Finish` once.

Standard error is a log (`seq<OutLine>`). Every `eprintln!` appends one entry:

- `Ctx` is a context line and `SkipMsg(n)` is "... n lines skipped ...".
- `Minus` and `Plus` are whole removed and added lines.
- `MinusHl`, `PlusHl` and `Tilde` are highlighted lines. Each character in
  them is tagged `Plain`, `Removed` (red) or `Added` (green).
- `Blank` is the empty line that ends a diff.
- `Warn` is the non-UTF-8 warning.

Other modules:

- `Alignment` (alignment.dfy) holds the `Left`/`Right`/`Both` records of the
  external aligners. It also defines how to read the two inputs back from an
  alignment, and when an alignment is well formed.
- `Whitespace` (whitespace.dfy) is Rust's `char::is_whitespace`, written out
  as the Unicode `White_Space` code points, plus the replacement by `'░'`.
- `Output` (output.dfy) holds the log entries and two accounting notions.
  `Conveyed` counts the unchanged lines a stretch of output accounts for:
  a `Ctx` counts 1 and a `SkipMsg(n)` counts n. `Covers(o, lines)` says that
  `o` describes `lines` exactly, in order.

Behaviour of the code as written, which the model keeps:

- `finish` never shows a removal still held in `prev_left`. The field's
  comment (src/diff.rs:11-12) says a removed line is only kept back to compare
  it with the next added line, but `finish` (src/diff.rs:148-152) never reads
  the field. So a removed last line is never shown (`TrailingRemovalNotShown`,
  `LoneRemovalShowsNothing`). It is the only change ever lost
  (`SessionShowsEveryChange`).
- Take the first run of unchanged lines, before any change. When it has
  exactly three lines, the one-line branch of `print_skipped_msg` prints
  `skipped_lines[2]`, followed by lines 1 and 2. Line 0 is never shown and
  line 2 is shown twice. The count still adds up (`SkipRegionConveys`), but
  the run is described faithfully only when line 0 equals line 2
  (`FirstRegionCovers`).
- A three-line run between two changes, or at the end of the stream, is
  printed as it is.
- A removed line and an added line that share no character, each with a
  character that is not whitespace (`b` against `X`), count as "mixed". They
  are shown as a `-` line and a `+` line, not as one `~` line
  (`DisjointLinesAreMixed`, `ChangedMiddleLine`).

## Model

| member | source | states |
|---|---|---|
| `DiffSpec.SkippedMsg` | src/diff.rs:28-37 | the skip message is at most one line, is context only, and accounts for exactly `skipped` lines; indexing `lines[CONTEXT]` needs more than `CONTEXT` buffered lines, which every caller has (interior run of 5, first run of 3, final run of 3) |
| `DiffSpec.InteriorRegionShape` | src/diff.rs:51-60 | a run between two changes is printed verbatim when it has at most 5 lines (4 shows first 2 and last 2 with no message, 5 also prints the middle line itself); a longer run shows its first 2 lines, one `... n-4 lines skipped ...` message and its last 2 |
| `DiffSpec.InteriorRegionCovers` | src/diff.rs:46-62 | a run between two changes is described exactly: every buffered line is shown or counted, in order |
| `DiffSpec.FirstRegionShape` | src/diff.rs:46-50 | the first run shows no leading lines: up to 2 lines are printed as they are; 3 lines print line 2, line 1, line 2; longer runs print one message for all but the last 2 lines, then those 2 |
| `DiffSpec.FirstRegionOfThreeCovers` | src/diff.rs:46-50 | a first run of 3 lines is described exactly if and only if its first and last lines are equal |
| `DiffSpec.FirstRegionLongCovers` | src/diff.rs:46-50 | a first run of more than 3 lines is described exactly by the message and the last 2 lines |
| `DiffSpec.FirstRegionCovers` | src/diff.rs:46-50 | the first run is described exactly if and only if it does not have 3 lines or its lines 0 and 2 are equal |
| `DiffSpec.SkipRegionConveys` | src/diff.rs:46-62 | whatever the run and whether a change was already shown, the context lines plus the counts in the message equal the number of buffered lines |
| `DiffSpec.FinishRegionShape` | src/diff.rs:148-152 | at the end of the stream, up to 3 buffered lines are printed verbatim; more print the first 2 and one message for the rest (no trailing lines) |
| `DiffSpec.FinishRegionCovers` | src/diff.rs:148-152 | the final run is described exactly, and everything `finish` writes accounts for all buffered lines |
| `DiffSpec.MinusSpansText` | src/diff.rs:110-118 | the `-` line of a mixed pair reads as the left side of the character alignment and highlights nothing as added |
| `DiffSpec.PlusSpansText` | src/diff.rs:119-127 | when matched characters agree, the `+` line reads as the right side of the alignment and highlights nothing as removed |
| `DiffSpec.TildeSpansText` | src/diff.rs:130-138 | when matched characters agree, the single `~` line reads as the old line without its added characters and as the new line without its removed ones |
| `DiffSpec.PairLinesShowBothLines` | src/diff.rs:107-139 | under a well-formed alignment of `l` against `r`, a mixed pair is shown as a `-` line spelling `l` and a `+` line spelling `r`; a pure pair is one `~` line carrying both |
| `DiffSpec.WhitespaceOnlyChangeIsPure` | src/diff.rs:98-107 | when every character exclusive to one side is whitespace, the pair is not mixed and is shown as one `~` line |
| `DiffSpec.TrailingSpaceIsOneLine` | src/diff.rs:128-139 | "foo" against "foo " is shown as one `~` line with the space highlighted as added |
| `DiffSpec.DisjointLinesAreMixed` | src/diff.rs:97-127 | under a well-formed alignment, a removed and an added line with no character in common, each with a non-whitespace character, are shown as a `-` line spelling the old line and a `+` line spelling the new one |
| `DiffSpec.ChangedMiddleLine` | src/diff.rs:170-174 | "a", "b", "c" against "a", "X", "c", with "b" aligned as removed and "X" as added, shows `a` as context, then `-b` and `+X` highlighted, then `c` and the blank line |
| `DiffSpec.RunState` | src/diff.rs:82-146 | after any prefix of rows, `print_start_context` holds exactly when some row was a change; `skipped_lines` holds exactly the matched lines since the last change; `prev_left` holds a line only when the last row removed it, so at most one removal is pending |
| `DiffSpec.StepConveys` | src/diff.rs:82-146 | each record accounts for the run it flushes: what it shows plus what stays buffered equals what was buffered, plus one for a `Both` |
| `DiffSpec.RunConveys` | src/diff.rs:82-146 | over any prefix of rows, what was shown plus what is still buffered equals the number of `Both` rows |
| `DiffSpec.SessionConveysEveryMatch` | src/diff.rs:170-174 | over a whole session, the context lines plus the message counts equal the number of lines the two texts share |
| `DiffSpec.StepShowsChanges` | src/diff.rs:82-146 | each record shows each change once: a removal is either printed now or kept pending, never both; an earlier pending removal is printed exactly once; an addition is printed at once, alone or paired |
| `DiffSpec.RunShowsChanges` | src/diff.rs:82-146 | over any prefix of rows, the removals shown plus the one pending equal the `Left` rows, and the additions shown equal the `Right` rows |
| `DiffSpec.SessionShowsEveryChange` | src/diff.rs:148-174 | over a whole session, every added line is shown exactly once, and every removed line is shown exactly once except a final removal still pending at `finish` |
| `DiffSpec.RunAllMatched` | src/diff.rs:89-92 | rows that are all `Both` only buffer their lines: nothing is printed before `finish` and no change has been shown |
| `DiffSpec.SessionAllMatched` | src/diff.rs:170-174 | when every row is `Both`, the output is just the final run and the blank line, with no removal, addition or changed line |
| `DiffSpec.TrailingRemovalNotShown` | src/diff.rs:148-152 | when the last row removes `x`, `x` stays pending and `finish` adds only the blank line |
| `DiffSpec.LoneRemovalShowsNothing` | src/diff.rs:84-88 | a diff whose only row is a removal prints only the blank line |
| `DiffSpec.SessionShape` | src/diff.rs:148-152 | a session writes context, skip messages and change lines, then exactly one blank line at the end, and never the encoding warning |
| `DiffSpec.SessionFacts` | src/diff.rs:170-174 | a session's output is not empty, does not start with the warning, ends blank and accounts for every match |
| `DiffSpec.DiffOutputFacts` | src/diff.rs:159-164 | the warning is the first line exactly when decoding was lossy; the output ends blank and accounts for every match |
| `Whitespace.Normalize` | src/diff.rs:166-168 | normalising keeps the length in characters, turns every whitespace character other than space, line feed and carriage return into `'░'`, and keeps every other character |
| `Whitespace.NormalizeLeavesNoInvisible` | src/diff.rs:166-168 | after normalising, the only whitespace left is spaces, line feeds and carriage returns |
| `Whitespace.NormalizeIdempotent` | src/diff.rs:166-168 | normalising twice is normalising once, because `'░'` is not whitespace |
| `Whitespace.NormalizeKeepsLineBreaks` | src/diff.rs:166-168 | line feeds and carriage returns stay exactly where they were, so splitting into lines is unaffected |
| `Diff.ScanChars` | src/diff.rs:98-106 | `seen_l` is true exactly when the alignment has a non-whitespace `Left`, and `seen_r` exactly when it has a non-whitespace `Right` |
| `Diff.RenderMinus` | src/diff.rs:110-118 | the `-` line built character by character is the one `DiffSpec` gives; it reads as the old line, with nothing added |
| `Diff.RenderPlus` | src/diff.rs:119-127 | the `+` line built character by character is the one `DiffSpec` gives; when matches agree it reads as the new line, with nothing removed |
| `Diff.RenderTilde` | src/diff.rs:130-138 | the `~` line built character by character is the one `DiffSpec` gives; when matches agree it carries both lines |
| `Diff.DiffState.constructor` | src/diff.rs:4-14 | a fresh printer has shown no change, buffers nothing, holds no removal and has written nothing |
| `Diff.DiffState.PrintEndSkip` | src/diff.rs:21-26 | appends the skip message, then the last `min(2, len)` buffered lines in order; the state is unchanged |
| `Diff.DiffState.PrintSkippedMsg` | src/diff.rs:28-37 | appends exactly the 0/1/N skip message; the state is unchanged |
| `Diff.DiffState.PrintStartSkip` | src/diff.rs:40-44 | appends the first `min(2, len)` buffered lines in order; the state is unchanged |
| `Diff.DiffState.PrintSkip` | src/diff.rs:46-62 | appends the buffered run as the display policy says; afterwards a change counts as shown, the buffer is empty even when it was already empty, and `prev_left` is untouched |
| `Diff.DiffState.Skip` | src/diff.rs:64-66 | appends one line to the buffer and changes nothing else |
| `Diff.DiffState.PrintPrev` | src/diff.rs:68-72 | prints a pending removal as one `-` line, if there is one, and leaves none pending |
| `Diff.DiffState.PrintLeft` | src/diff.rs:74-76 | appends one whole-line removal |
| `Diff.DiffState.PrintRight` | src/diff.rs:78-80 | appends one whole-line addition |
| `Diff.DiffState.Row` | src/diff.rs:82-146 | `Left` flushes the run, prints any earlier pending removal and holds the new one. `Both` prints any pending removal and buffers its line. `Right` after a pending removal renders the pair and leaves the buffer and the started flag untouched; otherwise it flushes the run and prints `+r`. The new state and output are those of `DiffSpec.Step` |
| `Diff.DiffState.Finish` | src/diff.rs:148-152 | appends the first `min(2, len)` buffered lines, the message for `len - 2` (saturating) and the blank line; a pending removal is not printed |
| `Diff.PrintDiff` | src/diff.rs:155-175 | the output is the warning when either decoding was lossy, then a fresh session over the aligned rows of the normalised texts, each row fed once in order and `finish` called once; the warning comes first exactly when decoding was lossy, the output ends blank, and every shared line is accounted for |

## Left out

- The line and character aligners `diff::lines` and `diff::chars` are foreign code. They are parameters of type `LineAligner` and `CharAligner`, and no alignment algorithm is modelled. The properties that depend on their output being well formed say so in their `requires`.
- `String::from_utf8_lossy` is a foreign library call, and UTF-8 validity is not modelled. `PrintDiff` takes the decoded texts and two booleans that say whether decoding replaced invalid bytes.
- The exact bytes written are not modelled, because what matters to a reader is the role of each line and character: uncoloured context, removed (red), added (green) and changed (the yellow `~` line). This covers the ANSI colours of the `colored` crate, the leading space of context lines, and the decimal text of the skip count. Each line is a tagged log entry instead.
- Writing to standard error, and failures of that stream, are not modelled. The log is a field or a return value.
- `finish(self)` consumes the state in Rust. Nothing in the model stops `Finish` from being called twice; `PrintDiff` calls it once.
- `usize` arithmetic is modelled with unbounded naturals. `saturating_sub` is written out (`SaturatingSub`). `len - CONTEXT * 2` cannot wrap, because that branch is taken only when `len / 2 >= CONTEXT`.
- `char::is_whitespace` is written out as the Unicode `White_Space` code points. A later Unicode version that changed that list would not be reflected.
- The test harness in tests/integrations/basic-fail-mode/tests/run_file.rs only builds a configuration and runs a compiler in a temporary directory. That is process and file-system I/O, with nothing to specify here.
