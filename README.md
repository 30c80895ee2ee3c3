# scl — search container logs, in Dafny

scl is a small command-line tool written in Go (`main.go`). It lists the
running Docker containers with `docker ps`, starts `docker logs` for each of
them, and reports every log line that contains a search pattern. Results are
either streamed as they arrive (`--follow`) or grouped by container name and
printed with a total count.

This project models the sequential logic inside that tool and proves
properties of it. It has two modules:

- `GoStrings` (`go_strings.dfy`) covers the parts of Go's `strings` and `fmt`
  that scl relies on, over `seq<char>`: `Contains`, `HasSuffix`, `Split` on one
  character with its inverse `Join`, `TrimSpace` with Go's `unicode.IsSpace`,
  and the decimal rendering of a natural number.
- `Scl` (`scl.dfy`) covers `main.go` in five parts:
  - Argument validation. PreRunE and RunE are modelled as functions, and
    `Execute` composes them in cobra's order.
  - `getDockerArgs` is a method that grows the argument list by appends. It is
    proved against `ParseLogsArgs`, which reads the list back the way
    `docker logs` does.
  - Container listing:
    - `getContainers` is a function.
    - `ParseContainers` is the skip-and-split loop of `runSearch`, proved equal
      to the function `Containers`.
    - An entry without `:`, where the Go code panics at `parts[1]`, becomes the
      explicit failure `MissingNameSeparator`.
  - The worker loop of `searchContainerLogs` is a method `SearchLines` for a
    single goroutine, proved equal to the function `Matches`.
  - The batch loop is a method `Aggregate` over a `map<string, seq<Result>>`
    and a counter, proved equal to the function `Grouped`.

The subprocesses become input values:

- the text `docker ps` printed, or its error (`Listing`);
- the lines `docker logs` wrote to its standard output, or the failure to start it (`LogStream`).

The worker-pool section models how goroutines receive lines as an assignment
sequence (`assign[i]` is the goroutine that received line i + 1).

## Model

| member | source | states |
|---|---|---|
| Scl.PreRun | main.go:87-99 | Passes exactly when `--since` is empty or ends in h, m or s, and `--tail` is not negative. Reports InvalidSince exactly when the suffix check fails. Reports NegativeTail exactly when the suffix check passes and tail is negative. |
| Scl.RunE | main.go:68-79 | Fails with TooManyPatterns exactly when there is more than one positional argument. Fails with NothingRequested exactly when there is at most one, and the pattern, follow, tail and since are all unset after a single argument replaces the pattern. No other failure. On success, the single argument is the pattern. |
| Scl.Execute | main.go:68-99 | A PreRunE failure is reported before RunE runs. The run starts exactly when both checks pass. Once PreRunE passes, the outcome is RunE's, including its failure. Every started run has a valid configuration equal to the effective command line. |
| Scl.GetDockerArgs | main.go:242-255 | The list starts with "logs" and ends with the container id. Its length is 2, plus 1 with follow, plus 2 with since, plus 2 with tail > 0. `--follow` is at position 1, `--since S` and `--tail N` follow at their positions, and N is the decimal form of the tail count. Reading the list back recovers follow, since, tail (0 when not positive) and the id. |
| GoStrings.DecimalRoundTrip | main.go:251 | The decimal text of n reads back as n. |
| GoStrings.Decimal | main.go:251 | The text is at least one digit and all digits, and starts with '0' exactly when n is 0. |
| GoStrings.HasSuffix | main.go:89-91 | True exactly when the suffix is no longer than the string and matches its last characters. |
| Scl.GetContainers | main.go:257-264 | A failed `docker ps` becomes ListingFailed. Otherwise there is at least one entry, no entry holds a newline, and the entries joined by newlines are the trimmed output. |
| GoStrings.TrimSpace | main.go:263 | The result is the text after the leading white space, with only white space after it, and it neither starts nor ends with white space. |
| GoStrings.Split | main.go:263 | There is at least one part, and no part holds the separator. |
| GoStrings.JoinSplit | main.go:263 | Joining the parts of a split gives back the string. |
| GoStrings.SplitJoin | main.go:138 | Splitting a join of separator-free parts gives back the parts. |
| GoStrings.SplitHasTwoParts | main.go:138-139 | The split has a second part exactly when the separator occurs. |
| Scl.EntryContainer | main.go:138-139 | The id is the text before the first ':'. The name is the text between the first ':' and the second ':' or the end. Neither holds ':'. |
| Scl.ParseContainers | main.go:134-139 | The loop computes `Containers`: it skips empty entries, pairs the others, and stops with MissingNameSeparator at an entry without ':'. |
| Scl.ContainersOk | main.go:134-139 | Parsing succeeds exactly when every entry is empty or holds a ':'. |
| Scl.ContainersInOrder | main.go:134-139 | When it succeeds, there is one pair per non-empty entry, in input order. |
| Scl.ContainersFirstFailure | main.go:138-139 | The failure names the first entry that has no ':'. |
| Scl.RunningContainers | main.go:108-139 | getContainers and then the skip-and-split loop. A failed listing is reported as ListingFailed, and only then. The only other failure is MissingNameSeparator. Every pair found has an id and a name without ':'. |
| Scl.BlankListing | main.go:134-137 | Output made only of white space trims to an empty string. Its single empty entry is skipped, so no container is searched. |
| Scl.ListingRoundTrip | main.go:257-264 | Listing `docker ps` output for containers with plain ids and names gives back those containers, in order. An empty listing gives no containers. |
| Scl.SearchLines | main.go:215-229 | The loop, run by one goroutine that receives every line, emits exactly `Matches`: numbering starts at 1 and counts every line. |
| Scl.SearchContainerLogs | main.go:192-205 | A `docker logs` that fails to start yields no records. Otherwise the records are those of the worker loop, run by a single goroutine, over the delivered lines. With more than one goroutine the program's records are Scl.AsWrittenPool's instead. |
| Scl.MatchesSound | main.go:218-226 | There are no more records than lines. Every record carries the container's id and name, and a line number within range. Its line is the input line at that position, unchanged, and it holds the pattern. |
| Scl.MatchesExactly | main.go:217-227 | The numbers of the records are exactly the 1-based positions of the lines that hold the pattern. |
| Scl.MatchesIncreasing | main.go:217-227 | Line numbers strictly increase from record to record. |
| Scl.EmptyPatternPassesAll | main.go:219 | With the empty pattern, every line yields a record, numbered by its position. |
| GoStrings.Contains | main.go:219 | A string that contains the pattern is at least as long as it, and the empty pattern is contained in every string. |
| GoStrings.ContainsOccurs | main.go:219 | Contains holds exactly when the pattern occurs at some index. |
| Scl.AsWrittenPool | main.go:208-230 | The pool as written: each goroutine numbers the lines it received with its own counter. Every record still carries the container, a line of the log that holds the pattern, and a number between 1 and the number of lines. |
| Scl.SharedCounterMisnumbers | main.go:212-228 | As written, two goroutines sharing the two lines "error a" and "error b" report "error b" as line 1. |
| Scl.AsWrittenSingleWorker | main.go:212-228 | As written, a pool whose single goroutine receives every line numbers exactly as the sequential loop does. |
| Scl.NumberedPoolStep | main.go:212-228 | In the corrected pool, line n adds its record once, and only when a goroutine of the pool received it and the line holds the pattern. |
| Scl.NumberedPoolMatches | main.go:212-228 | In the corrected pool, every line goes to some goroutine, and the records are exactly the sequential loop's records, up to order. |
| Scl.Aggregate | main.go:160-168 | The loop computes `Grouped`. The counter equals the number of records and also the total size of the groups. |
| Scl.GroupedKeys | main.go:160-168 | The keys are exactly the container names that arrived. A name with no records has no key. |
| Scl.GroupedContents | main.go:163-166 | Each group is non-empty and holds exactly its container's records, in arrival order. |
| Scl.GroupedTotal | main.go:161-167 | The group sizes sum to the number of records consumed. |

## Left out

- Running `docker ps` and `docker logs` (`os/exec`, pipes, `cmd.Start`, `cmd.Wait`) is not modelled. Their output, or their failure, is an input value to the model. The exit status of `cmd.Wait` is ignored by the code and has no counterpart here.
- `bufio.Scanner` is not modelled: the model takes the lines it would yield. Its 64 KiB line limit is left out, and so is the scanner error the code never checks. Either one silently ends the reading of a container's stream early. After that nobody drains the pipe, while `cmd.Wait` (main.go:239) waits for `docker logs` to exit. If the output left over exceeds the pipe buffer, the subprocess blocks, that container's search never finishes, and a batch run does not end. This is a reading of the code, not executed.
- Only the standard output of `docker logs` is searched (`cmd.StdoutPipe`, main.go:196). `cmd.Stderr` is left unset, so a container's stderr stream, which `docker logs` writes to its own stderr, goes to the null device and is never searched. The model's lines are the standard output only.
- Strings are sequences of characters, not bytes. Invalid UTF-8 and byte-level matching are not modelled.
- Goroutines, channels and `sync.WaitGroup` are not modelled, and neither is the order in which records from different goroutines or containers reach the results channel. A pool's output is modelled as the concatenation of each goroutine's output. The batch loop's input is some arrival order.
- Follow mode's relay goroutine, which prints each record as it arrives and never ends, is not modelled.
- Rendering is not modelled: lipgloss styles, headers, the `ContainerID[:12]` slice (which panics on ids shorter than 12 characters), separators, and the order of map iteration when printing.
- Timing and the rounded duration are not modelled, because they depend on the clock.
- Cobra's flag registration and parsing are not modelled. The model takes the parsed flag values. In the program the `pattern` variable is always `""` when RunE starts: no flag is bound to it (main.go:84-86), and only main.go:73 writes it. `CommandLine.pattern` lets it be any string, so the model is more general than the program; the program's runs are those with `pattern == ""`.
- Go's `int` is unbounded in the model: `tailLines` is an `int`, and its 64-bit limit is left out.
- Scl.ParseContainers: the Go loop starts a search goroutine for each pair as it goes. The model instead returns the pairs, or the failure for the first entry without ':'. In Go that entry panics the whole program after earlier containers may already have started. Skipping such an entry would also be defensible; the model follows the code: it is fatal.
- Scl.GetDockerArgs: `ParseLogsArgs` is a reading of the fixed order `logs [--follow] [--since S] [--tail N] id`. It is not Docker's full option parser.

## Findings

| source | as written | input that shows it | evidently intended | confidence | as-written member | corrected member |
|---|---|---|---|---|---|---|
| main.go:217,227 | Each of the `runtime.NumCPU()` goroutines starts its own `lineNum` at 1 and counts only the lines it received (Scl.AsWrittenPool). | Two goroutines. Lines "error a" and "error b" with pattern "error". The second goroutine receives line 2 and reports it as line 1. | Each reported number is the line's position in the container's log. For example, the reader numbers lines before fanning them out. | high, not executed | Scl.SharedCounterMisnumbers | Scl.NumberedPoolMatches |
