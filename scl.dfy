/**
  scl ("search container logs"), main.go: the sequential logic inside the
  command-line tool that searches the logs of every running Docker container
  for a substring.

  Modelled here: the argument checks cobra runs (PreRunE, then RunE), the
  `docker logs` argument list, the parsing of the `docker ps` listing into
  (id, name) pairs, the per-container match-and-number loop of one worker,
  and the batch-mode grouping of match records by container name. The
  subprocesses become input values (the listing text, the log lines);
  goroutines and channels are not modelled, except that the numbering the
  worker pool produces is studied in the section "Worker pools".
 */
module Scl {
  import opened GoStrings

  datatype Option<T> = None | Some(value: T)

  /** Why a run stops before it searches anything. */
  datatype Failure =
    | TooManyPatterns                      // RunE: more than one positional argument
    | NothingRequested                     // RunE: no pattern, --follow, --tail or --since
    | InvalidSince                         // PreRunE: --since without an h, m or s suffix
    | NegativeTail                         // PreRunE: --tail below zero
    | ListingFailed(reason: string)        // getContainers: `docker ps` failed
    | MissingNameSeparator(entry: string)  // runSearch: `parts[1]` on an entry without ':' panics

  datatype Outcome<T> = Ok(value: T) | Fail(failure: Failure)

  // ===========================================================================
  // Argument validation

  /**
    What cobra hands over: the positional arguments, the value of the
    `pattern` variable before RunE runs, and the three flag values.
   */
  datatype CommandLine = CommandLine(args: seq<string>, pattern: string, sincePeriod: string, tailLines: int, follow: bool)

  /** The settings a search runs with, once RunE has taken the pattern. */
  datatype SearchConfig = SearchConfig(pattern: string, sincePeriod: string, tailLines: int, follow: bool)

  /** An unset window, or one whose last character is an hour, minute or second unit. */
  predicate SinceWellFormed(since: string)
  {
    since == "" || since[|since| - 1] in "hms"
  }

  /** The run has something to do. */
  predicate Requested(c: SearchConfig)
  {
    c.pattern != "" || c.follow || c.tailLines != 0 || c.sincePeriod != ""
  }

  /** The settings every search that starts satisfies. */
  predicate ValidConfig(c: SearchConfig)
  {
    SinceWellFormed(c.sincePeriod) && c.tailLines >= 0 && Requested(c)
  }

  /** PreRunE: the `--since` suffix check, then the `--tail` sign check. */
  function PreRun(cl: CommandLine): (err: Option<Failure>)
    ensures err == None <==> SinceWellFormed(cl.sincePeriod) && cl.tailLines >= 0
    ensures err == Some(InvalidSince) <==> !SinceWellFormed(cl.sincePeriod)
    ensures err == Some(NegativeTail) <==> SinceWellFormed(cl.sincePeriod) && cl.tailLines < 0
  {
    if cl.sincePeriod != "" && !HasSuffix(cl.sincePeriod, "h") && !HasSuffix(cl.sincePeriod, "m")
       && !HasSuffix(cl.sincePeriod, "s") then
      Some(InvalidSince)
    else if cl.tailLines < 0 then
      Some(NegativeTail)
    else
      None
  }

  /** The settings of a command line: a single positional argument replaces the pattern. */
  function Effective(cl: CommandLine): SearchConfig
  {
    SearchConfig(if |cl.args| == 1 then cl.args[0] else cl.pattern, cl.sincePeriod, cl.tailLines, cl.follow)
  }

  /** RunE: at most one pattern argument, and something to do. */
  function RunE(cl: CommandLine): (r: Outcome<SearchConfig>)
    ensures r == Fail(TooManyPatterns) <==> |cl.args| > 1
    ensures r == Fail(NothingRequested) <==> |cl.args| <= 1 && !Requested(Effective(cl))
    ensures r.Fail? ==> r.failure == TooManyPatterns || r.failure == NothingRequested
    ensures r.Ok? ==> r.value == Effective(cl) && Requested(r.value)
    ensures r.Ok? && |cl.args| == 1 ==> r.value.pattern == cl.args[0]
  {
    if |cl.args| > 1 then
      Fail(TooManyPatterns)
    else
      var pattern := if |cl.args| == 1 then cl.args[0] else cl.pattern;
      if pattern == "" && !cl.follow && cl.tailLines == 0 && cl.sincePeriod == "" then
        Fail(NothingRequested)
      else
        Ok(SearchConfig(pattern, cl.sincePeriod, cl.tailLines, cl.follow))
  }

  /** cobra's order: PreRunE first; RunE only when it passed. */
  function Execute(cl: CommandLine): (r: Outcome<SearchConfig>)
    ensures PreRun(cl).Some? ==> r == Fail(PreRun(cl).value)
    ensures r.Ok? <==>
      SinceWellFormed(cl.sincePeriod) && cl.tailLines >= 0 && |cl.args| <= 1 && Requested(Effective(cl))
    ensures r.Ok? ==> ValidConfig(r.value) && r.value == Effective(cl)
    ensures |cl.args| > 1 ==> r.Fail?
    ensures PreRun(cl).None? ==> r == RunE(cl)
  {
    match PreRun(cl)
    case Some(err) => Fail(err)
    case None => RunE(cl)
  }

  // ===========================================================================
  // The `docker logs` argument list

  /** What `docker logs` reads from its arguments; `tail == 0` and `since == ""` mean "not given". */
  datatype LogsRequest = LogsRequest(follow: bool, since: string, tail: nat, containerID: string)

  /**
    How `docker logs` reads `logs [--follow] [--since S] [--tail N] ID`: the
    last argument is the container, the options in between come in this order.
   */
  function ParseLogsArgs(args: seq<string>): Option<LogsRequest>
  {
    if |args| < 2 || args[0] != "logs" then None
    else
      var opts := args[1..|args| - 1];
      var follow := |opts| >= 1 && opts[0] == "--follow";
      var afterFollow := if follow then opts[1..] else opts;
      var hasSince := |afterFollow| >= 2 && afterFollow[0] == "--since";
      var afterSince := if hasSince then afterFollow[2..] else afterFollow;
      var hasTail := |afterSince| == 2 && afterSince[0] == "--tail" && AllDigits(afterSince[1]);
      if afterSince != [] && !hasTail then None
      else
        Some(LogsRequest(follow, if hasSince then afterFollow[1] else "",
                         if hasTail then DecimalValue(afterSince[1]) else 0, args[|args| - 1]))
  }

  /** The length `getDockerArgs` produces: "logs", the id, and each option with its value. */
  function ArgsLength(c: SearchConfig): nat
  {
    2 + (if c.follow then 1 else 0) + (if c.sincePeriod != "" then 2 else 0) + (if c.tailLines > 0 then 2 else 0)
  }

  /** getDockerArgs: build the `docker logs` argument list by successive appends. */
  method GetDockerArgs(c: SearchConfig, containerID: string) returns (cmdArgs: seq<string>)
    ensures |cmdArgs| == ArgsLength(c)
    ensures cmdArgs[0] == "logs" && cmdArgs[|cmdArgs| - 1] == containerID
    ensures c.follow ==> cmdArgs[1] == "--follow"
    ensures var i := if c.follow then 2 else 1;
      c.sincePeriod != "" ==> cmdArgs[i] == "--since" && cmdArgs[i + 1] == c.sincePeriod
    ensures var j := (if c.follow then 2 else 1) + (if c.sincePeriod != "" then 2 else 0);
      c.tailLines > 0 ==> cmdArgs[j] == "--tail" && cmdArgs[j + 1] == Decimal(c.tailLines)
    ensures ParseLogsArgs(cmdArgs) ==
      Some(LogsRequest(c.follow, c.sincePeriod, if c.tailLines > 0 then c.tailLines else 0, containerID))
  {
    cmdArgs := ["logs"];
    if c.follow {
      cmdArgs := cmdArgs + ["--follow"];
    }
    if c.sincePeriod != "" {
      cmdArgs := cmdArgs + ["--since", c.sincePeriod];
    }
    if c.tailLines > 0 {
      cmdArgs := cmdArgs + ["--tail", Decimal(c.tailLines)];
      DecimalRoundTrip(c.tailLines);
    }
    cmdArgs := cmdArgs + [containerID];
  }

  // ===========================================================================
  // The container listing

  datatype Container = Container(id: string, name: string)

  /** The result of running `docker ps --format {{.ID}}:{{.Names}}`. */
  datatype Listing = Listed(output: string) | ListingError(reason: string)

  /** getContainers: the listing, trimmed of white space and split into lines. */
  function GetContainers(listing: Listing): (r: Outcome<seq<string>>)
    ensures listing.ListingError? ==> r == Fail(ListingFailed(listing.reason))
    ensures listing.Listed? ==>
      && r.Ok? && |r.value| >= 1
      && (forall k :: 0 <= k < |r.value| ==> '\n' !in r.value[k])
      && Join(r.value, '\n') == TrimSpace(listing.output)
  {
    match listing
    case ListingError(reason) => Fail(ListingFailed(reason))
    case Listed(output) => JoinSplit(TrimSpace(output), '\n'); Ok(Split(TrimSpace(output), '\n'))
  }

  /** An entry the loop in runSearch can handle: skipped when empty, split otherwise. */
  predicate WellFormedEntry(entry: string)
  {
    entry == "" || ':' in entry
  }

  /**
    `parts := strings.Split(entry, ":")` and `parts[0], parts[1]`: the id is
    the text before the first ':', the name the text between the first and the
    second (or the end).
   */
  function EntryContainer(entry: string): (c: Container)
    requires ':' in entry
    ensures ':' !in c.id && ':' !in c.name
    ensures var n := |c.id| + 1 + |c.name|;
      && n <= |entry|
      && entry[..|c.id|] == c.id && entry[|c.id|] == ':' && entry[|c.id| + 1..n] == c.name
      && (n == |entry| || entry[n] == ':')
  {
    SplitHasTwoParts(entry, ':');
    JoinSplit(entry, ':');
    var parts := Split(entry, ':');
    EntryFields(entry, parts[0], parts[1], Join(parts[1..], ':'));
    Container(parts[0], parts[1])
  }

  lemma EntryFields(entry: string, id: string, name: string, rest: string)
    requires entry == id + [':'] + rest
    requires rest == name || (|rest| > |name| && rest[..|name|] == name && rest[|name|] == ':')
    ensures var n := |id| + 1 + |name|;
      && n <= |entry|
      && entry[..|id|] == id && entry[|id|] == ':' && entry[|id| + 1..n] == name
      && (n == |entry| || entry[n] == ':')
  {
    assert entry[|id| + 1..] == rest;
  }

  /** Prefix the containers found so far to the outcome of the rest of the listing. */
  function Prepend(found: seq<Container>, rest: Outcome<seq<Container>>): Outcome<seq<Container>>
  {
    match rest
    case Ok(cs) => Ok(found + cs)
    case Fail(f) => Fail(f)
  }

  /** The loop in runSearch over the entries: skip empty ones, split the others, stop at a bad one. */
  function Containers(entries: seq<string>): Outcome<seq<Container>>
  {
    if entries == [] then Ok([])
    else if entries[0] == "" then Containers(entries[1..])
    else if ':' !in entries[0] then Fail(MissingNameSeparator(entries[0]))
    else Prepend([EntryContainer(entries[0])], Containers(entries[1..]))
  }

  /** The non-empty entries, in order. */
  function NonEmpty(entries: seq<string>): (r: seq<string>)
    ensures forall k :: 0 <= k < |r| ==> r[k] != ""
    ensures forall e :: e in r <==> e in entries && e != ""
  {
    if entries == [] then []
    else (if entries[0] == "" then [] else [entries[0]]) + NonEmpty(entries[1..])
  }

  /** The loop of runSearch over the listing (the goroutine started per pair is not modelled). */
  method ParseContainers(entries: seq<string>) returns (r: Outcome<seq<Container>>)
    ensures r == Containers(entries)
  {
    var found: seq<Container> := [];
    var i := 0;
    PrependNothing(Containers(entries));
    assert entries[i..] == entries;
    while i < |entries|
      invariant 0 <= i <= |entries|
      invariant Containers(entries) == Prepend(found, Containers(entries[i..]))
    {
      var entry := entries[i];
      assert entries[i..][1..] == entries[i + 1..];
      if entry == "" {
        i := i + 1;
        continue;
      }
      if ':' !in entry {
        return Fail(MissingNameSeparator(entry));
      }
      var parts := Split(entry, ':');
      SplitHasTwoParts(entry, ':');
      var containerID, containerName := parts[0], parts[1];
      PrependTwice(found, [Container(containerID, containerName)], Containers(entries[i + 1..]));
      found := found + [Container(containerID, containerName)];
      i := i + 1;
    }
    assert entries[i..] == [];
    assert found + [] == found;
    r := Ok(found);
  }

  lemma PrependNothing(rest: Outcome<seq<Container>>)
    ensures Prepend([], rest) == rest
  {
    if rest.Ok? {
      assert [] + rest.value == rest.value;
    }
  }

  lemma PrependTwice(a: seq<Container>, b: seq<Container>, rest: Outcome<seq<Container>>)
    ensures Prepend(a, Prepend(b, rest)) == Prepend(a + b, rest)
  {
    if rest.Ok? {
      assert a + (b + rest.value) == (a + b) + rest.value;
    }
  }

  /** The listing parses exactly when every non-empty entry has a ':'. */
  lemma {:induction false} ContainersOk(entries: seq<string>)
    ensures Containers(entries).Ok? <==> forall k :: 0 <= k < |entries| ==> WellFormedEntry(entries[k])
  {
    if entries != [] {
      ContainersOk(entries[1..]);
      assert forall k :: 1 <= k < |entries| ==> entries[k] == entries[1..][k - 1];
    }
  }

  /** The pair of each entry, in order. */
  function Pairs(entries: seq<string>): (cs: seq<Container>)
    requires forall k :: 0 <= k < |entries| ==> ':' in entries[k]
    ensures |cs| == |entries|
  {
    if entries == [] then [] else [EntryContainer(entries[0])] + Pairs(entries[1..])
  }

  /** A parsed listing has one pair per non-empty entry, in the entries' order. */
  lemma {:induction false} ContainersInOrder(entries: seq<string>)
    requires forall k :: 0 <= k < |entries| ==> WellFormedEntry(entries[k])
    ensures forall k :: 0 <= k < |NonEmpty(entries)| ==> ':' in NonEmpty(entries)[k]
    ensures Containers(entries) == Ok(Pairs(NonEmpty(entries)))
  {
    assert forall e :: e in entries ==> WellFormedEntry(e);
    if entries != [] {
      var rest := entries[1..];
      assert forall k :: 0 <= k < |rest| ==> rest[k] == entries[k + 1];
      ContainersInOrder(rest);
      if entries[0] != "" {
        var ne := NonEmpty(entries);
        assert ':' in entries[0];
        assert ne == [entries[0]] + NonEmpty(rest);
        assert ne[1..] == NonEmpty(rest);
        assert Pairs(ne) == [EntryContainer(entries[0])] + Pairs(NonEmpty(rest));
        assert Containers(entries) == Prepend([EntryContainer(entries[0])], Containers(rest));
        assert Containers(entries) == Ok(Pairs(NonEmpty(entries)));
      } else {
        assert NonEmpty(entries) == NonEmpty(rest);
      }
    }
  }

  /** The first entry without ':' is the one reported; nothing after it is looked at. */
  lemma {:induction false} ContainersFirstFailure(entries: seq<string>, k: nat)
    requires k < |entries| && !WellFormedEntry(entries[k])
    requires forall j :: 0 <= j < k ==> WellFormedEntry(entries[j])
    ensures Containers(entries) == Fail(MissingNameSeparator(entries[k]))
  {
    if k > 0 {
      ContainersFirstFailure(entries[1..], k - 1);
    }
  }

  /**
    getContainers followed by the loop of runSearch: a failed listing is
    reported as such, a bad entry as MissingNameSeparator, and every pair
    found has an id and a name without ':'.
   */
  function RunningContainers(listing: Listing): (r: Outcome<seq<Container>>)
    ensures listing.ListingError? <==> r.Fail? && r.failure.ListingFailed?
    ensures listing.ListingError? ==> r == Fail(ListingFailed(listing.reason))
    ensures r.Fail? ==> r.failure.ListingFailed? || r.failure.MissingNameSeparator?
    ensures r.Ok? ==> forall k :: 0 <= k < |r.value| ==> ':' !in r.value[k].id && ':' !in r.value[k].name
  {
    match GetContainers(listing)
    case Fail(f) => Fail(f)
    case Ok(entries) => ContainersFields(entries); Containers(entries)
  }

  /** Parsing the listing fails only at an entry without ':', and yields fields without ':'. */
  lemma {:induction false} ContainersFields(entries: seq<string>)
    ensures var r := Containers(entries);
      && (r.Fail? ==> r.failure.MissingNameSeparator?)
      && (r.Ok? ==> forall k :: 0 <= k < |r.value| ==> ':' !in r.value[k].id && ':' !in r.value[k].name)
  {
    if entries != [] {
      ContainersFields(entries[1..]);
    }
  }

  /** A listing of nothing but white space names no container. */
  lemma BlankListing(output: string)
    requires AllSpace(output)
    ensures RunningContainers(Listed(output)) == Ok([])
  {
    TrimSpaceAllSpace(output);
    assert Split("", '\n') == [""];
    assert [""][1..] == [];
  }

  /** No ':' and no white space: true of Docker's container ids and names. */
  predicate PlainField(s: string)
  {
    forall k :: 0 <= k < |s| ==> s[k] != ':' && !IsSpace(s[k])
  }

  function PsLine(c: Container): string
  {
    c.id + ":" + c.name
  }

  function PsLines(cs: seq<Container>): (lines: seq<string>)
    ensures |lines| == |cs| && forall k :: 0 <= k < |cs| ==> lines[k] == PsLine(cs[k])
  {
    if cs == [] then [] else [PsLine(cs[0])] + PsLines(cs[1..])
  }

  /** What `docker ps --format {{.ID}}:{{.Names}}` prints: one line per container, each ended by a newline. */
  function PsOutput(cs: seq<Container>): string
  {
    if cs == [] then "" else Join(PsLines(cs), '\n') + "\n"
  }

  lemma ContainerLineParses(c: Container)
    requires PlainField(c.id) && PlainField(c.name)
    ensures ':' in PsLine(c) && EntryContainer(PsLine(c)) == c
  {
    SplitNoSeparator(c.name, ':');
    SplitFirst(c.id, ':', c.name);
    assert PsLine(c) == c.id + [':'] + c.name;
    assert PsLine(c)[|c.id|] == ':';
  }

  lemma {:induction false} ContainersOfPsLines(cs: seq<Container>)
    requires forall k :: 0 <= k < |cs| ==> PlainField(cs[k].id) && PlainField(cs[k].name)
    ensures Containers(PsLines(cs)) == Ok(cs)
  {
    if cs != [] {
      ContainerLineParses(cs[0]);
      assert PsLine(cs[0]) != "";
      assert PsLines(cs)[1..] == PsLines(cs[1..]);
      ContainersOfPsLines(cs[1..]);
      assert [cs[0]] + cs[1..] == cs;
    }
  }

  lemma {:induction false} JoinEnds(parts: seq<string>, sep: char)
    requires |parts| >= 1 && parts[0] != [] && parts[|parts| - 1] != []
    ensures var s := Join(parts, sep);
      s != [] && s[0] == parts[0][0] && s[|s| - 1] == parts[|parts| - 1][|parts[|parts| - 1]| - 1]
  {
    JoinEndsLast(parts, sep);
  }

  lemma {:induction false} JoinEndsLast(parts: seq<string>, sep: char)
    requires |parts| >= 1 && parts[|parts| - 1] != []
    ensures var s := Join(parts, sep); s != [] && s[|s| - 1] == parts[|parts| - 1][|parts[|parts| - 1]| - 1]
  {
    if |parts| > 1 {
      JoinEndsLast(parts[1..], sep);
    }
  }

  /** A listing line is not empty, holds no newline, and neither starts nor ends with white space. */
  lemma PsLineShape(c: Container)
    requires PlainField(c.id) && PlainField(c.name)
    ensures var line := PsLine(c);
      line != [] && '\n' !in line && !IsSpace(line[0]) && !IsSpace(line[|line| - 1])
  {
    var line := PsLine(c);
    assert forall j :: 0 <= j < |c.id| ==> line[j] == c.id[j];
    assert line[|c.id|] == ':';
    assert forall j :: 0 <= j < |c.name| ==> line[|c.id| + 1 + j] == c.name[j];
    assert forall j :: 0 <= j < |line| ==> line[j] == ':' || !IsSpace(line[j]);
  }

  /** Trimming what `docker ps` prints leaves its lines joined by newlines. */
  lemma PsOutputTrimmed(cs: seq<Container>)
    requires cs != []
    requires forall k :: 0 <= k < |cs| ==> PlainField(cs[k].id) && PlainField(cs[k].name)
    ensures TrimSpace(PsOutput(cs)) == Join(PsLines(cs), '\n')
  {
    var t := Join(PsLines(cs), '\n');
    PsJoinShape(cs);
    TrimSpaceNewline(t);
  }

  lemma PsJoinShape(cs: seq<Container>)
    requires cs != []
    requires PlainField(cs[0].id) && PlainField(cs[0].name)
    requires PlainField(cs[|cs| - 1].id) && PlainField(cs[|cs| - 1].name)
    ensures var t := Join(PsLines(cs), '\n'); t != [] && !IsSpace(t[0]) && !IsSpace(t[|t| - 1])
  {
    var lines := PsLines(cs);
    var first, last := lines[0], lines[|lines| - 1];
    assert first == PsLine(cs[0]) && last == PsLine(cs[|cs| - 1]);
    PsLineShape(cs[0]);
    PsLineShape(cs[|cs| - 1]);
    JoinEnds(lines, '\n');
  }

  /** Parsing what `docker ps` prints gives back its containers, in its order. */
  lemma ListingRoundTrip(cs: seq<Container>)
    requires forall k :: 0 <= k < |cs| ==> PlainField(cs[k].id) && PlainField(cs[k].name)
    ensures RunningContainers(Listed(PsOutput(cs))) == Ok(cs)
  {
    if cs == [] {
      assert TrimSpace("") == "";
      assert Split("", '\n') == [""];
    } else {
      PsOutputEntries(cs);
      ContainersOfPsLines(cs);
    }
  }

  /** getContainers splits what `docker ps` prints back into its lines. */
  lemma PsOutputEntries(cs: seq<Container>)
    requires cs != []
    requires forall k :: 0 <= k < |cs| ==> PlainField(cs[k].id) && PlainField(cs[k].name)
    ensures GetContainers(Listed(PsOutput(cs))) == Ok(PsLines(cs))
  {
    var lines := PsLines(cs);
    PsOutputTrimmed(cs);
    forall k | 0 <= k < |lines| ensures '\n' !in lines[k] {
      PsLineShape(cs[k]);
    }
    SplitJoin(lines, '\n');
  }

  // ===========================================================================
  // One worker: match and number the lines of one container

  /** A match record (main.go's Result). */
  datatype Result = Result(containerID: string, containerName: string, line: string, lineNum: int)

  /**
    The records one sequential worker emits for the lines `lines`: a record
    for every line that holds the pattern, numbered by its 1-based position.
   */
  function Matches(c: Container, pattern: string, lines: seq<string>): seq<Result>
  {
    if lines == [] then []
    else
      var n := |lines|;
      Matches(c, pattern, lines[..n - 1])
        + (if Contains(lines[n - 1], pattern) then [Result(c.id, c.name, lines[n - 1], n)] else [])
  }

  /** The worker loop of searchContainerLogs, run by a single goroutine that receives every line. */
  method SearchLines(c: Container, pattern: string, lines: seq<string>) returns (results: seq<Result>)
    ensures results == Matches(c, pattern, lines)
  {
    results := [];
    var lineNum := 1;
    var i := 0;
    while i < |lines|
      invariant 0 <= i <= |lines| && lineNum == i + 1
      invariant results == Matches(c, pattern, lines[..i])
    {
      var line := lines[i];
      assert lines[..i + 1][..i] == lines[..i];
      if Contains(line, pattern) {
        results := results + [Result(c.id, c.name, line, lineNum)];
      }
      lineNum := lineNum + 1;
      i := i + 1;
    }
    assert lines[..i] == lines;
  }

  /** The lines `docker logs` wrote to its standard output, or the failure to start it. */
  datatype LogStream = Streamed(lines: seq<string>) | StartFailed(reason: string)

  /** searchContainerLogs with one worker: a container whose command fails to start yields nothing. */
  method SearchContainerLogs(c: Container, pattern: string, stream: LogStream) returns (results: seq<Result>)
    ensures stream.StartFailed? ==> results == []
    ensures stream.Streamed? ==> results == Matches(c, pattern, stream.lines)
  {
    match stream
    case StartFailed(_) =>
      results := [];
    case Streamed(lines) =>
      results := SearchLines(c, pattern, lines);
  }

  /**
    Every record carries the container and a line that holds the pattern,
    unchanged, numbered by its position; there are no more records than lines.
   */
  lemma {:induction false} MatchesSound(c: Container, pattern: string, lines: seq<string>)
    ensures var r := Matches(c, pattern, lines);
      && |r| <= |lines|
      && forall k :: 0 <= k < |r| ==>
           && r[k].containerID == c.id && r[k].containerName == c.name
           && 1 <= r[k].lineNum <= |lines|
           && r[k].line == lines[r[k].lineNum - 1]
           && Contains(r[k].line, pattern)
  {
    if lines != [] {
      var n := |lines|;
      MatchesSound(c, pattern, lines[..n - 1]);
      assert forall i :: 0 <= i < n - 1 ==> lines[..n - 1][i] == lines[i];
    }
  }

  /** Line numbers increase strictly from record to record. */
  lemma {:induction false} MatchesIncreasing(c: Container, pattern: string, lines: seq<string>)
    ensures var r := Matches(c, pattern, lines);
      forall j, k :: 0 <= j < k < |r| ==> r[j].lineNum < r[k].lineNum
  {
    if lines != [] {
      var n := |lines|;
      MatchesIncreasing(c, pattern, lines[..n - 1]);
      MatchesSound(c, pattern, lines[..n - 1]);
    }
  }

  function LineNums(results: seq<Result>): set<int>
  {
    set k | 0 <= k < |results| :: results[k].lineNum
  }

  function MatchingPositions(pattern: string, lines: seq<string>): set<int>
  {
    set i | 0 <= i < |lines| && Contains(lines[i], pattern) :: i + 1
  }

  /** A line gets a record exactly when it holds the pattern. */
  lemma {:induction false} MatchesExactly(c: Container, pattern: string, lines: seq<string>)
    ensures LineNums(Matches(c, pattern, lines)) == MatchingPositions(pattern, lines)
  {
    if lines != [] {
      var n := |lines|;
      var prev := lines[..n - 1];
      MatchesExactly(c, pattern, prev);
      var r := Matches(c, pattern, lines);
      var rp := Matches(c, pattern, prev);
      var added := if Contains(lines[n - 1], pattern) then [Result(c.id, c.name, lines[n - 1], n)] else [];
      assert r == rp + added;
      assert LineNums(added) == if Contains(lines[n - 1], pattern) then {n} else {} by {
        if Contains(lines[n - 1], pattern) {
          assert added[0].lineNum == n;
          assert n in LineNums(added);
        }
      }
      LineNumsAppend(rp, added);
      MatchingPositionsStep(pattern, lines);
    }
  }

  lemma LineNumsAppend(a: seq<Result>, b: seq<Result>)
    ensures LineNums(a + b) == LineNums(a) + LineNums(b)
  {
    var ab := a + b;
    forall x | x in LineNums(ab) ensures x in LineNums(a) + LineNums(b) {
      var k :| 0 <= k < |ab| && ab[k].lineNum == x;
      if k < |a| {
        assert ab[k] == a[k];
      } else {
        assert ab[k] == b[k - |a|];
      }
    }
    forall x | x in LineNums(a) + LineNums(b) ensures x in LineNums(ab) {
      if x in LineNums(a) {
        var k :| 0 <= k < |a| && a[k].lineNum == x;
        assert ab[k] == a[k];
      } else {
        var k :| 0 <= k < |b| && b[k].lineNum == x;
        assert ab[k + |a|] == b[k];
      }
    }
  }

  lemma MatchingPositionsStep(pattern: string, lines: seq<string>)
    requires lines != []
    ensures var n := |lines|;
      MatchingPositions(pattern, lines)
        == MatchingPositions(pattern, lines[..n - 1]) + (if Contains(lines[n - 1], pattern) then {n} else {})
  {
    var n := |lines|;
    var prev := lines[..n - 1];
    assert forall i :: 0 <= i < n - 1 ==> prev[i] == lines[i];
    forall x | x in MatchingPositions(pattern, lines)
      ensures x in MatchingPositions(pattern, prev) + (if Contains(lines[n - 1], pattern) then {n} else {})
    {
      var i :| 0 <= i < n && Contains(lines[i], pattern) && x == i + 1;
      if i < n - 1 {
        assert Contains(prev[i], pattern);
      }
    }
  }

  /** The empty pattern passes every line through, numbered 1, 2, 3, ... */
  lemma {:induction false} EmptyPatternPassesAll(c: Container, lines: seq<string>)
    ensures var r := Matches(c, "", lines);
      |r| == |lines| && forall k :: 0 <= k < |r| ==> r[k] == Result(c.id, c.name, lines[k], k + 1)
  {
    if lines != [] {
      var n := |lines|;
      EmptyPatternPassesAll(c, lines[..n - 1]);
      EmptyPatternContained(lines[n - 1]);
    }
  }

  // ===========================================================================
  // Worker pools: how the numbering behaves with several goroutines
  //
  // searchContainerLogs starts runtime.NumCPU() goroutines reading one channel
  // of lines. `assign[i]` names the goroutine that received line i + 1; the
  // order in which the goroutines' records reach the results channel is not
  // modelled: a pool's output is given per goroutine, concatenated.

  /** The lines goroutine `w` received, in order. */
  function Share(w: nat, assign: seq<nat>, lines: seq<string>): (share: seq<string>)
    requires |assign| == |lines|
    ensures |share| <= |lines| && forall k :: 0 <= k < |share| ==> share[k] in lines
  {
    if lines == [] then []
    else
      var n := |lines|;
      Share(w, assign[..n - 1], lines[..n - 1]) + (if assign[n - 1] == w then [lines[n - 1]] else [])
  }

  /**
    As written: each of the `workers` goroutines numbers the lines it received
    with its own counter. Every record still carries the container and a line
    of the log that holds the pattern, with a number no larger than the log.
   */
  function AsWrittenPool(workers: nat, assign: seq<nat>, c: Container, pattern: string, lines: seq<string>): (r: seq<Result>)
    requires |assign| == |lines|
    ensures forall k :: 0 <= k < |r| ==>
      && r[k].containerID == c.id && r[k].containerName == c.name
      && r[k].line in lines && Contains(r[k].line, pattern)
      && 1 <= r[k].lineNum <= |lines|
  {
    if workers == 0 then []
    else
      var share := Share(workers - 1, assign, lines);
      MatchesSound(c, pattern, share);
      AsWrittenPool(workers - 1, assign, c, pattern, lines) + Matches(c, pattern, share)
  }

  /** With two goroutines, the second line can be reported as line 1. */
  lemma SharedCounterMisnumbers()
    ensures var c := Container("c0ffee", "web");
      var lines := ["error a", "error b"];
      var r := AsWrittenPool(2, [0, 1], c, "error", lines);
      Result("c0ffee", "web", "error b", 1) in r && lines[0] != "error b"
  {
    var c := Container("c0ffee", "web");
    var lines := ["error a", "error b"];
    assert lines[..1] == ["error a"];
    assert [0, 1][..1] == [0];
    assert Share(1, [0, 1], lines) == ["error b"];
    assert OccursAt("error b", "error", 0);
    assert Matches(c, "error", ["error b"]) == [Result("c0ffee", "web", "error b", 1)];
  }

  /** As written, one goroutine numbers correctly: it receives every line. */
  lemma {:induction false} AsWrittenSingleWorker(assign: seq<nat>, c: Container, pattern: string, lines: seq<string>)
    requires |assign| == |lines| && forall i :: 0 <= i < |assign| ==> assign[i] == 0
    ensures AsWrittenPool(1, assign, c, pattern, lines) == Matches(c, pattern, lines)
  {
    ShareAll(assign, lines);
  }

  lemma {:induction false} ShareAll(assign: seq<nat>, lines: seq<string>)
    requires |assign| == |lines| && forall i :: 0 <= i < |assign| ==> assign[i] == 0
    ensures Share(0, assign, lines) == lines
  {
    if lines != [] {
      var n := |lines|;
      ShareAll(assign[..n - 1], lines[..n - 1]);
    }
  }

  /**
    Corrected: the reader numbers each line before handing it on, and goroutine
    `w` keeps those numbers. Its records among the first `n` lines.
   */
  function NumberedWorker(w: nat, assign: seq<nat>, c: Container, pattern: string, lines: seq<string>, n: nat): seq<Result>
    requires |assign| == |lines| && n <= |lines|
  {
    if n == 0 then []
    else
      NumberedWorker(w, assign, c, pattern, lines, n - 1)
        + (if assign[n - 1] == w && Contains(lines[n - 1], pattern) then [Result(c.id, c.name, lines[n - 1], n)] else [])
  }

  /** The corrected pool's records among the first `n` lines, goroutine by goroutine. */
  function NumberedPool(workers: nat, assign: seq<nat>, c: Container, pattern: string, lines: seq<string>, n: nat): seq<Result>
    requires |assign| == |lines| && n <= |lines|
  {
    if workers == 0 then []
    else NumberedPool(workers - 1, assign, c, pattern, lines, n) + NumberedWorker(workers - 1, assign, c, pattern, lines, n)
  }

  /** The record `rec`, counted once when `arrived` holds. */
  function Arrival(arrived: bool, rec: Result): multiset<Result>
  {
    if arrived then multiset{rec} else multiset{}
  }

  lemma MultisetStep(pool: seq<Result>, pool': seq<Result>, now: seq<Result>, before: seq<Result>,
                     earlier: multiset<Result>, here: multiset<Result>, all: multiset<Result>)
    requires multiset(pool) == multiset(pool') + earlier
    requires multiset(now) == multiset(before) + here
    requires earlier + here == all
    ensures multiset(pool + now) == multiset(pool' + before) + all
  {
  }

  /** Line `n` adds its record to the pool once, if a goroutine of the pool received it. */
  lemma {:induction false} NumberedPoolStep(workers: nat, assign: seq<nat>, c: Container, pattern: string, lines: seq<string>, n: nat)
    requires |assign| == |lines| && 0 < n <= |lines|
    ensures multiset(NumberedPool(workers, assign, c, pattern, lines, n))
        == multiset(NumberedPool(workers, assign, c, pattern, lines, n - 1))
           + Arrival(assign[n - 1] < workers && Contains(lines[n - 1], pattern), Result(c.id, c.name, lines[n - 1], n))
    decreases workers, 1
  {
    if workers > 0 {
      NumberedPoolStepMore(workers, assign, c, pattern, lines, n);
    }
  }

  lemma {:induction false} NumberedPoolStepMore(workers: nat, assign: seq<nat>, c: Container, pattern: string, lines: seq<string>, n: nat)
    requires |assign| == |lines| && 0 < n <= |lines| && workers > 0
    ensures multiset(NumberedPool(workers, assign, c, pattern, lines, n))
        == multiset(NumberedPool(workers, assign, c, pattern, lines, n - 1))
           + Arrival(assign[n - 1] < workers && Contains(lines[n - 1], pattern), Result(c.id, c.name, lines[n - 1], n))
    decreases workers, 0
  {
    var w := workers - 1;
    var hit := Contains(lines[n - 1], pattern);
    var rec := Result(c.id, c.name, lines[n - 1], n);
    NumberedPoolStep(w, assign, c, pattern, lines, n);
    assert NumberedPool(workers, assign, c, pattern, lines, n)
      == NumberedPool(w, assign, c, pattern, lines, n) + NumberedWorker(w, assign, c, pattern, lines, n);
    assert NumberedPool(workers, assign, c, pattern, lines, n - 1)
      == NumberedPool(w, assign, c, pattern, lines, n - 1) + NumberedWorker(w, assign, c, pattern, lines, n - 1);
    MultisetStep(NumberedPool(w, assign, c, pattern, lines, n), NumberedPool(w, assign, c, pattern, lines, n - 1),
                 NumberedWorker(w, assign, c, pattern, lines, n), NumberedWorker(w, assign, c, pattern, lines, n - 1),
                 Arrival(assign[n - 1] < w && hit, rec), Arrival(assign[n - 1] == w && hit, rec),
                 Arrival(assign[n - 1] < workers && hit, rec));
  }

  /** A pool that has seen no line has emitted nothing. */
  lemma {:induction false} NumberedPoolNoLines(workers: nat, assign: seq<nat>, c: Container, pattern: string, lines: seq<string>)
    requires |assign| == |lines|
    ensures NumberedPool(workers, assign, c, pattern, lines, 0) == []
  {
    if workers > 0 {
      NumberedPoolNoLines(workers - 1, assign, c, pattern, lines);
    }
  }

  /** Whatever goroutine receives each line, the pool emits exactly the single worker's records. */
  lemma {:induction false} NumberedPoolMatches(workers: nat, assign: seq<nat>, c: Container, pattern: string, lines: seq<string>)
    requires |assign| == |lines| && forall i :: 0 <= i < |assign| ==> assign[i] < workers
    ensures multiset(NumberedPool(workers, assign, c, pattern, lines, |lines|)) == multiset(Matches(c, pattern, lines))
  {
    NumberedPoolPrefix(workers, assign, c, pattern, lines, |lines|);
    assert lines[..|lines|] == lines;
  }

  lemma {:induction false} NumberedPoolPrefix(workers: nat, assign: seq<nat>, c: Container, pattern: string, lines: seq<string>, n: nat)
    requires |assign| == |lines| && n <= |lines| && forall i :: 0 <= i < |assign| ==> assign[i] < workers
    ensures multiset(NumberedPool(workers, assign, c, pattern, lines, n)) == multiset(Matches(c, pattern, lines[..n]))
  {
    if n == 0 {
      NumberedPoolNoLines(workers, assign, c, pattern, lines);
    } else {
      var hit := Contains(lines[n - 1], pattern);
      var rec := Result(c.id, c.name, lines[n - 1], n);
      NumberedPoolPrefix(workers, assign, c, pattern, lines, n - 1);
      NumberedPoolStep(workers, assign, c, pattern, lines, n);
      var added := if hit then [rec] else [];
      assert lines[..n][..n - 1] == lines[..n - 1];
      assert lines[..n][n - 1] == lines[n - 1];
      assert Matches(c, pattern, lines[..n]) == Matches(c, pattern, lines[..n - 1]) + added;
      assert multiset(added) == Arrival(assign[n - 1] < workers && hit, rec);
      MultisetSnoc(NumberedPool(workers, assign, c, pattern, lines, n), NumberedPool(workers, assign, c, pattern, lines, n - 1),
                   Matches(c, pattern, lines[..n]), Matches(c, pattern, lines[..n - 1]), added);
    }
  }

  lemma MultisetSnoc(pool: seq<Result>, pool': seq<Result>, m: seq<Result>, m': seq<Result>, added: seq<Result>)
    requires multiset(pool) == multiset(pool') + multiset(added)
    requires multiset(pool') == multiset(m')
    requires m == m' + added
    ensures multiset(pool) == multiset(m)
  {
  }

  // ===========================================================================
  // Batch mode: group the records by container name

  /** containerResults after the records `results` arrived, in this order. */
  function Grouped(results: seq<Result>): map<string, seq<Result>>
  {
    if results == [] then map[]
    else
      var groups := Grouped(results[..|results| - 1]);
      var r := results[|results| - 1];
      groups[r.containerName := (if r.containerName in groups then groups[r.containerName] else []) + [r]]
  }

  /** The records of container `name`, in arrival order. */
  function WithName(results: seq<Result>, name: string): seq<Result>
  {
    if results == [] then []
    else
      var r := results[|results| - 1];
      WithName(results[..|results| - 1], name) + (if r.containerName == name then [r] else [])
  }

  /** The number of records in all groups together. */
  ghost function TotalSize(groups: map<string, seq<Result>>): nat
    decreases |groups|
  {
    if groups == map[] then 0
    else
      var name :| name in groups;
      |groups[name]| + TotalSize(groups - {name})
  }

  /** TotalSize does not depend on which key it takes first. */
  lemma {:induction false} TotalSizeRemove(groups: map<string, seq<Result>>, name: string)
    requires name in groups
    ensures TotalSize(groups) == |groups[name]| + TotalSize(groups - {name})
    decreases |groups|
  {
    var other :| other in groups && TotalSize(groups) == |groups[other]| + TotalSize(groups - {other});
    if other != name {
      assert groups - {other} - {name} == groups - {name} - {other};
      TotalSizeRemove(groups - {other}, name);
      TotalSizeRemove(groups - {name}, other);
    }
  }

  lemma TotalSizeUpdate(groups: map<string, seq<Result>>, name: string, group: seq<Result>)
    ensures TotalSize(groups[name := group])
      == TotalSize(groups) - (if name in groups then |groups[name]| else 0) + |group|
  {
    var updated := groups[name := group];
    TotalSizeRemove(updated, name);
    assert updated - {name} == groups - {name};
    if name in groups {
      TotalSizeRemove(groups, name);
    } else {
      assert groups - {name} == groups;
    }
  }

  /** The batch loop of runSearch: append each arriving record to its container's group and count it. */
  method Aggregate(results: seq<Result>) returns (containerResults: map<string, seq<Result>>, totalMatches: nat)
    ensures containerResults == Grouped(results)
    ensures totalMatches == |results|
    ensures totalMatches == TotalSize(containerResults)
  {
    containerResults := map[];
    totalMatches := 0;
    var i := 0;
    while i < |results|
      invariant 0 <= i <= |results| && totalMatches == i
      invariant containerResults == Grouped(results[..i])
      invariant TotalSize(containerResults) == totalMatches
    {
      var result := results[i];
      assert results[..i + 1][..i] == results[..i];
      var group := if result.containerName in containerResults then containerResults[result.containerName] else [];
      TotalSizeUpdate(containerResults, result.containerName, group + [result]);
      containerResults := containerResults[result.containerName := group + [result]];
      totalMatches := totalMatches + 1;
      i := i + 1;
    }
    assert results[..i] == results;
  }

  /** The groups are keyed by exactly the names that arrived: a name without records has no key. */
  lemma {:induction false} GroupedKeys(results: seq<Result>)
    ensures Grouped(results).Keys == set r | r in results :: r.containerName
  {
    if results != [] {
      var n := |results|;
      GroupedKeys(results[..n - 1]);
      assert results == results[..n - 1] + [results[n - 1]];
      assert forall r :: r in results <==> r in results[..n - 1] || r == results[n - 1];
    }
  }

  /** Each group holds exactly its container's records, in arrival order, and is never empty. */
  lemma {:induction false} GroupedContents(results: seq<Result>)
    ensures var groups := Grouped(results);
      forall name :: name in groups ==> groups[name] == WithName(results, name) && groups[name] != []
  {
    if results != [] {
      var n := |results|;
      GroupedContents(results[..n - 1]);
      var name := results[n - 1].containerName;
      if name !in Grouped(results[..n - 1]) {
        GroupedAbsent(results[..n - 1], name);
      }
    }
  }

  /** A name without a group has no records. */
  lemma {:induction false} GroupedAbsent(results: seq<Result>, name: string)
    requires name !in Grouped(results)
    ensures WithName(results, name) == []
  {
    if results != [] {
      GroupedAbsent(results[..|results| - 1], name);
    }
  }

  /** totalMatches is the sum of the group sizes. */
  lemma {:induction false} GroupedTotal(results: seq<Result>)
    ensures TotalSize(Grouped(results)) == |results|
  {
    if results == [] {
    } else {
      var n := |results|;
      var groups := Grouped(results[..n - 1]);
      var name := results[n - 1].containerName;
      GroupedTotal(results[..n - 1]);
      TotalSizeUpdate(groups, name, (if name in groups then groups[name] else []) + [results[n - 1]]);
    }
  }
}
