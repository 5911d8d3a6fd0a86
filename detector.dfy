/**
  The pattern detector: loads the built-in catalog of fault signatures into the
  context, counts for every signature the log entries whose message matches it,
  and ranks the signatures by descending frequency with a stable exchange sort.
 */
module Detector {
  import opened Wrappers
  import opened Bounded
  import opened Ranking
  import opened LogAnalyzer

  /**
    The POSIX extended regular-expression engine (`regcomp`/`regexec`), which is
    outside the model: whether a pattern compiles, and whether a compiled
    pattern finds a match anywhere in a string.
   */
  datatype RegexEngine = RegexEngine(compiles: string -> bool, search: (string, string) -> bool)

  /** `string_matches_pattern`: a pattern that does not compile matches nothing. */
  predicate StringMatchesPattern(engine: RegexEngine, s: string, regex: string): (b: bool)
    ensures !engine.compiles(regex) ==> !b
    ensures engine.compiles(regex) ==> (b <==> engine.search(regex, s))
  {
    engine.compiles(regex) && engine.search(regex, s)
  }

  /** The ranking key of a pattern. */
  function FrequencyOf(p: Pattern): int {
    p.frequency
  }

  // The fault-signature catalog, in load order, each with frequency 0.
  const HighCpuUsage := Pattern(".*cpu usage.*[9][0-9]%.*", 0, 4, "High CPU usage detected", "cpu")
  const HighLoadAverage := Pattern(".*load average:.*[5-9]\\.[0-9].*", 0, 3, "High load average", "cpu")
  const ExcessiveCpuProcess := Pattern(".*process.*using excessive cpu.*", 0, 4, "Process using excessive CPU", "cpu")
  const OutOfMemory := Pattern(".*out of memory.*", 0, 5, "Out of memory condition", "memory")
  const AllocationFailure := Pattern(".*memory allocation failed.*", 0, 4, "Memory allocation failure", "memory")
  const LowFreeMemory := Pattern(".*free memory: [0-9]+ KB.*", 0, 3, "Low free memory", "memory")
  const HighSwapUsage := Pattern(".*swap used: [8-9][0-9]%.*", 0, 4, "High swap usage", "memory")
  const DiskFull := Pattern(".*disk full.*", 0, 5, "Disk full condition", "disk")
  const DiskIoError := Pattern(".*i/o error.*", 0, 4, "Disk I/O error", "disk")
  const DeviceTimeout := Pattern(".*device timeout.*", 0, 3, "Device timeout", "disk")
  const FilesystemNearCapacity := Pattern(".*filesystem.*[9][0-9]%.*", 0, 3, "Filesystem near capacity", "disk")
  const NetworkUnreachable := Pattern(".*network unreachable.*", 0, 4, "Network unreachable", "network")
  const ConnectionTimeout := Pattern(".*connection timed out.*", 0, 3, "Connection timeout", "network")
  const PacketLoss := Pattern(".*packet loss.*", 0, 3, "Network packet loss", "network")
  const ProcessKilled := Pattern(".*process.*killed.*", 0, 4, "Process killed", "process")
  const SegmentationFault := Pattern(".*segmentation fault.*", 0, 5, "Segmentation fault", "process")
  const CoreDumped := Pattern(".*core dumped.*", 0, 5, "Core dumped", "process")
  const ProcessNotResponding := Pattern(".*process.*not responding.*", 0, 4, "Process not responding", "process")
  const DatabaseConnectionFailed := Pattern(".*database connection failed.*", 0, 4, "Database connection failure", "database")
  const QueryTimeout := Pattern(".*query timeout.*", 0, 3, "Database query timeout", "database")
  const DatabaseDeadlock := Pattern(".*deadlock detected.*", 0, 4, "Database deadlock", "database")
  const TooManyOpenFiles := Pattern(".*too many open files.*", 0, 4, "Too many open files", "resources")
  const FileDescriptorLimit := Pattern(".*file descriptor.*limit.*", 0, 4, "File descriptor limit reached", "resources")

  // The catalog in its seven blocks, in load order.
  const CpuSignatures := [HighCpuUsage, HighLoadAverage, ExcessiveCpuProcess]
  const MemorySignatures := [OutOfMemory, AllocationFailure, LowFreeMemory, HighSwapUsage]
  const DiskSignatures := [DiskFull, DiskIoError, DeviceTimeout, FilesystemNearCapacity]
  const NetworkSignatures := [NetworkUnreachable, ConnectionTimeout, PacketLoss]
  const ProcessSignatures := [ProcessKilled, SegmentationFault, CoreDumped, ProcessNotResponding]
  const DatabaseSignatures := [DatabaseConnectionFailed, QueryTimeout, DatabaseDeadlock]
  const ResourceSignatures := [TooManyOpenFiles, FileDescriptorLimit]

  /** The whole catalog, in load order. */
  function Catalog(): seq<Pattern> {
    CpuSignatures + MemorySignatures + DiskSignatures + NetworkSignatures
    + ProcessSignatures + DatabaseSignatures + ResourceSignatures
  }

  /** The loaded patterns after one load of the catalog into a context holding `ps`. */
  function Loaded(ps: seq<Pattern>): seq<Pattern> {
    AppendAll(ps, Catalog(), MaxPatterns)
  }

  /**
    `add_pattern`: appends the signature with frequency 0 at index
    `pattern_count` unless the array is full; no other slot changes.
   */
  method AddPattern(ctx: Context, regex: string, description: string, category: string, severity: int)
    requires ctx.Valid()
    modifies ctx`patternCount, ctx.patterns
    ensures ctx.Valid()
    ensures ctx.Patterns() == Append(old(ctx.Patterns()), Pattern(regex, 0, severity, description, category), MaxPatterns)
    ensures forall k :: ctx.patternCount <= k < MaxPatterns ==> ctx.patterns[k] == old(ctx.patterns[k])
  {
    if ctx.patternCount >= MaxPatterns {
      return;
    }
    ctx.patterns[ctx.patternCount] := Pattern(regex, 0, severity, description, category);
    ctx.patternCount := ctx.patternCount + 1;
    assert ctx.Patterns() == old(ctx.Patterns()) + [Pattern(regex, 0, severity, description, category)];
  }

  /** The CPU block of `detect_common_patterns`. */
  method AddCpuPatterns(ctx: Context)
    requires ctx.Valid()
    modifies ctx`patternCount, ctx.patterns
    ensures ctx.Valid()
    ensures ctx.Patterns() == AppendAll(old(ctx.Patterns()), CpuSignatures, MaxPatterns)
  {
    ghost var s := ctx.Patterns();
    AddPattern(ctx, HighCpuUsage.regex, HighCpuUsage.description, HighCpuUsage.category, HighCpuUsage.severity);
    AddPattern(ctx, HighLoadAverage.regex, HighLoadAverage.description, HighLoadAverage.category, HighLoadAverage.severity);
    AddPattern(ctx, ExcessiveCpuProcess.regex, ExcessiveCpuProcess.description, ExcessiveCpuProcess.category, ExcessiveCpuProcess.severity);
    AppendAllThree(s, HighCpuUsage, HighLoadAverage, ExcessiveCpuProcess, MaxPatterns);
  }

  /** The memory block of `detect_common_patterns`. */
  method AddMemoryPatterns(ctx: Context)
    requires ctx.Valid()
    modifies ctx`patternCount, ctx.patterns
    ensures ctx.Valid()
    ensures ctx.Patterns() == AppendAll(old(ctx.Patterns()), MemorySignatures, MaxPatterns)
  {
    ghost var s := ctx.Patterns();
    AddPattern(ctx, OutOfMemory.regex, OutOfMemory.description, OutOfMemory.category, OutOfMemory.severity);
    AddPattern(ctx, AllocationFailure.regex, AllocationFailure.description, AllocationFailure.category, AllocationFailure.severity);
    AddPattern(ctx, LowFreeMemory.regex, LowFreeMemory.description, LowFreeMemory.category, LowFreeMemory.severity);
    AddPattern(ctx, HighSwapUsage.regex, HighSwapUsage.description, HighSwapUsage.category, HighSwapUsage.severity);
    AppendAllFour(s, OutOfMemory, AllocationFailure, LowFreeMemory, HighSwapUsage, MaxPatterns);
  }

  /** The disk block of `detect_common_patterns`. */
  method AddDiskPatterns(ctx: Context)
    requires ctx.Valid()
    modifies ctx`patternCount, ctx.patterns
    ensures ctx.Valid()
    ensures ctx.Patterns() == AppendAll(old(ctx.Patterns()), DiskSignatures, MaxPatterns)
  {
    ghost var s := ctx.Patterns();
    AddPattern(ctx, DiskFull.regex, DiskFull.description, DiskFull.category, DiskFull.severity);
    AddPattern(ctx, DiskIoError.regex, DiskIoError.description, DiskIoError.category, DiskIoError.severity);
    AddPattern(ctx, DeviceTimeout.regex, DeviceTimeout.description, DeviceTimeout.category, DeviceTimeout.severity);
    AddPattern(ctx, FilesystemNearCapacity.regex, FilesystemNearCapacity.description, FilesystemNearCapacity.category, FilesystemNearCapacity.severity);
    AppendAllFour(s, DiskFull, DiskIoError, DeviceTimeout, FilesystemNearCapacity, MaxPatterns);
  }

  /** The network block of `detect_common_patterns`. */
  method AddNetworkPatterns(ctx: Context)
    requires ctx.Valid()
    modifies ctx`patternCount, ctx.patterns
    ensures ctx.Valid()
    ensures ctx.Patterns() == AppendAll(old(ctx.Patterns()), NetworkSignatures, MaxPatterns)
  {
    ghost var s := ctx.Patterns();
    AddPattern(ctx, NetworkUnreachable.regex, NetworkUnreachable.description, NetworkUnreachable.category, NetworkUnreachable.severity);
    AddPattern(ctx, ConnectionTimeout.regex, ConnectionTimeout.description, ConnectionTimeout.category, ConnectionTimeout.severity);
    AddPattern(ctx, PacketLoss.regex, PacketLoss.description, PacketLoss.category, PacketLoss.severity);
    AppendAllThree(s, NetworkUnreachable, ConnectionTimeout, PacketLoss, MaxPatterns);
  }

  /** The process block of `detect_common_patterns`. */
  method AddProcessPatterns(ctx: Context)
    requires ctx.Valid()
    modifies ctx`patternCount, ctx.patterns
    ensures ctx.Valid()
    ensures ctx.Patterns() == AppendAll(old(ctx.Patterns()), ProcessSignatures, MaxPatterns)
  {
    ghost var s := ctx.Patterns();
    AddPattern(ctx, ProcessKilled.regex, ProcessKilled.description, ProcessKilled.category, ProcessKilled.severity);
    AddPattern(ctx, SegmentationFault.regex, SegmentationFault.description, SegmentationFault.category, SegmentationFault.severity);
    AddPattern(ctx, CoreDumped.regex, CoreDumped.description, CoreDumped.category, CoreDumped.severity);
    AddPattern(ctx, ProcessNotResponding.regex, ProcessNotResponding.description, ProcessNotResponding.category, ProcessNotResponding.severity);
    AppendAllFour(s, ProcessKilled, SegmentationFault, CoreDumped, ProcessNotResponding, MaxPatterns);
  }

  /** The database block of `detect_common_patterns`. */
  method AddDatabasePatterns(ctx: Context)
    requires ctx.Valid()
    modifies ctx`patternCount, ctx.patterns
    ensures ctx.Valid()
    ensures ctx.Patterns() == AppendAll(old(ctx.Patterns()), DatabaseSignatures, MaxPatterns)
  {
    ghost var s := ctx.Patterns();
    AddPattern(ctx, DatabaseConnectionFailed.regex, DatabaseConnectionFailed.description, DatabaseConnectionFailed.category, DatabaseConnectionFailed.severity);
    AddPattern(ctx, QueryTimeout.regex, QueryTimeout.description, QueryTimeout.category, QueryTimeout.severity);
    AddPattern(ctx, DatabaseDeadlock.regex, DatabaseDeadlock.description, DatabaseDeadlock.category, DatabaseDeadlock.severity);
    AppendAllThree(s, DatabaseConnectionFailed, QueryTimeout, DatabaseDeadlock, MaxPatterns);
  }

  /** The file-descriptor block of `detect_common_patterns`. */
  method AddResourcePatterns(ctx: Context)
    requires ctx.Valid()
    modifies ctx`patternCount, ctx.patterns
    ensures ctx.Valid()
    ensures ctx.Patterns() == AppendAll(old(ctx.Patterns()), ResourceSignatures, MaxPatterns)
  {
    ghost var s := ctx.Patterns();
    AddPattern(ctx, TooManyOpenFiles.regex, TooManyOpenFiles.description, TooManyOpenFiles.category, TooManyOpenFiles.severity);
    AddPattern(ctx, FileDescriptorLimit.regex, FileDescriptorLimit.description, FileDescriptorLimit.category, FileDescriptorLimit.severity);
    AppendAllTwo(s, TooManyOpenFiles, FileDescriptorLimit, MaxPatterns);
  }

  /** `detect_common_patterns`: one `add_pattern` per catalog signature, in catalog order. */
  method DetectCommonPatterns(ctx: Context)
    requires ctx.Valid()
    modifies ctx`patternCount, ctx.patterns
    ensures ctx.Valid()
    ensures ctx.Patterns() == Loaded(old(ctx.Patterns()))
  {
    ghost var s := ctx.Patterns();
    AddCpuPatterns(ctx);
    AddMemoryPatterns(ctx);
    AppendAllConcat(s, CpuSignatures, MemorySignatures, MaxPatterns);
    AddDiskPatterns(ctx);
    AppendAllConcat(s, CpuSignatures + MemorySignatures, DiskSignatures, MaxPatterns);
    AddNetworkPatterns(ctx);
    AppendAllConcat(s, CpuSignatures + MemorySignatures + DiskSignatures, NetworkSignatures, MaxPatterns);
    AddProcessPatterns(ctx);
    AppendAllConcat(s, CpuSignatures + MemorySignatures + DiskSignatures + NetworkSignatures,
      ProcessSignatures, MaxPatterns);
    AddDatabasePatterns(ctx);
    AppendAllConcat(s, CpuSignatures + MemorySignatures + DiskSignatures + NetworkSignatures
      + ProcessSignatures, DatabaseSignatures, MaxPatterns);
    AddResourcePatterns(ctx);
    AppendAllConcat(s, CpuSignatures + MemorySignatures + DiskSignatures + NetworkSignatures
      + ProcessSignatures + DatabaseSignatures, ResourceSignatures, MaxPatterns);
  }

  /** The entry exists, has a message, and that message matches `regex`. */
  predicate EntryMatches(engine: RegexEngine, e: Option<LogEntry>, regex: string) {
    e.Some? && e.value.message.Some? && StringMatchesPattern(engine, e.value.message.value, regex)
  }

  /** The number of entries that match `regex`. */
  function Hits(engine: RegexEngine, entries: seq<Option<LogEntry>>, regex: string): nat {
    if entries == [] then 0
    else Hits(engine, entries[..|entries| - 1], regex) + if EntryMatches(engine, entries[|entries| - 1], regex) then 1 else 0
  }

  /** Every pattern's frequency raised by the number of entries that match it. */
  function Tally(engine: RegexEngine, ps: seq<Pattern>, entries: seq<Option<LogEntry>>): (r: seq<Pattern>)
    ensures |r| == |ps|
  {
    seq(|ps|, j requires 0 <= j < |ps| => ps[j].(frequency := ps[j].frequency + Hits(engine, entries, ps[j].regex)))
  }

  /**
    The counting loops of `pattern_detector_analyze`: every present entry with a
    message adds one to every pattern it matches.
   */
  method CountMatches(ctx: Context, entries: seq<Option<LogEntry>>, engine: RegexEngine)
    requires ctx.Valid()
    modifies ctx.patterns
    ensures ctx.Valid()
    ensures ctx.Patterns() == Tally(engine, old(ctx.Patterns()), entries)
    ensures forall k :: ctx.patternCount <= k < MaxPatterns ==> ctx.patterns[k] == old(ctx.patterns[k])
  {
    ghost var ps := ctx.Patterns();
    var i := 0;
    while i < |entries|
      invariant 0 <= i <= |entries|
      invariant ctx.Patterns() == Tally(engine, ps, entries[..i])
      invariant forall k :: ctx.patternCount <= k < MaxPatterns ==> ctx.patterns[k] == old(ctx.patterns[k])
    {
      assert entries[..i + 1][..i] == entries[..i];
      if entries[i].Some? && entries[i].value.message.Some? {
        var message := entries[i].value.message.value;
        var j := 0;
        while j < ctx.patternCount
          invariant 0 <= j <= ctx.patternCount
          invariant forall k :: 0 <= k < j ==> ctx.patterns[k] == Tally(engine, ps, entries[..i + 1])[k]
          invariant forall k :: j <= k < ctx.patternCount ==> ctx.patterns[k] == Tally(engine, ps, entries[..i])[k]
          invariant forall k :: ctx.patternCount <= k < MaxPatterns ==> ctx.patterns[k] == old(ctx.patterns[k])
        {
          if StringMatchesPattern(engine, message, ctx.patterns[j].regex) {
            ctx.patterns[j] := ctx.patterns[j].(frequency := ctx.patterns[j].frequency + 1);
          }
          j := j + 1;
        }
      }
      assert ctx.Patterns() == Tally(engine, ps, entries[..i + 1]);
      i := i + 1;
    }
    assert entries[..i] == entries;
  }

  /**
    One pass of the sort in `pattern_detector_analyze`: for j from 0 to
    `pattern_count - 2`, exchange neighbours j and j+1 when the left one has the
    strictly smaller frequency. The smallest frequency among the first n - i
    slots sinks to slot n - 1 - i; the settled suffix stays put.
   */
  method ExchangePass(a: array<Pattern>, n: nat, i: nat)
    requires n <= a.Length && i < n
    requires Settled(a[..n], n - i, FrequencyOf)
    modifies a
    ensures Settled(a[..n], n - 1 - i, FrequencyOf)
    ensures forall f :: WithKey(a[..n], FrequencyOf, f) == WithKey(old(a[..n]), FrequencyOf, f)
    ensures a[n..] == old(a[n..])
  {
    ghost var a0, m := a[..n], n - 1 - i;
    var j := 0;
    while j < n - 1
      invariant 0 <= j <= n - 1
      invariant PassInvariant(a[..n], m, j, FrequencyOf)
      invariant forall f :: WithKey(a[..n], FrequencyOf, f) == WithKey(a0, FrequencyOf, f)
      invariant a[n..] == old(a[n..])
    {
      PassStep(a[..n], m, j, FrequencyOf);
      if a[j].frequency < a[j + 1].frequency {
        Exchange(a, n, j, FrequencyOf);
      }
      j := j + 1;
    }
    PassDone(a[..n], m, j, FrequencyOf);
  }

  /**
    The sort of `pattern_detector_analyze`: `pattern_count - 1` exchange passes.
    Swapping only on a strictly smaller left frequency keeps ties in order.
   */
  method RankPatterns(a: array<Pattern>, n: nat)
    requires n <= a.Length
    modifies a
    ensures StableRanking(a[..n], old(a[..n]), FrequencyOf)
    ensures a[n..] == old(a[n..])
  {
    ghost var a0 := a[..n];
    var i := 0;
    while i < n - 1
      invariant 0 <= i && (n > 0 ==> i <= n - 1)
      invariant Settled(a[..n], n - i, FrequencyOf)
      invariant forall f :: WithKey(a[..n], FrequencyOf, f) == WithKey(a0, FrequencyOf, f)
      invariant a[n..] == old(a[n..])
    {
      ExchangePass(a, n, i);
      i := i + 1;
    }
    assert SortedDesc(a[..n], FrequencyOf);
  }

  /**
    `pattern_detector_analyze`: refuses a NULL or empty entry list; otherwise
    loads the catalog once more (no reset), counts matches on every loaded
    pattern and ranks them.
   */
  method Analyze(ctx: Context, entries: Option<seq<Option<LogEntry>>>, engine: RegexEngine) returns (ok: bool)
    requires ctx.Valid()
    modifies ctx`patternCount, ctx.patterns
    ensures ctx.Valid()
    ensures ok <==> entries.Some? && |entries.value| > 0
    ensures !ok ==> ctx.patternCount == old(ctx.patternCount) && ctx.patterns[..] == old(ctx.patterns[..])
    ensures ok ==> StableRanking(ctx.Patterns(), Tally(engine, Loaded(old(ctx.Patterns())), entries.value), FrequencyOf)
  {
    if entries.None? || |entries.value| == 0 {
      return false;
    }
    ghost var loaded := Loaded(ctx.Patterns());
    DetectCommonPatterns(ctx);
    assert ctx.Patterns() == loaded;
    CountMatches(ctx, entries.value, engine);
    ghost var tallied := ctx.Patterns();
    assert tallied == Tally(engine, loaded, entries.value);
    RankPatterns(ctx.patterns, ctx.patternCount);
    assert StableRanking(ctx.Patterns(), tallied, FrequencyOf);
    return true;
  }

  /**
    `pattern_detector_get_patterns`: NULL when the count out-pointer is NULL;
    otherwise the count is written and the context's own array is returned.
   */
  method GetPatterns(ctx: Context, wantCount: bool) returns (arr: array?<Pattern>, count: Option<int>)
    requires ctx.Valid()
    ensures wantCount ==> arr == ctx.patterns && count == Some(ctx.patternCount as int)
    ensures !wantCount ==> arr == null && count == None
  {
    if !wantCount {
      return null, None;
    }
    return ctx.patterns, Some(ctx.patternCount as int);
  }

  /** A pattern is never hit more often than there are entries. */
  lemma {:induction false} HitsAtMostEntries(engine: RegexEngine, entries: seq<Option<LogEntry>>, regex: string)
    ensures Hits(engine, entries, regex) <= |entries|
    ensures Hits(engine, entries, regex) == |entries| <==> forall k :: 0 <= k < |entries| ==> EntryMatches(engine, entries[k], regex)
  {
    if entries != [] {
      var init := entries[..|entries| - 1];
      HitsAtMostEntries(engine, init, regex);
      assert forall k :: 0 <= k < |init| ==> init[k] == entries[k];
    }
  }

  /** A pattern has no hits exactly when no entry's message matches it. */
  lemma {:induction false} NoHitsIffNoMatch(engine: RegexEngine, entries: seq<Option<LogEntry>>, regex: string)
    ensures Hits(engine, entries, regex) == 0 <==> forall k :: 0 <= k < |entries| ==> !EntryMatches(engine, entries[k], regex)
  {
    if entries != [] {
      var init := entries[..|entries| - 1];
      NoHitsIffNoMatch(engine, init, regex);
      assert forall k :: 0 <= k < |init| ==> init[k] == entries[k];
    }
  }

  /** Counting over two batches of entries adds up. */
  lemma {:induction false} HitsConcat(engine: RegexEngine, a: seq<Option<LogEntry>>, b: seq<Option<LogEntry>>, regex: string)
    ensures Hits(engine, a + b, regex) == Hits(engine, a, regex) + Hits(engine, b, regex)
    decreases |b|
  {
    if b != [] {
      var init := b[..|b| - 1];
      HitsConcat(engine, a, init, regex);
      assert (a + b)[..|a + b| - 1] == a + init;
    } else {
      assert a + b == a;
    }
  }

  /** A pattern the engine cannot compile is never counted, whatever the log says. */
  lemma UncompilableNeverHits(engine: RegexEngine, entries: seq<Option<LogEntry>>, regex: string)
    requires !engine.compiles(regex)
    ensures Hits(engine, entries, regex) == 0
  {
    NoHitsIffNoMatch(engine, entries, regex);
  }

  /** Entries that are missing, or have no message, are never counted. */
  lemma {:induction false} UnparsedEntriesNeverHit(engine: RegexEngine, entries: seq<Option<LogEntry>>, regex: string)
    requires forall k :: 0 <= k < |entries| ==> entries[k].None? || entries[k].value.message.None?
    ensures Hits(engine, entries, regex) == 0
  {
    NoHitsIffNoMatch(engine, entries, regex);
  }

  /** The catalog holds 23 signatures, all with frequency 0 and a severity from 3 to 5. */
  lemma CatalogShape()
    ensures |Catalog()| == 23
    ensures forall p :: p in Catalog() ==> p.frequency == 0 && 3 <= p.severity <= 5
  {
  }

  /** On an empty context the catalog is loaded whole; on a full one nothing is added. */
  lemma LoadedBounds(ps: seq<Pattern>)
    ensures |ps| + 23 <= MaxPatterns ==> Loaded(ps) == ps + Catalog()
    ensures |ps| >= MaxPatterns ==> Loaded(ps) == ps
    ensures |Loaded(ps)| == if |ps| >= MaxPatterns then |ps| else Min(|ps| + 23, MaxPatterns)
  {
    CatalogShape();
    AppendAllBounds(ps, Catalog(), MaxPatterns);
  }

  /**
    Loading is not idempotent: the catalog is appended again on every analysis,
    so a second analysis of the same context holds every signature twice.
   */
  lemma LoadedTwice()
    ensures Loaded([]) == Catalog()
    ensures Loaded(Loaded([])) == Catalog() + Catalog()
    ensures |Loaded(Loaded([]))| == 46
  {
    LoadedBounds([]);
    LoadedBounds(Catalog());
  }

  /** Every tallied pattern is an input pattern with its hits added. */
  lemma TallyMember(engine: RegexEngine, ps: seq<Pattern>, entries: seq<Option<LogEntry>>, p: Pattern)
    requires p in Tally(engine, ps, entries)
    ensures exists q :: q in ps && p == q.(frequency := q.frequency + Hits(engine, entries, q.regex))
  {
    var t := Tally(engine, ps, entries);
    var j :| 0 <= j < |t| && t[j] == p;
    assert ps[j] in ps;
  }

  /**
    A ranking of freshly tallied patterns (all starting from frequency 0) holds
    each of them with its hit count, between 0 and the number of entries.
   */
  lemma RankedTallyShape(engine: RegexEngine, ps: seq<Pattern>, entries: seq<Option<LogEntry>>, out: seq<Pattern>)
    requires forall q :: q in ps ==> q.frequency == 0
    requires StableRanking(out, Tally(engine, ps, entries), FrequencyOf)
    ensures |out| == |ps|
    ensures forall p :: p in out ==> 0 <= p.frequency <= |entries|
    ensures forall p :: p in out ==> exists q :: q in ps && p == q.(frequency := Hits(engine, entries, q.regex))
  {
    var t := Tally(engine, ps, entries);
    RankingIsPermutation(out, t, FrequencyOf);
    forall p | p in out
      ensures 0 <= p.frequency <= |entries|
      ensures exists q :: q in ps && p == q.(frequency := Hits(engine, entries, q.regex))
    {
      assert p in multiset(t);
      TallyMember(engine, ps, entries, p);
      var q :| q in ps && p == q.(frequency := q.frequency + Hits(engine, entries, q.regex));
      HitsAtMostEntries(engine, entries, q.regex);
    }
  }

  /**
    After an analysis of a fresh context, the ranking holds the 23 catalog
    signatures, each with its hit count as frequency, in descending frequency.
   */
  lemma FreshAnalysisResult(engine: RegexEngine, entries: seq<Option<LogEntry>>, out: seq<Pattern>)
    requires StableRanking(out, Tally(engine, Catalog(), entries), FrequencyOf)
    ensures |out| == 23
    ensures forall i, j :: 0 <= i < j < |out| ==> out[i].frequency >= out[j].frequency
    ensures forall p :: p in out ==> 0 <= p.frequency <= |entries|
    ensures forall p :: p in out ==> exists q :: q in Catalog() && p == q.(frequency := Hits(engine, entries, q.regex))
  {
    CatalogShape();
    RankedTallyShape(engine, Catalog(), entries, out);
  }
}
