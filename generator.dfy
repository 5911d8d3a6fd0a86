/**
  The recommendation generator: reads the ranked patterns of a context, raises
  advisories for the CPU, memory, disk and network categories and two general
  ones, appends them to the context's fixed-capacity list, and ranks the list
  by descending priority with a bubble sort.
 */
module Generator {
  import opened Wrappers
  import opened Strings
  import opened Bounded
  import opened Ranking
  import opened LogAnalyzer
  import opened Detector

  // The advisories, in the order the rules raise them. Confidence is in hundredths.
  const AnalyzeCpuProcesses := Recommendation(
    "Analyze CPU-intensive processes",
    "The system is experiencing high CPU usage or load average.",
    "Use 'top' or 'htop' to identify CPU-intensive processes. Consider optimizing or throttling these processes.",
    4, "cpu", 80)
  const CheckRunawayProcesses := Recommendation(
    "Check for runaway processes",
    "High CPU usage might be caused by runaway processes that need to be terminated.",
    "Use 'ps aux' to identify processes consuming excessive CPU and consider terminating them if appropriate.",
    3, "cpu", 70)
  const ConsiderResourceLimits := Recommendation(
    "Consider resource limits",
    "Setting resource limits can prevent processes from consuming excessive CPU.",
    "Use 'ulimit' or cgroups to set CPU limits for critical processes.",
    3, "cpu", 60)
  const AnalyzeMemoryUsage := Recommendation(
    "Analyze memory usage",
    "The system is experiencing memory-related issues.",
    "Use 'free', 'vmstat', and 'ps' to analyze memory usage and identify memory-intensive processes.",
    4, "memory", 80)
  const AddressOutOfMemory := Recommendation(
    "Address out-of-memory conditions",
    "The system's OOM (Out Of Memory) killer is being triggered.",
    "Increase available memory, reduce memory usage, or adjust the OOM killer settings using sysctl.",
    5, "memory", 90)
  const ReduceSwapUsage := Recommendation(
    "Reduce swap usage",
    "The system is using excessive swap space, which can degrade performance.",
    "Increase physical memory, decrease swappiness parameter, or optimize applications to reduce memory footprint.",
    3, "memory", 70)
  const ConsiderMemoryLimits := Recommendation(
    "Consider memory limits",
    "Setting memory limits can prevent processes from consuming excessive memory.",
    "Use 'ulimit', cgroups, or container limits to restrict memory usage for critical processes.",
    3, "memory", 60)
  const FreeDiskSpace := Recommendation(
    "Free up disk space",
    "The system is running low on disk space.",
    "Use 'du' and 'df' to identify large files and directories. Consider removing unnecessary files, archiving old data, or expanding storage.",
    4, "disk", 80)
  const MonitorDiskSpace := Recommendation(
    "Implement disk space monitoring",
    "Regular monitoring of disk space can prevent unexpected disk full conditions.",
    "Set up monitoring with tools like Nagios, Zabbix, or custom scripts with email alerts when disk usage exceeds thresholds.",
    3, "disk", 70)
  const CheckDiskHealth := Recommendation(
    "Check disk health",
    "I/O errors or device timeouts may indicate disk hardware issues.",
    "Use 'smartctl' to check disk health, run 'fsck' to check filesystem integrity, and consider replacing the disk if hardware issues are confirmed.",
    5, "disk", 80)
  const OptimizeIoPatterns := Recommendation(
    "Optimize I/O patterns",
    "Excessive or poorly optimized I/O operations can lead to timeouts and errors.",
    "Use 'iotop' to identify I/O-intensive processes and optimize their I/O patterns. Consider using buffers, caches, or asynchronous I/O.",
    3, "disk", 60)
  const CheckConnectivity := Recommendation(
    "Check network connectivity",
    "The system is experiencing network connectivity issues.",
    "Use 'ping', 'traceroute', and 'mtr' to diagnose network connectivity problems. Check DNS resolution, firewalls, and routing.",
    4, "network", 80)
  const AdjustTimeouts := Recommendation(
    "Adjust connection timeouts",
    "Connection timeouts may indicate network congestion or server overload.",
    "Consider increasing connection timeout settings, implementing retry logic, or load balancing to reduce timeouts.",
    3, "network", 70)
  const AddressPacketLoss := Recommendation(
    "Address packet loss",
    "Packet loss can degrade network performance and cause application errors.",
    "Check for network congestion, faulty hardware, or misconfigured network equipment. Consider QoS settings to prioritize critical traffic.",
    4, "network", 70)
  const MonitorPerformance := Recommendation(
    "Implement regular performance monitoring",
    "Regular monitoring can help identify and address performance issues before they become critical.",
    "Set up monitoring tools like Prometheus, Grafana, or similar to track system metrics and generate alerts.",
    2, "general", 90)
  const ReviewLogs := Recommendation(
    "Review system logs regularly",
    "Regular log review can help identify recurring issues and patterns.",
    "Implement log aggregation and analysis tools like ELK stack, Graylog, or similar to centralize and analyze logs.",
    2, "general", 80)

  /** The ranking key of an advisory. */
  function PriorityOf(r: Recommendation): int {
    r.priority
  }

  /** Every rule skips patterns that matched no entry. */
  predicate Active(p: Pattern) {
    p.frequency > 0
  }

  // What sets each flag of the rule loops. An `else if` branch is only
  // reached when the condition before it failed.

  predicate HighCpuUsageSignal(p: Pattern) {
    Active(p) && p.category == "cpu" && Contains(p.description, "High CPU Usage")
  }

  predicate HighLoadAverageSignal(p: Pattern) {
    Active(p) && p.category == "cpu" && !Contains(p.description, "High CPU Usage")
    && Contains(p.description, "High Load Average")
  }

  predicate MemorySignal(p: Pattern) {
    Active(p) && p.category == "memory"
  }

  predicate OutOfMemorySignal(p: Pattern) {
    MemorySignal(p) && Contains(p.description, "Out of memory")
  }

  predicate HighSwapSignal(p: Pattern) {
    MemorySignal(p) && !Contains(p.description, "Out of memory") && Contains(p.description, "High swap usage")
  }

  predicate DiskSpaceWords(d: string) {
    Contains(d, "Disk full") || Contains(d, "Filesystem near capacity")
  }

  predicate DiskSpaceSignal(p: Pattern) {
    Active(p) && p.category == "disk" && DiskSpaceWords(p.description)
  }

  predicate IoErrorSignal(p: Pattern) {
    Active(p) && p.category == "disk" && !DiskSpaceWords(p.description)
    && (Contains(p.description, "I/O error") || Contains(p.description, "Device timeout"))
  }

  predicate NetworkSignal(p: Pattern) {
    Active(p) && p.category == "network"
  }

  predicate TimeoutSignal(p: Pattern) {
    NetworkSignal(p) && Contains(p.description, "Connection timeout")
  }

  predicate PacketLossSignal(p: Pattern) {
    NetworkSignal(p) && !Contains(p.description, "Connection timeout") && Contains(p.description, "packet loss")
  }

  /** Some pattern of `ps` raises `signal`. */
  predicate AnySignal(ps: seq<Pattern>, signal: Pattern -> bool) {
    exists k :: 0 <= k < |ps| && signal(ps[k])
  }

  /** The advisories `generate_cpu_recommendations` raises for the patterns `ps`. */
  function CpuAdvice(ps: seq<Pattern>): (r: seq<Recommendation>)
    ensures |r| <= 3
    ensures forall x :: x in r ==> x.category == "cpu" && 2 <= x.priority <= 5 && 60 <= x.confidence <= 90
  {
    if AnySignal(ps, HighCpuUsageSignal) || AnySignal(ps, HighLoadAverageSignal) then
      [AnalyzeCpuProcesses, CheckRunawayProcesses, ConsiderResourceLimits]
    else []
  }

  /** The advisories `generate_memory_recommendations` raises for the patterns `ps`. */
  function MemoryAdvice(ps: seq<Pattern>): (r: seq<Recommendation>)
    ensures |r| <= 4
    ensures forall x :: x in r ==> x.category == "memory" && 2 <= x.priority <= 5 && 60 <= x.confidence <= 90
  {
    if AnySignal(ps, MemorySignal) then
      [AnalyzeMemoryUsage]
      + (if AnySignal(ps, OutOfMemorySignal) then [AddressOutOfMemory] else [])
      + (if AnySignal(ps, HighSwapSignal) then [ReduceSwapUsage] else [])
      + [ConsiderMemoryLimits]
    else []
  }

  /** The advisories `generate_disk_recommendations` raises for the patterns `ps`. */
  function DiskAdvice(ps: seq<Pattern>): (r: seq<Recommendation>)
    ensures |r| <= 4
    ensures forall x :: x in r ==> x.category == "disk" && 2 <= x.priority <= 5 && 60 <= x.confidence <= 90
  {
    (if AnySignal(ps, DiskSpaceSignal) then [FreeDiskSpace, MonitorDiskSpace] else [])
    + (if AnySignal(ps, IoErrorSignal) then [CheckDiskHealth, OptimizeIoPatterns] else [])
  }

  /** The advisories `generate_network_recommendations` raises for the patterns `ps`. */
  function NetworkAdvice(ps: seq<Pattern>): (r: seq<Recommendation>)
    ensures |r| <= 3
    ensures forall x :: x in r ==> x.category == "network" && 2 <= x.priority <= 5 && 60 <= x.confidence <= 90
  {
    if AnySignal(ps, NetworkSignal) then
      [CheckConnectivity]
      + (if AnySignal(ps, TimeoutSignal) then [AdjustTimeouts] else [])
      + (if AnySignal(ps, PacketLossSignal) then [AddressPacketLoss] else [])
    else []
  }

  /** The two general advisories, raised when the first pattern matched some entry. */
  function GeneralAdvice(ps: seq<Pattern>): (r: seq<Recommendation>)
    ensures |r| <= 2
    ensures forall x :: x in r ==> x.category == "general" && 2 <= x.priority <= 5 && 60 <= x.confidence <= 90
  {
    if |ps| > 0 && ps[0].frequency > 0 then [MonitorPerformance, ReviewLogs] else []
  }

  /**
    Everything `recommendation_generator_analyze` raises, in the order it raises
    it: at most 16 advisories, each with a priority from 2 to 5 and a confidence
    from 0.6 to 0.9.
   */
  function Advice(ps: seq<Pattern>): (r: seq<Recommendation>)
    ensures |r| <= 16
    ensures forall x :: x in r ==> 2 <= x.priority <= 5 && 60 <= x.confidence <= 90
  {
    CpuAdvice(ps) + MemoryAdvice(ps) + DiskAdvice(ps) + NetworkAdvice(ps) + GeneralAdvice(ps)
  }

  /**
    `add_recommendation`: appends an advisory unless the list is already full.
    A NULL title is not part of this model.
   */
  method AddRecommendation(ctx: Context, title: string, description: string, action: string,
                           priority: int, category: string, confidence: int)
    requires ctx.Valid()
    modifies ctx`recommendationCount, ctx.recommendations
    ensures ctx.Valid()
    ensures ctx.Recommendations()
         == Append(old(ctx.Recommendations()), Recommendation(title, description, action, priority, category, confidence), MaxRecommendations)
    ensures ctx.Patterns() == old(ctx.Patterns())
  {
    if ctx.recommendationCount >= MaxRecommendations {
      return;
    }
    ctx.recommendations[ctx.recommendationCount] := Recommendation(title, description, action, priority, category, confidence);
    ctx.recommendationCount := ctx.recommendationCount + 1;
    assert ctx.Recommendations() == old(ctx.Recommendations()) + [Recommendation(title, description, action, priority, category, confidence)];
  }

  /** The scan of `generate_cpu_recommendations` over the loaded patterns: which CPU flags some active pattern sets. */
  method ScanCpuPatterns(ctx: Context) returns (highCpuUsage: bool, highLoadAverage: bool)
    requires ctx.Valid()
    ensures highCpuUsage == AnySignal(ctx.Patterns(), HighCpuUsageSignal)
    ensures highLoadAverage == AnySignal(ctx.Patterns(), HighLoadAverageSignal)
  {
    ghost var ps := ctx.Patterns();
    highCpuUsage, highLoadAverage := false, false;
    var i := 0;
    while i < ctx.patternCount
      invariant i <= ctx.patternCount
      invariant highCpuUsage <==> exists k :: 0 <= k < i && HighCpuUsageSignal(ps[k])
      invariant highLoadAverage <==> exists k :: 0 <= k < i && HighLoadAverageSignal(ps[k])
    {
      var pattern := ctx.patterns[i];
      if pattern.frequency > 0 && pattern.category == "cpu" {
        if Contains(pattern.description, "High CPU Usage") {
          highCpuUsage := true;
        } else if Contains(pattern.description, "High Load Average") {
          highLoadAverage := true;
        }
      }
      i := i + 1;
    }
  }

  /** `generate_cpu_recommendations`. */
  method GenerateCpuRecommendations(ctx: Context)
    requires ctx.Valid()
    modifies ctx`recommendationCount, ctx.recommendations
    ensures ctx.Valid()
    ensures ctx.Patterns() == old(ctx.Patterns())
    ensures ctx.Recommendations() == AppendAll(old(ctx.Recommendations()), CpuAdvice(ctx.Patterns()), MaxRecommendations)
  {
    ghost var ps := ctx.Patterns();
    var highCpuUsage, highLoadAverage := ScanCpuPatterns(ctx);
    ghost var r0 := ctx.Recommendations();
    ghost var emitted: seq<Recommendation> := [];
    if highCpuUsage || highLoadAverage {
      AddRecommendation(ctx, AnalyzeCpuProcesses.title, AnalyzeCpuProcesses.description, AnalyzeCpuProcesses.action, AnalyzeCpuProcesses.priority, AnalyzeCpuProcesses.category, AnalyzeCpuProcesses.confidence);
      AppendAllSnoc(r0, emitted, AnalyzeCpuProcesses, MaxRecommendations);
      emitted := emitted + [AnalyzeCpuProcesses];
      AddRecommendation(ctx, CheckRunawayProcesses.title, CheckRunawayProcesses.description, CheckRunawayProcesses.action, CheckRunawayProcesses.priority, CheckRunawayProcesses.category, CheckRunawayProcesses.confidence);
      AppendAllSnoc(r0, emitted, CheckRunawayProcesses, MaxRecommendations);
      emitted := emitted + [CheckRunawayProcesses];
      AddRecommendation(ctx, ConsiderResourceLimits.title, ConsiderResourceLimits.description, ConsiderResourceLimits.action, ConsiderResourceLimits.priority, ConsiderResourceLimits.category, ConsiderResourceLimits.confidence);
      AppendAllSnoc(r0, emitted, ConsiderResourceLimits, MaxRecommendations);
      emitted := emitted + [ConsiderResourceLimits];
    }
    assert emitted == CpuAdvice(ps);
  }

  /** The scan of `generate_memory_recommendations` over the loaded patterns: which memory flags some active pattern sets. */
  method ScanMemoryPatterns(ctx: Context) returns (memoryIssues: bool, oomKiller: bool, highSwap: bool)
    requires ctx.Valid()
    ensures memoryIssues == AnySignal(ctx.Patterns(), MemorySignal)
    ensures oomKiller == AnySignal(ctx.Patterns(), OutOfMemorySignal)
    ensures highSwap == AnySignal(ctx.Patterns(), HighSwapSignal)
  {
    ghost var ps := ctx.Patterns();
    memoryIssues, oomKiller, highSwap := false, false, false;
    var i := 0;
    while i < ctx.patternCount
      invariant i <= ctx.patternCount
      invariant memoryIssues <==> exists k :: 0 <= k < i && MemorySignal(ps[k])
      invariant oomKiller <==> exists k :: 0 <= k < i && OutOfMemorySignal(ps[k])
      invariant highSwap <==> exists k :: 0 <= k < i && HighSwapSignal(ps[k])
    {
      var pattern := ctx.patterns[i];
      if pattern.frequency > 0 && pattern.category == "memory" {
        memoryIssues := true;
        if Contains(pattern.description, "Out of memory") {
          oomKiller := true;
        } else if Contains(pattern.description, "High swap usage") {
          highSwap := true;
        }
      }
      i := i + 1;
    }
  }

  /** `generate_memory_recommendations`. */
  method GenerateMemoryRecommendations(ctx: Context)
    requires ctx.Valid()
    modifies ctx`recommendationCount, ctx.recommendations
    ensures ctx.Valid()
    ensures ctx.Patterns() == old(ctx.Patterns())
    ensures ctx.Recommendations() == AppendAll(old(ctx.Recommendations()), MemoryAdvice(ctx.Patterns()), MaxRecommendations)
  {
    ghost var ps := ctx.Patterns();
    var memoryIssues, oomKiller, highSwap := ScanMemoryPatterns(ctx);
    ghost var r0 := ctx.Recommendations();
    ghost var emitted: seq<Recommendation> := [];
    if memoryIssues {
      AddRecommendation(ctx, AnalyzeMemoryUsage.title, AnalyzeMemoryUsage.description, AnalyzeMemoryUsage.action, AnalyzeMemoryUsage.priority, AnalyzeMemoryUsage.category, AnalyzeMemoryUsage.confidence);
      AppendAllSnoc(r0, emitted, AnalyzeMemoryUsage, MaxRecommendations);
      emitted := emitted + [AnalyzeMemoryUsage];
      if oomKiller {
        AddRecommendation(ctx, AddressOutOfMemory.title, AddressOutOfMemory.description, AddressOutOfMemory.action, AddressOutOfMemory.priority, AddressOutOfMemory.category, AddressOutOfMemory.confidence);
        AppendAllSnoc(r0, emitted, AddressOutOfMemory, MaxRecommendations);
        emitted := emitted + [AddressOutOfMemory];
      }
      if highSwap {
        AddRecommendation(ctx, ReduceSwapUsage.title, ReduceSwapUsage.description, ReduceSwapUsage.action, ReduceSwapUsage.priority, ReduceSwapUsage.category, ReduceSwapUsage.confidence);
        AppendAllSnoc(r0, emitted, ReduceSwapUsage, MaxRecommendations);
        emitted := emitted + [ReduceSwapUsage];
      }
      AddRecommendation(ctx, ConsiderMemoryLimits.title, ConsiderMemoryLimits.description, ConsiderMemoryLimits.action, ConsiderMemoryLimits.priority, ConsiderMemoryLimits.category, ConsiderMemoryLimits.confidence);
      AppendAllSnoc(r0, emitted, ConsiderMemoryLimits, MaxRecommendations);
      emitted := emitted + [ConsiderMemoryLimits];
    }
    assert emitted == MemoryAdvice(ps);
  }

  /** The scan of `generate_disk_recommendations` over the loaded patterns: which disk flags some active pattern sets. */
  method ScanDiskPatterns(ctx: Context) returns (diskSpaceIssues: bool, ioErrors: bool)
    requires ctx.Valid()
    ensures diskSpaceIssues == AnySignal(ctx.Patterns(), DiskSpaceSignal)
    ensures ioErrors == AnySignal(ctx.Patterns(), IoErrorSignal)
  {
    ghost var ps := ctx.Patterns();
    diskSpaceIssues, ioErrors := false, false;
    var i := 0;
    while i < ctx.patternCount
      invariant i <= ctx.patternCount
      invariant diskSpaceIssues <==> exists k :: 0 <= k < i && DiskSpaceSignal(ps[k])
      invariant ioErrors <==> exists k :: 0 <= k < i && IoErrorSignal(ps[k])
    {
      var pattern := ctx.patterns[i];
      if pattern.frequency > 0 && pattern.category == "disk" {
        if Contains(pattern.description, "Disk full") || Contains(pattern.description, "Filesystem near capacity") {
          diskSpaceIssues := true;
        } else if Contains(pattern.description, "I/O error") || Contains(pattern.description, "Device timeout") {
          ioErrors := true;
        }
      }
      i := i + 1;
    }
  }

  /** `generate_disk_recommendations`. */
  method GenerateDiskRecommendations(ctx: Context)
    requires ctx.Valid()
    modifies ctx`recommendationCount, ctx.recommendations
    ensures ctx.Valid()
    ensures ctx.Patterns() == old(ctx.Patterns())
    ensures ctx.Recommendations() == AppendAll(old(ctx.Recommendations()), DiskAdvice(ctx.Patterns()), MaxRecommendations)
  {
    ghost var ps := ctx.Patterns();
    var diskSpaceIssues, ioErrors := ScanDiskPatterns(ctx);
    ghost var r0 := ctx.Recommendations();
    ghost var emitted: seq<Recommendation> := [];
    if diskSpaceIssues {
      AddRecommendation(ctx, FreeDiskSpace.title, FreeDiskSpace.description, FreeDiskSpace.action, FreeDiskSpace.priority, FreeDiskSpace.category, FreeDiskSpace.confidence);
      AppendAllSnoc(r0, emitted, FreeDiskSpace, MaxRecommendations);
      emitted := emitted + [FreeDiskSpace];
      AddRecommendation(ctx, MonitorDiskSpace.title, MonitorDiskSpace.description, MonitorDiskSpace.action, MonitorDiskSpace.priority, MonitorDiskSpace.category, MonitorDiskSpace.confidence);
      AppendAllSnoc(r0, emitted, MonitorDiskSpace, MaxRecommendations);
      emitted := emitted + [MonitorDiskSpace];
    }
    if ioErrors {
      AddRecommendation(ctx, CheckDiskHealth.title, CheckDiskHealth.description, CheckDiskHealth.action, CheckDiskHealth.priority, CheckDiskHealth.category, CheckDiskHealth.confidence);
      AppendAllSnoc(r0, emitted, CheckDiskHealth, MaxRecommendations);
      emitted := emitted + [CheckDiskHealth];
      AddRecommendation(ctx, OptimizeIoPatterns.title, OptimizeIoPatterns.description, OptimizeIoPatterns.action, OptimizeIoPatterns.priority, OptimizeIoPatterns.category, OptimizeIoPatterns.confidence);
      AppendAllSnoc(r0, emitted, OptimizeIoPatterns, MaxRecommendations);
      emitted := emitted + [OptimizeIoPatterns];
    }
    assert emitted == DiskAdvice(ps);
  }

  /** The scan of `generate_network_recommendations` over the loaded patterns: which network flags some active pattern sets. */
  method ScanNetworkPatterns(ctx: Context) returns (networkIssues: bool, timeouts: bool, packetLoss: bool)
    requires ctx.Valid()
    ensures networkIssues == AnySignal(ctx.Patterns(), NetworkSignal)
    ensures timeouts == AnySignal(ctx.Patterns(), TimeoutSignal)
    ensures packetLoss == AnySignal(ctx.Patterns(), PacketLossSignal)
  {
    ghost var ps := ctx.Patterns();
    networkIssues, timeouts, packetLoss := false, false, false;
    var i := 0;
    while i < ctx.patternCount
      invariant i <= ctx.patternCount
      invariant networkIssues <==> exists k :: 0 <= k < i && NetworkSignal(ps[k])
      invariant timeouts <==> exists k :: 0 <= k < i && TimeoutSignal(ps[k])
      invariant packetLoss <==> exists k :: 0 <= k < i && PacketLossSignal(ps[k])
    {
      var pattern := ctx.patterns[i];
      if pattern.frequency > 0 && pattern.category == "network" {
        networkIssues := true;
        if Contains(pattern.description, "Connection timeout") {
          timeouts := true;
        } else if Contains(pattern.description, "packet loss") {
          packetLoss := true;
        }
      }
      i := i + 1;
    }
  }

  /** `generate_network_recommendations`. */
  method GenerateNetworkRecommendations(ctx: Context)
    requires ctx.Valid()
    modifies ctx`recommendationCount, ctx.recommendations
    ensures ctx.Valid()
    ensures ctx.Patterns() == old(ctx.Patterns())
    ensures ctx.Recommendations() == AppendAll(old(ctx.Recommendations()), NetworkAdvice(ctx.Patterns()), MaxRecommendations)
  {
    ghost var ps := ctx.Patterns();
    var networkIssues, timeouts, packetLoss := ScanNetworkPatterns(ctx);
    ghost var r0 := ctx.Recommendations();
    ghost var emitted: seq<Recommendation> := [];
    if networkIssues {
      AddRecommendation(ctx, CheckConnectivity.title, CheckConnectivity.description, CheckConnectivity.action, CheckConnectivity.priority, CheckConnectivity.category, CheckConnectivity.confidence);
      AppendAllSnoc(r0, emitted, CheckConnectivity, MaxRecommendations);
      emitted := emitted + [CheckConnectivity];
      if timeouts {
        AddRecommendation(ctx, AdjustTimeouts.title, AdjustTimeouts.description, AdjustTimeouts.action, AdjustTimeouts.priority, AdjustTimeouts.category, AdjustTimeouts.confidence);
        AppendAllSnoc(r0, emitted, AdjustTimeouts, MaxRecommendations);
        emitted := emitted + [AdjustTimeouts];
      }
      if packetLoss {
        AddRecommendation(ctx, AddressPacketLoss.title, AddressPacketLoss.description, AddressPacketLoss.action, AddressPacketLoss.priority, AddressPacketLoss.category, AddressPacketLoss.confidence);
        AppendAllSnoc(r0, emitted, AddressPacketLoss, MaxRecommendations);
        emitted := emitted + [AddressPacketLoss];
      }
    }
    assert emitted == NetworkAdvice(ps);
  }

  /** The general rule of `recommendation_generator_analyze`. */
  method GenerateGeneralRecommendations(ctx: Context)
    requires ctx.Valid()
    modifies ctx`recommendationCount, ctx.recommendations
    ensures ctx.Valid()
    ensures ctx.Patterns() == old(ctx.Patterns())
    ensures ctx.Recommendations() == AppendAll(old(ctx.Recommendations()), GeneralAdvice(ctx.Patterns()), MaxRecommendations)
  {
    ghost var ps := ctx.Patterns();
    ghost var r0 := ctx.Recommendations();
    ghost var emitted: seq<Recommendation> := [];
    if ctx.patternCount > 0 && ctx.patterns[0].frequency > 0 {
      AddRecommendation(ctx, MonitorPerformance.title, MonitorPerformance.description, MonitorPerformance.action, MonitorPerformance.priority, MonitorPerformance.category, MonitorPerformance.confidence);
      AppendAllSnoc(r0, emitted, MonitorPerformance, MaxRecommendations);
      emitted := emitted + [MonitorPerformance];
      AddRecommendation(ctx, ReviewLogs.title, ReviewLogs.description, ReviewLogs.action, ReviewLogs.priority, ReviewLogs.category, ReviewLogs.confidence);
      AppendAllSnoc(r0, emitted, ReviewLogs, MaxRecommendations);
      emitted := emitted + [ReviewLogs];
    }
    assert emitted == GeneralAdvice(ps);
  }

  /**
    One pass of the bubble sort in `recommendation_generator_analyze`: for j
    below `recommendation_count - i - 1`, exchange neighbours j and j+1 when the
    left one has the strictly smaller priority. The smallest priority among the
    first n - i slots sinks to slot n - 1 - i.
   */
  method BubblePass(a: array<Recommendation>, n: nat, i: nat)
    requires n <= a.Length && i < n
    requires Settled(a[..n], n - i, PriorityOf)
    modifies a
    ensures Settled(a[..n], n - 1 - i, PriorityOf)
    ensures forall k :: WithKey(a[..n], PriorityOf, k) == WithKey(old(a[..n]), PriorityOf, k)
    ensures a[n..] == old(a[n..])
  {
    ghost var a0, m := a[..n], n - 1 - i;
    var j := 0;
    while j < n - i - 1
      invariant 0 <= j <= n - i - 1
      invariant PassInvariant(a[..n], m, j, PriorityOf)
      invariant forall k :: WithKey(a[..n], PriorityOf, k) == WithKey(a0, PriorityOf, k)
      invariant a[n..] == old(a[n..])
    {
      PassStep(a[..n], m, j, PriorityOf);
      if a[j].priority < a[j + 1].priority {
        Exchange(a, n, j, PriorityOf);
      }
      j := j + 1;
    }
    PassDone(a[..n], m, j, PriorityOf);
  }

  /** The sort of `recommendation_generator_analyze`; ties keep the order the rules raised them in. */
  method RankRecommendations(a: array<Recommendation>, n: nat)
    requires n <= a.Length
    modifies a
    ensures StableRanking(a[..n], old(a[..n]), PriorityOf)
    ensures a[n..] == old(a[n..])
  {
    ghost var a0 := a[..n];
    var i := 0;
    while i + 1 < n
      invariant 0 <= i && (n > 0 ==> i <= n - 1)
      invariant Settled(a[..n], n - i, PriorityOf)
      invariant forall k :: WithKey(a[..n], PriorityOf, k) == WithKey(a0, PriorityOf, k)
      invariant a[n..] == old(a[n..])
    {
      BubblePass(a, n, i);
      i := i + 1;
    }
    assert SortedDesc(a[..n], PriorityOf);
  }

  /**
    `recommendation_generator_analyze`: runs the four category rules and the
    general rule, then ranks the whole list by descending priority. The NULL
    context, for which the source returns false, is not part of this model.
   */
  method Analyze(ctx: Context)
    requires ctx.Valid()
    modifies ctx`recommendationCount, ctx.recommendations
    ensures ctx.Valid()
    ensures ctx.Patterns() == old(ctx.Patterns())
    ensures StableRanking(ctx.Recommendations(), AppendAll(old(ctx.Recommendations()), Advice(ctx.Patterns()), MaxRecommendations), PriorityOf)
  {
    ghost var ps := ctx.Patterns();
    ghost var r0 := ctx.Recommendations();
    GenerateCpuRecommendations(ctx);
    GenerateMemoryRecommendations(ctx);
    GenerateDiskRecommendations(ctx);
    GenerateNetworkRecommendations(ctx);
    GenerateGeneralRecommendations(ctx);
    AdviceInRuleOrder(r0, ps);
    ghost var raised := ctx.Recommendations();
    RankRecommendations(ctx.recommendations, ctx.recommendationCount);
    assert StableRanking(ctx.Recommendations(), raised, PriorityOf);
  }

  /** Running the five rules one after the other appends their advisories in rule order. */
  lemma AdviceInRuleOrder(r0: seq<Recommendation>, ps: seq<Pattern>)
    ensures AppendAll(AppendAll(AppendAll(AppendAll(AppendAll(r0, CpuAdvice(ps), MaxRecommendations),
      MemoryAdvice(ps), MaxRecommendations), DiskAdvice(ps), MaxRecommendations),
      NetworkAdvice(ps), MaxRecommendations), GeneralAdvice(ps), MaxRecommendations)
      == AppendAll(r0, Advice(ps), MaxRecommendations)
  {
    AppendAllConcat(r0, CpuAdvice(ps), MemoryAdvice(ps), MaxRecommendations);
    AppendAllConcat(r0, CpuAdvice(ps) + MemoryAdvice(ps), DiskAdvice(ps), MaxRecommendations);
    AppendAllConcat(r0, CpuAdvice(ps) + MemoryAdvice(ps) + DiskAdvice(ps), NetworkAdvice(ps), MaxRecommendations);
    AppendAllConcat(r0, CpuAdvice(ps) + MemoryAdvice(ps) + DiskAdvice(ps) + NetworkAdvice(ps), GeneralAdvice(ps), MaxRecommendations);
  }

  /** `recommendation_generator_get_recommendations`: the list and its length, when a count is wanted. */
  method GetRecommendations(ctx: Context, wantCount: bool) returns (arr: array?<Recommendation>, count: Option<int>)
    requires ctx.Valid()
    ensures wantCount ==> arr == ctx.recommendations && count == Some(ctx.recommendationCount as int)
    ensures !wantCount ==> arr == null && count == None
  {
    if !wantCount {
      return null, None;
    }
    return ctx.recommendations, Some(ctx.recommendationCount as int);
  }

  /** The CPU advisories are raised exactly when an active CPU pattern mentions high CPU usage or high load average. */
  lemma CpuRuleFires(ps: seq<Pattern>)
    ensures CpuAdvice(ps) != [] <==>
      exists k :: 0 <= k < |ps| && ps[k].frequency > 0 && ps[k].category == "cpu"
        && (Contains(ps[k].description, "High CPU Usage") || Contains(ps[k].description, "High Load Average"))
    ensures CpuAdvice(ps) == [] || |CpuAdvice(ps)| == 3
  {
    if exists k :: 0 <= k < |ps| && ps[k].frequency > 0 && ps[k].category == "cpu"
        && (Contains(ps[k].description, "High CPU Usage") || Contains(ps[k].description, "High Load Average")) {
      var k :| 0 <= k < |ps| && ps[k].frequency > 0 && ps[k].category == "cpu"
        && (Contains(ps[k].description, "High CPU Usage") || Contains(ps[k].description, "High Load Average"));
      assert HighCpuUsageSignal(ps[k]) || HighLoadAverageSignal(ps[k]);
    }
  }

  /**
    The memory advisories: the general two whenever an active memory pattern
    exists, the out-of-memory one when such a pattern mentions "Out of memory",
    the swap one when such a pattern mentions "High swap usage" but not
    "Out of memory".
   */
  lemma MemoryRuleContents(ps: seq<Pattern>)
    ensures MemoryAdvice(ps) != [] <==> exists k :: 0 <= k < |ps| && ps[k].frequency > 0 && ps[k].category == "memory"
    ensures MemoryAdvice(ps) != [] ==> MemoryAdvice(ps)[0] == AnalyzeMemoryUsage && MemoryAdvice(ps)[|MemoryAdvice(ps)| - 1] == ConsiderMemoryLimits
    ensures AddressOutOfMemory in MemoryAdvice(ps) <==>
      exists k :: 0 <= k < |ps| && ps[k].frequency > 0 && ps[k].category == "memory"
        && Contains(ps[k].description, "Out of memory")
    ensures ReduceSwapUsage in MemoryAdvice(ps) <==>
      exists k :: 0 <= k < |ps| && ps[k].frequency > 0 && ps[k].category == "memory"
        && !Contains(ps[k].description, "Out of memory") && Contains(ps[k].description, "High swap usage")
  {
    if AnySignal(ps, OutOfMemorySignal) || AnySignal(ps, HighSwapSignal) {
      assert AnySignal(ps, MemorySignal);
    }
  }

  /**
    The disk advisories: the space pair when an active disk pattern mentions a
    full disk or a filesystem near capacity, the I/O pair when another active
    disk pattern mentions an I/O error or a device timeout.
   */
  lemma DiskRuleContents(ps: seq<Pattern>)
    ensures FreeDiskSpace in DiskAdvice(ps) <==>
      exists k :: 0 <= k < |ps| && ps[k].frequency > 0 && ps[k].category == "disk"
        && (Contains(ps[k].description, "Disk full") || Contains(ps[k].description, "Filesystem near capacity"))
    ensures CheckDiskHealth in DiskAdvice(ps) <==>
      exists k :: 0 <= k < |ps| && ps[k].frequency > 0 && ps[k].category == "disk"
        && !(Contains(ps[k].description, "Disk full") || Contains(ps[k].description, "Filesystem near capacity"))
        && (Contains(ps[k].description, "I/O error") || Contains(ps[k].description, "Device timeout"))
    ensures |DiskAdvice(ps)| in {0, 2, 4}
  {
  }

  /**
    The network advisories: connectivity whenever an active network pattern
    exists, timeouts when such a pattern mentions "Connection timeout", packet
    loss when such a pattern mentions "packet loss" but not "Connection timeout".
   */
  lemma NetworkRuleContents(ps: seq<Pattern>)
    ensures NetworkAdvice(ps) != [] <==> exists k :: 0 <= k < |ps| && ps[k].frequency > 0 && ps[k].category == "network"
    ensures NetworkAdvice(ps) != [] ==> NetworkAdvice(ps)[0] == CheckConnectivity
    ensures AdjustTimeouts in NetworkAdvice(ps) <==>
      exists k :: 0 <= k < |ps| && ps[k].frequency > 0 && ps[k].category == "network"
        && Contains(ps[k].description, "Connection timeout")
    ensures AddressPacketLoss in NetworkAdvice(ps) <==>
      exists k :: 0 <= k < |ps| && ps[k].frequency > 0 && ps[k].category == "network"
        && !Contains(ps[k].description, "Connection timeout") && Contains(ps[k].description, "packet loss")
  {
    if AnySignal(ps, TimeoutSignal) || AnySignal(ps, PacketLossSignal) {
      assert AnySignal(ps, NetworkSignal);
    }
  }

  /**
    On patterns ranked by descending frequency, the general advisories are
    raised exactly when some pattern matched an entry.
   */
  lemma GeneralRuleOnRanked(ps: seq<Pattern>)
    requires SortedDesc(ps, FrequencyOf)
    ensures GeneralAdvice(ps) != [] <==> exists k :: 0 <= k < |ps| && ps[k].frequency > 0
  {
    if exists k :: 0 <= k < |ps| && ps[k].frequency > 0 {
      var k :| 0 <= k < |ps| && ps[k].frequency > 0;
      if k > 0 {
        assert FrequencyOf(ps[0]) >= FrequencyOf(ps[k]);
      }
    }
  }

  /** Patterns that matched no entry raise no advisory at all, not even the general pair. */
  lemma NoHitsNoAdvice(ps: seq<Pattern>)
    requires forall k :: 0 <= k < |ps| ==> ps[k].frequency <= 0
    ensures Advice(ps) == []
  {
    assert forall k :: 0 <= k < |ps| ==> !Active(ps[k]);
  }

  // No CPU signature of the catalog is described with the words the CPU rule
  // looks for: the rule's words are capitalised, the descriptions are not.
  // Each pair of description and rule words gets its own lemma, although four
  // of the proofs share one shape: every refutation decides character
  // membership in a string literal, and two of them combined in one proof
  // time out.

  lemma CpuUsageMissesCpuWords()
    ensures !Contains(HighCpuUsage.description, "High CPU Usage")
  {
    var rest := "igh CPU usage detected";
    assert HighCpuUsage.description == ['H'] + rest;
    assert (['H'] + rest)[9] == 'u';
    NotContainsOffStart('H', rest, "High CPU Usage");
  }

  lemma CpuUsageMissesLoadWords()
    ensures !Contains(HighCpuUsage.description, "High Load Average")
  {
    NotContainsMissingChar(HighCpuUsage.description, "High Load Average", 5);
  }

  lemma LoadAverageMissesCpuWords()
    ensures !Contains(HighLoadAverage.description, "High CPU Usage")
  {
    NotContainsMissingChar(HighLoadAverage.description, "High CPU Usage", 5);
  }

  lemma LoadAverageMissesLoadWords()
    ensures !Contains(HighLoadAverage.description, "High Load Average")
  {
    NotContainsMissingChar(HighLoadAverage.description, "High Load Average", 5);
  }

  lemma ExcessiveCpuMissesCpuWords()
    ensures !Contains(ExcessiveCpuProcess.description, "High CPU Usage")
  {
    NotContainsMissingChar(ExcessiveCpuProcess.description, "High CPU Usage", 0);
  }

  lemma ExcessiveCpuMissesLoadWords()
    ensures !Contains(ExcessiveCpuProcess.description, "High Load Average")
  {
    NotContainsMissingChar(ExcessiveCpuProcess.description, "High Load Average", 0);
  }

  /** The catalog's CPU signatures are the first three. */
  lemma CatalogCpuSignatures(q: Pattern)
    requires q in Catalog() && q.category == "cpu"
    ensures q == HighCpuUsage || q == HighLoadAverage || q == ExcessiveCpuProcess
  {
  }

  /**
    The CPU rule never fires on the built-in catalog: whatever the frequencies,
    patterns loaded from the catalog raise no CPU advisory.
   */
  lemma CatalogRaisesNoCpuAdvice(ps: seq<Pattern>)
    requires forall k :: 0 <= k < |ps| ==> ps[k].(frequency := 0) in Catalog()
    ensures CpuAdvice(ps) == []
  {
    forall k | 0 <= k < |ps| ensures !HighCpuUsageSignal(ps[k]) && !HighLoadAverageSignal(ps[k]) {
      var q := ps[k].(frequency := 0);
      if q.category == "cpu" {
        CatalogCpuSignatures(q);
        if q == HighCpuUsage {
          CpuUsageMissesCpuWords();
          CpuUsageMissesLoadWords();
        } else if q == HighLoadAverage {
          LoadAverageMissesCpuWords();
          LoadAverageMissesLoadWords();
        } else {
          ExcessiveCpuMissesCpuWords();
          ExcessiveCpuMissesLoadWords();
        }
      }
    }
  }

  /** Patterns ranked after a fresh detection are catalog signatures with their frequencies set. */
  lemma FreshPatternsFromCatalog(engine: RegexEngine, entries: seq<Option<LogEntry>>, patterns: seq<Pattern>)
    requires StableRanking(patterns, Tally(engine, Catalog(), entries), FrequencyOf)
    ensures forall k :: 0 <= k < |patterns| ==> patterns[k].(frequency := 0) in Catalog()
  {
    FreshAnalysisResult(engine, entries, patterns);
    CatalogShape();
    forall k | 0 <= k < |patterns| ensures patterns[k].(frequency := 0) in Catalog() {
      assert patterns[k] in patterns;
      var q :| q in Catalog() && patterns[k] == q.(frequency := Hits(engine, entries, q.regex));
      assert patterns[k].(frequency := 0) == q;
    }
  }

  /** Each raised advisory comes from the rule of its category. */
  lemma AdviceFromItsRule(ps: seq<Pattern>, r: Recommendation)
    requires r in Advice(ps)
    ensures r.category == "cpu" ==> r in CpuAdvice(ps)
    ensures r.category == "general" ==> r in GeneralAdvice(ps)
  {
    var c, m, d, n, g := CpuAdvice(ps), MemoryAdvice(ps), DiskAdvice(ps), NetworkAdvice(ps), GeneralAdvice(ps);
    assert Advice(ps) == c + m + d + n + g;
    assert r in c || r in m || r in d || r in n || r in g;
  }

  /**
    When no CPU advisory is raised, the ranked list is a reordering of the
    raised advisories, at most 13 and none about the CPU, and holds a general
    advisory exactly when the general rule fired.
   */
  lemma RankedAdviceWithoutCpu(ps: seq<Pattern>, recs: seq<Recommendation>)
    requires CpuAdvice(ps) == []
    requires StableRanking(recs, AppendAll([], Advice(ps), MaxRecommendations), PriorityOf)
    ensures multiset(recs) == multiset(Advice(ps))
    ensures forall r :: r in recs ==> r.category != "cpu"
    ensures |recs| <= 13
    ensures (exists r :: r in recs && r.category == "general") <==> GeneralAdvice(ps) != []
  {
    var advice := Advice(ps);
    assert |advice| == |MemoryAdvice(ps)| + |DiskAdvice(ps)| + |NetworkAdvice(ps)| + |GeneralAdvice(ps)|;
    AppendAllFits(advice, MaxRecommendations);
    RankingIsPermutation(recs, advice, PriorityOf);
    forall r | r in recs ensures r.category != "cpu" && (r.category == "general" ==> GeneralAdvice(ps) != []) {
      assert r in multiset(recs);
      AdviceFromItsRule(ps, r);
    }
    if GeneralAdvice(ps) != [] {
      var g := GeneralAdvice(ps);
      assert advice[|advice| - |g|] == g[0];
      assert g[0] in multiset(advice);
      assert g[0] in recs;
    }
  }

  /**
    A fresh context after pattern detection and recommendation generation: the
    advisories are a reordering of the raised ones, none of them about the CPU,
    at most 13 of them (so the list of 50 never overflows), and the general pair
    is present exactly when some signature matched an entry.
   */
  lemma FreshAnalysisAdvice(engine: RegexEngine, entries: seq<Option<LogEntry>>, patterns: seq<Pattern>, recs: seq<Recommendation>)
    requires StableRanking(patterns, Tally(engine, Catalog(), entries), FrequencyOf)
    requires StableRanking(recs, AppendAll([], Advice(patterns), MaxRecommendations), PriorityOf)
    ensures multiset(recs) == multiset(Advice(patterns))
    ensures forall r :: r in recs ==> r.category != "cpu"
    ensures |recs| <= 13
    ensures (exists r :: r in recs && r.category == "general") <==> exists k :: 0 <= k < |patterns| && patterns[k].frequency > 0
  {
    FreshPatternsFromCatalog(engine, entries, patterns);
    CatalogRaisesNoCpuAdvice(patterns);
    RankedAdviceWithoutCpu(patterns, recs);
    GeneralRuleOnRanked(patterns);
  }
}
