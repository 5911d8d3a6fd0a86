/**
  The shared types of the log analyzer and its run context: one parsed log
  line, one fault signature, one advisory, and the context that owns the
  fixed-capacity pattern and recommendation arrays.
 */
module LogAnalyzer {
  import opened Wrappers
  import opened Strings

  const MaxPatterns: nat := 100
  const MaxRecommendations: nat := 50
  const MaxPathLength: nat := 256
  const MaxFormatLength: nat := 128

  /**
    One parsed log line. `None` stands for a NULL field. The timestamp is
    whatever the (unmodelled) timestamp heuristic produced, in seconds.
   */
  datatype LogEntry = LogEntry(
    rawText: string,
    message: Option<string>,
    timestamp: int,
    source: string,
    severity: int,
    threadId: Option<string>,
    processId: Option<string>,
    additionalFields: Option<string>)

  /** One fault signature and the number of entries it matched so far. */
  datatype Pattern = Pattern(
    regex: string,
    frequency: int,
    severity: int,
    description: string,
    category: string)

  /** One advisory; `confidence` is in hundredths (0.8 is 80). */
  datatype Recommendation = Recommendation(
    title: string,
    description: string,
    action: string,
    priority: int,
    category: string,
    confidence: int)

  /** A zero-filled pattern slot: NULL strings read as empty, numbers as 0. */
  const ZeroPattern := Pattern("", 0, 0, "", "")
  const ZeroRecommendation := Recommendation("", "", "", 0, "", 0)

  /** The run context. Each path buffer keeps its last byte NUL, so a path holds at most its size minus one characters. */
  class Context {
    var inputPath: string
    var outputPath: string
    var logFormat: string
    var verbose: int
    const patterns: array<Pattern>
    var patternCount: nat
    const recommendations: array<Recommendation>
    var recommendationCount: nat

    ghost predicate Valid()
      reads this
    {
      && patterns.Length == MaxPatterns
      && recommendations.Length == MaxRecommendations
      && patternCount <= MaxPatterns
      && recommendationCount <= MaxRecommendations
      && |inputPath| < MaxPathLength
      && |outputPath| < MaxPathLength
      && |logFormat| < MaxFormatLength
    }

    /** The loaded patterns, `patterns[0..pattern_count)`. */
    ghost function Patterns(): seq<Pattern>
      reads this, patterns
      requires Valid()
    {
      patterns[..patternCount]
    }

    /** The emitted advisories, `recommendations[0..recommendation_count)`. */
    ghost function Recommendations(): seq<Recommendation>
      reads this, recommendations
      requires Valid()
    {
      recommendations[..recommendationCount]
    }

    /**
      `log_analyzer_init`: a zero-filled context whose paths and format are
      truncating copies of the arguments (a NULL argument leaves the field empty).
     */
    constructor Init(inputPath: Option<string>, outputPath: Option<string>, format: Option<string>)
      ensures Valid() && fresh(patterns) && fresh(recommendations)
      ensures this.inputPath == if inputPath.Some? then Truncate(inputPath.value, MaxPathLength - 1) else ""
      ensures this.outputPath == if outputPath.Some? then Truncate(outputPath.value, MaxPathLength - 1) else ""
      ensures logFormat == if format.Some? then Truncate(format.value, MaxFormatLength - 1) else ""
      ensures verbose == 0 && patternCount == 0 && recommendationCount == 0
      ensures Patterns() == [] && Recommendations() == []
      ensures forall i :: 0 <= i < MaxPatterns ==> patterns[i] == ZeroPattern
      ensures forall i :: 0 <= i < MaxRecommendations ==> recommendations[i] == ZeroRecommendation
    {
      this.patterns := new Pattern[MaxPatterns](_ => ZeroPattern);
      this.recommendations := new Recommendation[MaxRecommendations](_ => ZeroRecommendation);
      this.inputPath := if inputPath.Some? then Truncate(inputPath.value, MaxPathLength - 1) else "";
      this.outputPath := if outputPath.Some? then Truncate(outputPath.value, MaxPathLength - 1) else "";
      this.logFormat := if format.Some? then Truncate(format.value, MaxFormatLength - 1) else "";
      this.verbose := 0;
      this.patternCount := 0;
      this.recommendationCount := 0;
    }
  }
}
