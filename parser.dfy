/**
  The log-line parser: severity by keyword precedence, the source tag, the
  process id, the message after the first ": ", the whitespace trimmer, and the
  record assembled from them. The timestamp heuristic is not part of this
  model; the timestamp arrives as a parameter.
 */
module Parser {
  import opened Wrappers
  import opened Strings
  import opened LogAnalyzer

  /** The severity keywords in the order `extract_severity` tests them, with their levels. */
  const SeverityKeywords: seq<(string, int)> := [
    ("EMERGENCY", 0), ("EMERG", 0), ("fatal", 0),
    ("ALERT", 1),
    ("CRITICAL", 2), ("CRIT", 2),
    ("ERROR", 3), ("ERR", 3),
    ("WARNING", 4), ("WARN", 4),
    ("NOTICE", 5),
    ("INFO", 6), ("information", 6),
    ("DEBUG", 7)]

  /** The level a line gets when it holds none of the keywords ("information"). */
  const DefaultSeverity := 6

  /** `extract_severity`: the syslog level named by the first keyword group the line mentions. */
  function ExtractSeverity(line: string): (r: int)
    ensures 0 <= r <= 7
  {
    if Contains(line, "EMERGENCY") || Contains(line, "EMERG") || Contains(line, "fatal") then 0
    else if Contains(line, "ALERT") then 1
    else if Contains(line, "CRITICAL") || Contains(line, "CRIT") then 2
    else if Contains(line, "ERROR") || Contains(line, "ERR") then 3
    else if Contains(line, "WARNING") || Contains(line, "WARN") then 4
    else if Contains(line, "NOTICE") then 5
    else if Contains(line, "INFO") || Contains(line, "information") then 6
    else if Contains(line, "DEBUG") then 7
    else DefaultSeverity
  }

  /** The level of the first keyword of `table` that `line` mentions, or `default`. */
  function FirstMentioned(line: string, table: seq<(string, int)>, default: int): int {
    if table == [] then default
    else if Contains(line, table[0].0) then table[0].1
    else FirstMentioned(line, table[1..], default)
  }

  /** One step of the lookup: test the `k`-th keyword, else look further. */
  lemma FirstMentionedStep(line: string, table: seq<(string, int)>, k: nat, default: int)
    requires k < |table|
    ensures FirstMentioned(line, table[k..], default)
         == if Contains(line, table[k].0) then table[k].1 else FirstMentioned(line, table[k + 1..], default)
  {
    assert table[k..][1..] == table[k + 1..];
  }

  /** The if-chain of `extract_severity` is the first-match lookup in the keyword table. */
  lemma SeverityIsFirstMentioned(line: string)
    ensures ExtractSeverity(line) == FirstMentioned(line, SeverityKeywords, DefaultSeverity)
  {
    assert SeverityKeywords[0..] == SeverityKeywords;
    FirstMentionedStep(line, SeverityKeywords, 0, DefaultSeverity);
    FirstMentionedStep(line, SeverityKeywords, 1, DefaultSeverity);
    FirstMentionedStep(line, SeverityKeywords, 2, DefaultSeverity);
    FirstMentionedStep(line, SeverityKeywords, 3, DefaultSeverity);
    FirstMentionedStep(line, SeverityKeywords, 4, DefaultSeverity);
    FirstMentionedStep(line, SeverityKeywords, 5, DefaultSeverity);
    FirstMentionedStep(line, SeverityKeywords, 6, DefaultSeverity);
    FirstMentionedStep(line, SeverityKeywords, 7, DefaultSeverity);
    FirstMentionedStep(line, SeverityKeywords, 8, DefaultSeverity);
    FirstMentionedStep(line, SeverityKeywords, 9, DefaultSeverity);
    FirstMentionedStep(line, SeverityKeywords, 10, DefaultSeverity);
    FirstMentionedStep(line, SeverityKeywords, 11, DefaultSeverity);
    FirstMentionedStep(line, SeverityKeywords, 12, DefaultSeverity);
    FirstMentionedStep(line, SeverityKeywords, 13, DefaultSeverity);
    assert SeverityKeywords[14..] == [];
  }

  /**
    In a table ordered by level, the first keyword mentioned has the lowest
    level among those mentioned; when none is mentioned the default applies.
   */
  lemma {:induction false} FirstMentionedIsLowest(line: string, table: seq<(string, int)>, default: int)
    requires forall i, j :: 0 <= i < j < |table| ==> table[i].1 <= table[j].1
    ensures forall i :: 0 <= i < |table| && Contains(line, table[i].0) ==>
      FirstMentioned(line, table, default) <= table[i].1
    ensures (exists i :: 0 <= i < |table| && Contains(line, table[i].0)
               && FirstMentioned(line, table, default) == table[i].1)
         || ((forall i :: 0 <= i < |table| ==> !Contains(line, table[i].0))
               && FirstMentioned(line, table, default) == default)
  {
    if table != [] && !Contains(line, table[0].0) {
      FirstMentionedIsLowest(line, table[1..], default);
      forall i | 0 < i < |table| ensures table[i] == table[1..][i - 1] {
      }
    }
  }

  /**
    The severity is the lowest level among the keywords the line mentions, and
    the default level when it mentions none: a line holding both "ERR" and
    "WARN" is an error.
   */
  lemma SeverityIsLowestMentionedLevel(line: string)
    ensures forall i :: 0 <= i < |SeverityKeywords| && Contains(line, SeverityKeywords[i].0) ==>
      ExtractSeverity(line) <= SeverityKeywords[i].1
    ensures (exists i :: 0 <= i < |SeverityKeywords| && Contains(line, SeverityKeywords[i].0)
               && ExtractSeverity(line) == SeverityKeywords[i].1)
         || ((forall i :: 0 <= i < |SeverityKeywords| ==> !Contains(line, SeverityKeywords[i].0))
               && ExtractSeverity(line) == DefaultSeverity)
  {
    SeverityIsFirstMentioned(line);
    FirstMentionedIsLowest(line, SeverityKeywords, DefaultSeverity);
  }

  /**
    `extract_source`: the text between a leading `[` and the next `]`; failing
    that, the text before the first `:` when it is 1 to 31 characters long;
    failing that, "unknown".
   */
  function ExtractSource(line: string): (r: string)
    ensures r == "unknown"
         || (']' !in r && IsPrefix("[" + r + "]", line))
         || (0 < |r| < 32 && ':' !in r && IsPrefix(r + ":", line))
  {
    var close := if |line| > 0 && line[0] == '[' then IndexOf(line[1..], "]") else None;
    if close.Some? then
      CharIndex(line[1..], ']');
      assert line[..close.value + 2] == "[" + line[1..][..close.value] + "]";
      line[1..close.value + 1]
    else
      var colon := IndexOf(line, ":");
      CharIndex(line, ':');
      if colon.Some? && 0 < colon.value < 32 then
        assert line[..colon.value + 1] == line[..colon.value] + ":";
        line[..colon.value]
      else "unknown"
  }

  /** A bracketed tag at the start of the line is the source. */
  lemma SourceInBrackets(tag: string, rest: string)
    requires ']' !in tag
    ensures ExtractSource("[" + tag + "]" + rest) == tag
  {
    var line := "[" + tag + "]" + rest;
    assert line[1..] == tag + "]" + rest;
    CharIndex(line[1..], ']');
    var i := IndexOf(line[1..], "]").value;
    assert line[1..][|tag|] == ']';
    assert line[1..][..|tag|] == tag;
  }

  /**
    Otherwise a prefix of 1 to 31 characters before the first colon is the
    source; this includes a line that opens a `[` it never closes.
   */
  lemma SourceBeforeColon(tag: string, rest: string)
    requires 0 < |tag| < 32 && ':' !in tag
    requires tag[0] != '[' || ']' !in tag[1..] + ":" + rest
    ensures ExtractSource(tag + ":" + rest) == tag
  {
    var line := tag + ":" + rest;
    if tag[0] == '[' {
      assert line[1..] == tag[1..] + ":" + rest;
      CharIndex(line[1..], ']');
    }
    CharIndex(line, ':');
    var i := IndexOf(line, ":").value;
    assert line[|tag|] == ':';
    assert line[..|tag|] == tag;
    assert line[..i] == tag;
  }

  /**
    Without a bracketed tag, and without a colon at positions 1 to 31 ahead of
    any other colon, the source is "unknown".
   */
  lemma SourceUnknown(line: string)
    requires |line| == 0 || line[0] != '[' || ']' !in line[1..]
    requires ':' !in line || line[0] == ':' || (|line| > 32 && ':' !in line[..32])
    ensures ExtractSource(line) == "unknown"
  {
    if |line| > 0 && line[0] == '[' {
      CharIndex(line[1..], ']');
    }
    CharIndex(line, ':');
    if IndexOf(line, ":").Some? && |line| > 32 && ':' !in line[..32] {
      var i := IndexOf(line, ":").value;
      assert line[i] == ':';
    }
  }

  /** The longest run of digits at the start of `s`. */
  function DigitRun(s: string): (r: string)
    ensures IsPrefix(r, s)
    ensures forall k :: 0 <= k < |r| ==> IsDigit(r[k])
    ensures |r| < |s| ==> !IsDigit(s[|r|])
  {
    if |s| > 0 && IsDigit(s[0]) then [s[0]] + DigitRun(s[1..]) else []
  }

  /**
    What `extract_process_id` returns: the text between the first `[` and the
    next `]`; failing that, the digits right after the first "PID ", if any;
    otherwise NULL.
   */
  function ProcessIdOf(line: string): Option<string> {
    var open := IndexOf(line, "[");
    var close := if open.Some? then IndexOf(line[open.value + 1..], "]") else None;
    if close.Some? then
      Some(line[open.value + 1..open.value + 1 + close.value])
    else
      var pid := IndexOf(line, "PID ");
      if pid.Some? && DigitRun(line[pid.value + 4..]) != [] then Some(DigitRun(line[pid.value + 4..]))
      else None
  }

  /** The digit-scanning loop of `extract_process_id`: the end of the run of digits from `start`. */
  method ScanDigits(line: string, start: nat) returns (end: nat)
    requires start <= |line|
    ensures start <= end <= |line| && line[start..end] == DigitRun(line[start..])
  {
    end := start;
    while end < |line| && IsDigit(line[end])
      invariant start <= end <= |line|
      invariant forall k :: start <= k < end ==> IsDigit(line[k])
    {
      end := end + 1;
    }
    DigitRunEndsAt(line[start..], end - start);
  }

  /** A run of `n` digits followed by a non-digit or the end is the digit run. */
  lemma DigitRunEndsAt(s: string, n: nat)
    requires n <= |s| && (forall k :: 0 <= k < n ==> IsDigit(s[k]))
    requires n < |s| ==> !IsDigit(s[n])
    ensures DigitRun(s) == s[..n]
  {
  }

  /** `extract_process_id`. */
  method ExtractProcessId(line: string) returns (pid: Option<string>)
    ensures pid == ProcessIdOf(line)
  {
    var open := IndexOf(line, "[");
    if open.Some? {
      var start := open.value + 1;
      var close := IndexOf(line[start..], "]");
      if close.Some? {
        return Some(line[start..start + close.value]);
      }
    }
    var keyword := IndexOf(line, "PID ");
    if keyword.Some? {
      var start := keyword.value + 4;
      var end := ScanDigits(line, start);
      if end > start {
        return Some(line[start..end]);
      }
    }
    return None;
  }

  /** A bracketed tag after the first `[` is the process id. */
  lemma ProcessIdInBrackets(before: string, tag: string, rest: string)
    requires '[' !in before && ']' !in tag
    ensures ProcessIdOf(before + "[" + tag + "]" + rest) == Some(tag)
  {
    var line := before + "[" + tag + "]" + rest;
    var i := |before|;
    FirstCharAt(line, '[', i);
    var after := line[i + 1..];
    assert after == tag + "]" + rest;
    FirstCharAt(after, ']', |tag|);
    assert line[i + 1..i + 1 + |tag|] == after[..|tag|] == tag;
  }

  /** No `]` follows the first `[` of the line (or the line has no `[`). */
  predicate NoClosedBracket(line: string) {
    var open := IndexOf(line, "[");
    open.None? || ']' !in line[open.value + 1..]
  }

  /** Without a closed bracket, the bracket search of `extract_process_id` finds nothing. */
  lemma NoClosedBracketFindsNothing(line: string)
    requires NoClosedBracket(line)
    ensures var open := IndexOf(line, "[");
            open.None? || IndexOf(line[open.value + 1..], "]").None?
  {
    var open := IndexOf(line, "[");
    if open.Some? {
      CharIndex(line[open.value + 1..], ']');
    }
  }

  /**
    Without a `[` that a `]` follows, the process id is the run of digits after
    the first "PID ", or NULL when that run is empty.
   */
  lemma ProcessIdAfterKeyword(line: string, at: nat)
    requires NoClosedBracket(line)
    requires OccursAt(line, "PID ", at) && forall k: nat :: k < at ==> !OccursAt(line, "PID ", k)
    ensures ProcessIdOf(line) == if DigitRun(line[at + 4..]) == [] then None else Some(DigitRun(line[at + 4..]))
  {
    NoClosedBracketFindsNothing(line);
    IndexOfFirst(line, "PID ");
    var i := IndexOf(line, "PID ").value;
    assert !(i < at) && !(at < i);
  }

  /** A line with neither a bracket pair nor "PID " has no process id. */
  lemma NoProcessId(line: string)
    requires NoClosedBracket(line) && !Contains(line, "PID ")
    ensures ProcessIdOf(line).None?
  {
    NoClosedBracketFindsNothing(line);
  }

  /** The message: what follows the first ": ", or the whole line when there is none. */
  function MessageOf(line: string): string {
    var separator := IndexOf(line, ": ");
    if separator.Some? then line[separator.value + 2..] else line
  }

  /** The message is the text after the first occurrence of ": ". */
  lemma MessageAfterFirstSeparator(line: string, at: nat)
    requires OccursAt(line, ": ", at) && forall k: nat :: k < at ==> !OccursAt(line, ": ", k)
    ensures MessageOf(line) == line[at + 2..]
    ensures line == line[..at] + ": " + MessageOf(line)
  {
    IndexOfFirst(line, ": ");
    var i := IndexOf(line, ": ").value;
    assert !(i < at) && !(at < i);
    assert line == line[..at] + line[at..at + 2] + line[at + 2..];
  }

  /** A line without ": " is its own message. */
  lemma MessageWithoutSeparator(line: string)
    requires !Contains(line, ": ")
    ensures MessageOf(line) == line
  {
  }

  /**
    `log_parser_parse_line`: NULL for a NULL context or line; otherwise the
    record of the line's fields. `timestamp` is what the timestamp heuristic
    returned for the line.
   */
  method ParseLine(ctx: Context?, line: Option<string>, timestamp: int) returns (entry: Option<LogEntry>)
    ensures entry.None? <==> ctx == null || line.None?
    ensures entry.Some? ==> entry.value == LogEntry(
      line.value, Some(MessageOf(line.value)), timestamp, ExtractSource(line.value),
      ExtractSeverity(line.value), None, ProcessIdOf(line.value), None)
  {
    if ctx == null || line.None? {
      return None;
    }
    var text := line.value;
    var pid := ExtractProcessId(text);
    var message := MessageOf(text);
    entry := Some(LogEntry(
      rawText := text,
      message := Some(message),
      timestamp := timestamp,
      source := ExtractSource(text),
      severity := ExtractSeverity(text),
      threadId := None,
      processId := pid,
      additionalFields := None));
  }

  /** Leading whitespace removed. */
  function TrimStart(s: string): string {
    if |s| > 0 && IsSpace(s[0]) then TrimStart(s[1..]) else s
  }

  /** Trailing whitespace removed. */
  function TrimEnd(s: string): string {
    if |s| > 0 && IsSpace(s[|s| - 1]) then TrimEnd(s[..|s| - 1]) else s
  }

  /** Leading and trailing whitespace removed. */
  function Trim(s: string): string {
    TrimEnd(TrimStart(s))
  }

  /** Trimming the front drops a prefix of whitespace and stops at a non-space. */
  lemma {:induction false} TrimStartShape(s: string)
    ensures |TrimStart(s)| <= |s| && TrimStart(s) == s[|s| - |TrimStart(s)|..]
    ensures forall k :: 0 <= k < |s| - |TrimStart(s)| ==> IsSpace(s[k])
    ensures |TrimStart(s)| > 0 ==> !IsSpace(TrimStart(s)[0])
  {
    if |s| > 0 && IsSpace(s[0]) {
      TrimStartShape(s[1..]);
      assert s[1..][|s| - 1 - |TrimStart(s)|..] == s[|s| - |TrimStart(s)|..];
    }
  }

  /** Trimming the back drops a suffix of whitespace and stops at a non-space. */
  lemma {:induction false} TrimEndShape(s: string)
    ensures |TrimEnd(s)| <= |s| && TrimEnd(s) == s[..|TrimEnd(s)|]
    ensures forall k :: |TrimEnd(s)| <= k < |s| ==> IsSpace(s[k])
    ensures |TrimEnd(s)| > 0 ==> !IsSpace(TrimEnd(s)[|TrimEnd(s)| - 1])
  {
    if |s| > 0 && IsSpace(s[|s| - 1]) {
      TrimEndShape(s[..|s| - 1]);
      assert s[..|s| - 1][..|TrimEnd(s)|] == s[..|TrimEnd(s)|];
    }
  }

  /**
    The trimmed text is a contiguous part of the input, everything cut off is
    whitespace, and it neither starts nor ends with whitespace.
   */
  lemma TrimShape(s: string)
    ensures exists i, j ::
              && 0 <= i <= j <= |s| && Trim(s) == s[i..j]
              && (forall k :: 0 <= k < i ==> IsSpace(s[k]))
              && (forall k :: j <= k < |s| ==> IsSpace(s[k]))
    ensures |Trim(s)| > 0 ==> !IsSpace(Trim(s)[0]) && !IsSpace(Trim(s)[|Trim(s)| - 1])
  {
    var t := TrimStart(s);
    TrimStartShape(s);
    TrimEndShape(t);
    var i := |s| - |t|;
    var j := i + |TrimEnd(t)|;
    assert Trim(s) == s[i..j];
    forall k | j <= k < |s| ensures IsSpace(s[k]) {
      assert s[k] == t[k - i];
    }
  }

  /** A text of whitespace only trims to the empty string. */
  lemma {:induction false} TrimAllSpace(s: string)
    requires forall k :: 0 <= k < |s| ==> IsSpace(s[k])
    ensures Trim(s) == ""
  {
    TrimStartShape(s);
  }

  /** Trimming twice is trimming once. */
  lemma TrimIdempotent(s: string)
    ensures Trim(Trim(s)) == Trim(s)
  {
    TrimShape(s);
    var t := Trim(s);
    if |t| > 0 {
      assert TrimStart(t) == t;
      assert TrimEnd(t) == t;
    }
  }

  /** The length of the NUL-terminated string at the front of `s` (`strlen`). */
  function StrLen(s: seq<char>): (n: nat)
    requires '\0' in s
    ensures n < |s| && s[n] == '\0' && '\0' !in s[..n]
  {
    if s[0] == '\0' then 0
    else
      assert s[1..][..StrLen(s[1..])] == s[..StrLen(s[1..]) + 1][1..];
      1 + StrLen(s[1..])
  }

  /** The NUL-terminated string at the front of `s`. */
  function CString(s: seq<char>): string
    requires '\0' in s
  {
    s[..StrLen(s)]
  }

  /** A NUL written right after a NUL-free `u` ends the C string `u`. */
  lemma CStringEndsAt(s: seq<char>, u: string)
    requires |u| < |s| && s[..|u|] == u && s[|u|] == '\0' && '\0' !in u
    ensures '\0' in s && CString(s) == u
  {
    assert s[|u|] in s;
  }

  /**
    `trim_whitespace`: `buf[str..]` holds a NUL-terminated string. Returns the
    index where the trimmed string starts, and cuts it off after its last
    non-space character by writing a NUL into the buffer.
   */
  method TrimWhitespace(buf: array<char>, str: nat) returns (r: nat)
    requires str <= buf.Length && '\0' in buf[str..]
    modifies buf
    ensures str <= r <= buf.Length && '\0' in buf[r..]
    ensures CString(buf[r..]) == Trim(CString(old(buf[str..])))
    ensures forall k :: 0 <= k < buf.Length && buf[k] != old(buf[k]) ==> buf[k] == '\0'
    ensures forall k :: 0 <= k < buf.Length && k != r + |Trim(CString(old(buf[str..])))| ==> buf[k] == old(buf[k])
  {
    ghost var cs := CString(buf[str..]);
    ghost var len := StrLen(buf[str..]);
    assert forall k :: str <= k < str + len ==> buf[k] == cs[k - str] && buf[k] != '\0';
    var p := str;
    while IsSpace(buf[p])
      invariant str <= p <= str + len
      decreases str + len - p
      invariant TrimStart(cs) == TrimStart(cs[p - str..])
    {
      assert cs[p - str..][1..] == cs[p - str + 1..];
      p := p + 1;
    }
    TrimStartShape(cs);
    if buf[p] == '\0' {
      assert p == str + len;
      assert buf[p..][0] == '\0';
      return p;
    }
    ghost var t := cs[p - str..];
    assert TrimStart(cs) == t;
    assert forall k :: p <= k < p + |t| ==> buf[k] == t[k - p];
    CutTrailingSpace(buf, p, t);
    return p;
  }

  /**
    The second half of `trim_whitespace`: `buf[p..]` holds the NUL-terminated
    string `t`, which does not start with whitespace. Writes a NUL after its last
    non-space character.
   */
  method CutTrailingSpace(buf: array<char>, p: nat, ghost t: string)
    requires 0 < |t| && p + |t| < buf.Length && buf[p + |t|] == '\0'
    requires forall k :: p <= k < p + |t| ==> buf[k] == t[k - p] && buf[k] != '\0'
    requires !IsSpace(t[0])
    modifies buf
    ensures '\0' in buf[p..] && CString(buf[p..]) == TrimEnd(t)
    ensures forall k :: 0 <= k < buf.Length && buf[k] != old(buf[k]) ==> buf[k] == '\0'
    ensures forall k :: 0 <= k < buf.Length && k != p + |TrimEnd(t)| ==> buf[k] == old(buf[k])
  {
    var n := p;
    while buf[n] != '\0'
      invariant p <= n <= p + |t|
      decreases p + |t| - n
    {
      n := n + 1;
    }
    assert n == p + |t|;
    var e := n - 1;
    assert t[..e - p + 1] == t;
    while e > p && IsSpace(buf[e])
      invariant p <= e < n
      invariant TrimEnd(t) == TrimEnd(t[..e - p + 1])
    {
      assert t[..e - p + 1][..e - p] == t[..e - p];
      e := e - 1;
    }
    ghost var kept := t[..e - p + 1];
    assert kept[|kept| - 1] == buf[e];
    assert TrimEnd(kept) == kept;
    buf[e + 1] := '\0';
    assert buf[p..][..|kept|] == kept;
    CStringEndsAt(buf[p..], kept);
  }
}
