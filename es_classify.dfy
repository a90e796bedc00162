/**
 * Classification of a backend exception into the adapter's error taxonomy
 * (`From<Exception> for Error`).
 *
 * The source matches the first root cause's reason against five regular
 * expressions, in a fixed order. Four of them have the shape
 *
 *     PREFIX ( [^\]/]+ ) .* TAIL
 *
 * where PREFIX ends in `[` and TAIL starts with `]`. Each is modelled by a
 * `Pattern` value, a declarative match predicate (`MatchAt`: what the
 * regular expression accepts at a position) and a scanner (`CaptureFrom`)
 * proved to find the leftmost match and the capture a leftmost-first regex
 * engine reports. `.` does not match a newline; the negated class does.
 */
module EsClassify {
  import opened Common
  import opened EsModel

  /** A regular expression of the shape `PREFIX([^\]/]+).*TAIL`. */
  datatype Pattern = Pattern(prefix: string, tail: string)

  /** `index \[([^\]/]+).*\] already exists` */
  const AlreadyExists := Pattern("index [", "] already exists")
  /** `no such index \[([^\]/]+).*\]` */
  const NoSuchIndex := Pattern("no such index [", "]")
  /** `Failed to parse mapping \[([^\]/]+).*\]: (.*)` without its last group */
  const MappingFailed := Pattern("Failed to parse mapping [", "]: ")
  /** `unknown setting \[([^\]/]+).*\]` */
  const UnknownSetting := Pattern("unknown setting [", "]")
  /** `failed to parse`, a plain substring search */
  const FailedToParse := "failed to parse"

  /** The tail starts with `]`, which can never belong to a captured name. */
  predicate WellFormed(p: Pattern)
  {
    |p.tail| > 0 && p.tail[0] == ']'
  }

  /** A character of the class `[^\]/]`. */
  predicate NameChar(c: char)
  {
    c != ']' && c != '/'
  }

  predicate AllNameChars(s: string, a: nat, b: nat)
  {
    a <= b <= |s| && forall k :: a <= k < b ==> NameChar(s[k])
  }

  /** `s[a..b]` could be matched by `.*`. */
  predicate NoNewline(s: string, a: nat, b: nat)
  {
    a <= b <= |s| && forall k :: a <= k < b ==> s[k] != '\n'
  }

  // ---------------------------------------------------------------------
  // What the regular expressions accept

  /** The regular expression `p` matches `s` starting at position `i`: the
      prefix, then a non-empty run of name characters ending at `b`, then a
      newline-free stretch ending at `c`, then the tail. */
  ghost predicate MatchAt(s: string, i: nat, p: Pattern)
  {
    && OccursAt(s, i, p.prefix)
    && exists b: nat, c: nat ::
         && i + |p.prefix| < b
         && AllNameChars(s, i + |p.prefix|, b)
         && NoNewline(s, b, c)
         && OccursAt(s, c, p.tail)
  }

  ghost predicate Matches(s: string, p: Pattern)
  {
    exists i: nat :: MatchAt(s, i, p)
  }

  /** `i` is where a leftmost-first engine starts its match. */
  ghost predicate LeftmostMatch(s: string, p: Pattern, i: nat)
  {
    MatchAt(s, i, p) && forall j: nat :: j < i ==> !MatchAt(s, j, p)
  }

  /** `name` is the text at position `q` up to, but excluding, the first
      `]` or `/` (or the end of `s`), and is not empty. */
  ghost predicate IsNameAt(s: string, q: nat, name: string)
  {
    && OccursAt(s, q, name)
    && |name| > 0
    && (forall k :: 0 <= k < |name| ==> NameChar(name[k]))
    && (q + |name| == |s| || !NameChar(s[q + |name|]))
  }

  /** `name` is the first group of the leftmost match of `p` in `s`. */
  ghost predicate CapturedName(s: string, p: Pattern, name: string)
  {
    exists i: nat :: LeftmostMatch(s, p, i) && IsNameAt(s, i + |p.prefix|, name)
  }

  ghost predicate Occurs(s: string, t: string)
  {
    exists i: nat :: OccursAt(s, i, t)
  }

  /** `c` is the position of TAIL chosen by the greedy `.*` that follows a
      name ending at `m`: the last one on the same line. */
  ghost predicate GreedyTailAt(s: string, m: nat, c: nat, tail: string)
  {
    && OccursAt(s, c, tail)
    && NoNewline(s, m, c)
    && forall c': nat :: c < c' && NoNewline(s, m, c') ==> !OccursAt(s, c', tail)
  }

  /** `rest` is the text at position `q` up to the end of its line. */
  ghost predicate IsRestOfLine(s: string, q: nat, rest: string)
  {
    && OccursAt(s, q, rest)
    && (forall k :: 0 <= k < |rest| ==> rest[k] != '\n')
    && (q + |rest| == |s| || s[q + |rest|] == '\n')
  }

  /** `mappingObject` and `reason` are the two groups of the leftmost match of
      `Failed to parse mapping \[([^\]/]+).*\]: (.*)`. */
  ghost predicate MappingCaptures(s: string, mappingObject: string, reason: string)
  {
    exists i: nat, c: nat :: MappingCapturesAt(s, i, c, mappingObject, reason)
  }

  /** The same, for a match starting at `i` whose `]: ` is at `c`. */
  ghost predicate MappingCapturesAt(s: string, i: nat, c: nat, mappingObject: string, reason: string)
  {
    && LeftmostMatch(s, MappingFailed, i)
    && IsNameAt(s, i + |MappingFailed.prefix|, mappingObject)
    && GreedyTailAt(s, i + |MappingFailed.prefix| + |mappingObject|, c, MappingFailed.tail)
    && IsRestOfLine(s, c + |MappingFailed.tail|, reason)
  }

  // ---------------------------------------------------------------------
  // Scanners

  /** Where the run of name characters starting at `q` ends. */
  function RunEnd(s: string, q: nat): (r: nat)
    requires q <= |s|
    decreases |s| - q
    ensures q <= r <= |s|
    ensures AllNameChars(s, q, r)
    ensures r == |s| || !NameChar(s[r])
  {
    if q == |s| || !NameChar(s[q]) then q else RunEnd(s, q + 1)
  }

  /** Where the line containing position `k` ends. */
  function LineEnd(s: string, k: nat): (r: nat)
    requires k <= |s|
    decreases |s| - k
    ensures k <= r <= |s|
    ensures NoNewline(s, k, r)
    ensures r == |s| || s[r] == '\n'
  {
    if k == |s| || s[k] == '\n' then k else LineEnd(s, k + 1)
  }

  /** The first occurrence of `t` at or after `k` reachable by `.*`. */
  function FirstOnLine(s: string, k: nat, t: string): (r: Option<nat>)
    requires k <= |s|
    decreases |s| - k
    ensures r.Some? ==> OccursAt(s, r.value, t) && NoNewline(s, k, r.value)
    ensures r.None? ==> forall c: nat :: NoNewline(s, k, c) ==> !OccursAt(s, c, t)
  {
    if OccursAt(s, k, t) then Some(k)
    else if k == |s| || s[k] == '\n' then None
    else FirstOnLine(s, k + 1, t)
  }

  /** The last occurrence of `t` in positions `k..c`. */
  function LastBetween(s: string, k: nat, c: nat, t: string): (r: Option<nat>)
    requires k <= c
    decreases c
    ensures r.Some? ==> k <= r.value <= c && OccursAt(s, r.value, t)
    ensures r.Some? ==> forall j: nat :: r.value < j <= c ==> !OccursAt(s, j, t)
    ensures r.None? ==> forall j: nat :: k <= j <= c ==> !OccursAt(s, j, t)
  {
    if OccursAt(s, c, t) then Some(c)
    else if c == k then None
    else LastBetween(s, k, c - 1, t)
  }

  /** The regular expression `p` matches at `i`, decided by scanning. */
  predicate TryAt(s: string, i: nat, p: Pattern)
  {
    && OccursAt(s, i, p.prefix)
    && var q := i + |p.prefix|;
       RunEnd(s, q) > q && FirstOnLine(s, RunEnd(s, q), p.tail).Some?
  }

  lemma TryAtIsMatchAt(s: string, i: nat, p: Pattern)
    requires WellFormed(p)
    ensures TryAt(s, i, p) <==> MatchAt(s, i, p)
  {
    if TryAt(s, i, p) {
      var q := i + |p.prefix|;
      var m := RunEnd(s, q);
      var c := FirstOnLine(s, m, p.tail).value;
      assert AllNameChars(s, q, m) && NoNewline(s, m, c) && OccursAt(s, c, p.tail);
    }
    if MatchAt(s, i, p) {
      var q := i + |p.prefix|;
      var b: nat, c: nat :| q < b && AllNameChars(s, q, b) && NoNewline(s, b, c) && OccursAt(s, c, p.tail);
      var m := RunEnd(s, q);
      assert NameChar(s[q]);
      RunEndCovers(s, q, b);
      // The tail starts with `]`, so it cannot start inside the name run.
      assert s[c] == p.tail[0];
      assert c >= m;
      assert NoNewline(s, m, c);
      FirstOnLineFinds(s, m, c, p.tail);
    }
  }

  lemma {:induction false} RunEndCovers(s: string, q: nat, b: nat)
    requires q <= b && AllNameChars(s, q, b)
    ensures RunEnd(s, q) >= b
    decreases |s| - q
  {
    if q < b {
      RunEndCovers(s, q + 1, b);
    }
  }

  lemma {:induction false} FirstOnLineFinds(s: string, k: nat, c: nat, t: string)
    requires k <= |s| && NoNewline(s, k, c) && OccursAt(s, c, t)
    ensures FirstOnLine(s, k, t).Some?
  {
  }

  /** Where a leftmost match starts and where its capture ends. */
  datatype Capture = Capture(start: nat, nameEnd: nat)

  /** The leftmost match of `p` in `s` at or after position `i`. */
  function CaptureFrom(s: string, p: Pattern, i: nat): (r: Option<Capture>)
    requires WellFormed(p)
    decreases |s| + 1 - i
    ensures r.Some? ==> i <= r.value.start && MatchAt(s, r.value.start, p)
    ensures r.Some? ==> forall j: nat :: i <= j < r.value.start ==> !MatchAt(s, j, p)
    ensures r.Some? ==> r.value.start + |p.prefix| <= |s| && r.value.nameEnd == RunEnd(s, r.value.start + |p.prefix|)
    ensures r.None? ==> forall j: nat :: i <= j ==> !MatchAt(s, j, p)
  {
    TryAtIsMatchAt(s, i, p);
    if i > |s| then None
    else if TryAt(s, i, p) then Some(Capture(i, RunEnd(s, i + |p.prefix|)))
    else CaptureFrom(s, p, i + 1)
  }

  /** The capture of the leftmost match of `p` in `s`. */
  function Captured(s: string, p: Pattern, cap: Capture): string
    requires cap.start + |p.prefix| <= cap.nameEnd <= |s|
  {
    s[cap.start + |p.prefix|..cap.nameEnd]
  }

  /** The second group of the mapping pattern, for a match whose name ends
      at `m`: the rest of the line after the last `]: ` on it. */
  function MappingReason(s: string, m: nat): string
    requires m <= |s|
  {
    match LastBetween(s, m, LineEnd(s, m), MappingFailed.tail)
    case None => []
    case Some(c) =>
      if c + |MappingFailed.tail| <= |s| then
        s[c + |MappingFailed.tail|..LineEnd(s, c + |MappingFailed.tail|)]
      else []
  }

  // ---------------------------------------------------------------------
  // The classifier

  /** Classification of a root cause's reason (the cascade of five regular
      expressions, tried in order). */
  function ClassifyReason(reason: string): Error
  {
    match CaptureFrom(reason, AlreadyExists, 0)
    case Some(cap) => ElasticsearchDuplicateIndex(Captured(reason, AlreadyExists, cap))
    case None =>
      match CaptureFrom(reason, NoSuchIndex, 0)
      case Some(cap) => ElasticsearchUnknownIndex(Captured(reason, NoSuchIndex, cap))
      case None =>
        match CaptureFrom(reason, MappingFailed, 0)
        case Some(cap) =>
          ElasticsearchInvalidMapping(Captured(reason, MappingFailed, cap), MappingReason(reason, cap.nameEnd))
        case None =>
          if Contains(reason, FailedToParse) then ElasticsearchFailedToParse
          else match CaptureFrom(reason, UnknownSetting, 0)
            case Some(cap) => ElasticsearchUnknownSetting(Captured(reason, UnknownSetting, cap))
            case None => ElasticsearchUnhandledException("Unidentified reason: " + reason)
  }

  /** `From<Exception> for Error`: only the first root cause is looked at. */
  function Classify(e: Exception): Error
  {
    if |e.rootCause| == 0 then
      match e.reason
      case Some(reason) => ElasticsearchUnhandledException(reason)
      case None => ElasticsearchUnhandledException("Unspecified root cause or reason")
    else
      match e.rootCause[0].reason
      case Some(reason) => ClassifyReason(reason)
      case None => ElasticsearchUnhandledException("Unspecified reason")
  }

  /** The error an unsuccessful response turns into. */
  function FromFailure(exception: Option<Exception>): (r: Error)
  {
    match exception
    case Some(e) => Classify(e)
    case None => ElasticsearchFailureWithoutException("Fail status without exception")
  }

  // ---------------------------------------------------------------------
  // Correctness of the classifier

  lemma WellFormedPatterns()
    ensures WellFormed(AlreadyExists) && WellFormed(NoSuchIndex)
    ensures WellFormed(MappingFailed) && WellFormed(UnknownSetting)
  {
  }

  /** What the scanner establishes about a capture: a non-empty name run
      followed, on the same line, by the pattern's tail. */
  lemma CaptureScan(s: string, p: Pattern)
    requires WellFormed(p) && CaptureFrom(s, p, 0).Some?
    ensures var cap := CaptureFrom(s, p, 0).value;
      && cap.start + |p.prefix| < cap.nameEnd <= |s|
      && FirstOnLine(s, cap.nameEnd, p.tail).Some?
  {
    TryAtIsMatchAt(s, CaptureFrom(s, p, 0).value.start, p);
  }

  /** The text of a non-empty run of name characters is a name. */
  lemma RunIsName(s: string, q: nat, m: nat)
    requires q <= |s| && m == RunEnd(s, q) > q
    ensures IsNameAt(s, q, s[q..m])
  {
    var name := s[q..m];
    assert forall k :: 0 <= k < |name| ==> name[k] == s[q + k];
  }

  /** The name after a leftmost match's prefix is its first group. */
  lemma LeftmostName(s: string, p: Pattern, i: nat, name: string)
    requires LeftmostMatch(s, p, i) && IsNameAt(s, i + |p.prefix|, name)
    ensures CapturedName(s, p, name)
  {
  }

  /** A capture found by the scanner is the regex engine's first group. */
  lemma {:induction false} CaptureIsCapturedName(s: string, p: Pattern)
    requires WellFormed(p) && CaptureFrom(s, p, 0).Some?
    ensures var cap := CaptureFrom(s, p, 0).value;
      && cap.start + |p.prefix| < cap.nameEnd <= |s|
      && LeftmostMatch(s, p, cap.start)
      && IsNameAt(s, cap.start + |p.prefix|, Captured(s, p, cap))
      && CapturedName(s, p, Captured(s, p, cap))
  {
    var cap := CaptureFrom(s, p, 0).value;
    CaptureScan(s, p);
    RunIsName(s, cap.start + |p.prefix|, cap.nameEnd);
    LeftmostName(s, p, cap.start, Captured(s, p, cap));
  }

  lemma {:induction false} NoCaptureNoMatch(s: string, p: Pattern)
    requires WellFormed(p) && CaptureFrom(s, p, 0).None?
    ensures !Matches(s, p)
  {
  }

  lemma ContainsIsOccurs(s: string, t: string)
    ensures Contains(s, t) <==> Occurs(s, t)
  {
    if Occurs(s, t) {
      var i: nat :| OccursAt(s, i, t);
    }
  }

  lemma {:induction false} LastBetweenFinds(s: string, k: nat, c: nat, j: nat, t: string)
    requires k <= j <= c && OccursAt(s, j, t)
    ensures LastBetween(s, k, c, t).Some?
  {
  }

  /** The last tail on the line is the one a greedy `.*` stops at. */
  lemma {:induction false} GreedyTailFound(s: string, m: nat, t: string)
    requires m <= |s| && FirstOnLine(s, m, t).Some?
    ensures LastBetween(s, m, LineEnd(s, m), t).Some?
    ensures GreedyTailAt(s, m, LastBetween(s, m, LineEnd(s, m), t).value, t)
  {
    var c1 := FirstOnLine(s, m, t).value;
    var e := LineEnd(s, m);
    NoNewlineUpToLineEnd(s, m, c1);
    LastBetweenFinds(s, m, e, c1, t);
    var c := LastBetween(s, m, e, t).value;
    assert NoNewline(s, m, c);
    forall c': nat | c < c' && NoNewline(s, m, c')
      ensures !OccursAt(s, c', t)
    {
      NoNewlineUpToLineEnd(s, m, c');
    }
  }

  lemma {:induction false} RestOfLine(s: string, q: nat)
    requires q <= |s|
    ensures IsRestOfLine(s, q, s[q..LineEnd(s, q)])
  {
    var rest := s[q..LineEnd(s, q)];
    assert forall k :: 0 <= k < |rest| ==> rest[k] == s[q + k];
  }

  /** After the mapping object, the scanner's `]: ` is the greedy one and
      the reason it reads is the rest of that line. */
  lemma MappingTailFound(s: string, m: nat)
    requires m <= |s| && FirstOnLine(s, m, MappingFailed.tail).Some?
    ensures LastBetween(s, m, LineEnd(s, m), MappingFailed.tail).Some?
    ensures var c := LastBetween(s, m, LineEnd(s, m), MappingFailed.tail).value;
      && GreedyTailAt(s, m, c, MappingFailed.tail)
      && IsRestOfLine(s, c + |MappingFailed.tail|, MappingReason(s, m))
  {
    var t := MappingFailed.tail;
    GreedyTailFound(s, m, t);
    var c := LastBetween(s, m, LineEnd(s, m), t).value;
    assert OccursAt(s, c, t);
    RestOfLine(s, c + |t|);
  }

  /** The two groups of the mapping pattern, from a leftmost match at `i`
      whose first group `name` ends at `m`. */
  lemma MappingGroups(s: string, i: nat, m: nat, name: string)
    requires LeftmostMatch(s, MappingFailed, i) && IsNameAt(s, i + |MappingFailed.prefix|, name)
    requires m == i + |MappingFailed.prefix| + |name| && m <= |s|
    requires FirstOnLine(s, m, MappingFailed.tail).Some?
    ensures MappingCaptures(s, name, MappingReason(s, m))
  {
    var reason := MappingReason(s, m);
    MappingTailFound(s, m);
    var c := LastBetween(s, m, LineEnd(s, m), MappingFailed.tail).value;
    assert MappingCapturesAt(s, i, c, name, reason);
  }

  /** The mapping pattern's second group, as the scanner computes it. */
  lemma {:induction false} MappingReasonIsGroup(s: string)
    requires CaptureFrom(s, MappingFailed, 0).Some?
    ensures var cap := CaptureFrom(s, MappingFailed, 0).value;
      MappingCaptures(s, Captured(s, MappingFailed, cap), MappingReason(s, cap.nameEnd))
  {
    CaptureIsCapturedName(s, MappingFailed);
    CaptureScan(s, MappingFailed);
    var cap := CaptureFrom(s, MappingFailed, 0).value;
    MappingGroups(s, cap.start, cap.nameEnd, Captured(s, MappingFailed, cap));
  }

  lemma {:induction false} NoNewlineUpToLineEnd(s: string, k: nat, c: nat)
    requires NoNewline(s, k, c)
    ensures c <= LineEnd(s, k)
    decreases |s| - k
  {
    if k < c {
      NoNewlineUpToLineEnd(s, k + 1, c);
    }
  }

  /** The cascade of `From<Exception> for Error`, stated against what the
      regular expressions accept: the first pattern that matches decides the
      error kind, captured names are the leftmost match's first group, and a
      reason no pattern matches is reported as unidentified. */
  lemma ClassifyReasonCascade(s: string)
    ensures var r := ClassifyReason(s);
      && (Matches(s, AlreadyExists) ==>
            r.ElasticsearchDuplicateIndex? && CapturedName(s, AlreadyExists, r.index))
      && (!Matches(s, AlreadyExists) && Matches(s, NoSuchIndex) ==>
            r.ElasticsearchUnknownIndex? && CapturedName(s, NoSuchIndex, r.index))
      && (!Matches(s, AlreadyExists) && !Matches(s, NoSuchIndex) && Matches(s, MappingFailed) ==>
            r.ElasticsearchInvalidMapping? && MappingCaptures(s, r.mappingObject, r.reason))
      && (!Matches(s, AlreadyExists) && !Matches(s, NoSuchIndex) && !Matches(s, MappingFailed)
          && Occurs(s, FailedToParse) ==>
            r == ElasticsearchFailedToParse)
      && (!Matches(s, AlreadyExists) && !Matches(s, NoSuchIndex) && !Matches(s, MappingFailed)
          && !Occurs(s, FailedToParse) && Matches(s, UnknownSetting) ==>
            r.ElasticsearchUnknownSetting? && CapturedName(s, UnknownSetting, r.setting))
      && (!Matches(s, AlreadyExists) && !Matches(s, NoSuchIndex) && !Matches(s, MappingFailed)
          && !Occurs(s, FailedToParse) && !Matches(s, UnknownSetting) ==>
            r == ElasticsearchUnhandledException("Unidentified reason: " + s))
  {
    WellFormedPatterns();
    ContainsIsOccurs(s, FailedToParse);
    if CaptureFrom(s, AlreadyExists, 0).Some? {
      CaptureIsCapturedName(s, AlreadyExists);
      return;
    }
    NoCaptureNoMatch(s, AlreadyExists);
    if CaptureFrom(s, NoSuchIndex, 0).Some? {
      CaptureIsCapturedName(s, NoSuchIndex);
      return;
    }
    NoCaptureNoMatch(s, NoSuchIndex);
    if CaptureFrom(s, MappingFailed, 0).Some? {
      MappingReasonIsGroup(s);
      return;
    }
    NoCaptureNoMatch(s, MappingFailed);
    if Contains(s, FailedToParse) {
      return;
    }
    if CaptureFrom(s, UnknownSetting, 0).Some? {
      CaptureIsCapturedName(s, UnknownSetting);
      return;
    }
    NoCaptureNoMatch(s, UnknownSetting);
  }

  /** Without a root cause the exception's own reason is reported, or a
      fixed text when there is none. */
  lemma ClassifyWithoutRootCause(e: Exception)
    requires |e.rootCause| == 0
    ensures Classify(e).ElasticsearchUnhandledException?
    ensures e.reason.Some? ==> Classify(e).details == e.reason.value
    ensures e.reason.None? ==> Classify(e).details == "Unspecified root cause or reason"
  {
  }

  /** Only the first root cause counts: exceptions that agree on it are
      classified alike, whatever their other causes and top-level reason. */
  lemma ClassifyFirstCauseOnly(e1: Exception, e2: Exception)
    requires |e1.rootCause| > 0 && |e2.rootCause| > 0
    requires e1.rootCause[0] == e2.rootCause[0]
    ensures Classify(e1) == Classify(e2)
    ensures e1.rootCause[0].reason.None? ==> Classify(e1) == ElasticsearchUnhandledException("Unspecified reason")
  {
  }

  lemma {:induction false} IsNameAtUnique(s: string, q: nat, n1: string, n2: string)
    requires IsNameAt(s, q, n1) && IsNameAt(s, q, n2)
    ensures n1 == n2
    ensures q + |n1| == RunEnd(s, q)
  {
    RunEndAt(s, q, q + |n1|);
    RunEndAt(s, q, q + |n2|);
  }

  /** A run of name characters that stops at `b` ends at `b`. */
  lemma {:induction false} RunEndAt(s: string, q: nat, b: nat)
    requires AllNameChars(s, q, b) && (b == |s| || !NameChar(s[b]))
    ensures RunEnd(s, q) == b
    decreases b - q
  {
    if q < b {
      RunEndAt(s, q + 1, b);
    }
  }

  /** A match of `p` at the very start of `s` whose name is `name`: then
      the leftmost match's first group is `name`. */
  lemma LeadingCapture(s: string, p: Pattern, name: string, c: nat)
    requires OccursAt(s, 0, p.prefix) && IsNameAt(s, |p.prefix|, name)
    requires NoNewline(s, |p.prefix| + |name|, c) && OccursAt(s, c, p.tail)
    ensures MatchAt(s, 0, p)
    ensures forall n :: CapturedName(s, p, n) ==> n == name
  {
    var q := |p.prefix|;
    var b := q + |name|;
    assert forall k :: q <= k < b ==> s[k] == name[k - q];
    assert AllNameChars(s, q, b);
    assert MatchAt(s, 0, p);
    forall n | CapturedName(s, p, n)
      ensures n == name
    {
      var i: nat :| LeftmostMatch(s, p, i) && IsNameAt(s, i + q, n);
      assert i == 0;
      IsNameAtUnique(s, q, name, n);
    }
  }

  /** The message the backend gives when an index name is taken,
      `index [NAME/UUID] already exists`, is classified as a duplicate of
      NAME, provided NAME has no `]` or `/` and UUID no newline. */
  lemma DuplicateIndexMessage(name: string, uuid: string)
    requires |name| > 0 && forall k :: 0 <= k < |name| ==> NameChar(name[k])
    requires forall k :: 0 <= k < |uuid| ==> uuid[k] != '\n'
    ensures ClassifyReason("index [" + name + "/" + uuid + "] already exists")
            == ElasticsearchDuplicateIndex(name)
  {
    var p := AlreadyExists;
    var s := p.prefix + name + "/" + uuid + p.tail;
    assert s == "index [" + name + "/" + uuid + "] already exists";
    var q := |p.prefix|;
    var b := q + |name|;
    var c := b + 1 + |uuid|;
    assert s[..q] == p.prefix;
    assert s[q..b] == name;
    assert s[b] == '/';
    assert IsNameAt(s, q, name);
    assert forall k :: b < k < c ==> s[k] == uuid[k - b - 1];
    assert NoNewline(s, b, c);
    assert s[c..c + |p.tail|] == p.tail;
    LeadingCapture(s, p, name, c);
    ClassifyReasonCascade(s);
  }

  /** A tail of two or more characters starting with `]` cannot occur in a
      string whose only `]` is its last character. */
  lemma NoBracketedTail(s: string, t: string)
    requires |t| >= 2 && t[0] == ']'
    requires forall k :: 0 <= k < |s| - 1 ==> s[k] != ']'
    ensures forall c: nat :: !OccursAt(s, c, t)
  {
    forall c: nat
      ensures !OccursAt(s, c, t)
    {
      if c + |t| <= |s| {
        assert s[c..c + |t|][0] == s[c];
      }
    }
  }

  /** `no such index [NAME]` is classified as an unknown index NAME. */
  lemma UnknownIndexMessage(name: string)
    requires |name| > 0 && forall k :: 0 <= k < |name| ==> NameChar(name[k])
    ensures ClassifyReason("no such index [" + name + "]") == ElasticsearchUnknownIndex(name)
  {
    var p := NoSuchIndex;
    var s := p.prefix + name + p.tail;
    assert s == "no such index [" + name + "]";
    var q := |p.prefix|;
    var b := q + |name|;
    assert forall k :: q <= k < b ==> s[k] == name[k - q];
    assert forall k :: 0 <= k < q ==> s[k] == p.prefix[k];
    assert s[b] == ']';
    // The only `]` is the last character, so `] already exists` never occurs.
    assert forall k :: 0 <= k < |s| - 1 ==> s[k] != ']';
    NoBracketedTail(s, AlreadyExists.tail);
    assert !Matches(s, AlreadyExists);
    assert s[..q] == p.prefix;
    assert s[q..b] == name;
    assert IsNameAt(s, q, name);
    assert s[b..b + 1] == p.tail;
    LeadingCapture(s, p, name, b);
    ClassifyReasonCascade(s);
  }
}
