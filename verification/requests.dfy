/** Request normalisation: pkg/models/request.go, SubmissionJob.Normalize in
    pkg/queue/queue.go and the language registry of pkg/languages. */
module Requests {
  import opened Models

  const DEFAULT_LIMITS := Limits(2000, 128, 1.0, 32, 1048576)
  const MAX_TIME_MS := 10000
  const MAX_MEMORY_MB := 1024

  datatype Request = Request(
    id: string,
    language: string,
    code: string,
    stdin: string,
    expected: string,
    limits: Limits,
    sandbox: string)

  datatype Language = Cpp | Python3 {
    predicate NeedsCompilation() { Cpp? }
  }

  // ---- Strings -----------------------------------------------------------

  predicate IsSpace(c: char) {
    || c == ' ' || '\t' <= c <= '\r' || c == '\U{85}' || c == '\U{A0}'
    || c == '\U{1680}' || '\U{2000}' <= c <= '\U{200A}' || c == '\U{2028}' || c == '\U{2029}'
    || c == '\U{202F}' || c == '\U{205F}' || c == '\U{3000}'
  }

  function LowerChar(c: char): char {
    if 'A' <= c <= 'Z' then (c as int + 32) as char else c
  }

  function ToLower(s: string): (r: string)
    ensures |r| == |s| && forall i :: 0 <= i < |s| ==> r[i] == LowerChar(s[i])
  {
    if s == [] then [] else [LowerChar(s[0])] + ToLower(s[1..])
  }

  function TrimSpace(s: string): (r: string)
    ensures r == [] || (!IsSpace(r[0]) && !IsSpace(r[|r| - 1]))
    decreases |s|
  {
    if s == [] then []
    else if IsSpace(s[0]) then TrimSpace(s[1..])
    else if IsSpace(s[|s| - 1]) then TrimSpace(s[..|s| - 1])
    else s
  }

  /** Trimming removes the spaces around a text and nothing else. */
  lemma {:induction false} TrimsExactly(before: string, core: string, after: string)
    requires forall i :: 0 <= i < |before| ==> IsSpace(before[i])
    requires forall i :: 0 <= i < |after| ==> IsSpace(after[i])
    requires core == "" || (!IsSpace(core[0]) && !IsSpace(core[|core| - 1]))
    ensures TrimSpace(before + core + after) == core
    decreases |before| + |after|
  {
    var s := before + core + after;
    if before != "" {
      assert s[0] == before[0] && s[1..] == before[1..] + core + after;
      TrimsExactly(before[1..], core, after);
    } else if after != "" {
      assert s[|s| - 1] == after[|after| - 1];
      if core == "" {
        assert s[0] == after[0] && s[1..] == "" + core + after[1..];
        TrimsExactly("", core, after[1..]);
      } else {
        assert s[0] == core[0] && s[..|s| - 1] == "" + core + after[..|after| - 1];
        TrimsExactly("", core, after[..|after| - 1]);
      }
    } else {
      assert s == core;
    }
  }

  function Clean(s: string): string {
    ToLower(TrimSpace(s))
  }

  /** The registry's name for a cleaned spelling. */
  function Alias(l: string): string {
    if l == "py" || l == "python" then "python3"
    else if l == "c++" || l == "g++" then "cpp"
    else l
  }

  /** The spelling under which the registry knows a language. */
  function Canonical(language: string): string {
    Alias(Clean(language))
  }

  function GetLanguage(language: string): Option<Language> {
    var l := Canonical(language);
    if l == "cpp" then Some(Cpp) else if l == "python3" then Some(Python3) else None
  }

  lemma CleanIsFixed(s: string)
    ensures Clean(Clean(s)) == Clean(s)
  {
    var t := TrimSpace(s);
    var l := ToLower(t);
    assert forall c: char :: !IsSpace(c) ==> !IsSpace(LowerChar(c));
    assert TrimSpace(l) == l;
    assert ToLower(l) == l;
  }

  lemma PlainIsClean(s: string)
    requires forall i :: 0 <= i < |s| ==> LowerChar(s[i]) == s[i] && !IsSpace(s[i])
    ensures Clean(s) == s
  {
    assert TrimSpace(s) == s;
    assert ToLower(s) == s;
  }

  lemma RegistryNamesAreClean()
    ensures Clean("python3") == "python3"
    ensures Clean("cpp") == "cpp"
  {
    PlainIsClean("python3");
    PlainIsClean("cpp");
  }

  lemma AliasIsClean(l: string)
    requires Clean(l) == l
    ensures Clean(Alias(l)) == Alias(l)
  {
    if Alias(l) != l {
      RegistryNamesAreClean();
    }
  }

  /** Resolving a language before or after normalisation finds the same handler. */
  lemma CanonicalIsFixed(s: string)
    ensures Canonical(Canonical(s)) == Canonical(s)
    ensures GetLanguage(Canonical(s)) == GetLanguage(s)
  {
    CleanIsFixed(s);
    AliasIsClean(Clean(s));
  }

  /** The spellings each language is known by, up to case and surrounding spaces. */
  lemma LanguagesFound(s: string)
    ensures GetLanguage(s) == Some(Cpp) <==> Clean(s) == "cpp" || Clean(s) == "c++" || Clean(s) == "g++"
    ensures GetLanguage(s) == Some(Python3) <==> Clean(s) == "python3" || Clean(s) == "python" || Clean(s) == "py"
  {
    hide Clean;
  }

  // ---- Limits ------------------------------------------------------------

  function Default(v: int, d: int): int { if v <= 0 then d else v }

  function Clamp(v: int, d: int, max: int): int {
    if v <= 0 then d else if v > max then max else v
  }

  function DefaultedLimits(l: Limits): Limits {
    Limits(Default(l.timeMs, DEFAULT_LIMITS.timeMs),
           Default(l.memoryMB, DEFAULT_LIMITS.memoryMB),
           if l.cpuQuota <= 0.0 then DEFAULT_LIMITS.cpuQuota else l.cpuQuota,
           Default(l.pids, DEFAULT_LIMITS.pids),
           Default(l.outputBytes, DEFAULT_LIMITS.outputBytes))
  }

  function ClampedLimits(l: Limits): Limits {
    DefaultedLimits(l).(timeMs := Clamp(l.timeMs, DEFAULT_LIMITS.timeMs, MAX_TIME_MS),
                        memoryMB := Clamp(l.memoryMB, DEFAULT_LIMITS.memoryMB, MAX_MEMORY_MB))
  }

  function DefaultedSandbox(s: string): string { if s == "" then "auto" else s }

  /** The value left behind by ExecutionRequest.Normalize. */
  function Normalized(r: Request, freshId: string): Request {
    r.(id := if r.id == "" then freshId else r.id,
       language := Canonical(r.language),
       limits := ClampedLimits(r.limits),
       sandbox := DefaultedSandbox(r.sandbox))
  }

  /** The value left behind by SubmissionJob.Normalize. */
  function NormalizedJob(j: Job): Job {
    j.(limits := DefaultedLimits(j.limits), sandbox := DefaultedSandbox(j.sandbox))
  }

  /** The request ProcessJob builds from a job, before any test case is set. */
  function JobRequest(j: Job): Request {
    Request(j.id, j.language, j.code, "", "", j.limits, j.sandbox)
  }

  /** A request no further normalisation would change. */
  ghost predicate IsNormal(r: Request) {
    && r.id != ""
    && Canonical(r.language) == r.language
    && 0 < r.limits.timeMs <= MAX_TIME_MS
    && 0 < r.limits.memoryMB <= MAX_MEMORY_MB
    && r.limits.cpuQuota > 0.0 && r.limits.pids > 0 && r.limits.outputBytes > 0
    && r.sandbox != ""
  }

  /** Normalisation reaches a normal request and changes exactly the requests
      that are not normal already. */
  lemma NormalizationIsCanonical(r: Request, freshId: string)
    requires freshId != ""
    ensures IsNormal(Normalized(r, freshId))
    ensures Normalized(r, freshId) == r <==> IsNormal(r)
    ensures GetLanguage(Normalized(r, freshId).language) == GetLanguage(r.language)
  {
    hide Clean, GetLanguage;
    CanonicalIsFixed(r.language);
  }

  /** What SubmissionJob.Normalize fills in: missing limits and a missing sandbox, and
      nothing else; the upper bounds are left to the request. */
  lemma JobDefaults(j: Job)
    ensures var n := NormalizedJob(j);
            && n == Job(j.id, j.language, j.code, n.limits, n.sandbox, j.tests)
            && n.limits.timeMs == (if j.limits.timeMs <= 0 then 2000 else j.limits.timeMs)
            && n.limits.memoryMB == (if j.limits.memoryMB <= 0 then 128 else j.limits.memoryMB)
            && n.limits.cpuQuota == (if j.limits.cpuQuota <= 0.0 then 1.0 else j.limits.cpuQuota)
            && n.limits.pids == (if j.limits.pids <= 0 then 32 else j.limits.pids)
            && n.limits.outputBytes == (if j.limits.outputBytes <= 0 then 1048576 else j.limits.outputBytes)
            && n.sandbox == (if j.sandbox == "" then "auto" else j.sandbox)
  {
  }

  /** Normalising the job on enqueue and its request in the worker is the same
      as normalising the request alone; the tests and the language stay as they are. */
  lemma JobThenRequest(j: Job, freshId: string)
    ensures Normalized(JobRequest(NormalizedJob(j)), freshId) == Normalized(JobRequest(j), freshId)
    ensures NormalizedJob(j).tests == j.tests && NormalizedJob(j).language == j.language
  {
    var once := Normalized(JobRequest(j), freshId);
    assert Normalized(JobRequest(NormalizedJob(j)), freshId).limits == once.limits;
  }

  method ClampLimits(given: Limits) returns (l: Limits)
    ensures l == ClampedLimits(given)
  {
    l := given;
    if l.timeMs <= 0 {
      l := l.(timeMs := DEFAULT_LIMITS.timeMs);
    } else if l.timeMs > MAX_TIME_MS {
      l := l.(timeMs := MAX_TIME_MS);
    }
    if l.memoryMB <= 0 {
      l := l.(memoryMB := DEFAULT_LIMITS.memoryMB);
    } else if l.memoryMB > MAX_MEMORY_MB {
      l := l.(memoryMB := MAX_MEMORY_MB);
    }
    if l.cpuQuota <= 0.0 {
      l := l.(cpuQuota := DEFAULT_LIMITS.cpuQuota);
    }
    if l.pids <= 0 {
      l := l.(pids := DEFAULT_LIMITS.pids);
    }
    if l.outputBytes <= 0 {
      l := l.(outputBytes := DEFAULT_LIMITS.outputBytes);
    }
  }

  /** The request object the pipelines update in place. */
  class ExecutionRequest {
    var id: string
    var language: string
    const code: string
    var stdin: string
    var expected: string
    var limits: Limits
    var sandbox: string

    ghost function Value(): Request
      reads this
    {
      Request(id, language, code, stdin, expected, limits, sandbox)
    }

    constructor (r: Request)
      ensures Value() == r
    {
      id, language, code := r.id, r.language, r.code;
      stdin, expected, limits, sandbox := r.stdin, r.expected, r.limits, r.sandbox;
    }

    method Snapshot() returns (r: Request)
      ensures r == Value()
    {
      r := Request(id, language, code, stdin, expected, limits, sandbox);
    }

    method Normalize(freshId: string)
      modifies this
      ensures Value() == Normalized(old(Value()), freshId)
    {
      hide Clean, ClampedLimits, DefaultedLimits;
      if id == "" {
        id := freshId;
      }
      language := Clean(language);
      if language == "py" || language == "python" {
        language := "python3";
      }
      if language == "c++" || language == "g++" {
        language := "cpp";
      }
      limits := ClampLimits(limits);
      if sandbox == "" {
        sandbox := "auto";
      }
    }

    method SetTest(t: TestCase)
      modifies this
      ensures Value() == old(Value()).(stdin := t.input, expected := t.expected)
    {
      stdin, expected := t.input, t.expected;
    }
  }
}
