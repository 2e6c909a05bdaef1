/**
 Test requests and test evidence (internal/linkcore/xctest.go): which requests are accepted, and what a run
 must have produced to count as passed.
 */
module Evidence {
  import opened Common
  import opened Names

  // ----- Requests

  datatype TestRunRequest = TestRunRequest(
    bindAddress: string,
    bindIsTailnet: bool,
    appId: string,
    runnerId: string,
    testBundle: string,
    tests: seq<string>,
    requiredAttachments: seq<string>,
    outputDirectory: string,
    timeoutSeconds: int)

  predicate NoDuplicates<T(==)>(s: seq<T>) {
    forall i, j :: 0 <= i < j < |s| ==> s[i] != s[j]
  }

  predicate Acceptable(r: TestRunRequest) {
    && IsBundleIdentifier(r.appId)
    && IsBundleIdentifier(r.runnerId)
    && IsBundleName(r.testBundle)
    && 1 <= |r.tests| <= 256
    && 30 <= r.timeoutSeconds <= 1800
    && (r.bindAddress == "" || r.bindIsTailnet)
    && (forall i :: 0 <= i < |r.tests| ==> IsSelector(r.tests[i]))
    && NoDuplicates(r.tests)
    && IsAbsolute(r.outputDirectory)
    && !CleansToRoot(r.outputDirectory)
    && |r.requiredAttachments| <= 1024
    && forall i :: 0 <= i < |r.requiredAttachments| ==> IsAttachmentName(r.requiredAttachments[i])
  }

  /** validateTestRun; None is a missing request. */
  method ValidateTestRun(r: Option<TestRunRequest>) returns (ok: bool)
    ensures ok <==> r.Some? && Acceptable(r.value)
  {
    if r.None? || !IsBundleIdentifier(r.value.appId) || !IsBundleIdentifier(r.value.runnerId)
       || !IsBundleName(r.value.testBundle) {
      return false;
    }
    var q := r.value;
    if |q.tests| == 0 || |q.tests| > 256 || q.timeoutSeconds < 30 || q.timeoutSeconds > 1800 {
      return false;
    }
    if q.bindAddress != "" && !q.bindIsTailnet {
      return false;
    }
    var seen: set<string> := {};
    for n := 0 to |q.tests|
      invariant seen == set i | 0 <= i < n :: q.tests[i]
      invariant forall i :: 0 <= i < n ==> IsSelector(q.tests[i])
      invariant NoDuplicates(q.tests[..n])
    {
      if !IsSelector(q.tests[n]) || q.tests[n] in seen {
        return false;
      }
      seen := seen + {q.tests[n]};
    }
    assert q.tests[..|q.tests|] == q.tests;
    if !IsAbsolute(q.outputDirectory) || CleansToRoot(q.outputDirectory) {
      return false;
    }
    if |q.requiredAttachments| > 1024 {
      return false;
    }
    for n := 0 to |q.requiredAttachments|
      invariant forall i :: 0 <= i < n ==> IsAttachmentName(q.requiredAttachments[i])
    {
      if !IsAttachmentName(q.requiredAttachments[n]) {
        return false;
      }
    }
    ok := true;
  }

  // ----- Results

  const MAX_SCREENSHOT_PIXELS: int := 0x100_0000

  /** A path as its directory and its last element. */
  datatype Path = Path(dir: string, base: string)

  datatype Attachment = Attachment(name: string, path: Path, uniformType: string)

  datatype TestCase = TestCase(className: string, methodName: string, passed: bool, attachments: seq<Attachment>)

  datatype Suite = Suite(cases: seq<TestCase>)

  /** What the file system and the PNG decoder say about a file. */
  datatype FileInfo = FileInfo(
    regular: bool,
    size: int,
    readable: bool,
    headerDecodes: bool,
    width: int,
    height: int,
    decodes: bool,
    renames: bool)

  predicate GoodPng(f: FileInfo) {
    && f.regular
    && 0 < f.size <= MAX_SCREENSHOT_BYTES
    && f.readable
    && f.headerDecodes
    && f.width > 0
    && f.height > 0
    && f.width * f.height <= MAX_SCREENSHOT_PIXELS
    && f.decodes
    && f.renames
  }

  predicate IsPng(a: Attachment) {
    a.uniformType == "public.png"
  }

  function WithPng(p: Path): Path {
    p.(base := p.base + ".png")
  }

  function AfterLastDot(s: string): (r: string)
    ensures '.' !in r
    ensures r == s || (|r| < |s| && s[|s| - |r| - 1] == '.' && s[|s| - |r|..] == r)
  {
    if s == "" then s
    else if s[|s| - 1] == '.' then ""
    else
      var r := AfterLastDot(s[..|s| - 1]);
      r + [s[|s| - 1]]
  }

  function TrimCall(s: string): string {
    if |s| >= 2 && s[|s| - 2..] == "()" then s[..|s| - 2] else s
  }

  /** The selector a reported test case stands for. */
  function SelectorOf(t: TestCase): string {
    AfterLastDot(t.className) + "/" + TrimCall(t.methodName)
  }

  function Selectors(cases: seq<TestCase>): (r: seq<string>)
    ensures |r| == |cases|
  {
    seq(|cases|, i requires 0 <= i < |cases| => SelectorOf(cases[i]))
  }

  function Flat(suites: seq<Suite>): seq<TestCase> {
    if suites == [] then [] else Flat(suites[..|suites| - 1]) + suites[|suites| - 1].cases
  }

  // ----- What a selector says of the reported names

  /** The case is reported as method m of class c: the class behind its module, the method with or without (). */
  ghost predicate ReportedAs(t: TestCase, c: string, m: string) {
    && '.' !in c
    && (t.className == c || exists p :: t.className == p + "." + c)
    && (t.methodName == m + "()" || (t.methodName == m && !EndsInCall(m)))
  }

  predicate EndsInCall(m: string) {
    |m| >= 2 && m[|m| - 2] == '(' && m[|m| - 1] == ')'
  }

  lemma {:induction false} ClassBehindModule(p: string, c: string)
    requires '.' !in c
    ensures AfterLastDot(p + "." + c) == c && AfterLastDot(c) == c
    decreases |c|
  {
    var s := p + "." + c;
    if c == "" {
      assert s[|s| - 1] == '.';
    } else {
      var front := c[..|c| - 1];
      assert s[..|s| - 1] == p + "." + front && s[|s| - 1] == c[|c| - 1];
      ClassBehindModule(p, front);
      assert c == front + [c[|c| - 1]];
    }
  }

  lemma CallIsTrimmed(m: string)
    ensures TrimCall(m + "()") == m
    ensures !EndsInCall(m) ==> TrimCall(m) == m
    ensures EndsInCall(m) ==> TrimCall(m) + "()" == m
  {
    assert (m + "()")[|m|..] == "()";
    if |m| >= 2 { assert m == m[..|m| - 2] + [m[|m| - 2]] + [m[|m| - 1]]; }
    if EndsInCall(m) { assert m[|m| - 2..] == "()"; }
  }

  /** So the selector of a case is c/m for the class c and the method m it is reported as, and there are such. */
  lemma SelectorIsReported(t: TestCase, c: string, m: string)
    ensures ReportedAs(t, c, m) ==> SelectorOf(t) == c + "/" + m
    ensures ReportedAs(t, AfterLastDot(t.className), TrimCall(t.methodName))
  {
    CallIsTrimmed(t.methodName);
    var behind := AfterLastDot(t.className);
    if behind != t.className {
      var p := t.className[..|t.className| - |behind| - 1];
      assert t.className == p + "." + behind;
    }
    TrimmedIsReported(t.methodName);
    if ReportedAs(t, c, m) {
      CallIsTrimmed(m);
      if p :| t.className == p + "." + c { ClassBehindModule(p, c); } else { ClassBehindModule("", c); }
    }
  }

  lemma TrimmedIsReported(name: string)
    ensures var m := TrimCall(name); name == m + "()" || (name == m && !EndsInCall(m))
  {
    CallIsTrimmed(name);
  }

  /** The four ways in which XCTest reports method m of class c, all of them the selector c/m. */
  lemma SelectorExamples(p: string, c: string, m: string, passed: bool, attachments: seq<Attachment>)
    requires '.' !in c
    ensures SelectorOf(TestCase(p + "." + c, m + "()", passed, attachments)) == c + "/" + m
    ensures SelectorOf(TestCase(c, m + "()", passed, attachments)) == c + "/" + m
    ensures !EndsInCall(m) ==> SelectorOf(TestCase(p + "." + c, m, passed, attachments)) == c + "/" + m
    ensures !EndsInCall(m) ==> SelectorOf(TestCase(c, m, passed, attachments)) == c + "/" + m
  {
    ClassBehindModule(p, c);
    CallIsTrimmed(m);
  }

  // ----- Attachments: each PNG is checked where it lies and then renamed

  datatype Kept = Kept(files: map<Path, FileInfo>, attachments: seq<Attachment>)

  function KeepOne(k: Kept, a: Attachment, dir: string): Option<Kept> {
    if !IsPng(a) then Some(k.(attachments := k.attachments + [a]))
    else if a.path.dir != dir || a.path !in k.files || !GoodPng(k.files[a.path]) then None
    else
      var moved := (k.files - {a.path})[WithPng(a.path) := k.files[a.path]];
      Some(Kept(moved, k.attachments + [a.(path := WithPng(a.path))]))
  }

  function Keep(files: map<Path, FileInfo>, attachments: seq<Attachment>, dir: string): (r: Option<Kept>)
    ensures r.Some? ==> |r.value.attachments| == |attachments|
  {
    if attachments == [] then Some(Kept(files, []))
    else
      match Keep(files, attachments[..|attachments| - 1], dir)
      case None => None
      case Some(k) => KeepOne(k, attachments[|attachments| - 1], dir)
  }

  lemma KeepSnoc(files: map<Path, FileInfo>, attachments: seq<Attachment>, dir: string, n: nat)
    requires n < |attachments|
    ensures Keep(files, attachments[..n + 1], dir) ==
            var front := Keep(files, attachments[..n], dir);
            if front.None? then None else KeepOne(front.value, attachments[n], dir)
  {
    assert attachments[..n + 1][..n] == attachments[..n];
  }

  lemma {:induction false} KeepFailsOn(files: map<Path, FileInfo>, attachments: seq<Attachment>, dir: string, n: nat)
    requires n <= |attachments| && Keep(files, attachments[..n], dir).None?
    ensures Keep(files, attachments, dir).None?
    decreases |attachments| - n
  {
    if n < |attachments| {
      KeepSnoc(files, attachments, dir, n);
      KeepFailsOn(files, attachments, dir, n + 1);
    } else {
      assert attachments[..n] == attachments;
    }
  }

  /** A good PNG: a readable regular file of at most 64 MiB, decodable, with at most 16 mebi pixels and at least one. */
  lemma GoodPngsAreBounded(f: FileInfo)
    ensures GoodPng(f) <==>
            && f.regular && 1 <= f.size <= 67_108_864
            && f.readable && f.headerDecodes && f.decodes && f.renames
            && f.width >= 1 && f.height >= 1 && f.width * f.height <= 16_777_216
  {
  }

  /** When attachment j's turn came, its path in the output directory held a good PNG. */
  predicate CheckedGood(files: map<Path, FileInfo>, attachments: seq<Attachment>, dir: string, j: nat) {
    && j < |attachments|
    && IsPng(attachments[j])
    && attachments[j].path.dir == dir
    && var k := Keep(files, attachments[..j], dir);
    k.Some? && attachments[j].path in k.value.files && GoodPng(k.value.files[attachments[j].path])
  }

  /** Every PNG of accepted attachments was checked where it lay and has its new name; the others are untouched. */
  lemma {:induction false} KeptPngs(files: map<Path, FileInfo>, attachments: seq<Attachment>, dir: string, i: nat)
    requires Keep(files, attachments, dir).Some? && i < |attachments|
    ensures var a := attachments[i];
            var kept := Keep(files, attachments, dir).value;
            && kept.attachments[i] ==
               (if a.uniformType == "public.png" then a.(path := Path(a.path.dir, a.path.base + ".png")) else a)
            && (a.uniformType == "public.png" ==> CheckedGood(files, attachments, dir, i))
  {
    var n := |attachments| - 1;
    if i < n {
      KeptPngs(files, attachments[..n], dir, i);
      assert attachments[..n][..i] == attachments[..i];
    }
  }

  datatype KeptCases = KeptCases(files: map<Path, FileInfo>, cases: seq<TestCase>)

  function KeepCase(k: KeptCases, t: TestCase, dir: string): Option<KeptCases> {
    match Keep(k.files, t.attachments, dir)
    case None => None
    case Some(kept) => Some(KeptCases(kept.files, k.cases + [t.(attachments := kept.attachments)]))
  }

  function KeepCases(files: map<Path, FileInfo>, cases: seq<TestCase>, dir: string): Option<KeptCases> {
    if cases == [] then Some(KeptCases(files, []))
    else
      match KeepCases(files, cases[..|cases| - 1], dir)
      case None => None
      case Some(k) => KeepCase(k, cases[|cases| - 1], dir)
  }

  function PngNames(attachments: seq<Attachment>): set<string> {
    set i | 0 <= i < |attachments| && IsPng(attachments[i]) :: attachments[i].name
  }

  function PngCount(attachments: seq<Attachment>): nat {
    if attachments == [] then 0
    else PngCount(attachments[..|attachments| - 1]) + if IsPng(attachments[|attachments| - 1]) then 1 else 0
  }

  function CaseNames(cases: seq<TestCase>): set<string> {
    set i, n | 0 <= i < |cases| && n in PngNames(cases[i].attachments) :: n
  }

  function CasePngs(cases: seq<TestCase>): nat {
    if cases == [] then 0 else CasePngs(cases[..|cases| - 1]) + PngCount(cases[|cases| - 1].attachments)
  }

  /** Everything the evidence check looks at. */
  predicate Sufficient(cases: seq<TestCase>, files: map<Path, FileInfo>, request: TestRunRequest, dir: string) {
    && (forall i :: 0 <= i < |cases| ==> cases[i].passed)
    && NoDuplicates(Selectors(cases))
    && KeepCases(files, cases, dir).Some?
    && |cases| == |request.tests|
    && (forall i :: 0 <= i < |request.tests| ==> request.tests[i] in Selectors(cases))
    && forall i :: 0 <= i < |request.requiredAttachments| ==> request.requiredAttachments[i] in CaseNames(cases)
  }

  // ----- The check as it runs

  class TestRunResult {
    var suites: seq<Suite>
    var passed: nat
    var screenshotCount: nat

    constructor (suites: seq<Suite>)
      ensures this.suites == suites && passed == 0 && screenshotCount == 0
    {
      this.suites, passed, screenshotCount := suites, 0, 0;
    }

    method SetPath(si: nat, ti: nat, ai: nat, path: Path)
      requires si < |suites| && ti < |suites[si].cases| && ai < |suites[si].cases[ti].attachments|
      modifies this`suites
      ensures var t := old(suites)[si].cases[ti];
              var renamed := t.attachments[ai].(path := path);
              suites == PutCase(old(suites), si, ti, t.(attachments := t.attachments[ai := renamed]))
    {
      var t := suites[si].cases[ti];
      suites := PutCase(suites, si, ti, t.(attachments := t.attachments[ai := t.attachments[ai].(path := path)]));
    }
  }

  class OutputDirectory {
    var files: map<Path, FileInfo>
  }

  function PutCase(suites: seq<Suite>, si: nat, ti: nat, t: TestCase): (r: seq<Suite>)
    requires si < |suites| && ti < |suites[si].cases|
    ensures |r| == |suites| && |r[si].cases| == |suites[si].cases|
  {
    suites[si := Suite(suites[si].cases[ti := t])]
  }

  lemma PutCaseAgain(suites: seq<Suite>, si: nat, ti: nat, a: TestCase, b: TestCase)
    requires si < |suites| && ti < |suites[si].cases|
    ensures PutCase(suites, si, ti, suites[si].cases[ti]) == suites
    ensures PutCase(PutCase(suites, si, ti, a), si, ti, b) == PutCase(suites, si, ti, b)
  {
    assert suites[si].cases[ti := suites[si].cases[ti]] == suites[si].cases;
    assert suites[si].cases[ti := a][ti := b] == suites[si].cases[ti := b];
    assert PutCase(PutCase(suites, si, ti, a), si, ti, b) == suites[si := Suite(suites[si].cases[ti := b])];
  }

  lemma PngSnoc(attachments: seq<Attachment>, n: nat)
    requires n < |attachments|
    ensures PngNames(attachments[..n + 1]) ==
            PngNames(attachments[..n]) + (if IsPng(attachments[n]) then {attachments[n].name} else {})
    ensures PngCount(attachments[..n + 1]) ==
            PngCount(attachments[..n]) + (if IsPng(attachments[n]) then 1 else 0)
  {
    var front, all := attachments[..n], attachments[..n + 1];
    assert all[..n] == front;
    assert forall i :: 0 <= i < n ==> front[i] == all[i];
    if IsPng(attachments[n]) {
      assert IsPng(all[n]) && all[n].name in PngNames(all);
    }
    forall x | x in PngNames(front) ensures x in PngNames(all) {
      var i :| 0 <= i < n && IsPng(front[i]) && front[i].name == x;
      assert IsPng(all[i]) && all[i].name == x;
    }
  }

  /** The test case in the middle of its loop: the attachments before `ai` are the kept ones. */
  function Midway(suites: seq<Suite>, si: nat, ti: nat, done: seq<Attachment>): (r: seq<Suite>)
    requires si < |suites| && ti < |suites[si].cases| && |done| <= |suites[si].cases[ti].attachments|
    ensures |r| == |suites| && |r[si].cases| == |suites[si].cases|
  {
    var t := suites[si].cases[ti];
    PutCase(suites, si, ti, t.(attachments := done + t.attachments[|done|..]))
  }

  lemma MidwayStarts(suites: seq<Suite>, si: nat, ti: nat)
    requires si < |suites| && ti < |suites[si].cases|
    ensures Midway(suites, si, ti, []) == suites
  {
    var t := suites[si].cases[ti];
    assert [] + t.attachments[0..] == t.attachments;
    PutCaseAgain(suites, si, ti, t, t);
  }

  lemma MidwayEnds(suites: seq<Suite>, si: nat, ti: nat, done: seq<Attachment>)
    requires si < |suites| && ti < |suites[si].cases| && |done| == |suites[si].cases[ti].attachments|
    ensures Midway(suites, si, ti, done) == PutCase(suites, si, ti, suites[si].cases[ti].(attachments := done))
  {
    assert done + suites[si].cases[ti].attachments[|done|..] == done;
  }

  lemma MidwayMoves(suites: seq<Suite>, si: nat, ti: nat, done: seq<Attachment>, path: Path)
    requires si < |suites| && ti < |suites[si].cases| && |done| < |suites[si].cases[ti].attachments|
    ensures var mid := Midway(suites, si, ti, done);
            var t := mid[si].cases[ti];
            var a := suites[si].cases[ti].attachments[|done|];
            && t.attachments == done + suites[si].cases[ti].attachments[|done|..]
            && t.attachments[|done|] == a
            && Midway(suites, si, ti, done + [a]) == mid
            && PutCase(mid, si, ti, t.(attachments := t.attachments[|done| := a.(path := path)])) ==
               Midway(suites, si, ti, done + [a.(path := path)])
  {
    var t := suites[si].cases[ti];
    var n := |done|;
    var a, b := t.attachments[n], t.attachments[n].(path := path);
    var mid := t.(attachments := done + t.attachments[n..]);
    assert done + t.attachments[n..] == done + [a] + t.attachments[n + 1..];
    assert (done + t.attachments[n..])[n := b] == done + [b] + t.attachments[n + 1..];
    PutCaseAgain(suites, si, ti, mid, mid.(attachments := mid.attachments[n := b]));
  }

  /** Attachment `stop` is the first that is not kept; `some` is what was made of those before it. */
  predicate FailsAt(files: map<Path, FileInfo>, attachments: seq<Attachment>, dir: string, stop: nat, some: Kept) {
    && stop < |attachments|
    && Keep(files, attachments[..stop], dir) == Some(some)
    && Keep(files, attachments[..stop + 1], dir).None?
  }

  /** The inner loop: the attachments of one test case. Those before the first bad one have been renamed. */
  method VerifyAttachments(result: TestRunResult, output: OutputDirectory, si: nat, ti: nat, dir: string)
    returns (ok: bool, names: set<string>, ghost stop: nat, ghost some: Kept)
    requires si < |result.suites| && ti < |result.suites[si].cases|
    modifies result`suites, result`screenshotCount, output
    ensures var t := old(result.suites)[si].cases[ti];
            var kept := Keep(old(output.files), t.attachments, dir);
            && (ok <==> kept.Some?)
            && (ok ==>
                  && output.files == kept.value.files
                  && result.suites == PutCase(old(result.suites), si, ti, t.(attachments := kept.value.attachments))
                  && names == PngNames(t.attachments)
                  && result.screenshotCount == old(result.screenshotCount) + PngCount(t.attachments))
            && (!ok ==>
                  && FailsAt(old(output.files), t.attachments, dir, stop, some)
                  && output.files == some.files
                  && |some.attachments| == stop < |t.attachments|
                  && result.suites == Midway(old(result.suites), si, ti, some.attachments)
                  && result.screenshotCount == old(result.screenshotCount) + PngCount(t.attachments[..stop]))
  {
    hide Midway;
    hide GoodPng;
    hide PngCount;
    hide PngNames;
    ghost var suites := result.suites;
    ghost var files := output.files;
    ghost var t := suites[si].cases[ti];
    names, stop, some := {}, 0, Kept(files, []);
    var n := |result.suites[si].cases[ti].attachments|;
    ghost var done: seq<Attachment> := [];
    MidwayStarts(suites, si, ti);
    NoAttachments(files, dir);
    for ai := 0 to n
      invariant n == |t.attachments|
      invariant |done| == ai
      invariant Keep(files, t.attachments[..ai], dir) == Some(Kept(output.files, done))
      invariant result.suites == Midway(suites, si, ti, done)
      invariant names == PngNames(t.attachments[..ai])
      invariant result.screenshotCount == old(result.screenshotCount) + PngCount(t.attachments[..ai])
    {
      MidwayMoves(suites, si, ti, done, WithPng(t.attachments[ai].path));
      var a := result.suites[si].cases[ti].attachments[ai];
      KeepSnoc(files, t.attachments, dir, ai);
      PngSnoc(t.attachments, ai);
      if IsPng(a) {
        if a.path.dir != dir || a.path !in output.files || !GoodPng(output.files[a.path]) {
          KeepFailsOn(files, t.attachments, dir, ai + 1);
          return false, {}, ai, Kept(output.files, done);
        }
        output.files := (output.files - {a.path})[WithPng(a.path) := output.files[a.path]];
        result.SetPath(si, ti, ai, WithPng(a.path));
        names := names + {a.name};
        result.screenshotCount := result.screenshotCount + 1;
        done := done + [a.(path := WithPng(a.path))];
      } else {
        done := done + [a];
      }
    }
    assert t.attachments[..n] == t.attachments;
    MidwayEnds(suites, si, ti, done);
    ok := true;
  }

  lemma NoAttachments(files: map<Path, FileInfo>, dir: string)
    ensures Keep(files, [], dir) == Some(Kept(files, [])) && PngNames([]) == {} && PngCount([]) == 0
  {
  }

  function SelectorSet(cases: seq<TestCase>): set<string> {
    set x | x in Selectors(cases)
  }

  /** The cases all passed, under selectors that are new and all different. */
  predicate PassedOnce(cases: seq<TestCase>, before: set<string>) {
    && (forall i :: 0 <= i < |cases| ==> cases[i].passed)
    && NoDuplicates(Selectors(cases))
    && SelectorSet(cases) !! before
  }

  lemma NoDuplicatesSnoc<T>(s: seq<T>, x: T)
    ensures NoDuplicates(s + [x]) <==> NoDuplicates(s) && x !in s
  {
    var t := s + [x];
    if NoDuplicates(t) {
      forall i | 0 <= i < |s| ensures s[i] != x {
        assert t[i] != t[|s|];
      }
      forall i, j | 0 <= i < j < |s| ensures s[i] != s[j] {
        assert t[i] != t[j];
      }
    }
  }

  lemma PassedOnceSnoc(cases: seq<TestCase>, n: nat, before: set<string>)
    requires n < |cases|
    ensures PassedOnce(cases[..n + 1], before) <==>
            && PassedOnce(cases[..n], before)
            && cases[n].passed
            && SelectorOf(cases[n]) !in before + SelectorSet(cases[..n])
    ensures SelectorSet(cases[..n + 1]) == SelectorSet(cases[..n]) + {SelectorOf(cases[n])}
  {
    hide SelectorOf;
    var front, all, x := cases[..n], cases[..n + 1], SelectorOf(cases[n]);
    assert all == front + [cases[n]];
    assert Selectors(all) == Selectors(front) + [x];
    NoDuplicatesSnoc(Selectors(front), x);
  }

  lemma {:induction false} PassedOncePrefix(cases: seq<TestCase>, n: nat, before: set<string>)
    requires n <= |cases| && PassedOnce(cases, before)
    ensures PassedOnce(cases[..n], before)
    decreases |cases|
  {
    if n < |cases| {
      var m := |cases| - 1;
      assert cases[..m + 1] == cases;
      PassedOnceSnoc(cases, m, before);
      PassedOncePrefix(cases[..m], n, before);
      assert cases[..m][..n] == cases[..n];
    } else {
      assert cases[..n] == cases;
    }
  }

  lemma KeepCasesSnoc(files: map<Path, FileInfo>, cases: seq<TestCase>, dir: string, n: nat)
    requires n < |cases|
    ensures KeepCases(files, cases[..n + 1], dir) ==
            match KeepCases(files, cases[..n], dir) { case None => None case Some(k) => KeepCase(k, cases[n], dir) }
    ensures CasePngs(cases[..n + 1]) == CasePngs(cases[..n]) + PngCount(cases[n].attachments)
    ensures CaseNames(cases[..n + 1]) == CaseNames(cases[..n]) + PngNames(cases[n].attachments)
  {
    var front, all := cases[..n], cases[..n + 1];
    assert all[..n] == front;
    assert forall i :: 0 <= i < n ==> front[i] == all[i];
    forall x | x in CaseNames(front) ensures x in CaseNames(all) {
      var i :| 0 <= i < n && x in PngNames(front[i].attachments);
      assert x in PngNames(all[i].attachments);
    }
    forall x | x in PngNames(cases[n].attachments) ensures x in CaseNames(all) {
      assert x in PngNames(all[n].attachments);
    }
  }

  lemma {:induction false} KeepCasesFailsOn(files: map<Path, FileInfo>, cases: seq<TestCase>, dir: string, n: nat)
    requires n <= |cases| && KeepCases(files, cases[..n], dir).None?
    ensures KeepCases(files, cases, dir).None?
    decreases |cases| - n
  {
    if n < |cases| {
      KeepCasesSnoc(files, cases, dir, n);
      KeepCasesFailsOn(files, cases, dir, n + 1);
    } else {
      assert cases[..n] == cases;
    }
  }

  /** The suite in the middle of its loop. */
  function MidSuite(suites: seq<Suite>, si: nat, done: seq<TestCase>): (r: seq<Suite>)
    requires si < |suites| && |done| <= |suites[si].cases|
    ensures |r| == |suites| && |r[si].cases| == |suites[si].cases|
  {
    suites[si := Suite(done + suites[si].cases[|done|..])]
  }

  lemma MidSuiteIs(suites: seq<Suite>, si: nat, done: seq<TestCase>)
    requires si < |suites| && |done| <= |suites[si].cases|
    ensures MidSuite(suites, si, done) == suites[si := Suite(done + suites[si].cases[|done|..])]
  {
  }

  lemma MidSuiteStarts(suites: seq<Suite>, si: nat)
    requires si < |suites|
    ensures MidSuite(suites, si, []) == suites
  {
    assert [] + suites[si].cases[0..] == suites[si].cases;
  }

  lemma MidSuiteEnds(suites: seq<Suite>, si: nat, done: seq<TestCase>)
    requires si < |suites| && |done| == |suites[si].cases|
    ensures MidSuite(suites, si, done) == suites[si := Suite(done)]
  {
    assert done + suites[si].cases[|done|..] == done;
  }

  lemma MidSuiteMoves(suites: seq<Suite>, si: nat, done: seq<TestCase>, t: TestCase)
    requires si < |suites| && |done| < |suites[si].cases|
    ensures MidSuite(suites, si, done)[si].cases[|done|] == suites[si].cases[|done|]
    ensures PutCase(MidSuite(suites, si, done), si, |done|, t) == MidSuite(suites, si, done + [t])
  {
    var cases := suites[si].cases;
    assert (done + cases[|done|..])[|done| := t] == (done + [t]) + cases[|done| + 1..];
  }

  lemma NoCases(files: map<Path, FileInfo>, dir: string, before: set<string>)
    ensures KeepCases(files, [], dir) == Some(KeptCases(files, []))
    ensures PassedOnce([], before) && CasePngs([]) == 0 && CaseNames([]) == {} && SelectorSet([]) == {}
  {
  }

  /** What a loop over test cases has made of the files and the cases, and what it has counted. */
  datatype Reached = Reached(files: map<Path, FileInfo>, cases: seq<TestCase>, passed: int, screenshots: int)

  /** Case n is the first to fail, by its result or by its attachment `part`; r is what the loop leaves behind. */
  predicate StopsAt(files: map<Path, FileInfo>, cases: seq<TestCase>, dir: string, before: set<string>,
                    n: nat, part: nat, r: Reached) {
    n < |cases| && Stops(files, cases[..n], cases[n], cases[n + 1..], dir, before, part, r)
  }

  predicate Stops(files: map<Path, FileInfo>, front: seq<TestCase>, t: TestCase, tail: seq<TestCase>, dir: string,
                  before: set<string>, part: nat, r: Reached) {
    && PassedOnce(front, before)
    && KeepCases(files, front, dir).Some?
    && StopsWith(KeepCases(files, front, dir).value, |front|, CasePngs(front), PassedOnce(front + [t], before), t, tail,
                 dir, part, r)
  }

  predicate StopsWith(kept: KeptCases, passed: nat, screenshots: nat, inside: bool, t: TestCase, tail: seq<TestCase>,
                      dir: string, part: nat, r: Reached) {
    if inside
    then
      && r.passed == passed + 1
      && StopsInside(kept, t, dir, part, tail, r.(screenshots := r.screenshots - screenshots))
    else r == Reached(kept.files, kept.cases + [t] + tail, passed, screenshots)
  }

  /** The case counts as passed, and so do its screenshots before the bad one. */
  predicate StopsInside(kept: KeptCases, t: TestCase, dir: string, part: nat, rest: seq<TestCase>, r: Reached) {
    && part < |t.attachments|
    && Keep(kept.files, t.attachments[..part], dir).Some?
    && var some := Keep(kept.files, t.attachments[..part], dir).value;
    && FailsAt(kept.files, t.attachments, dir, part, some)
    && r.files == some.files
    && r.cases == kept.cases + [t.(attachments := some.attachments + t.attachments[part..])] + rest
    && r.screenshots == PngCount(t.attachments[..part])
  }

  lemma CaseFails(files: map<Path, FileInfo>, cases: seq<TestCase>, dir: string, before: set<string>, n: nat,
                  now: map<Path, FileInfo>, done: seq<TestCase>)
    requires n < |cases| && PassedOnce(cases[..n], before) && !PassedOnce(cases[..n + 1], before)
    requires KeepCases(files, cases[..n], dir) == Some(KeptCases(now, done))
    ensures StopsAt(files, cases, dir, before, n, 0, Reached(now, done + cases[n..], n, CasePngs(cases[..n])))
  {
    hide PassedOnce;
    hide KeepCases;
    hide CasePngs;
    assert cases[..n + 1] == cases[..n] + [cases[n]];
    assert done + [cases[n]] + cases[n + 1..] == done + cases[n..];
  }

  lemma AttachmentFails(files: map<Path, FileInfo>, cases: seq<TestCase>, dir: string, before: set<string>, n: nat,
                        now: map<Path, FileInfo>, done: seq<TestCase>, stop: nat, some: Kept)
    requires n < |cases| && PassedOnce(cases[..n], before) && PassedOnce(cases[..n + 1], before)
    requires KeepCases(files, cases[..n], dir) == Some(KeptCases(now, done))
    requires FailsAt(now, cases[n].attachments, dir, stop, some)
    ensures var t := cases[n];
            var bad := t.(attachments := some.attachments + t.attachments[stop..]);
            StopsAt(files, cases, dir, before, n, stop,
                    Reached(some.files, done + [bad] + cases[n + 1..], n + 1,
                            CasePngs(cases[..n]) + PngCount(t.attachments[..stop])))
  {
    hide PassedOnce;
    hide KeepCases;
    hide CasePngs;
    assert cases[..n + 1] == cases[..n] + [cases[n]];
  }

  lemma MidSuiteInside(suites: seq<Suite>, si: nat, done: seq<TestCase>, some: seq<Attachment>)
    requires si < |suites| && |done| < |suites[si].cases|
    requires |some| <= |suites[si].cases[|done|].attachments|
    ensures var t := suites[si].cases[|done|];
            var mid := MidSuite(suites, si, done);
            && mid[si].cases[|done|] == t
            && Midway(mid, si, |done|, some) ==
               suites[si := Suite(done + [t.(attachments := some + t.attachments[|some|..])] +
                                  suites[si].cases[|done| + 1..])]
  {
    var cases, t := suites[si].cases, suites[si].cases[|done|];
    var now := t.(attachments := some + t.attachments[|some|..]);
    assert (done + cases[|done|..])[|done| := now] == done + [now] + cases[|done| + 1..];
  }

  /** The middle loop: the test cases of one suite. */
  method VerifySuite(result: TestRunResult, output: OutputDirectory, si: nat, dir: string,
                     finished0: set<string>, names0: set<string>)
    returns (ok: bool, finished: set<string>, names: set<string>, ghost stop: nat, ghost part: nat)
    requires si < |result.suites|
    modifies result, output
    ensures var cases := old(result.suites)[si].cases;
            var kept := KeepCases(old(output.files), cases, dir);
            && (ok <==> PassedOnce(cases, finished0) && kept.Some?)
            && (ok ==>
                  && output.files == kept.value.files
                  && result.suites == old(result.suites)[si := Suite(kept.value.cases)]
                  && finished == finished0 + SelectorSet(cases)
                  && names == names0 + CaseNames(cases)
                  && result.passed == old(result.passed) + |cases|
                  && result.screenshotCount == old(result.screenshotCount) + CasePngs(cases))
            && |result.suites| == |old(result.suites)|
            && (!ok ==>
                  && result.suites == old(result.suites)[si := result.suites[si]]
                  && StopsAt(old(output.files), cases, dir, finished0, stop, part,
                             Reached(output.files, result.suites[si].cases, result.passed - old(result.passed),
                                     result.screenshotCount - old(result.screenshotCount))))
  {
    hide KeepCases;
    hide PassedOnce;
    hide CasePngs;
    hide CaseNames;
    hide SelectorSet;
    hide StopsAt;
    hide FailsAt;
    hide Keep;
    hide Midway;
    hide MidSuite;
    hide SelectorOf;
    hide PngCount;
    hide PngNames;
    ghost var suites, files := result.suites, output.files;
    NoCases(files, dir, finished0);
    ghost var cases := suites[si].cases;
    ghost var done: seq<TestCase> := [];
    finished, names, stop, part := finished0, names0, 0, 0;
    var n := |result.suites[si].cases|;
    MidSuiteStarts(suites, si);
    for ti := 0 to n
      invariant n == |cases| && |done| == ti
      invariant KeepCases(files, cases[..ti], dir) == Some(KeptCases(output.files, done))
      invariant result.suites == MidSuite(suites, si, done)
      invariant PassedOnce(cases[..ti], finished0)
      invariant finished == finished0 + SelectorSet(cases[..ti])
      invariant names == names0 + CaseNames(cases[..ti])
      invariant result.passed == old(result.passed) + ti
      invariant result.screenshotCount == old(result.screenshotCount) + CasePngs(cases[..ti])
    {
      ghost var now := output.files;
      MidSuiteMoves(suites, si, done, cases[ti]);
      PassedOnceSnoc(cases, ti, finished0);
      KeepCasesSnoc(files, cases, dir, ti);
      var test := result.suites[si].cases[ti];
      var selector := SelectorOf(test);
      if !test.passed || selector in finished {
        if PassedOnce(cases, finished0) { PassedOncePrefix(cases, ti + 1, finished0); }
        MidSuiteIs(suites, si, done);
        CaseFails(files, cases, dir, finished0, ti, output.files, done);
        return false, finished, names, ti, 0;
      }
      finished := finished + {selector};
      result.passed := result.passed + 1;
      var fine, found, bad, some := VerifyAttachments(result, output, si, ti, dir);
      if !fine {
        KeepCasesFailsOn(files, cases, dir, ti + 1);
        MidSuiteInside(suites, si, done, some.attachments);
        AttachmentFails(files, cases, dir, finished0, ti, now, done, bad, some);
        return false, finished, names, ti, bad;
      }
      names := names + found;
      ghost var keptCase := result.suites[si].cases[ti];
      MidSuiteMoves(suites, si, done, keptCase);
      done := done + [keptCase];
    }
    assert cases[..n] == cases;
    MidSuiteEnds(suites, si, done);
    ok := true;
  }

  lemma {:induction false} KeepCasesAppend(files: map<Path, FileInfo>, a: seq<TestCase>, b: seq<TestCase>, dir: string)
    ensures KeepCases(files, a + b, dir) ==
            match KeepCases(files, a, dir)
            case None => None
            case Some(k) =>
              match KeepCases(k.files, b, dir)
              case None => None
              case Some(more) => Some(KeptCases(more.files, k.cases + more.cases))
    decreases |b|
  {
    hide KeepCase;
    if b == [] {
      assert a + b == a;
      if k :| KeepCases(files, a, dir) == Some(k) { assert k.cases + [] == k.cases; }
    } else {
      var n := |b| - 1;
      KeepCasesAppend(files, a, b[..n], dir);
      assert (a + b)[..|a + b| - 1] == a + b[..n];
      if KeepCases(files, a, dir).Some? { KeepCaseOnto(files, a, b, dir); }
    }
  }

  /** Keeping one more case does not look at the cases kept before it. */
  lemma KeepCaseOnto(files: map<Path, FileInfo>, a: seq<TestCase>, b: seq<TestCase>, dir: string)
    requires b != [] && KeepCases(files, a, dir).Some?
    ensures var k := KeepCases(files, a, dir).value;
            var front := KeepCases(k.files, b[..|b| - 1], dir);
            front.Some? ==>
              var t := b[|b| - 1];
              var one := KeepCase(front.value, t, dir);
              var both := KeepCase(KeptCases(front.value.files, k.cases + front.value.cases), t, dir);
              && (one.Some? <==> both.Some?)
              && (one.Some? ==> both.value == KeptCases(one.value.files, k.cases + one.value.cases))
  {
  }

  lemma {:induction false} PngsAppend(a: seq<TestCase>, b: seq<TestCase>)
    ensures CasePngs(a + b) == CasePngs(a) + CasePngs(b)
    decreases |b|
  {
    if b == [] {
      assert a + b == a;
    } else {
      assert (a + b)[..|a + b| - 1] == a + b[..|b| - 1];
      PngsAppend(a, b[..|b| - 1]);
    }
  }

  lemma NamesAppend(a: seq<TestCase>, b: seq<TestCase>)
    ensures CaseNames(a + b) == CaseNames(a) + CaseNames(b)
  {
    var c := a + b;
    forall x | x in CaseNames(a) ensures x in CaseNames(c) {
      var i :| 0 <= i < |a| && x in PngNames(a[i].attachments);
      assert c[i] == a[i];
    }
    forall x | x in CaseNames(b) ensures x in CaseNames(c) {
      var i :| 0 <= i < |b| && x in PngNames(b[i].attachments);
      assert c[|a| + i] == b[i];
    }
    forall x | x in CaseNames(c) ensures x in CaseNames(a) + CaseNames(b) {
      var i :| 0 <= i < |c| && x in PngNames(c[i].attachments);
      if i < |a| { assert c[i] == a[i]; } else { assert c[i] == b[i - |a|]; }
    }
  }

  lemma {:induction false} NoDuplicatesAppend(s: seq<string>, t: seq<string>)
    ensures NoDuplicates(s + t) <==> NoDuplicates(s) && NoDuplicates(t) && (set x | x in s) !! (set x | x in t)
    decreases |t|
  {
    if t == [] {
      assert s + t == s;
    } else {
      var n := |t| - 1;
      var front, x := t[..n], t[n];
      NoDuplicatesAppend(s, front);
      assert t == front + [x] && s + t == (s + front) + [x];
      NoDuplicatesSnoc(s + front, x);
      NoDuplicatesSnoc(front, x);
      assert (set y | y in t) == (set y | y in front) + {x};
    }
  }

  lemma PassedOnceAppend(a: seq<TestCase>, b: seq<TestCase>, before: set<string>)
    ensures PassedOnce(a + b, before) <==> PassedOnce(a, before) && PassedOnce(b, before + SelectorSet(a))
    ensures SelectorSet(a + b) == SelectorSet(a) + SelectorSet(b)
  {
    hide SelectorOf;
    assert Selectors(a + b) == Selectors(a) + Selectors(b);
    NoDuplicatesAppend(Selectors(a), Selectors(b));
    var c := a + b;
    assert forall i :: 0 <= i < |a| ==> c[i] == a[i];
    assert forall i :: 0 <= i < |b| ==> c[|a| + i] == b[i];
  }

  lemma FlatSnoc(suites: seq<Suite>, n: nat)
    requires n < |suites|
    ensures Flat(suites[..n + 1]) == Flat(suites[..n]) + suites[n].cases
  {
    assert suites[..n + 1][..n] == suites[..n];
  }

  lemma {:induction false} FlatSplits(suites: seq<Suite>, n: nat) returns (rest: seq<TestCase>)
    requires n <= |suites|
    ensures Flat(suites) == Flat(suites[..n]) + rest
    decreases |suites| - n
  {
    if n < |suites| {
      FlatSnoc(suites, n);
      var more := FlatSplits(suites, n + 1);
      rest := suites[n].cases + more;
    } else {
      assert suites[..n] == suites;
      rest := [];
    }
  }

  // ----- Pigeonhole: as many selectors as requested, none twice, none missing, so none beside them

  lemma {:induction false} SetOfDistinct(s: seq<string>)
    requires NoDuplicates(s)
    ensures |set x | x in s| == |s|
  {
    if s != [] {
      var n := |s| - 1;
      SetOfDistinct(s[..n]);
      assert s == s[..n] + [s[n]];
      assert (set x | x in s) == (set x | x in s[..n]) + {s[n]};
      assert s[n] !in s[..n];
    }
  }

  lemma {:induction false} SubsetOfSameSize(a: set<string>, b: set<string>)
    requires a <= b && |a| == |b|
    ensures a == b
  {
    if x :| x in b && x !in a {
      assert a <= b - {x};
      SubsetSize(a, b - {x});
    }
  }

  lemma {:induction false} SubsetSize(a: set<string>, b: set<string>)
    requires a <= b
    ensures |a| <= |b|
  {
    if a != {} {
      var x :| x in a;
      SubsetSize(a - {x}, b - {x});
    }
  }

  /** Sufficient evidence is the requested tests, each exactly once, exactly when no test was requested twice. */
  lemma ExactWhenDistinct(cases: seq<TestCase>, files: map<Path, FileInfo>, request: TestRunRequest, dir: string)
    requires Sufficient(cases, files, request, dir)
    ensures NoDuplicates(request.tests) <==> multiset(Selectors(cases)) == multiset(request.tests)
  {
    hide KeepCases;
    hide CaseNames;
    var selectors := Selectors(cases);
    if NoDuplicates(request.tests) {
      SetOfDistinct(selectors);
      SetOfDistinct(request.tests);
      SubsetOfSameSize((set x | x in request.tests), SelectorSet(cases));
      DistinctSameMultiset(selectors, request.tests);
    }
    if multiset(selectors) == multiset(request.tests) {
      forall x: string ensures multiset(request.tests)[x] <= 1 { DistinctCounts(selectors, x); }
      DistinctByCounts(request.tests);
    }
  }

  lemma DistinctByCounts(s: seq<string>)
    requires forall x: string :: multiset(s)[x] <= 1
    ensures NoDuplicates(s)
  {
    forall i, j | 0 <= i < j < |s| ensures s[i] != s[j] {
      assert s == s[..j] + s[j..];
      assert s[i] in s[..j] && s[j] in s[j..];
      assert multiset(s)[s[j]] == multiset(s[..j])[s[j]] + multiset(s[j..])[s[j]];
    }
  }

  /** For an accepted request: sufficient evidence is the requested tests, each exactly once, and all passed. */
  lemma EvidenceIsExact(cases: seq<TestCase>, files: map<Path, FileInfo>, request: TestRunRequest, dir: string)
    requires Acceptable(request) && Sufficient(cases, files, request, dir)
    ensures SelectorSet(cases) == set x | x in request.tests
    ensures multiset(Selectors(cases)) == multiset(request.tests)
    ensures forall i :: 0 <= i < |cases| ==> cases[i].passed && SelectorOf(cases[i]) in request.tests
  {
    hide KeepCases;
    hide CaseNames;
    hide SelectorOf;
    ExactWhenDistinct(cases, files, request, dir);
    SameMultisetSameMembers(Selectors(cases), request.tests);
    forall i | 0 <= i < |cases| ensures SelectorOf(cases[i]) in request.tests {
      assert Selectors(cases)[i] in Selectors(cases);
    }
  }

  lemma SameMultisetSameMembers(s: seq<string>, t: seq<string>)
    requires multiset(s) == multiset(t)
    ensures forall x :: x in s <==> x in t
  {
    forall x ensures x in s <==> x in t {
      assert x in s <==> x in multiset(s);
      assert x in t <==> x in multiset(t);
    }
  }

  ghost predicate Reports(t: TestCase, selector: string) {
    exists c, m :: selector == c + "/" + m && ReportedAs(t, c, m)
  }

  /**
   In the names the run has reported: for an accepted request with sufficient evidence each requested test is
   reported by one case and by no other, and every case passed and reports a requested test.
   */
  lemma EachTestIsReportedOnce(cases: seq<TestCase>, files: map<Path, FileInfo>, request: TestRunRequest,
                               dir: string)
    requires Acceptable(request) && Sufficient(cases, files, request, dir)
    ensures forall s :: s in request.tests ==> exists i :: 0 <= i < |cases| && Reports(cases[i], s)
    ensures forall s, i, j :: 0 <= i < j < |cases| && Reports(cases[i], s) ==> !Reports(cases[j], s)
    ensures forall i, s :: 0 <= i < |cases| && Reports(cases[i], s) ==> s in request.tests
    ensures forall i :: 0 <= i < |cases| ==> cases[i].passed
  {
    hide Reports;
    hide SelectorOf;
    hide Sufficient;
    hide Acceptable;
    forall s | s in request.tests ensures exists i :: 0 <= i < |cases| && Reports(cases[i], s) {
      var i := CaseOf(cases, files, request, dir, s);
      ReportsItsSelector(cases[i], s);
    }
    forall s, i, j | 0 <= i < j < |cases| && Reports(cases[i], s) ensures !Reports(cases[j], s) {
      OtherCase(cases, files, request, dir, i, j);
      ReportsItsSelector(cases[i], s);
      ReportsItsSelector(cases[j], s);
    }
    EvidenceIsExact(cases, files, request, dir);
    forall i, s | 0 <= i < |cases| && Reports(cases[i], s) ensures s in request.tests {
      ReportsItsSelector(cases[i], s);
    }
  }

  lemma CaseOf(cases: seq<TestCase>, files: map<Path, FileInfo>, request: TestRunRequest, dir: string, s: string)
    returns (i: nat)
    requires Sufficient(cases, files, request, dir) && s in request.tests
    ensures i < |cases| && SelectorOf(cases[i]) == s
  {
    hide KeepCases;
    hide CaseNames;
    hide SelectorOf;
    var k :| 0 <= k < |request.tests| && request.tests[k] == s;
    i :| 0 <= i < |cases| && Selectors(cases)[i] == s;
  }

  lemma OtherCase(cases: seq<TestCase>, files: map<Path, FileInfo>, request: TestRunRequest, dir: string, i: nat,
                  j: nat)
    requires Sufficient(cases, files, request, dir) && i < j < |cases|
    ensures SelectorOf(cases[i]) != SelectorOf(cases[j])
  {
    hide KeepCases;
    hide CaseNames;
    hide SelectorOf;
    assert Selectors(cases)[i] != Selectors(cases)[j];
  }

  lemma ReportsItsSelector(t: TestCase, s: string)
    ensures Reports(t, s) <==> SelectorOf(t) == s
  {
    hide ReportedAs;
    var c, m := AfterLastDot(t.className), TrimCall(t.methodName);
    SelectorIsReported(t, c, m);
    if c, m :| s == c + "/" + m && ReportedAs(t, c, m) { SelectorIsReported(t, c, m); }
    assert SelectorOf(t) == c + "/" + m;
  }

  lemma {:induction false} DistinctCounts(s: seq<string>, x: string)
    requires NoDuplicates(s)
    ensures multiset(s)[x] == if x in s then 1 else 0
  {
    if s != [] {
      var n := |s| - 1;
      assert s == s[..n] + [s[n]];
      DistinctCounts(s[..n], x);
      assert s[n] !in s[..n];
    }
  }

  lemma DistinctSameMultiset(a: seq<string>, b: seq<string>)
    requires NoDuplicates(a) && NoDuplicates(b) && (set x | x in a) == (set x | x in b)
    ensures multiset(a) == multiset(b)
  {
    var sa, sb := set x | x in a, set x | x in b;
    forall x: string ensures multiset(a)[x] == multiset(b)[x] {
      DistinctCounts(a, x);
      DistinctCounts(b, x);
      assert x in a <==> x in sa;
      assert x in b <==> x in sb;
    }
  }

  lemma {:induction false} CasesKeptOneByOne(files: map<Path, FileInfo>, cases: seq<TestCase>, dir: string, i: nat)
    requires KeepCases(files, cases, dir).Some? && i < |cases|
    ensures KeepCases(files, cases[..i], dir).Some?
    ensures Keep(KeepCases(files, cases[..i], dir).value.files, cases[i].attachments, dir).Some?
  {
    var n := |cases| - 1;
    if i < n {
      CasesKeptOneByOne(files, cases[..n], dir, i);
      assert cases[..n][..i] == cases[..i];
    }
  }

  /** Every required name belongs to a PNG attachment whose file was good when it was checked. */
  lemma RequiredNamesHavePngs(cases: seq<TestCase>, files: map<Path, FileInfo>, request: TestRunRequest, dir: string,
                              name: string)
    requires Sufficient(cases, files, request, dir) && name in request.requiredAttachments
    ensures exists i: nat, j: nat ::
              && i < |cases|
              && KeepCases(files, cases[..i], dir).Some?
              && CheckedGood(KeepCases(files, cases[..i], dir).value.files, cases[i].attachments, dir, j)
              && cases[i].attachments[j].name == name
  {
    var i: nat :| i < |cases| && name in PngNames(cases[i].attachments);
    var t := cases[i].attachments;
    var j: nat :| j < |t| && IsPng(t[j]) && t[j].name == name;
    CasesKeptOneByOne(files, cases, dir, i);
    KeptPngs(KeepCases(files, cases[..i], dir).value.files, t, dir, j);
  }

  lemma OneWordClass()
    ensures AfterLastDot("A") == "A"
  {
    assert "A"[..0] == "";
    assert "" + ['A'] == "A";
  }

  lemma OneWordSelector(methodName: string)
    requires TrimCall(methodName) == methodName
    ensures SelectorOf(TestCase("A", methodName, true, [])) == "A/" + methodName
  {
    hide AfterLastDot;
    hide TrimCall;
    OneWordClass();
    assert "A" + "/" == "A/";
  }

  /** Without that uniqueness the evidence need not be exact: a repeated selector hides an unrequested test. */
  lemma RepeatedSelectorHidesATest()
    ensures exists cases, request ::
              && Sufficient(cases, map[], request, "out")
              && request.tests == ["A/testX", "A/testX"]
              && "A/testY" in Selectors(cases)
  {
    var x := TestCase("A", "testX", true, []);
    var y := TestCase("A", "testY", true, []);
    var request := TestRunRequest("", false, "", "", "", ["A/testX", "A/testX"], [], "/out", 30);
    var cases := [x, y];
    hide SelectorOf;
    OneWordSelector("testX");
    OneWordSelector("testY");
    assert "A/" + "testX" == "A/testX" && "A/" + "testY" == "A/testY";
    assert Selectors(cases) == ["A/testX", "A/testY"];
    assert Selectors(cases)[1] == "A/testY" && Selectors(cases)[0] == "A/testX";
    assert "A/testX"[6] != "A/testY"[6];
    KeepCasesSnoc(map[], cases, "out", 0);
    KeepCasesSnoc(map[], cases, "out", 1);
    assert cases[..2] == cases && cases[..0] == [];
    assert Sufficient(cases, map[], request, "out");
  }

  /** The last three comparisons of the check. */
  method CheckRequested(finished: set<string>, names: set<string>, request: TestRunRequest) returns (ok: bool)
    ensures ok <==>
            && |finished| == |request.tests|
            && (forall i :: 0 <= i < |request.tests| ==> request.tests[i] in finished)
            && forall i :: 0 <= i < |request.requiredAttachments| ==> request.requiredAttachments[i] in names
  {
    if |finished| != |request.tests| {
      return false;
    }
    for k := 0 to |request.tests|
      invariant forall i :: 0 <= i < k ==> request.tests[i] in finished
    {
      if request.tests[k] !in finished {
        return false;
      }
    }
    for k := 0 to |request.requiredAttachments|
      invariant forall i :: 0 <= i < k ==> request.requiredAttachments[i] in names
    {
      if request.requiredAttachments[k] !in names {
        return false;
      }
    }
    ok := true;
  }

  /** What the outer loop has established about the cases of the suites before it. */
  ghost predicate Verified(done: seq<TestCase>, files: map<Path, FileInfo>, dir: string, now: map<Path, FileInfo>,
                           kept: seq<TestCase>, finished: set<string>, names: set<string>) {
    && PassedOnce(done, {})
    && KeepCases(files, done, dir) == Some(KeptCases(now, kept))
    && finished == SelectorSet(done)
    && names == CaseNames(done)
  }

  lemma VerifiedMore(done: seq<TestCase>, files: map<Path, FileInfo>, dir: string, now: map<Path, FileInfo>,
                     kept: seq<TestCase>, finished: set<string>, names: set<string>, cases: seq<TestCase>)
    requires Verified(done, files, dir, now, kept, finished, names)
    ensures PassedOnce(cases, finished) && KeepCases(now, cases, dir).Some? ==>
              var more := KeepCases(now, cases, dir).value;
              Verified(done + cases, files, dir, more.files, kept + more.cases,
                       finished + SelectorSet(cases), names + CaseNames(cases))
    ensures !(PassedOnce(cases, finished) && KeepCases(now, cases, dir).Some?) ==> !AllKept(done + cases, files, dir)
    ensures CasePngs(done + cases) == CasePngs(done) + CasePngs(cases)
  {
    hide PassedOnce;
    hide KeepCases;
    hide CaseNames;
    hide SelectorSet;
    hide CasePngs;
    KeepCasesAppend(files, done, cases, dir);
    PassedOnceAppend(done, cases, {});
    NamesAppend(done, cases);
    PngsAppend(done, cases);
    assert {} + SelectorSet(done) == SelectorSet(done);
  }

  lemma NeverVerified(suites: seq<Suite>, n: nat, files: map<Path, FileInfo>, dir: string)
    requires n <= |suites|
    requires !AllKept(Flat(suites[..n]), files, dir)
    ensures !AllKept(Flat(suites), files, dir)
  {
    hide PassedOnce;
    hide KeepCases;
    var rest := FlatSplits(suites, n);
    KeepCasesAppend(files, Flat(suites[..n]), rest, dir);
    PassedOnceAppend(Flat(suites[..n]), rest, {});
  }

  /** Every case passed under a selector of its own, and every PNG was good in its turn. */
  predicate AllKept(all: seq<TestCase>, files: map<Path, FileInfo>, dir: string) {
    PassedOnce(all, {}) && KeepCases(files, all, dir).Some?
  }

  /** A fault in one suite is the fault in all the cases, those of the suites before and after included. */
  lemma StopsLater(files: map<Path, FileInfo>, done: seq<TestCase>, kept: seq<TestCase>, finished: set<string>,
                   names: set<string>, cases: seq<TestCase>, rest: seq<TestCase>, dir: string,
                   now: map<Path, FileInfo>, n: nat, part: nat, r: Reached)
    requires Verified(done, files, dir, now, kept, finished, names)
    requires StopsAt(now, cases, dir, finished, n, part, r)
    ensures StopsAt(files, done + cases + rest, dir, {}, |done| + n, part,
                    Reached(r.files, kept + r.cases + rest, |done| + r.passed, CasePngs(done) + r.screenshots))
  {
    hide Stops;
    hide Verified;
    hide CasePngs;
    Slices(done, cases, rest, n);
    FrontLater(files, done, kept, finished, names, cases[..n], cases[n], cases[n + 1..], rest, dir, now, part, r);
  }

  lemma FrontLater(files: map<Path, FileInfo>, done: seq<TestCase>, kept: seq<TestCase>, finished: set<string>,
                   names: set<string>, front: seq<TestCase>, t: TestCase, tail: seq<TestCase>, rest: seq<TestCase>,
                   dir: string, now: map<Path, FileInfo>, part: nat, r: Reached)
    requires Verified(done, files, dir, now, kept, finished, names)
    requires Stops(now, front, t, tail, dir, finished, part, r)
    ensures Stops(files, done + front, t, tail + rest, dir, {}, part,
                  Reached(r.files, kept + r.cases + rest, |done| + r.passed, CasePngs(done) + r.screenshots))
  {
    hide PassedOnce;
    hide KeepCases;
    hide CasePngs;
    hide StopsWith;
    hide Verified;
    FrontFacts(files, done, kept, finished, names, front, t, dir, now);
    WithLater(kept, KeepCases(now, front, dir).value, |done|, |front|, CasePngs(done), CasePngs(front),
              PassedOnce(front + [t], finished), t, tail, rest, dir, part, r);
  }

  lemma WithLater(kept: seq<TestCase>, inner: KeptCases, m: nat, n: nat, before: nat, screenshots: nat, inside: bool,
                  t: TestCase, tail: seq<TestCase>, rest: seq<TestCase>, dir: string, part: nat, r: Reached)
    requires StopsWith(inner, n, screenshots, inside, t, tail, dir, part, r)
    ensures StopsWith(KeptCases(inner.files, kept + inner.cases), m + n, before + screenshots, inside, t, tail + rest,
                      dir, part, Reached(r.files, kept + r.cases + rest, m + r.passed, before + r.screenshots))
  {
    hide StopsInside;
    if inside {
      InsideLater(kept, inner, t, dir, part, tail, rest, m + r.passed, r.(screenshots := r.screenshots - screenshots));
    } else {
      Regroup(kept, inner.cases, [t], tail, rest);
    }
  }

  lemma FrontFacts(files: map<Path, FileInfo>, done: seq<TestCase>, kept: seq<TestCase>, finished: set<string>,
                   names: set<string>, front: seq<TestCase>, t: TestCase, dir: string, now: map<Path, FileInfo>)
    requires Verified(done, files, dir, now, kept, finished, names) && KeepCases(now, front, dir).Some?
    ensures PassedOnce(done + front, {}) == PassedOnce(front, finished)
    ensures PassedOnce(done + front + [t], {}) == PassedOnce(front + [t], finished)
    ensures CasePngs(done + front) == CasePngs(done) + CasePngs(front)
    ensures var inner := KeepCases(now, front, dir).value;
            KeepCases(files, done + front, dir) == Some(KeptCases(inner.files, kept + inner.cases))
  {
    hide PassedOnce;
    hide KeepCases;
    hide CasePngs;
    hide SelectorSet;
    hide CaseNames;
    assert {} + SelectorSet(done) == SelectorSet(done);
    Regroup(done, front, [t], [], []);
    PassedOnceAppend(done, front, {});
    PassedOnceAppend(done, front + [t], {});
    PngsAppend(done, front);
    KeptLater(files, done, kept, now, front, dir);
  }

  lemma Regroup(a: seq<TestCase>, b: seq<TestCase>, c: seq<TestCase>, d: seq<TestCase>, e: seq<TestCase>)
    ensures a + (b + c) == (a + b) + c
    ensures a + (b + c + d) + e == (a + b) + c + (d + e)
  {
  }

  lemma Slices(done: seq<TestCase>, cases: seq<TestCase>, rest: seq<TestCase>, n: nat)
    requires n < |cases|
    ensures var all, m := done + cases + rest, |done| + n;
            && m < |all|
            && all[..m] == done + cases[..n]
            && all[m] == cases[n]
            && all[m + 1..] == cases[n + 1..] + rest
  {
  }

  lemma KeptLater(files: map<Path, FileInfo>, done: seq<TestCase>, kept: seq<TestCase>, now: map<Path, FileInfo>,
                  cases: seq<TestCase>, dir: string)
    requires KeepCases(files, done, dir) == Some(KeptCases(now, kept)) && KeepCases(now, cases, dir).Some?
    ensures var inner := KeepCases(now, cases, dir).value;
            KeepCases(files, done + cases, dir) == Some(KeptCases(inner.files, kept + inner.cases))
  {
    hide KeepCases;
    KeepCasesAppend(files, done, cases, dir);
  }

  lemma InsideLater(kept: seq<TestCase>, inner: KeptCases, t: TestCase, dir: string, part: nat,
                    tail: seq<TestCase>, rest: seq<TestCase>, passed: int, r: Reached)
    requires StopsInside(inner, t, dir, part, tail, r)
    ensures StopsInside(KeptCases(inner.files, kept + inner.cases), t, dir, part, tail + rest,
                        Reached(r.files, kept + r.cases + rest, passed, r.screenshots))
  {
    var some := Keep(inner.files, t.attachments[..part], dir).value;
    Regroup(kept, inner.cases, [t.(attachments := some.attachments + t.attachments[part..])], tail, rest);
  }

  lemma {:induction false} FlatAppend(a: seq<Suite>, b: seq<Suite>)
    ensures Flat(a + b) == Flat(a) + Flat(b)
    decreases |b|
  {
    if b == [] {
      assert a + b == a;
    } else {
      assert (a + b)[..|a + b| - 1] == a + b[..|b| - 1];
      FlatAppend(a, b[..|b| - 1]);
    }
  }

  lemma FlatAround(suites: seq<Suite>, si: nat)
    requires si < |suites|
    ensures Flat(suites) == Flat(suites[..si]) + suites[si].cases + Flat(suites[si + 1..])
  {
    assert suites == suites[..si + 1] + suites[si + 1..];
    FlatAppend(suites[..si + 1], suites[si + 1..]);
    FlatSnoc(suites, si);
  }

  lemma SufficientIs(all: seq<TestCase>, files: map<Path, FileInfo>, request: TestRunRequest, dir: string)
    ensures Sufficient(all, files, request, dir) <==>
            && AllKept(all, files, dir)
            && |SelectorSet(all)| == |request.tests|
            && (forall i :: 0 <= i < |request.tests| ==> request.tests[i] in SelectorSet(all))
            && forall i :: 0 <= i < |request.requiredAttachments| ==> request.requiredAttachments[i] in CaseNames(all)
  {
    hide KeepCases;
    hide CaseNames;
    if NoDuplicates(Selectors(all)) { SetOfDistinct(Selectors(all)); }
  }

  /**
   verifyTestEvidence: it accepts exactly the sufficient evidence, and then it has counted every requested
   test as passed and every PNG attachment as a screenshot, and the result names the renamed files. What it
   has renamed and counted before it refuses stays so.
   */
  method VerifyTestEvidence(result: TestRunResult, output: OutputDirectory, request: TestRunRequest, dir: string)
    returns (ok: bool, ghost stop: nat, ghost part: nat)
    modifies result, output
    ensures ok <==> Sufficient(Flat(old(result.suites)), old(output.files), request, dir)
    ensures ok ==> result.passed == old(result.passed) + |request.tests|
    ensures ok ==> AllKept(Flat(old(result.suites)), old(output.files), dir)
    ensures var all := Flat(old(result.suites));
            var r := Reached(output.files, Flat(result.suites), result.passed - old(result.passed),
                             result.screenshotCount - old(result.screenshotCount));
            if AllKept(all, old(output.files), dir)
            then
              && KeepCases(old(output.files), all, dir) == Some(KeptCases(r.files, r.cases))
              && r.passed == |all|
              && r.screenshots == CasePngs(all)
            else StopsAt(old(output.files), all, dir, {}, stop, part, r)
  {
    hide AllKept;
    hide StopsAt;
    hide KeepCases;
    hide PassedOnce;
    hide CaseNames;
    hide SelectorSet;
    hide CasePngs;
    hide Flat;
    hide Sufficient;
    ghost var suites, files := result.suites, output.files;
    ghost var all := Flat(suites);
    NothingVerified(suites, files, dir);
    var finished: set<string>, names: set<string> := {}, {};
    stop, part := 0, 0;
    var n := |result.suites|;
    for si := 0 to n
      invariant n == |suites| == |result.suites|
      invariant result.suites[si..] == suites[si..]
      invariant Verified(Flat(suites[..si]), files, dir, output.files, Flat(result.suites[..si]), finished, names)
      invariant result.passed == old(result.passed) + |Flat(suites[..si])|
      invariant result.screenshotCount == old(result.screenshotCount) + CasePngs(Flat(suites[..si]))
    {
      ghost var before := result.suites;
      assert before[si] == suites[si];
      FlatSnoc(suites, si);
      VerifiedMore(Flat(suites[..si]), files, dir, output.files, Flat(before[..si]), finished, names, suites[si].cases);
      ghost var now, passed, shots := output.files, result.passed, result.screenshotCount;
      var fine, f, m, n, p := VerifySuite(result, output, si, dir, finished, names);
      if !fine {
        NeverVerified(suites, si + 1, files, dir);
        SufficientIs(all, files, request, dir);
        FlatAround(suites, si);
        FlatAround(result.suites, si);
        assert result.suites[..si] == before[..si] && result.suites[si + 1..] == suites[si + 1..];
        StopsLater(files, Flat(suites[..si]), Flat(before[..si]), finished, names, suites[si].cases,
                   Flat(suites[si + 1..]), dir, now, n, p,
                   Reached(output.files, result.suites[si].cases, result.passed - passed,
                           result.screenshotCount - shots));
        return false, |Flat(suites[..si])| + n, p;
      }
      finished, names := f, m;
      FlatSnoc(result.suites, si);
      assert result.suites[..si] == before[..si];
    }
    assert suites[..n] == suites && result.suites[..n] == result.suites;
    AllVerified(all, files, dir, output.files, Flat(result.suites), finished, names);
    ok := CheckRequested(finished, names, request);
    SufficientIs(all, files, request, dir);
    if ok { AllCounted(all, files, request, dir); }
  }

  lemma AllVerified(all: seq<TestCase>, files: map<Path, FileInfo>, dir: string, now: map<Path, FileInfo>,
                    kept: seq<TestCase>, finished: set<string>, names: set<string>)
    requires Verified(all, files, dir, now, kept, finished, names)
    ensures AllKept(all, files, dir) && KeepCases(files, all, dir) == Some(KeptCases(now, kept))
  {
  }

  lemma NothingVerified(suites: seq<Suite>, files: map<Path, FileInfo>, dir: string)
    ensures Flat(suites[..0]) == [] && Verified([], files, dir, files, [], {}, {}) && CasePngs([]) == 0
  {
  }

  lemma AllCounted(all: seq<TestCase>, files: map<Path, FileInfo>, request: TestRunRequest, dir: string)
    requires Sufficient(all, files, request, dir)
    ensures |all| == |request.tests|
  {
  }
}
