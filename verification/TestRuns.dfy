/**
 Daemon.runTests (internal/linkcore/xctest.go): a test run on the daemon's session, from the request to the
 response. The output directory's creation, the device's run and the writing of the result answer as parameters.
 */
module TestRuns {
  import opened Common
  import opened DaemonFields
  import opened Evidence
  import opened Daemons

  datatype Tested = Tested(ok: bool, state: Label, generation: nat, passed: nat, screenshots: nat)

  /** The run was answered, within its time and without an error, by evidence that suffices. */
  predicate Proven(answer: Result<seq<Suite>, string>, files: map<Path, FileInfo>, request: TestRunRequest,
                   dir: string) {
    answer.Success? && Sufficient(Flat(answer.value), files, request, dir)
  }

  /** The counts are those of all the cases, or of the cases and attachments before the first that fails. */
  ghost predicate CountsUpToFault(answer: Result<seq<Suite>, string>, files: map<Path, FileInfo>, dir: string,
                                  r: Tested) {
    if answer.Failure? then r.passed == 0 && r.screenshots == 0
    else
      var all := Flat(answer.value);
      if AllKept(all, files, dir) then r.passed == |all| && r.screenshots == CasePngs(all)
      else exists stop: nat, part: nat, now, kept ::
          StopsAt(files, all, dir, {}, stop, part, Reached(now, kept, r.passed, r.screenshots))
  }

  /** What stops a run before the device is asked, the earliest reason first. */
  function Hindrance(d: Daemon, request: TestRunRequest, locked: bool, prepared: Option<string>): Option<string>
    reads d
  {
    if !Acceptable(request) then Some("test_request_invalid")
    else if !locked then Some("session_busy")
    else if d.session.None? then Some("session_not_active")
    else prepared
  }

  /** `prepared` is the failure to create the output, if any; `written` says that the result could be stored. */
  method RunTests(d: Daemon, request: TestRunRequest, locked: bool, prepared: Option<string>,
                  answer: Result<seq<Suite>, string>, output: OutputDirectory, dir: string, written: Option<string>)
    returns (r: Result<Tested, string>)
    requires d.Valid()
    modifies output
    ensures Hindrance(d, request, locked, prepared).Some? ==>
              && r == Failure(Hindrance(d, request, locked, prepared).value)
              && output.files == old(output.files)
    ensures Hindrance(d, request, locked, prepared).None? ==>
              && (r.Success? <==> written.None?)
              && (r.Failure? ==> r.error == written.value)
              && (r.Success? ==> (r.value.ok <==> Proven(answer, old(output.files), request, dir)))
    ensures r.Success? ==> d.session == Some(r.value.generation) && r.value.state == d.state
    // a successful run is the requested tests, each passed exactly once
    ensures r.Success? && r.value.ok ==>
              && multiset(Selectors(Flat(answer.value))) == multiset(request.tests)
              && (forall s :: s in request.tests ==>
                    exists i :: 0 <= i < |Flat(answer.value)| && Reports(Flat(answer.value)[i], s))
              && r.value.passed == |request.tests|
              && r.value.screenshots == CasePngs(Flat(answer.value))
    // a failed one reports what had been counted before the first fault
    ensures r.Success? && !r.value.ok ==> CountsUpToFault(answer, old(output.files), dir, r.value)
  {
    hide StopsAt;
    hide Reports;
    hide AllKept;
    hide Sufficient;
    hide KeepCases;
    hide CasePngs;
    hide Acceptable;
    var ok := ValidateTestRun(Some(request));
    if !ok {
      return Failure("test_request_invalid");
    }
    if !locked {
      return Failure("session_busy");
    }
    if d.session.None? {
      return Failure("session_not_active");
    }
    if prepared.Some? {
      return Failure(prepared.value);
    }
    var generation := d.generation;
    var result := new TestRunResult(if answer.Success? then answer.value else []);
    ok := answer.Success?;
    ghost var files := output.files;
    if ok {
      ghost var stop, part;
      ok, stop, part := VerifyTestEvidence(result, output, request, dir);
      if ok {
        EvidenceIsExact(Flat(answer.value), files, request, dir);
        EachTestIsReportedOnce(Flat(answer.value), files, request, dir);
      }
    }
    if written.Some? {
      return Failure(written.value);
    }
    r := Success(Tested(ok, d.state, generation, result.passed, result.screenshotCount));
  }
}
