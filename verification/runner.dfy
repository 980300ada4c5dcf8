/** The AWS Lambda runner as it executes: the master selects the test files
    and runs rounds of remote attempts until the pool is empty or the stop
    signal is up; the slave runs one test against the browser adapter. Each
    method is proved against the functions of RunnerSpec. */
module RunnerAwsLambda {

  import opened Common
  import opened TestDefinition
  import opened RunnerSpec

  /** What a call into the browser adapter or the test body does. */
  datatype Outcome = Done | Threw(error: DError)

  /** The browser adapter. What each call does is fixed when the adapter is
      made (the driver behind it is not part of this model); the adapter
      counts the screenshot and close calls it receives. */
  class Browser {
    var isOpen: bool
    var screenshotAttempts: nat
    var closeAttempts: nat
    const openOutcome: Outcome
    const screenshotOutcome: Outcome
    /** What the k-th call of `closeBrowser` does; calls past the end complete. */
    const closeOutcomes: seq<Outcome>

    constructor (openOutcome: Outcome, screenshotOutcome: Outcome, closeOutcomes: seq<Outcome>)
      ensures !isOpen && screenshotAttempts == 0 && closeAttempts == 0
      ensures this.openOutcome == openOutcome && this.screenshotOutcome == screenshotOutcome
      ensures this.closeOutcomes == closeOutcomes
    {
      isOpen, screenshotAttempts, closeAttempts := false, 0, 0;
      this.openOutcome, this.screenshotOutcome, this.closeOutcomes := openOutcome, screenshotOutcome, closeOutcomes;
    }

    /** The k-th call of `closeBrowser` throws. */
    predicate CloseThrows(k: int)
    {
      0 <= k < |closeOutcomes| && closeOutcomes[k].Threw?
    }

    /** What the next call of `closeBrowser` will do. */
    function NextClose(): Outcome
      reads this
    {
      if closeAttempts < |closeOutcomes| then closeOutcomes[closeAttempts] else Done
    }

    method OpenBrowser() returns (o: Outcome)
      modifies this`isOpen
      ensures o == openOutcome
      ensures isOpen == (old(isOpen) || o.Done?)
    {
      o := openOutcome;
      if o.Done? {
        isOpen := true;
      }
    }

    method IsBrowserOpen() returns (open: bool)
      ensures open == isOpen
    {
      open := isOpen;
    }

    method ScreenshotPage() returns (o: Outcome)
      modifies this`screenshotAttempts
      ensures o == screenshotOutcome
      ensures screenshotAttempts == old(screenshotAttempts) + 1
    {
      o := screenshotOutcome;
      screenshotAttempts := screenshotAttempts + 1;
    }

    method CloseBrowser() returns (o: Outcome)
      modifies this`isOpen, this`closeAttempts
      ensures o == old(NextClose())
      ensures closeAttempts == old(closeAttempts) + 1
      ensures isOpen == (old(isOpen) && o.Threw?)
    {
      o := NextClose();
      closeAttempts := closeAttempts + 1;
      if o.Done? {
        isOpen := false;
      }
    }
  }

  /** `String(error)` for an error, as `Error.prototype.toString` forms it:
      the name and the message joined by `": "`, or whichever of the two is
      not empty. */
  function ErrorString(cause: DError): (s: string)
    ensures cause.name == "" ==> s == cause.message
    ensures cause.message == "" ==> s == cause.name
    ensures cause.name != "" && cause.message != "" ==>
      |s| == |cause.name| + 2 + |cause.message| && s[..|cause.name|] == cause.name
      && s[|cause.name|..|cause.name| + 2] == ": " && s[|cause.name| + 2..] == cause.message
  {
    if cause.name == "" then cause.message
    else if cause.message == "" then cause.name
    else cause.name + ": " + cause.message
  }

  /** The error a failed slave run reports: `new DullahanError(error)`. The
      cause is handed to `Error` as the message, so it is read as a string:
      the cause's message follows its name, and stands alone only when the
      name is empty. */
  function AsDullahanError(cause: DError): (e: DError)
    ensures e.name == "DullahanError"
    ensures e.message == ErrorString(cause)
    ensures cause.name != "" ==> e.message != cause.message
    ensures cause.message != "" ==> e.message[|e.message| - |cause.message|..] == cause.message
  {
    DError("DullahanError", ErrorString(cause))
  }

  /** The first of opening the browser, running the test body and closing
      the browser that throws; None when all three complete. */
  function SlaveFailure(open: Outcome, run: Outcome, close: Outcome): (f: Option<DError>)
    ensures f.None? <==> open.Done? && run.Done? && close.Done?
    ensures open.Threw? ==> f == Some(open.error)
    ensures open.Done? && run.Threw? ==> f == Some(run.error)
  {
    if open.Threw? then Some(open.error)
    else if run.Threw? then Some(run.error)
    else if close.Threw? then Some(close.error)
    else None
  }

  /** `tryIgnore(1, …)` around "screenshot if the browser is open": at most
      one attempt, made only while the browser is open; failures are
      swallowed. */
  method TryScreenshot(browser: Browser)
    modifies browser`screenshotAttempts
    ensures browser.screenshotAttempts == old(browser.screenshotAttempts) + (if browser.isOpen then 1 else 0)
  {
    var open := browser.IsBrowserOpen();
    if open {
      var _ := browser.ScreenshotPage();
    }
  }

  /** `tryIgnore(3, …)` around "close if the browser is open": up to three
      attempts, each only while the browser is open, ending at the first
      one that completes; failures are swallowed. Afterwards the browser is
      closed unless it was open and all three attempts threw. */
  method TryClose(browser: Browser)
    modifies browser`isOpen, browser`closeAttempts
    ensures browser.closeAttempts <= old(browser.closeAttempts) + 3
    ensures !old(browser.isOpen) ==> browser.closeAttempts == old(browser.closeAttempts) && !browser.isOpen
    ensures browser.isOpen ==> browser.closeAttempts == old(browser.closeAttempts) + 3
    ensures browser.isOpen ==> forall k :: old(browser.closeAttempts) <= k < browser.closeAttempts ==> browser.CloseThrows(k)
  {
    var attempt := 0;
    ghost var start := browser.closeAttempts;
    while attempt < 3
      invariant 0 <= attempt <= 3
      invariant browser.closeAttempts == start + attempt
      invariant !old(browser.isOpen) ==> attempt == 0 && !browser.isOpen
      invariant attempt > 0 ==> browser.isOpen
      invariant forall k :: start <= k < start + attempt ==> browser.CloseThrows(k)
      decreases 3 - attempt
    {
      var open := browser.IsBrowserOpen();
      if !open {
        return;
      }
      var o := browser.CloseBrowser();
      if o.Done? {
        return;
      }
      attempt := attempt + 1;
    }
  }

  class Runner {
    /** Options, slave options and the remote function. */
    const ctx: Context
    var includeGlobs: seq<string>
    var hasStopSignal: bool
    /** Everything emitted to the client, in order. */
    var events: seq<Event>
    /** The tasks the master loop has finished with, in order. */
    ghost var settled: seq<Settled>

    constructor (ctx: Context, includeGlobs: seq<string>)
      ensures this.ctx == ctx && this.includeGlobs == includeGlobs
      ensures !hasStopSignal && events == [] && settled == []
    {
      this.ctx, this.includeGlobs := ctx, includeGlobs;
      hasStopSignal, events, settled := false, [], [];
    }

    /** `processFile`: invoke the slave with the envelope for `file`, replay
        its result into the client and report whether the test-end call has
        no error. `attempt` is the number of attempts the task made before;
        None stands for a rejected promise, which emits nothing. */
    method ProcessFile(file: string, attempt: nat) returns (success: Option<bool>)
      modifies this`events
      ensures var reply := ctx.remote(EncodeEnvelope(ctx.slaveOptions, file), attempt);
        && events == old(events) + ReplayOf(reply)
        && success == (if reply.Some? then Some(reply.value.test.error.None?) else None)
    {
      var payload := EncodeEnvelope(ctx.slaveOptions, file);
      var reply := ctx.remote(payload, attempt);
      if reply.None? {
        return None;
      }
      var result := reply.value;
      ghost var before := events;
      events := events + [TestStarted(StartOf(result.test))];
      EmitFunctionStarts(result.calls);
      EmitFunctionEnds(result.calls);
      events := events + [TestEnded(result.test)];
      success := Some(result.test.error.None?);
      assert events == before + Replay(result) by {
        ReplayUnfolds(before, result);
      }
    }

    /** `calls.forEach(emitFunctionStart)`. */
    method EmitFunctionStarts(calls: seq<FunctionEndCall>)
      modifies this`events
      ensures events == old(events) + FunctionStarts(calls)
    {
      var i := 0;
      while i < |calls|
        invariant 0 <= i <= |calls|
        invariant events == old(events) + FunctionStarts(calls[..i])
      {
        assert FunctionStarts(calls[..i + 1]) == FunctionStarts(calls[..i]) + [FunctionStarted(calls[i])];
        events := events + [FunctionStarted(calls[i])];
        i := i + 1;
      }
      assert calls[..i] == calls;
    }

    /** `calls.forEach(emitFunctionEnd)`. */
    method EmitFunctionEnds(calls: seq<FunctionEndCall>)
      modifies this`events
      ensures events == old(events) + FunctionEnds(calls)
    {
      var i := 0;
      while i < |calls|
        invariant 0 <= i <= |calls|
        invariant events == old(events) + FunctionEnds(calls[..i])
      {
        assert FunctionEnds(calls[..i + 1]) == FunctionEnds(calls[..i]) + [FunctionEnded(calls[i])];
        events := events + [FunctionEnded(calls[i])];
        i := i + 1;
      }
      assert calls[..i] == calls;
    }

    /** The pool callback for one task: skip when the stop signal is up,
        otherwise attempt, count, and re-enqueue, settle or raise the stop
        signal. Returns the next pool with the task pushed if it is retried. */
    method RunTask(t: Task, nextPool: seq<Task>) returns (pool: seq<Task>)
      modifies this`hasStopSignal, this`events, this`settled
      ensures var p := Step(ctx, t, old(hasStopSignal));
        && pool == nextPool + p.next
        && hasStopSignal == p.stop
        && events == old(events) + p.events
        && settled == old(settled) + p.settled
    {
      pool := nextPool;
      if hasStopSignal {
        return;
      }
      ghost var reply := ctx.remote(EncodeEnvelope(ctx.slaveOptions, t.file), Attempts(t));
      var outcome := ProcessFile(t.file, Attempts(t));
      var success := outcome == Some(true);
      var task := if success then t.(successes := t.successes + 1) else t.(failures := t.failures + 1);
      assert task == AfterAttempt(ctx, t);
      ghost var v := Decide(ctx.cfg, task);
      assert Step(ctx, t, false) == Progress(
        if v == Retry then [task] else [],
        v == FailedFinal && ctx.cfg.failFast,
        ReplayOf(reply),
        if v == Retry then [] else [Settled(task, v)]);
      if task.successes >= ctx.cfg.minSuccesses {
        assert v == Succeeded;
        settled := settled + [Settled(task, Succeeded)];
        return;
      }
      var hasMoreAttempts := task.successes + task.failures < ctx.cfg.maxAttempts;
      var couldStillPass := ctx.cfg.maxAttempts - task.failures >= ctx.cfg.minSuccesses;
      if hasMoreAttempts && couldStillPass {
        assert v == Retry;
        pool := pool + [task];
      } else {
        assert v == FailedFinal;
        settled := settled + [Settled(task, FailedFinal)];
        if ctx.cfg.failFast {
          hasStopSignal := true;
        }
      }
    }

    /** One round: splice the whole pool out as the batch and run every task
        of it in order. Returns the pool the round pushed. */
    method RunRound(currentPool: seq<Task>) returns (nextPool: seq<Task>)
      modifies this`hasStopSignal, this`events, this`settled
      ensures var r := Round(ctx, currentPool, old(hasStopSignal));
        && nextPool == r.next
        && hasStopSignal == r.stop
        && events == old(events) + r.events
        && settled == old(settled) + r.settled
    {
      nextPool := [];
      ghost var stop0 := hasStopSignal;
      ghost var e0, s0 := events, settled;
      ghost var r := Progress([], stop0, [], []);
      var i := 0;
      while i < |currentPool|
        invariant 0 <= i <= |currentPool|
        invariant r == Round(ctx, currentPool[..i], stop0)
        invariant nextPool == r.next && hasStopSignal == r.stop
        invariant events == e0 + r.events && settled == s0 + r.settled
      {
        ghost var st := Step(ctx, currentPool[i], r.stop);
        RoundPrefix(ctx, currentPool, i, stop0);
        nextPool := RunTask(currentPool[i], nextPool);
        AppendAssoc(e0, r.events, st.events);
        AppendAssoc(s0, r.settled, st.settled);
        r := Progress(r.next + st.next, st.stop, r.events + st.events, r.settled + st.settled);
        i := i + 1;
      }
      assert currentPool[..i] == currentPool;
    }

    /** `startMaster`: default the include globs, select the test files, and
        run rounds until the pool is empty or the stop signal is up. */
    method StartMaster(glob: Glob, rootDirectories: seq<string>, excludeGlobs: seq<string>,
                       includeRegexes: seq<Matcher>, excludeRegexes: seq<Matcher>,
                       lookup: string -> Option<TestInstance>, accept: (string, DullahanTest) -> bool)
      modifies this`includeGlobs, this`hasStopSignal, this`events, this`settled
      ensures includeGlobs == if old(includeGlobs) == [] then [MatchAll] else old(includeGlobs)
      ensures var files := SelectTestFiles(Search(glob, rootDirectories, includeGlobs, excludeGlobs),
                                           includeRegexes, excludeRegexes, lookup, accept);
        var m := Master(ctx, InitialPool(files), old(hasStopSignal));
        && hasStopSignal == m.stop
        && events == old(events) + m.events
        && settled == old(settled) + m.settled
    {
      if |includeGlobs| == 0 {
        includeGlobs := includeGlobs + [MatchAll];
        assert includeGlobs == [MatchAll];
      }
      var searchResults := Search(glob, rootDirectories, includeGlobs, excludeGlobs);
      var testFiles := SelectTestFiles(searchResults, includeRegexes, excludeRegexes, lookup, accept);
      var nextPool := InitialPool(testFiles);

      ghost var globs := includeGlobs;
      ghost var m := Master(ctx, nextPool, hasStopSignal);
      ghost var e0, s0 := events, settled;
      ghost var r := Round(ctx, nextPool, hasStopSignal);
      MasterUnfolds(ctx, nextPool, hasStopSignal);
      nextPool := RunRound(nextPool);
      ghost var done := Progress(nextPool, hasStopSignal, r.events, r.settled);
      while nextPool != [] && !hasStopSignal
        invariant includeGlobs == globs
        invariant done.next == nextPool && done.stop == hasStopSignal
        invariant events == e0 + done.events && settled == s0 + done.settled
        invariant m == Then(done, Continue(ctx, nextPool, hasStopSignal))
        decreases Budget(ctx.cfg, nextPool)
      {
        r := Round(ctx, nextPool, hasStopSignal);
        MasterUnfolds(ctx, nextPool, hasStopSignal);
        RoundShrinksBudget(ctx, nextPool, hasStopSignal);
        ThenAssoc(done, r, Continue(ctx, r.next, r.stop));
        nextPool := RunRound(nextPool);
        AppendAssoc(e0, done.events, r.events);
        AppendAssoc(s0, done.settled, r.settled);
        done := Then(done, r);
      }
      assert Continue(ctx, nextPool, hasStopSignal) == Progress(nextPool, hasStopSignal, [], []);
      assert done.events + [] == done.events && done.settled + [] == done.settled;
    }

    /** `startSlave`: run the one test the slave options name. With no test
        instance nothing happens. Otherwise a test start, then exactly one
        test end: without an error when opening, running and closing all
        complete; with the first error otherwise. After a failure one
        screenshot is attempted if the browser is open, and closing is
        retried until the browser is closed or three attempts have thrown. */
    method StartSlave(file: string, lookup: string -> Option<TestInstance>, run: Outcome,
                      browser: Browser, timeStart: int, timeEnd: int)
      modifies this`events, browser`isOpen, browser`screenshotAttempts, browser`closeAttempts
      ensures lookup(file).None? ==> events == old(events) && unchanged(browser)
      ensures lookup(file).Some? ==>
        var inst := lookup(file).value;
        var failure := SlaveFailure(browser.openOutcome, run, old(browser.NextClose()));
        events == old(events) + [
          TestStarted(TestStartCall(inst.testId, inst.test.name, timeStart)),
          TestEnded(TestEndCall(inst.testId, inst.test.name, timeStart, timeEnd,
                                if failure.None? then None else Some(AsDullahanError(failure.value)), None))]
      ensures lookup(file).Some? && SlaveFailure(browser.openOutcome, run, old(browser.NextClose())).None? ==>
        && !browser.isOpen
        && browser.screenshotAttempts == old(browser.screenshotAttempts)
        && browser.closeAttempts == old(browser.closeAttempts) + 1
      ensures lookup(file).Some? && SlaveFailure(browser.openOutcome, run, old(browser.NextClose())).Some? ==>
        && browser.screenshotAttempts == old(browser.screenshotAttempts) + (if old(browser.isOpen) || browser.openOutcome.Done? then 1 else 0)
        && (browser.isOpen ==>
              && browser.closeAttempts >= old(browser.closeAttempts) + 3
              && forall k :: browser.closeAttempts - 3 <= k < browser.closeAttempts ==> browser.CloseThrows(k))
      ensures browser.screenshotAttempts <= old(browser.screenshotAttempts) + 1
      ensures browser.closeAttempts <= old(browser.closeAttempts) + 4
      ensures !old(browser.isOpen) && browser.openOutcome.Threw? ==>
        && !browser.isOpen
        && browser.screenshotAttempts == old(browser.screenshotAttempts)
        && browser.closeAttempts == old(browser.closeAttempts)
    {
      var instance := lookup(file);
      if instance.None? {
        return;
      }
      var inst := instance.value;
      var testName := inst.test.name;
      events := events + [TestStarted(TestStartCall(inst.testId, testName, timeStart))];

      var failure: Option<DError> := None;
      var o := browser.OpenBrowser();
      if o.Threw? {
        failure := Some(o.error);
      } else if run.Threw? {
        failure := Some(run.error);
      } else {
        o := browser.CloseBrowser();
        if o.Threw? {
          failure := Some(o.error);
        }
      }

      if failure.None? {
        events := events + [TestEnded(TestEndCall(inst.testId, testName, timeStart, timeEnd, None, None))];
      } else {
        events := events + [TestEnded(TestEndCall(inst.testId, testName, timeStart, timeEnd,
                                                  Some(AsDullahanError(failure.value)), None))];
        TryScreenshot(browser);
        TryClose(browser);
      }
    }
  }

  /** Emitting a result's events one group after another is its replay. */
  lemma ReplayUnfolds(before: seq<Event>, r: InvocationResult)
    ensures before + [TestStarted(StartOf(r.test))] + FunctionStarts(r.calls) + FunctionEnds(r.calls) + [TestEnded(r.test)]
      == before + Replay(r)
  {
    AppendFour(before, [TestStarted(StartOf(r.test))], FunctionStarts(r.calls), FunctionEnds(r.calls), [TestEnded(r.test)]);
  }

  lemma AppendFour<T>(w: seq<T>, a: seq<T>, b: seq<T>, c: seq<T>, d: seq<T>)
    ensures w + a + b + c + d == w + (a + b + c + d)
  {
  }

  /** Appending the effects of rounds is associative. */
  lemma ThenAssoc(a: Progress, b: Progress, c: Progress)
    ensures Then(a, Then(b, c)) == Then(Then(a, b), c)
  {
  }
}
