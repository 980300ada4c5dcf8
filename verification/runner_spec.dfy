/** The value-level specification of the AWS Lambda runner: which files are
    selected as tests, how one attempt updates a task and decides its fate,
    what one round and the whole master loop produce, the invocation
    envelope, and the events a returned result is replayed as. The class in
    RunnerAwsLambda executes these steps in place and is proved against
    these functions. */
module RunnerSpec {

  import opened Common
  import opened TestDefinition

  // ---------------------------------------------------------------------
  // Test selection
  // ---------------------------------------------------------------------

  /** A regular expression, by its `test` method. */
  type Matcher = string -> bool

  /** A glob search: root directory, include globs, exclude globs to the
      absolute paths found. */
  type Glob = (string, seq<string>, seq<string>) -> seq<string>

  /** What `client.getTestInstance` yields: the test's id and definition. */
  datatype TestInstance = TestInstance(testId: string, test: DullahanTest)

  /** The include glob an empty include list is given. */
  const MatchAll: string := "**/*"

  /** The glob results of every root directory, flattened in root order. */
  function Search(glob: Glob, roots: seq<string>, includes: seq<string>, excludes: seq<string>): (found: seq<string>)
    ensures roots == [] ==> found == []
    ensures forall f :: f in found <==> exists i :: 0 <= i < |roots| && f in glob(roots[i], includes, excludes)
  {
    if roots == [] then []
    else
      var rest := Search(glob, roots[1..], includes, excludes);
      assert forall i :: 1 <= i < |roots| ==> roots[1..][i - 1] == roots[i];
      glob(roots[0], includes, excludes) + rest
  }

  /** The search keeps root order and duplicates: the results of two runs
      of roots are those of the first followed by those of the second, and
      one root gives exactly its glob results. */
  lemma {:induction false} SearchKeepsOrder(glob: Glob, a: seq<string>, b: seq<string>, includes: seq<string>, excludes: seq<string>)
    ensures Search(glob, a + b, includes, excludes) == Search(glob, a, includes, excludes) + Search(glob, b, includes, excludes)
    ensures forall r :: Search(glob, [r], includes, excludes) == glob(r, includes, excludes)
    decreases |a|
  {
    if a != [] {
      assert (a + b)[1..] == a[1..] + b;
      SearchKeepsOrder(glob, a[1..], b, includes, excludes);
      AppendAssoc(glob(a[0], includes, excludes), Search(glob, a[1..], includes, excludes), Search(glob, b, includes, excludes));
    } else {
      assert a + b == b;
    }
    forall r ensures Search(glob, [r], includes, excludes) == glob(r, includes, excludes) {
      assert [r][1..] == [];
    }
  }

  /** Some regular expression of the list matches the file. */
  predicate SomeMatches(regexes: seq<Matcher>, file: string)
  {
    exists i :: 0 <= i < |regexes| && regexes[i](file)
  }

  /** The file resolves to a test instance and the predicate accepts that test. */
  predicate Accepts(lookup: string -> Option<TestInstance>, accept: (string, DullahanTest) -> bool, file: string)
  {
    lookup(file).Some? && accept(file, lookup(file).value.test)
  }

  /** The regular-expression filter over the flattened glob results. */
  function RegexFilter(files: seq<string>, includes: seq<Matcher>, excludes: seq<Matcher>): (kept: seq<string>)
    ensures forall f :: f in kept <==> f in files && SomeMatches(includes, f) && !SomeMatches(excludes, f)
  {
    if files == [] then []
    else
      (if SomeMatches(includes, files[0]) && !SomeMatches(excludes, files[0]) then [files[0]] else [])
      + RegexFilter(files[1..], includes, excludes)
  }

  /** Resolution and predicate: the files whose instance the predicate accepts. */
  function AcceptFilter(files: seq<string>, lookup: string -> Option<TestInstance>, accept: (string, DullahanTest) -> bool): (kept: seq<string>)
    ensures forall f :: f in kept <==> f in files && Accepts(lookup, accept, f)
  {
    if files == [] then []
    else (if Accepts(lookup, accept, files[0]) then [files[0]] else []) + AcceptFilter(files[1..], lookup, accept)
  }

  /** `testFiles`: the two filters of the selection pipeline, in order. */
  function SelectTestFiles(files: seq<string>, includes: seq<Matcher>, excludes: seq<Matcher>,
                           lookup: string -> Option<TestInstance>, accept: (string, DullahanTest) -> bool): seq<string>
  {
    AcceptFilter(RegexFilter(files, includes, excludes), lookup, accept)
  }

  /** A file is selected iff some include regex matches it, no exclude regex
      does, it resolves to a test instance and the predicate accepts it. */
  lemma SelectedIff(files: seq<string>, includes: seq<Matcher>, excludes: seq<Matcher>,
                    lookup: string -> Option<TestInstance>, accept: (string, DullahanTest) -> bool, f: string)
    ensures f in SelectTestFiles(files, includes, excludes, lookup, accept) <==>
      f in files && SomeMatches(includes, f) && !SomeMatches(excludes, f) && Accepts(lookup, accept, f)
  {
  }

  /** Selection keeps the order of the glob results: it distributes over
      concatenation, so each file is decided on its own and survivors stay
      in place. */
  lemma {:induction false} SelectionKeepsOrder(a: seq<string>, b: seq<string>, includes: seq<Matcher>, excludes: seq<Matcher>,
                                               lookup: string -> Option<TestInstance>, accept: (string, DullahanTest) -> bool)
    ensures SelectTestFiles(a + b, includes, excludes, lookup, accept)
         == SelectTestFiles(a, includes, excludes, lookup, accept) + SelectTestFiles(b, includes, excludes, lookup, accept)
    decreases |a|
  {
    RegexFilterSplits(a, b, includes, excludes);
    AcceptFilterSplits(RegexFilter(a, includes, excludes), RegexFilter(b, includes, excludes), lookup, accept);
  }

  lemma {:induction false} RegexFilterSplits(a: seq<string>, b: seq<string>, includes: seq<Matcher>, excludes: seq<Matcher>)
    ensures RegexFilter(a + b, includes, excludes) == RegexFilter(a, includes, excludes) + RegexFilter(b, includes, excludes)
    decreases |a|
  {
    if a != [] {
      var h := if SomeMatches(includes, a[0]) && !SomeMatches(excludes, a[0]) then [a[0]] else [];
      var x, y := RegexFilter(a[1..], includes, excludes), RegexFilter(b, includes, excludes);
      assert (a + b)[0] == a[0] && (a + b)[1..] == a[1..] + b;
      assert RegexFilter(a + b, includes, excludes) == h + RegexFilter(a[1..] + b, includes, excludes);
      RegexFilterSplits(a[1..], b, includes, excludes);
      assert RegexFilter(a, includes, excludes) == h + x;
      AppendAssoc(h, x, y);
    } else {
      assert a + b == b;
    }
  }

  lemma {:induction false} AcceptFilterSplits(a: seq<string>, b: seq<string>,
                                              lookup: string -> Option<TestInstance>, accept: (string, DullahanTest) -> bool)
    ensures AcceptFilter(a + b, lookup, accept) == AcceptFilter(a, lookup, accept) + AcceptFilter(b, lookup, accept)
    decreases |a|
  {
    if a != [] {
      var h := if Accepts(lookup, accept, a[0]) then [a[0]] else [];
      var x, y := AcceptFilter(a[1..], lookup, accept), AcceptFilter(b, lookup, accept);
      assert (a + b)[0] == a[0] && (a + b)[1..] == a[1..] + b;
      assert AcceptFilter(a + b, lookup, accept) == h + AcceptFilter(a[1..] + b, lookup, accept);
      AcceptFilterSplits(a[1..], b, lookup, accept);
      assert AcceptFilter(a, lookup, accept) == h + x;
      AppendAssoc(h, x, y);
    } else {
      assert a + b == b;
    }
  }

  /** With no include regular expression, no file is selected. */
  lemma {:induction false} NoIncludeRegexSelectsNothing(files: seq<string>, excludes: seq<Matcher>,
                                                        lookup: string -> Option<TestInstance>, accept: (string, DullahanTest) -> bool)
    ensures RegexFilter(files, [], excludes) == []
    ensures SelectTestFiles(files, [], excludes, lookup, accept) == []
    decreases |files|
  {
    if files != [] {
      NoIncludeRegexSelectsNothing(files[1..], excludes, lookup, accept);
    }
  }

  // ---------------------------------------------------------------------
  // Tasks and the quorum decision
  // ---------------------------------------------------------------------

  /** The scheduling record of one test file. */
  datatype Task = Task(file: string, successes: nat, failures: nat)

  function Attempts(t: Task): nat
  {
    t.successes + t.failures
  }

  /** The options the master loop reads. They are not validated by the
      runner, so any integers are allowed. */
  datatype Config = Config(minSuccesses: int, maxAttempts: int, failFast: bool)

  /** The first pool: one fresh record per selected file, in order. */
  function InitialPool(files: seq<string>): (pool: seq<Task>)
    ensures |pool| == |files|
    ensures forall i :: 0 <= i < |files| ==> pool[i].file == files[i] && Attempts(pool[i]) == 0
  {
    seq(|files|, i requires 0 <= i < |files| => Task(files[i], 0, 0))
  }

  /** `success ? successes++ : failures++`. */
  function Record(t: Task, success: bool): (r: Task)
    ensures r.file == t.file
    ensures Attempts(r) == Attempts(t) + 1
    ensures success ==> r.successes == t.successes + 1 && r.failures == t.failures
    ensures !success ==> r.failures == t.failures + 1 && r.successes == t.successes
  {
    if success then t.(successes := t.successes + 1) else t.(failures := t.failures + 1)
  }

  /** What becomes of a task after an attempt has been recorded. */
  datatype Verdict = Succeeded | Retry | FailedFinal

  /** A task may be attempted again: quorum not reached, attempts left, and
      quorum still reachable with the attempts left. */
  predicate Retryable(cfg: Config, t: Task)
  {
    t.successes < cfg.minSuccesses
    && Attempts(t) < cfg.maxAttempts
    && cfg.maxAttempts - t.failures >= cfg.minSuccesses
  }

  /** The decision of the pool callback after the counter update. */
  function Decide(cfg: Config, t: Task): (v: Verdict)
    ensures v == Succeeded <==> t.successes >= cfg.minSuccesses
    ensures v == Retry <==> Retryable(cfg, t)
    ensures v == FailedFinal <==>
      t.successes < cfg.minSuccesses && (Attempts(t) >= cfg.maxAttempts || cfg.maxAttempts - t.failures < cfg.minSuccesses)
  {
    if t.successes >= cfg.minSuccesses then Succeeded
    else if Attempts(t) < cfg.maxAttempts && cfg.maxAttempts - t.failures >= cfg.minSuccesses then Retry
    else FailedFinal
  }

  /** The worked scenarios: quorum 1 of 1 failing once; quorum 2 of 3 with
      fail, pass, pass; quorum 2 of 2 failing first, which settles at once
      because two successes are no longer reachable in the one attempt left. */
  lemma QuorumScenarios(f: string)
    ensures var c := Config(1, 1, false); var t := Record(Task(f, 0, 0), false);
      Decide(c, t) == FailedFinal && Attempts(t) == 1
    ensures var c := Config(2, 3, false);
      var t1 := Record(Task(f, 0, 0), false); var t2 := Record(t1, true); var t3 := Record(t2, true);
      Decide(c, t1) == Retry && Decide(c, t2) == Retry && Decide(c, t3) == Succeeded && Attempts(t3) == 3
    ensures var c := Config(2, 2, false);
      var t1 := Record(Task(f, 0, 0), false);
      Decide(c, t1) == FailedFinal && Attempts(t1) == 1
  {
  }

  // ---------------------------------------------------------------------
  // The invocation envelope and the replay of a result
  // ---------------------------------------------------------------------

  /** A JSON document. `JText` is a JSON string whose characters are
      themselves a serialized document, which is how the envelope nests. */
  datatype Json =
    | JNull
    | JBool(b: bool)
    | JNum(n: int)
    | JStr(s: string)
    | JArr(items: seq<Json>)
    | JObj(fields: map<string, Json>)
    | JText(text: JsonText)

  /** Serialized JSON, kept abstract: the characters are not modelled. */
  datatype JsonText = JsonText(doc: Json)

  function Stringify(j: Json): JsonText
  {
    JsonText(j)
  }

  function Parse(t: JsonText): Json
  {
    t.doc
  }

  /** The payload of `lambda.invoke`: `{body: stringify({...slaveOptions, file})}`,
      stringified again. */
  function EncodeEnvelope(slaveOptions: map<string, Json>, file: string): (payload: JsonText)
    ensures DecodeEnvelope(payload) == Some(slaveOptions["file" := JStr(file)])
  {
    Stringify(JObj(map["body" := JText(Stringify(JObj(slaveOptions["file" := JStr(file)])))]))
  }

  /** The slave side: parse the payload, then parse its body. */
  function DecodeEnvelope(payload: JsonText): Option<map<string, Json>>
  {
    match Parse(payload)
    case JObj(outer) =>
      if "body" in outer && outer["body"].JText? then
        match Parse(outer["body"].text)
        case JObj(body) => Some(body)
        case _ => None
      else None
    case _ => None
  }

  /** The decoded body names the task's file, whatever `slaveOptions` held
      under that key, and keeps every other option unchanged. */
  lemma EnvelopeCarriesFile(slaveOptions: map<string, Json>, file: string)
    ensures var body := DecodeEnvelope(EncodeEnvelope(slaveOptions, file));
      && body.Some?
      && body.value.Keys == slaveOptions.Keys + {"file"}
      && body.value["file"] == JStr(file)
      && forall k :: k in slaveOptions && k != "file" ==> body.value[k] == slaveOptions[k]
  {
  }

  /** The result a slave returns, after both parses: its test-end call and
      the function-end calls of its steps, in execution order. */
  datatype InvocationResult = InvocationResult(test: TestEndCall, calls: seq<FunctionEndCall>)

  /** What a remote invocation yields for a payload and the number of
      attempts the task has made before: a result, or None when the invoke
      or a parse rejects. */
  type Remote = (JsonText, nat) -> Option<InvocationResult>

  function FunctionStarts(calls: seq<FunctionEndCall>): (es: seq<Event>)
    ensures |es| == |calls|
    ensures forall i :: 0 <= i < |calls| ==> es[i] == FunctionStarted(calls[i])
  {
    seq(|calls|, i requires 0 <= i < |calls| => FunctionStarted(calls[i]))
  }

  function FunctionEnds(calls: seq<FunctionEndCall>): (es: seq<Event>)
    ensures |es| == |calls|
    ensures forall i :: 0 <= i < |calls| ==> es[i] == FunctionEnded(calls[i])
  {
    seq(|calls|, i requires 0 <= i < |calls| => FunctionEnded(calls[i]))
  }

  /** The events a returned result is replayed as: test start, a start for
      every step in order, an end for every step in order, test end. */
  function Replay(r: InvocationResult): (es: seq<Event>)
    ensures |es| == 2 * |r.calls| + 2
    ensures es[0] == TestStarted(StartOf(r.test))
    ensures forall i :: 0 <= i < |r.calls| ==> es[1 + i] == FunctionStarted(r.calls[i])
    ensures forall i :: 0 <= i < |r.calls| ==> es[1 + |r.calls| + i] == FunctionEnded(r.calls[i])
    ensures es[|es| - 1] == TestEnded(r.test)
    ensures forall i :: 0 <= i < |es| - 1 ==> !es[i].TestEnded?
  {
    [TestStarted(StartOf(r.test))] + FunctionStarts(r.calls) + FunctionEnds(r.calls) + [TestEnded(r.test)]
  }

  /** The events an invocation leaves behind: none when it rejected. */
  function ReplayOf(reply: Option<InvocationResult>): seq<Event>
  {
    if reply.Some? then Replay(reply.value) else []
  }

  /** The boolean the pool callback receives: `processFile` resolved and the
      test-end call has no error; a rejection is caught as false. */
  predicate Passed(reply: Option<InvocationResult>)
  {
    reply.Some? && reply.value.test.error.None?
  }

  // ---------------------------------------------------------------------
  // One round and the master loop
  // ---------------------------------------------------------------------

  /** Everything an attempt depends on besides the task itself. */
  datatype Context = Context(cfg: Config, slaveOptions: map<string, Json>, remote: Remote)

  /** A task that left the loop, with how it left. */
  datatype Settled = Settled(task: Task, verdict: Verdict)

  /** The effect of some attempts: tasks pushed onto the next pool, the stop
      signal afterwards, events emitted, tasks settled. */
  datatype Progress = Progress(next: seq<Task>, stop: bool, events: seq<Event>, settled: seq<Settled>)

  /** The task once its attempt is counted: a success iff `processFile`
      resolved and the test-end call has no error; a rejected invocation is
      caught and counts as a failure. */
  function AfterAttempt(ctx: Context, t: Task): (done: Task)
    ensures done.file == t.file && Attempts(done) == Attempts(t) + 1
    ensures var reply := ctx.remote(EncodeEnvelope(ctx.slaveOptions, t.file), Attempts(t));
      && (reply.None? ==> done == Record(t, false))
      && (reply.Some? ==> done == Record(t, reply.value.test.error.None?))
  {
    Record(t, Passed(ctx.remote(EncodeEnvelope(ctx.slaveOptions, t.file), Attempts(t))))
  }

  /** The pool callback for one task: nothing once the stop signal is up;
      otherwise the task's replay is emitted and the task is pushed again
      iff it is still retryable, and settled with its verdict otherwise. */
  function Step(ctx: Context, t: Task, stop: bool): (p: Progress)
    ensures stop ==> p == Progress([], true, [], [])
    ensures !stop ==>
      var done := AfterAttempt(ctx, t);
      && p.events == ReplayOf(ctx.remote(EncodeEnvelope(ctx.slaveOptions, t.file), Attempts(t)))
      && (Retryable(ctx.cfg, done) ==> p.next == [done] && p.settled == [])
      && (!Retryable(ctx.cfg, done) ==> p.next == [] && p.settled == [Settled(done, Decide(ctx.cfg, done))])
      && (p.stop <==> ctx.cfg.failFast && Decide(ctx.cfg, done) == FailedFinal)
  {
    if stop then Progress([], true, [], [])
    else
      var reply := ctx.remote(EncodeEnvelope(ctx.slaveOptions, t.file), Attempts(t));
      var done := AfterAttempt(ctx, t);
      var v := Decide(ctx.cfg, done);
      Progress(
        if v == Retry then [done] else [],
        v == FailedFinal && ctx.cfg.failFast,
        ReplayOf(reply),
        if v == Retry then [] else [Settled(done, v)])
  }

  /** One round: every task of the batch, in order, each seeing the stop
      signal the tasks before it left. */
  function Round(ctx: Context, batch: seq<Task>, stop: bool): Progress
    decreases |batch|
  {
    if batch == [] then Progress([], stop, [], [])
    else
      var before := Round(ctx, batch[..|batch| - 1], stop);
      var last := Step(ctx, batch[|batch| - 1], before.stop);
      Progress(before.next + last.next, last.stop, before.events + last.events, before.settled + last.settled)
  }

  /** The attempt budget left to a task, plus one: every task in a pool
      holds at least one unit, and every attempt uses one up. */
  function TaskBudget(cfg: Config, t: Task): (b: nat)
    ensures b >= 1
  {
    (if cfg.maxAttempts > Attempts(t) then cfg.maxAttempts - Attempts(t) else 0) + 1
  }

  function Budget(cfg: Config, pool: seq<Task>): nat
  {
    if pool == [] then 0 else Budget(cfg, pool[..|pool| - 1]) + TaskBudget(cfg, pool[|pool| - 1])
  }

  /** Only retryable tasks reach the next pool: none that has reached the
      quorum, and each with one attempt more than its batch entry. */
  lemma {:induction false} RoundRequeuesOnlyRetryable(ctx: Context, batch: seq<Task>, stop: bool)
    ensures forall t :: t in Round(ctx, batch, stop).next ==> Retryable(ctx.cfg, t)
    ensures forall t :: t in Round(ctx, batch, stop).next ==> t.successes < ctx.cfg.minSuccesses
    ensures forall t :: t in Round(ctx, batch, stop).next ==>
      exists u :: u in batch && u.file == t.file && Attempts(t) == Attempts(u) + 1
    decreases |batch|
  {
    if batch != [] {
      var init := batch[..|batch| - 1];
      RoundRequeuesOnlyRetryable(ctx, init, stop);
      forall t | t in Round(ctx, batch, stop).next
        ensures exists u :: u in batch && u.file == t.file && Attempts(t) == Attempts(u) + 1
      {
        if t in Round(ctx, init, stop).next {
          var u :| u in init && u.file == t.file && Attempts(t) == Attempts(u) + 1;
          assert u in batch;
        } else {
          assert batch[|batch| - 1] in batch;
        }
      }
    }
  }

  /** A task the round reaches before the stop signal is pushed onto the
      next pool when it is still retryable after its attempt. */
  lemma RoundRequeuesRetryable(ctx: Context, batch: seq<Task>, stop: bool, i: nat)
    requires i < |batch| && !Round(ctx, batch[..i], stop).stop
    requires Retryable(ctx.cfg, AfterAttempt(ctx, batch[i]))
    ensures AfterAttempt(ctx, batch[i]) in Round(ctx, batch, stop).next
  {
    var a, b := batch[..i + 1], batch[i + 1..];
    assert a + b == batch;
    RoundSplits(ctx, a, b, stop);
    RoundPrefix(ctx, batch, i, stop);
    var last := Step(ctx, batch[i], false);
    assert Round(ctx, batch, stop).next == Round(ctx, batch[..i], stop).next + last.next + Round(ctx, b, Round(ctx, a, stop).stop).next;
  }

  /** A task the round reaches before the stop signal is settled with its
      verdict when it is no longer retryable after its attempt. */
  lemma RoundSettlesTheRest(ctx: Context, batch: seq<Task>, stop: bool, i: nat)
    requires i < |batch| && !Round(ctx, batch[..i], stop).stop
    requires !Retryable(ctx.cfg, AfterAttempt(ctx, batch[i]))
    ensures Settled(AfterAttempt(ctx, batch[i]), Decide(ctx.cfg, AfterAttempt(ctx, batch[i]))) in Round(ctx, batch, stop).settled
  {
    var a, b := batch[..i + 1], batch[i + 1..];
    assert a + b == batch;
    RoundSplits(ctx, a, b, stop);
    RoundPrefix(ctx, batch, i, stop);
    var last := Step(ctx, batch[i], false);
    assert Round(ctx, batch, stop).settled == Round(ctx, batch[..i], stop).settled + last.settled + Round(ctx, b, Round(ctx, a, stop).stop).settled;
  }

  /** A round that does not stop pushes or settles every task of its batch,
      each exactly once. */
  lemma {:induction false} RoundAccountsForBatch(ctx: Context, batch: seq<Task>, stop: bool)
    ensures !Round(ctx, batch, stop).stop ==> |Round(ctx, batch, stop).next| + |Round(ctx, batch, stop).settled| == |batch|
    decreases |batch|
  {
    if batch != [] {
      var n := |batch| - 1;
      RoundAccountsForBatch(ctx, batch[..n], stop);
    }
  }

  /** Every task the round reaches before the stop signal is accounted for:
      pushed onto the next pool when it is still retryable after its
      attempt, settled with its verdict otherwise. A round that does not
      stop accounts for its whole batch. */
  lemma RoundAccountsForEveryTask(ctx: Context, batch: seq<Task>, stop: bool)
    ensures forall i :: 0 <= i < |batch| && !Round(ctx, batch[..i], stop).stop && Retryable(ctx.cfg, AfterAttempt(ctx, batch[i])) ==>
      AfterAttempt(ctx, batch[i]) in Round(ctx, batch, stop).next
    ensures forall i :: 0 <= i < |batch| && !Round(ctx, batch[..i], stop).stop && !Retryable(ctx.cfg, AfterAttempt(ctx, batch[i])) ==>
      Settled(AfterAttempt(ctx, batch[i]), Decide(ctx.cfg, AfterAttempt(ctx, batch[i]))) in Round(ctx, batch, stop).settled
    ensures !Round(ctx, batch, stop).stop ==> |Round(ctx, batch, stop).next| + |Round(ctx, batch, stop).settled| == |batch|
  {
    forall i | 0 <= i < |batch| && !Round(ctx, batch[..i], stop).stop
      ensures Retryable(ctx.cfg, AfterAttempt(ctx, batch[i])) ==> AfterAttempt(ctx, batch[i]) in Round(ctx, batch, stop).next
      ensures !Retryable(ctx.cfg, AfterAttempt(ctx, batch[i])) ==>
        Settled(AfterAttempt(ctx, batch[i]), Decide(ctx.cfg, AfterAttempt(ctx, batch[i]))) in Round(ctx, batch, stop).settled
    {
      if Retryable(ctx.cfg, AfterAttempt(ctx, batch[i])) {
        RoundRequeuesRetryable(ctx, batch, stop, i);
      } else {
        RoundSettlesTheRest(ctx, batch, stop, i);
      }
    }
    RoundAccountsForBatch(ctx, batch, stop);
  }

  /** Every task of a non-empty round uses up budget: the next pool holds
      strictly less than the batch did. */
  lemma {:induction false} RoundShrinksBudget(ctx: Context, batch: seq<Task>, stop: bool)
    ensures Budget(ctx.cfg, Round(ctx, batch, stop).next) + |batch| <= Budget(ctx.cfg, batch)
    decreases |batch|
  {
    if batch != [] {
      var init := batch[..|batch| - 1];
      var before := Round(ctx, init, stop);
      var last := Step(ctx, batch[|batch| - 1], before.stop);
      RoundShrinksBudget(ctx, init, stop);
      var next := before.next + last.next;
      if last.next == [] {
        assert next == before.next;
      } else {
        assert next[..|next| - 1] == before.next;
      }
    }
  }

  /** Once the stop signal is up, a round invokes nothing, changes no
      counter and pushes nothing. */
  lemma {:induction false} StoppedRoundIsInert(ctx: Context, batch: seq<Task>)
    ensures Round(ctx, batch, true) == Progress([], true, [], [])
    decreases |batch|
  {
    if batch != [] {
      StoppedRoundIsInert(ctx, batch[..|batch| - 1]);
    }
  }

  /** The stop signal after a round is up iff it was up before, or fail-fast
      is on and some task of the round settled as failed. */
  lemma {:induction false} RoundStopsOnFailFast(ctx: Context, batch: seq<Task>, stop: bool)
    ensures Round(ctx, batch, stop).stop <==>
      stop || (ctx.cfg.failFast && exists s :: s in Round(ctx, batch, stop).settled && s.verdict == FailedFinal)
    decreases |batch|
  {
    if batch != [] {
      var init := batch[..|batch| - 1];
      RoundStopsOnFailFast(ctx, init, stop);
      var before := Round(ctx, init, stop);
      var last := Step(ctx, batch[|batch| - 1], before.stop);
      if before.stop {
        assert last.settled == [];
      }
    }
  }

  /** One more task at the end of a batch: the round so far, then its step. */
  lemma RoundSnoc(ctx: Context, batch: seq<Task>, t: Task, stop: bool)
    ensures var before := Round(ctx, batch, stop); var last := Step(ctx, t, before.stop);
      Round(ctx, batch + [t], stop) == Progress(before.next + last.next, last.stop, before.events + last.events, before.settled + last.settled)
  {
    assert (batch + [t])[..|batch|] == batch;
  }

  /** `RoundSnoc` for a prefix of one pool, growing by one task. */
  lemma RoundPrefix(ctx: Context, pool: seq<Task>, i: nat, stop: bool)
    requires i < |pool|
    ensures var before := Round(ctx, pool[..i], stop); var last := Step(ctx, pool[i], before.stop);
      Round(ctx, pool[..i + 1], stop) == Progress(before.next + last.next, last.stop, before.events + last.events, before.settled + last.settled)
  {
    assert pool[..i + 1] == pool[..i] + [pool[i]];
    RoundSnoc(ctx, pool[..i], pool[i], stop);
  }

  /** Splitting a batch: the tasks after a prefix see the stop signal the
      prefix left. */
  lemma {:induction false} RoundSplits(ctx: Context, a: seq<Task>, b: seq<Task>, stop: bool)
    ensures var ra := Round(ctx, a, stop); var rb := Round(ctx, b, ra.stop);
      Round(ctx, a + b, stop) == Progress(ra.next + rb.next, rb.stop, ra.events + rb.events, ra.settled + rb.settled)
    decreases |b|
  {
    var ra := Round(ctx, a, stop);
    if b == [] {
      assert a + b == a;
    } else {
      var init, t := b[..|b| - 1], b[|b| - 1];
      assert a + b == (a + init) + [t];
      assert b == init + [t];
      RoundSplits(ctx, a, init, stop);
      RoundSnoc(ctx, a + init, t, stop);
      RoundSnoc(ctx, init, t, ra.stop);
      var rInit := Round(ctx, init, ra.stop);
      ProgressAppendAssoc(ra, rInit, Step(ctx, t, rInit.stop));
    }
  }

  /** Appending progress is associative. */
  lemma ProgressAppendAssoc(x: Progress, y: Progress, z: Progress)
    ensures var xy := Progress(x.next + y.next, y.stop, x.events + y.events, x.settled + y.settled);
      Progress(xy.next + z.next, z.stop, xy.events + z.events, xy.settled + z.settled)
      == Progress(x.next + (y.next + z.next), z.stop, x.events + (y.events + z.events), x.settled + (y.settled + z.settled))
  {
  }

  /** Fail-fast within a round: once the tasks before position i have raised
      the stop signal, the rest of the batch adds nothing. */
  lemma FailFastSkipsRest(ctx: Context, batch: seq<Task>, stop: bool, i: nat)
    requires i <= |batch|
    requires Round(ctx, batch[..i], stop).stop
    ensures Round(ctx, batch, stop) == Round(ctx, batch[..i], stop)
  {
    assert batch == batch[..i] + batch[i..];
    RoundSplits(ctx, batch[..i], batch[i..], stop);
    StoppedRoundIsInert(ctx, batch[i..]);
  }

  /** The pool invariant: every task is fresh or retryable. */
  predicate PoolInvariant(cfg: Config, pool: seq<Task>)
  {
    forall t :: t in pool ==> Attempts(t) == 0 || Retryable(cfg, t)
  }

  /** A settled task is settled for good: it either reached the quorum or can
      no longer be retried, and never exceeds the attempt ceiling when the
      ceiling is at least one. */
  predicate SettledWell(cfg: Config, s: Settled)
  {
    && s.verdict != Retry
    && (s.verdict == Succeeded <==> s.task.successes >= cfg.minSuccesses)
    && !Retryable(cfg, s.task)
    && (cfg.maxAttempts >= 1 ==> Attempts(s.task) <= cfg.maxAttempts)
  }

  lemma {:induction false} RoundSettlesWell(ctx: Context, batch: seq<Task>, stop: bool)
    requires PoolInvariant(ctx.cfg, batch)
    ensures forall s :: s in Round(ctx, batch, stop).settled ==> SettledWell(ctx.cfg, s)
    decreases |batch|
  {
    if batch != [] {
      var init := batch[..|batch| - 1];
      assert PoolInvariant(ctx.cfg, init) by {
        forall t | t in init ensures t in batch { assert t == batch[..|batch| - 1][IndexIn(init, t)]; }
      }
      RoundSettlesWell(ctx, init, stop);
      assert batch[|batch| - 1] in batch;
    }
  }

  /** A position at which an element of a sequence occurs. */
  function IndexIn(s: seq<Task>, t: Task): (i: nat)
    requires t in s
    ensures i < |s| && s[i] == t
  {
    if s[0] == t then 0 else 1 + IndexIn(s[1..], t)
  }

  /** The master loop: a round, and further rounds while the next pool is
      non-empty and no stop signal is up. `next` is the pool left over. */
  function Master(ctx: Context, pool: seq<Task>, stop: bool): Progress
    decreases Budget(ctx.cfg, pool)
  {
    var r := Round(ctx, pool, stop);
    if r.next != [] && !r.stop then
      RoundShrinksBudget(ctx, pool, stop);
      Then(r, Master(ctx, r.next, r.stop))
    else r
  }

  /** The rounds that follow a round ending with this pool and stop signal. */
  function Continue(ctx: Context, pool: seq<Task>, stop: bool): Progress
  {
    if pool != [] && !stop then Master(ctx, pool, stop) else Progress(pool, stop, [], [])
  }

  /** Sequential composition: the later part decides the pool left over and
      the stop signal. */
  function Then(a: Progress, b: Progress): Progress
  {
    Progress(b.next, b.stop, a.events + b.events, a.settled + b.settled)
  }

  /** The loop as a round followed by whatever that round leaves to do. */
  lemma MasterUnfolds(ctx: Context, pool: seq<Task>, stop: bool)
    ensures var r := Round(ctx, pool, stop); Master(ctx, pool, stop) == Then(r, Continue(ctx, r.next, r.stop))
  {
    var r := Round(ctx, pool, stop);
    if !(r.next != [] && !r.stop) {
      assert r.events + [] == r.events && r.settled + [] == r.settled;
    }
  }

  /** The loop ends with an empty pool or with the stop signal up. */
  lemma {:induction false} MasterEnds(ctx: Context, pool: seq<Task>, stop: bool)
    ensures Master(ctx, pool, stop).next == [] || Master(ctx, pool, stop).stop
    decreases Budget(ctx.cfg, pool)
  {
    var r := Round(ctx, pool, stop);
    RoundShrinksBudget(ctx, pool, stop);
    if r.next != [] && !r.stop {
      MasterEnds(ctx, r.next, r.stop);
    }
  }

  /** Every task the loop settles is settled well (quorum verdict, no retry
      left, attempt ceiling kept), starting from any pool that keeps the
      pool invariant, such as the initial one. */
  lemma {:induction false} MasterSettlesWell(ctx: Context, pool: seq<Task>, stop: bool)
    requires PoolInvariant(ctx.cfg, pool)
    ensures forall s :: s in Master(ctx, pool, stop).settled ==> SettledWell(ctx.cfg, s)
    decreases Budget(ctx.cfg, pool)
  {
    var r := Round(ctx, pool, stop);
    RoundShrinksBudget(ctx, pool, stop);
    RoundSettlesWell(ctx, pool, stop);
    if r.next != [] && !r.stop {
      RoundRequeuesOnlyRetryable(ctx, pool, stop);
      MasterSettlesWell(ctx, r.next, r.stop);
    }
  }

  /** With the stop signal already up the loop runs one empty-handed round
      and starts no further one. */
  lemma MasterStoppedIsInert(ctx: Context, pool: seq<Task>)
    ensures Master(ctx, pool, true) == Progress([], true, [], [])
  {
    StoppedRoundIsInert(ctx, pool);
  }

  /** A round that raises the stop signal is the last one. */
  lemma MasterStopsAfterStoppingRound(ctx: Context, pool: seq<Task>, stop: bool)
    requires Round(ctx, pool, stop).stop
    ensures Master(ctx, pool, stop).events == Round(ctx, pool, stop).events
    ensures Master(ctx, pool, stop).settled == Round(ctx, pool, stop).settled
  {
  }

  // ---------------------------------------------------------------------
  // The pool items as declared
  // ---------------------------------------------------------------------

  /** An item of the pool: the file names `testFiles` declares, or the task
      records the callback reads and updates. */
  datatype PoolItem = FileName(name: string) | TaskRecord(task: Task)

  /** How a pool callback ends: it rejects, or it makes progress. */
  datatype CallbackEnd = Rejected | Completed(progress: Progress)

  /** The callback as written, over either kind of item. On a file name,
      `testData.successes++` assigns a property of a string primitive, which
      throws a TypeError in strict-mode code; the rejection ends `asyncPool`
      and with it the master. */
  function PoolCallbackAsWritten(ctx: Context, item: PoolItem, stop: bool): (e: CallbackEnd)
    ensures item.TaskRecord? ==> e == Completed(Step(ctx, item.task, stop))
    ensures e.Rejected? <==> item.FileName? && !stop
  {
    if stop then Completed(Progress([], true, [], []))
    else
      match item
      case TaskRecord(t) => Completed(Step(ctx, t, false))
      case FileName(_) => Rejected
  }

  /** The pool copied from `testFiles` holds file names, and the first
      callback that is not stopped rejects. */
  lemma FileNamePoolRejects(ctx: Context, files: seq<string>)
    requires files != []
    ensures PoolCallbackAsWritten(ctx, FileName(files[0]), false) == Rejected
  {
  }

  /** Over task records built by InitialPool, the first callback performs an
      attempt on a fresh record instead. */
  lemma InitialPoolFirstAttempt(ctx: Context, files: seq<string>)
    requires files != []
    ensures var t := InitialPool(files)[0];
      && PoolCallbackAsWritten(ctx, TaskRecord(t), false).Completed?
      && (ctx.cfg.maxAttempts >= 1 ==>
           forall s :: s in Step(ctx, t, false).settled ==> Attempts(s.task) == 1)
  {
  }
}
