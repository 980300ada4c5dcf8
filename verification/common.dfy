/** Records shared by the runner and the plugins: the calls a test run
    produces, the events a client receives, stored artifacts, and the few
    string operations the sources use. */
module Common {

  datatype Option<+T> = None | Some(value: T)

  /** The value an operation produces, or the message of the DullahanError
      it throws instead. */
  datatype Result<+T> = Ok(value: T) | Fail(message: string)

  /** An error as carried by a test-end call: its name and its message. */
  datatype DError = DError(name: string, message: string)

  /** A test-start call: the fields the slave emits when a test begins. */
  datatype TestStartCall = TestStartCall(testId: string, testName: string, timeStart: int)

  /** A test-end call; `error` is None for a passing attempt. The optional
      BrowserStack build URL is the one the Slack plugin looks for. */
  datatype TestEndCall = TestEndCall(
    testId: string,
    testName: string,
    timeStart: int,
    timeEnd: int,
    error: Option<DError>,
    browserstackBuildUrl: Option<string>)

  /** The value a step of a test returned: none, a string, or anything else. */
  datatype FunctionResult = NoResult | TextResult(text: string) | OtherResult(id: nat)

  /** A function-end call: one step of a test, with the screenshots etc. it stored. */
  datatype FunctionEndCall = FunctionEndCall(
    functionId: string,
    testId: string,
    functionResult: FunctionResult,
    remoteUrls: Option<seq<string>>)

  /** What a client receives through its four emitters. */
  datatype Event =
    | TestStarted(start: TestStartCall)
    | TestEnded(end: TestEndCall)
    | FunctionStarted(call: FunctionEndCall)
    | FunctionEnded(call: FunctionEndCall)

  /** An artifact after storage: where it came from and where it can be fetched. */
  datatype StoredArtifact = StoredArtifact(scope: string, name: string, remoteUrls: seq<string>, data: Option<string>)

  /** The test-start call a test-end call implies. */
  function StartOf(t: TestEndCall): (s: TestStartCall)
    ensures s.testId == t.testId && s.testName == t.testName && s.timeStart == t.timeStart
  {
    TestStartCall(t.testId, t.testName, t.timeStart)
  }

  /** JavaScript's `s.startsWith(prefix)`. */
  predicate StartsWith(s: string, prefix: string)
  {
    |prefix| <= |s| && s[..|prefix|] == prefix
  }

  /** JavaScript's `s.includes(part)`: some suffix of `s` starts with `part`. */
  predicate Contains(s: string, part: string)
    decreases |s|
  {
    StartsWith(s, part) || (|s| > 0 && Contains(s[1..], part))
  }

  /** JavaScript's `s.indexOf(c)` for a single character: -1 when absent. */
  function IndexOf(s: string, c: char): (i: int)
    ensures -1 <= i < |s|
    ensures i == -1 <==> c !in s
    ensures 0 <= i ==> s[i] == c && c !in s[..i]
  {
    if |s| == 0 then -1
    else if s[0] == c then 0
    else
      var j := IndexOf(s[1..], c);
      if j == -1 then -1 else j + 1
  }

  /** Concatenation is associative; stated once for the proofs that
      regroup an appended trace. */
  lemma AppendAssoc<T>(a: seq<T>, b: seq<T>, c: seq<T>)
    ensures a + b + c == a + (b + c)
  {
  }
}
