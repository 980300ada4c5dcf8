/** The Slack plugin: the option checks of `start`, and the shaping of the
    results that `processResults` sends (which test-end calls survive, the
    calls attached to each, the links, the previews, and whether anything
    is sent at all). */
module PluginSlack {

  import opened Common

  // ---------------------------------------------------------------------
  // Options and start
  // ---------------------------------------------------------------------

  /** The options the plugin reads. A webhook or channel that is not a string
      is None; `when` is the send policy, `maxPreviews` the argument of
      `slice`. */
  datatype SlackOptions = SlackOptions(webhook: Option<string>, channel: Option<string>, when: string, maxPreviews: int)

  const NoWebhook := "Could not send message to Slack: no webhook"
  const NoChannel := "Could not send message to Slack: no channel"

  /** `start`: the message of the DullahanError it throws, None when it
      completes. The webhook is checked before the channel. */
  function StartError(webhook: Option<string>, channel: Option<string>): (e: Option<string>)
    ensures e.None? <==> webhook.Some? && channel.Some?
    ensures webhook.None? ==> e == Some(NoWebhook)
    ensures webhook.Some? && channel.None? ==> e == Some(NoChannel)
  {
    if webhook.None? then Some(NoWebhook)
    else if channel.None? then Some(NoChannel)
    else None
  }

  // ---------------------------------------------------------------------
  // Sequence helpers
  // ---------------------------------------------------------------------

  /** `Array.prototype.reverse`, as a value. */
  function Reverse<T>(s: seq<T>): (r: seq<T>)
    ensures |r| == |s|
    ensures forall i :: 0 <= i < |s| ==> r[i] == s[|s| - 1 - i]
  {
    seq(|s|, i requires 0 <= i < |s| => s[|s| - 1 - i])
  }

  lemma ReverseAppend<T>(a: seq<T>, b: seq<T>)
    ensures Reverse(a + b) == Reverse(b) + Reverse(a)
  {
    assert forall i :: 0 <= i < |a + b| ==> Reverse(a + b)[i] == (Reverse(b) + Reverse(a))[i];
  }

  /** Reversing twice gives the sequence back. */
  lemma ReverseInvolutive<T>(s: seq<T>)
    ensures Reverse(Reverse(s)) == s
  {
    assert forall i :: 0 <= i < |s| ==> Reverse(Reverse(s))[i] == s[i];
  }

  // ---------------------------------------------------------------------
  // Keeping one test-end call per test
  // ---------------------------------------------------------------------

  predicate HasId(s: seq<TestEndCall>, id: string)
  {
    exists i :: 0 <= i < |s| && s[i].testId == id
  }
  /** No call at positions lo up to hi (exclusive) has the id. */
  predicate NoIdBetween(s: seq<TestEndCall>, lo: nat, hi: nat, id: string)
    requires lo <= hi <= |s|
  {
    forall j :: lo <= j < hi ==> s[j].testId != id
  }

  function FindIndexFrom(s: seq<TestEndCall>, id: string, from: nat): (i: int)
    requires from <= |s|
    ensures i == -1 || from <= i < |s|
    ensures i == -1 <==> NoIdBetween(s, from, |s|, id)
    ensures i >= 0 ==> s[i].testId == id && NoIdBetween(s, from, i, id)
    decreases |s| - from
  {
    if from == |s| then -1
    else if s[from].testId == id then from
    else FindIndexFrom(s, id, from + 1)
  }

  function FindIndex(s: seq<TestEndCall>, id: string): (i: int)
    ensures -1 <= i < |s|
    ensures i == -1 <==> NoIdBetween(s, 0, |s|, id)
    ensures i >= 0 ==> s[i].testId == id && NoIdBetween(s, 0, i, id)
  {
    FindIndexFrom(s, id, 0)
  }

  lemma FindIndexAt(s: seq<TestEndCall>, p: nat)
    requires p < |s|
    ensures FindIndex(s, s[p].testId) == p <==> NoIdBetween(s, 0, p, s[p].testId)
  {
  }

  /** The filter `index === findIndex(same id)` over the first k positions:
      a call survives when no call before it has its id. */
  function FirstOccurrences(s: seq<TestEndCall>, k: nat): seq<TestEndCall>
    requires k <= |s|
  {
    if k == 0 then []
    else FirstOccurrences(s, k - 1) + (if FindIndex(s, s[k - 1].testId) == k - 1 then [s[k - 1]] else [])
  }

  /** Reference definition: the calls after which no call has the same id,
      in input order. */
  function LastOccurrences(s: seq<TestEndCall>): seq<TestEndCall>
  {
    if s == [] then []
    else (if HasId(s[1..], s[0].testId) then [] else [s[0]]) + LastOccurrences(s[1..])
  }

  lemma LaterInReverse(s: seq<TestEndCall>, k: nat)
    requires 1 <= k <= |s|
    ensures NoIdBetween(Reverse(s), 0, k - 1, s[|s| - k].testId) <==> !HasId(s[|s| - k + 1..], s[|s| - k].testId)
  {
    if HasId(s[|s| - k + 1..], s[|s| - k].testId) {
      LaterSeenInReverse(s, k);
    }
    if !NoIdBetween(Reverse(s), 0, k - 1, s[|s| - k].testId) {
      EarlierInReverseIsLater(s, k);
    }
  }

  lemma LaterSeenInReverse(s: seq<TestEndCall>, k: nat)
    requires 1 <= k <= |s|
    requires HasId(s[|s| - k + 1..], s[|s| - k].testId)
    ensures !NoIdBetween(Reverse(s), 0, k - 1, s[|s| - k].testId)
  {
    var n, id := |s|, s[|s| - k].testId;
    var t := s[n - k + 1..];
    var m :| 0 <= m < |t| && t[m].testId == id;
    assert t[m] == s[n - k + 1 + m];
    assert Reverse(s)[k - 2 - m] == s[n - 1 - (k - 2 - m)];
  }

  lemma EarlierInReverseIsLater(s: seq<TestEndCall>, k: nat)
    requires 1 <= k <= |s|
    requires !NoIdBetween(Reverse(s), 0, k - 1, s[|s| - k].testId)
    ensures HasId(s[|s| - k + 1..], s[|s| - k].testId)
  {
    var n, id := |s|, s[|s| - k].testId;
    var t := s[n - k + 1..];
    var j :| 0 <= j < k - 1 && Reverse(s)[j].testId == id;
    assert Reverse(s)[j] == s[n - 1 - j];
    assert t[k - 2 - j] == s[n - 1 - j];
  }

  /** Position k - 1 of the reversed sequence survives the filter exactly
      when its call has no later namesake in the original. */
  lemma KeptInReverse(s: seq<TestEndCall>, k: nat)
    requires 1 <= k <= |s|
    ensures Reverse(s)[k - 1] == s[|s| - k]
    ensures FindIndex(Reverse(s), Reverse(s)[k - 1].testId) == k - 1
      <==> !HasId(s[|s| - k..][1..], s[|s| - k..][0].testId)
  {
    FindIndexAt(Reverse(s), k - 1);
    LaterInReverse(s, k);
    assert s[|s| - k..][1..] == s[|s| - k + 1..];
  }

  lemma SingleReverse(single: seq<TestEndCall>)
    requires |single| <= 1
    ensures Reverse(single) == single
  {
  }

  lemma ReverseSnoc(a: seq<TestEndCall>, single: seq<TestEndCall>, l: seq<TestEndCall>)
    requires |single| <= 1
    ensures Reverse(a) == l ==> Reverse(a + single) == single + l
  {
    ReverseAppend(a, single);
    SingleReverse(single);
  }

  /** The call kept from position |s| - k when it has no later namesake. */
  function KeptAt(s: seq<TestEndCall>, k: nat): seq<TestEndCall>
    requires 1 <= k <= |s|
  {
    if !HasId(s[|s| - k + 1..], s[|s| - k].testId) then [s[|s| - k]] else []
  }

  lemma FilterStep(s: seq<TestEndCall>, k: nat)
    requires 1 <= k <= |s|
    ensures FirstOccurrences(Reverse(s), k) == FirstOccurrences(Reverse(s), k - 1) + KeptAt(s, k)
  {
    KeptInReverse(s, k);
    assert s[|s| - k..][1..] == s[|s| - k + 1..];
  }

  lemma LastOccurrencesStep(s: seq<TestEndCall>, k: nat)
    requires 1 <= k <= |s|
    ensures LastOccurrences(s[|s| - k..]) == KeptAt(s, k) + LastOccurrences(s[|s| - (k - 1)..])
  {
    var t := s[|s| - k..];
    assert t[1..] == s[|s| - (k - 1)..];
    assert t[0] == s[|s| - k];
  }

  /** Filtering the first k calls of the reversed input and reversing back
      gives the last occurrences of the input's last k calls. */
  predicate DedupUpTo(s: seq<TestEndCall>, k: nat)
    requires k <= |s|
  {
    Reverse(FirstOccurrences(Reverse(s), k)) == LastOccurrences(s[|s| - k..])
  }

  lemma FirstOccurrencesOfReverseStep(s: seq<TestEndCall>, k: nat)
    requires 1 <= k <= |s| && DedupUpTo(s, k - 1)
    ensures DedupUpTo(s, k)
  {
    FilterStep(s, k);
    LastOccurrencesStep(s, k);
    ReverseSnoc(FirstOccurrences(Reverse(s), k - 1), KeptAt(s, k), LastOccurrences(s[|s| - (k - 1)..]));
  }

  lemma NothingFiltered(s: seq<TestEndCall>)
    ensures DedupUpTo(s, 0)
  {
    assert s[|s| - 0..] == [];
  }

  lemma {:induction false} FirstOccurrencesOfReverse(s: seq<TestEndCall>, k: nat)
    requires k <= |s|
    ensures DedupUpTo(s, k)
    decreases k
  {
    if k == 0 {
      NothingFiltered(s);
    } else {
      FirstOccurrencesOfReverse(s, k - 1);
      FirstOccurrencesOfReverseStep(s, k);
    }
  }

  /** The de-duplication of `processResults` — reverse, keep the first call
      per id, reverse back — is the reference definition. */
  lemma DedupIsLastOccurrences(s: seq<TestEndCall>)
    ensures Reverse(FirstOccurrences(Reverse(s), |s|)) == LastOccurrences(s)
  {
    FirstOccurrencesOfReverse(s, |s|);
    assert s[|s| - |s|..] == s;
  }

  lemma HasIdAppend(a: seq<TestEndCall>, b: seq<TestEndCall>, id: string)
    ensures HasId(a + b, id) <==> HasId(a, id) || HasId(b, id)
  {
    if HasId(a + b, id) {
      var j :| 0 <= j < |a + b| && (a + b)[j].testId == id;
      if j >= |a| { assert b[j - |a|] == (a + b)[j]; }
    }
    if HasId(b, id) {
      var j :| 0 <= j < |b| && b[j].testId == id;
      assert (a + b)[|a| + j] == b[j];
    }
    if HasId(a, id) {
      var j :| 0 <= j < |a| && a[j].testId == id;
      assert (a + b)[j] == a[j];
    }
  }
  lemma {:induction false} LastOccurrencesKeepsIds(s: seq<TestEndCall>, id: string)
    ensures HasId(LastOccurrences(s), id) <==> HasId(s, id)
  {
    if s != [] {
      LastOccurrencesKeepsIds(s[1..], id);
      var head := if HasId(s[1..], s[0].testId) then [] else [s[0]];
      HasIdAppend(head, LastOccurrences(s[1..]), id);
      HasIdAppend([s[0]], s[1..], id);
      assert s == [s[0]] + s[1..];
      if head == [] && s[0].testId == id {
        assert HasId(s[1..], id);
      }
      if head != [] {
        assert HasId(head, id) <==> s[0].testId == id by {
          if s[0].testId == id { assert head[0].testId == id; }
        }
      }
      assert HasId([s[0]], id) <==> s[0].testId == id by {
        if s[0].testId == id { assert [s[0]][0].testId == id; }
      }
    }
  }
  lemma {:induction false} LastOccurrencesDistinct(s: seq<TestEndCall>)
    ensures forall k1, k2 :: 0 <= k1 < k2 < |LastOccurrences(s)| ==>
      LastOccurrences(s)[k1].testId != LastOccurrences(s)[k2].testId
  {
    if s != [] {
      LastOccurrencesDistinct(s[1..]);
      var rest := LastOccurrences(s[1..]);
      if !HasId(s[1..], s[0].testId) {
        LastOccurrencesKeepsIds(s[1..], s[0].testId);
        var r := [s[0]] + rest;
        forall k1, k2 | 0 <= k1 < k2 < |r|
          ensures r[k1].testId != r[k2].testId
        {
          assert r[k2] == rest[k2 - 1];
          if k1 > 0 {
            assert r[k1] == rest[k1 - 1];
          }
        }
      }
    }
  }

  /** `pos` gives, for each call of `out`, a position of `s` holding it
      after which no call has its id; the positions strictly increase. */
  predicate LastPositions(s: seq<TestEndCall>, out: seq<TestEndCall>, pos: seq<nat>)
  {
    && |pos| == |out|
    && (forall k :: 0 <= k < |pos| ==>
          pos[k] < |s| && s[pos[k]] == out[k] && !HasId(s[pos[k] + 1..], s[pos[k]].testId))
    && (forall k1, k2 :: 0 <= k1 < k2 < |pos| ==> pos[k1] < pos[k2])
  }

  /** Each survivor is the last call of the input with its id, and the
      survivors keep the input order. */
  lemma {:induction false} LastOccurrencesInOrder(s: seq<TestEndCall>) returns (pos: seq<nat>)
    ensures LastPositions(s, LastOccurrences(s), pos)
  {
    if s == [] {
      pos := [];
    } else {
      var tail := LastOccurrencesInOrder(s[1..]);
      var shifted := ShiftPositions(s, LastOccurrences(s[1..]), tail);
      if HasId(s[1..], s[0].testId) {
        pos := shifted;
      } else {
        pos := [0] + shifted;
        PrependLast(s, LastOccurrences(s[1..]), shifted);
      }
    }
  }

  /** Positions in the tail, moved one up, are positions in the whole. */
  lemma ShiftPositions(s: seq<TestEndCall>, out: seq<TestEndCall>, tail: seq<nat>) returns (shifted: seq<nat>)
    requires |s| > 0 && LastPositions(s[1..], out, tail)
    ensures LastPositions(s, out, shifted)
    ensures forall k :: 0 <= k < |shifted| ==> 1 <= shifted[k]
  {
    shifted := seq(|tail|, k requires 0 <= k < |tail| => tail[k] + 1);
    forall k | 0 <= k < |shifted|
      ensures shifted[k] < |s| && s[shifted[k]] == out[k]
      ensures !HasId(s[shifted[k] + 1..], s[shifted[k]].testId)
    {
      TailSuffix(s, tail[k]);
    }
    forall k1, k2 | 0 <= k1 < k2 < |shifted|
      ensures shifted[k1] < shifted[k2]
    {
      assert tail[k1] < tail[k2];
    }
  }

  /** Position j of the tail is position j + 1 of the whole, and so are the
      calls after it. */
  lemma TailSuffix(s: seq<TestEndCall>, j: nat)
    requires j + 1 < |s|
    ensures s[1..][j] == s[j + 1]
    ensures s[1..][j + 1..] == s[j + 2..]
  {
  }

  /** A first call with no later namesake goes in front at position 0. */
  lemma PrependLast(s: seq<TestEndCall>, out: seq<TestEndCall>, shifted: seq<nat>)
    requires |s| > 0 && !HasId(s[1..], s[0].testId)
    requires LastPositions(s, out, shifted) && forall k :: 0 <= k < |shifted| ==> 1 <= shifted[k]
    ensures LastPositions(s, [s[0]] + out, [0] + shifted)
  {
    var pos := [0] + shifted;
    assert s[0 + 1..] == s[1..];
    forall k | 0 <= k < |pos|
      ensures pos[k] < |s| && s[pos[k]] == ([s[0]] + out)[k] && !HasId(s[pos[k] + 1..], s[pos[k]].testId)
    {
      if k > 0 { assert pos[k] == shifted[k - 1]; }
    }
  }

  // ---------------------------------------------------------------------
  // Tests with their calls
  // ---------------------------------------------------------------------

  /** A test-end call with the function-end calls attached to it. */
  datatype Test = Test(end: TestEndCall, calls: seq<FunctionEndCall>)

  const MaxResultLength := 1024
  const TruncatedMarker := "<truncated>"

  /** The calls of one test: those with its id, in input order. */
  function CallsOf(dfecs: seq<FunctionEndCall>, testId: string): (calls: seq<FunctionEndCall>)
    ensures |calls| <= |dfecs|
    ensures forall c :: c in calls <==> c in dfecs && c.testId == testId
  {
    if dfecs == [] then []
    else (if dfecs[0].testId == testId then [dfecs[0]] else []) + CallsOf(dfecs[1..], testId)
  }

  /** `filter` keeps order and multiplicity: attaching calls distributes
      over concatenation, and a single call is kept iff it has the id. */
  lemma {:induction false} CallsOfKeepsOrder(a: seq<FunctionEndCall>, b: seq<FunctionEndCall>, testId: string)
    ensures CallsOf(a + b, testId) == CallsOf(a, testId) + CallsOf(b, testId)
    ensures forall c :: CallsOf([c], testId) == if c.testId == testId then [c] else []
    decreases |a|
  {
    if a != [] {
      var h := if a[0].testId == testId then [a[0]] else [];
      var x, y := CallsOf(a[1..], testId), CallsOf(b, testId);
      assert (a + b)[0] == a[0] && (a + b)[1..] == a[1..] + b;
      assert CallsOf(a + b, testId) == h + CallsOf(a[1..] + b, testId);
      CallsOfKeepsOrder(a[1..], b, testId);
      assert CallsOf(a, testId) == h + x;
      AppendAssoc(h, x, y);
    } else {
      assert a + b == b;
    }
    forall c
      ensures CallsOf([c], testId) == if c.testId == testId then [c] else []
    {
      assert [c][1..] == [];
    }
  }

  /** A string result longer than 1024 characters is replaced by the
      marker; everything else about the call is kept. */
  function Truncate(call: FunctionEndCall): (r: FunctionEndCall)
    ensures r.functionId == call.functionId && r.testId == call.testId && r.remoteUrls == call.remoteUrls
    ensures call.functionResult.TextResult? && |call.functionResult.text| > MaxResultLength ==>
      r.functionResult == TextResult(TruncatedMarker)
    ensures !(call.functionResult.TextResult? && |call.functionResult.text| > MaxResultLength) ==> r == call
    ensures r.functionResult.TextResult? ==> |r.functionResult.text| <= MaxResultLength
  {
    if call.functionResult.TextResult? && |call.functionResult.text| > MaxResultLength then
      call.(functionResult := TextResult(TruncatedMarker))
    else call
  }

  function TruncateAll(calls: seq<FunctionEndCall>): (r: seq<FunctionEndCall>)
    ensures |r| == |calls|
    ensures forall i :: 0 <= i < |calls| ==> r[i] == Truncate(calls[i])
  {
    seq(|calls|, i requires 0 <= i < |calls| => Truncate(calls[i]))
  }

  /** The `map` step: the test-end call with its own calls, truncated. */
  function Attach(dtec: TestEndCall, dfecs: seq<FunctionEndCall>): Test
  {
    Test(dtec, TruncateAll(CallsOf(dfecs, dtec.testId)))
  }

  function AttachAll(dtecs: seq<TestEndCall>, dfecs: seq<FunctionEndCall>): (tests: seq<Test>)
    ensures |tests| == |dtecs|
    ensures forall i :: 0 <= i < |dtecs| ==> tests[i] == Attach(dtecs[i], dfecs)
  {
    seq(|dtecs|, i requires 0 <= i < |dtecs| => Attach(dtecs[i], dfecs))
  }

  /** The `tests` of `processResults`, computed over the caller's array
      after `reverse()` has reversed it in place. */
  function TestsOf(reversed: seq<TestEndCall>, dfecs: seq<FunctionEndCall>): seq<Test>
  {
    Reverse(AttachAll(FirstOccurrences(reversed, |reversed|), dfecs))
  }

  /** The tests are the last test-end call of every id, in input order,
      each with exactly its own calls in input order, truncated. */
  lemma TestsAreLastCalls(dtecs: seq<TestEndCall>, dfecs: seq<FunctionEndCall>)
    ensures var tests := TestsOf(Reverse(dtecs), dfecs);
      && |tests| == |LastOccurrences(dtecs)|
      && forall i :: 0 <= i < |tests| ==>
           && tests[i].end == LastOccurrences(dtecs)[i]
           && tests[i].calls == TruncateAll(CallsOf(dfecs, tests[i].end.testId))
  {
    var r := Reverse(dtecs);
    assert |r| == |dtecs|;
    var kept := FirstOccurrences(r, |r|);
    DedupIsLastOccurrences(dtecs);
    var tests := TestsOf(r, dfecs);
    assert tests == Reverse(AttachAll(kept, dfecs));
    forall i | 0 <= i < |tests|
      ensures tests[i].end == Reverse(kept)[i]
    {
    }
  }

  /** No string result in the tests is longer than 1024 characters. */
  lemma TestResultsBounded(reversed: seq<TestEndCall>, dfecs: seq<FunctionEndCall>)
    ensures forall t, c :: t in TestsOf(reversed, dfecs) && c in t.calls && c.functionResult.TextResult? ==>
      |c.functionResult.text| <= MaxResultLength
  {
    var tests := TestsOf(reversed, dfecs);
    forall t, c | t in tests && c in t.calls && c.functionResult.TextResult?
      ensures |c.functionResult.text| <= MaxResultLength
    {
      var k :| 0 <= k < |t.calls| && t.calls[k] == c;
      var i :| 0 <= i < |tests| && tests[i] == t;
    }
  }

  // ---------------------------------------------------------------------
  // Links
  // ---------------------------------------------------------------------

  /** A Slack link `<url|text>`. */
  datatype Link = Link(url: string, text: string)

  const ReportScopePrefix := "dullahan-plugin-report-"
  const ReportMarker := "report-"
  const BrowserstackLabel := "browserstack"

  predicate IsLineTerminator(c: char)
  {
    c == '\n' || c == '\r' || c == '\U{2028}' || c == '\U{2029}'
  }

  /** What `.*` matches: the longest prefix without a line terminator. */
  function UpToLineEnd(s: string): (r: string)
    ensures |r| <= |s| && r == s[..|r|]
    ensures forall i :: 0 <= i < |r| ==> !IsLineTerminator(r[i])
    ensures |r| < |s| ==> IsLineTerminator(s[|r|])
  {
    if s == [] || IsLineTerminator(s[0]) then [] else [s[0]] + UpToLineEnd(s[1..])
  }

  /** The first position at which `part` occurs, at or after `from`. */
  function FindFrom(s: string, part: string, from: nat): (i: Option<nat>)
    requires from <= |s|
    ensures i.Some? ==> from <= i.value <= |s| && StartsWith(s[i.value..], part)
    ensures forall j :: from <= j <= |s| && (i.None? || j < i.value) ==> !StartsWith(s[j..], part)
    decreases |s| - from
  {
    if StartsWith(s[from..], part) then Some(from)
    else if from == |s| then None
    else FindFrom(s, part, from + 1)
  }

  /** `/report-(.*)/.exec(scope)` and its first group: the text after the
      first "report-" up to a line terminator; None without a match. */
  function ReportLabel(scope: string): Option<string>
  {
    match FindFrom(scope, ReportMarker, 0)
    case None => None
    case Some(i) => Some(UpToLineEnd(scope[i + |ReportMarker|..]))
  }

  /** For a report scope the first "report-" is the one that ends the
      prefix, so the label is what follows the prefix, up to a line end. */
  lemma ReportLabelOfReportScope(scope: string)
    requires StartsWith(scope, ReportScopePrefix)
    ensures ReportLabel(scope) == Some(UpToLineEnd(scope[|ReportScopePrefix|..]))
  {
    var at := |ReportScopePrefix| - |ReportMarker|;
    assert scope[at..][..|ReportMarker|] == ReportScopePrefix[at..];
    forall j | 0 <= j < at
      ensures !StartsWith(scope[j..], ReportMarker)
    {
      assert scope[j..][0] == ReportScopePrefix[j];
    }
    assert FindFrom(scope, ReportMarker, 0) == Some(at);
    assert at + |ReportMarker| == |ReportScopePrefix|;
  }

  /** The artifacts that yield a link: a report plugin's scope, a name that
      contains "report", and at least one remote URL. */
  predicate IsReportArtifact(a: StoredArtifact)
  {
    StartsWith(a.scope, ReportScopePrefix) && Contains(a.name, "report") && |a.remoteUrls| > 0
  }

  /** The link of a report artifact: its first URL and its label. */
  function ReportLink(a: StoredArtifact): (l: Link)
    requires IsReportArtifact(a)
    ensures l.url == a.remoteUrls[0]
    ensures l.text == UpToLineEnd(a.scope[|ReportScopePrefix|..])
  {
    ReportLabelOfReportScope(a.scope);
    Link(a.remoteUrls[0], ReportLabel(a.scope).value)
  }

  /** The `filter`/`map` over the artifacts. */
  function ReportLinks(artifacts: seq<StoredArtifact>): (links: seq<Link>)
    ensures |links| <= |artifacts|
    ensures forall l :: l in links <==> exists a :: a in artifacts && IsReportArtifact(a) && l == ReportLink(a)
  {
    if artifacts == [] then []
    else
      var rest := ReportLinks(artifacts[1..]);
      assert forall a :: a in artifacts[1..] ==> a in artifacts;
      assert forall a :: a in artifacts ==> a == artifacts[0] || a in artifacts[1..];
      (if IsReportArtifact(artifacts[0]) then [ReportLink(artifacts[0])] else []) + rest
  }

  /** `filter`/`map` keeps order and multiplicity: the links of two runs
      of artifacts are those of the first followed by those of the second,
      and a single artifact gives its link iff it is a report artifact. */
  lemma {:induction false} ReportLinksKeepOrder(a: seq<StoredArtifact>, b: seq<StoredArtifact>)
    ensures ReportLinks(a + b) == ReportLinks(a) + ReportLinks(b)
    ensures forall x :: ReportLinks([x]) == if IsReportArtifact(x) then [ReportLink(x)] else []
    decreases |a|
  {
    if a != [] {
      var h := if IsReportArtifact(a[0]) then [ReportLink(a[0])] else [];
      var x, y := ReportLinks(a[1..]), ReportLinks(b);
      assert (a + b)[0] == a[0] && (a + b)[1..] == a[1..] + b;
      assert ReportLinks(a + b) == h + ReportLinks(a[1..] + b);
      ReportLinksKeepOrder(a[1..], b);
      assert ReportLinks(a) == h + x;
      AppendAssoc(h, x, y);
    } else {
      assert a + b == b;
    }
    forall x ensures ReportLinks([x]) == if IsReportArtifact(x) then [ReportLink(x)] else [] {
      assert [x][1..] == [];
    }
  }

  /** The BrowserStack build URL is taken when it is a non-empty string. */
  predicate HasBrowserstack(t: Test)
  {
    t.end.browserstackBuildUrl.Some? && t.end.browserstackBuildUrl.value != ""
  }

  /** The URL of the first test that has one. */
  function BrowserstackUrl(tests: seq<Test>): (u: Option<string>)
    ensures u.None? <==> forall i :: 0 <= i < |tests| ==> !HasBrowserstack(tests[i])
    ensures u.Some? ==> exists i :: (0 <= i < |tests| && HasBrowserstack(tests[i])
      && tests[i].end.browserstackBuildUrl == u
      && forall j :: 0 <= j < i ==> !HasBrowserstack(tests[j]))
  {
    if tests == [] then None
    else if HasBrowserstack(tests[0]) then tests[0].end.browserstackBuildUrl
    else
      var u := BrowserstackUrl(tests[1..]);
      assert forall i :: 0 < i < |tests| ==> tests[i] == tests[1..][i - 1];
      u
  }

  /** Every link of the message: the report links, then at most one
      BrowserStack link. */
  function AllLinks(artifacts: seq<StoredArtifact>, tests: seq<Test>): (links: seq<Link>)
    ensures |links| == |ReportLinks(artifacts)| + (if BrowserstackUrl(tests).Some? then 1 else 0)
    ensures links[..|ReportLinks(artifacts)|] == ReportLinks(artifacts)
    ensures BrowserstackUrl(tests).Some? ==> links[|links| - 1] == Link(BrowserstackUrl(tests).value, BrowserstackLabel)
  {
    var bs := BrowserstackUrl(tests);
    ReportLinks(artifacts) + (if bs.Some? then [Link(bs.value, BrowserstackLabel)] else [])
  }

  // ---------------------------------------------------------------------
  // Previews and the send policy
  // ---------------------------------------------------------------------

  /** A failing test's preview: name, error and the screenshot shown beside it. */
  datatype Preview = Preview(testName: string, error: Option<DError>, accessory: Option<string>)

  predicate HasRemoteUrls(c: FunctionEndCall)
  {
    c.remoteUrls.Some? && |c.remoteUrls.value| > 0
  }

  /** The first URL of the last call that has remote URLs (`filter`, `map`,
      `pop`). */
  function Accessory(calls: seq<FunctionEndCall>): (u: Option<string>)
    ensures u.None? <==> forall i :: 0 <= i < |calls| ==> !HasRemoteUrls(calls[i])
    ensures u.Some? ==> exists i :: (0 <= i < |calls| && HasRemoteUrls(calls[i])
      && u.value == calls[i].remoteUrls.value[0]
      && forall j :: i < j < |calls| ==> !HasRemoteUrls(calls[j]))
  {
    if calls == [] then None
    else
      var last := calls[|calls| - 1];
      if HasRemoteUrls(last) then Some(last.remoteUrls.value[0])
      else
        var u := Accessory(calls[..|calls| - 1]);
        assert forall i :: 0 <= i < |calls| - 1 ==> calls[i] == calls[..|calls| - 1][i];
        u
  }

  function PreviewOf(t: Test): (p: Preview)
    ensures p.testName == t.end.testName && p.error == t.end.error && p.accessory == Accessory(t.calls)
  {
    Preview(t.end.testName, t.end.error, Accessory(t.calls))
  }

  /** `s.slice(0, end)`: a negative end counts from the back. */
  function SliceTo<T>(s: seq<T>, end: int): (r: seq<T>)
    ensures |r| <= |s| && r == s[..|r|]
    ensures end >= 0 ==> |r| == if end < |s| then end else |s|
    ensures end < 0 ==> |r| == if |s| + end > 0 then |s| + end else 0
  {
    var stop := if end < 0 then (if |s| + end > 0 then |s| + end else 0) else (if end < |s| then end else |s|);
    s[..stop]
  }

  /** The previews of the failing tests, as many as `slice(0, maxPreviews)`
      keeps: `min(maxPreviews, |failing|)` when that is not negative. */
  function Previews(failing: seq<Test>, maxPreviews: int): (ps: seq<Preview>)
    ensures maxPreviews >= 0 ==> |ps| == if maxPreviews < |failing| then maxPreviews else |failing|
    ensures maxPreviews < 0 ==> |ps| == if |failing| + maxPreviews > 0 then |failing| + maxPreviews else 0
    ensures |ps| <= |failing|
    ensures forall i :: 0 <= i < |ps| ==> ps[i] == PreviewOf(failing[i])
  {
    var shown := SliceTo(failing, maxPreviews);
    seq(|shown|, i requires 0 <= i < |shown| => PreviewOf(shown[i]))
  }

  /** The tests the (not modelled) `isFailingTest` helper accepts, in order. */
  function FilterTests(tests: seq<Test>, isFailing: Test -> bool): (r: seq<Test>)
    ensures |r| <= |tests|
    ensures forall t :: t in r <==> t in tests && isFailing(t)
  {
    if tests == [] then []
    else (if isFailing(tests[0]) then [tests[0]] else []) + FilterTests(tests[1..], isFailing)
  }

  /** `filter` keeps order and multiplicity: the failing tests of two runs
      of tests are those of the first followed by those of the second, and
      a single test is kept iff it is failing. */
  lemma {:induction false} FilterTestsKeepsOrder(a: seq<Test>, b: seq<Test>, isFailing: Test -> bool)
    ensures FilterTests(a + b, isFailing) == FilterTests(a, isFailing) + FilterTests(b, isFailing)
    ensures forall t :: FilterTests([t], isFailing) == if isFailing(t) then [t] else []
    decreases |a|
  {
    if a != [] {
      var h := if isFailing(a[0]) then [a[0]] else [];
      var x, y := FilterTests(a[1..], isFailing), FilterTests(b, isFailing);
      assert (a + b)[0] == a[0] && (a + b)[1..] == a[1..] + b;
      assert FilterTests(a + b, isFailing) == h + FilterTests(a[1..] + b, isFailing);
      FilterTestsKeepsOrder(a[1..], b, isFailing);
      assert FilterTests(a, isFailing) == h + x;
      AppendAssoc(h, x, y);
    } else {
      assert a + b == b;
    }
    forall t
      ensures FilterTests([t], isFailing) == if isFailing(t) then [t] else []
    {
      assert [t][1..] == [];
    }
  }

  /** The send policy. */
  predicate ShouldSend(when: string, failingCount: nat)
  {
    when == "always" || (failingCount == 0 && when == "success") || (failingCount > 0 && when == "failure")
  }

  /** For one run, exactly one of the policies "success" and "failure" sends,
      "always" sends, and any other value never does. */
  lemma SendPolicyCases(failingCount: nat, when: string)
    ensures ShouldSend("success", failingCount) != ShouldSend("failure", failingCount)
    ensures ShouldSend("always", failingCount)
    ensures when != "always" && when != "success" && when != "failure" ==> !ShouldSend(when, failingCount)
    ensures ShouldSend("success", failingCount) <==> failingCount == 0
  {
  }

  // ---------------------------------------------------------------------
  // processResults
  // ---------------------------------------------------------------------

  /** The message posted to the webhook, without its layout. */
  datatype Message = Message(webhook: Option<string>, channel: Option<string>, previews: seq<Preview>, links: seq<Link>)

  /** `dtecs.reverse()`: reverses the caller's array in place. */
  method ReverseInPlace<T>(a: array<T>)
    modifies a
    ensures a[..] == Reverse(old(a[..]))
  {
    var s := a[..];
    forall i | 0 <= i < a.Length {
      a[i] := s[a.Length - 1 - i];
    }
  }

  /** `processResults`: leaves the caller's test-end calls reversed, and
      returns the message it sends, None when the policy sends nothing. */
  method ProcessResults(options: SlackOptions, artifacts: seq<StoredArtifact>, dtecs: array<TestEndCall>,
                        dfecs: seq<FunctionEndCall>, isFailing: Test -> bool) returns (sent: Option<Message>)
    modifies dtecs
    ensures dtecs[..] == Reverse(old(dtecs[..]))
    ensures var tests := TestsOf(dtecs[..], dfecs);
      var failing := FilterTests(tests, isFailing);
      sent == if ShouldSend(options.when, |failing|)
        then Some(Message(options.webhook, options.channel, Previews(failing, options.maxPreviews), AllLinks(artifacts, tests)))
        else None
  {
    ReverseInPlace(dtecs);
    var tests := TestsOf(dtecs[..], dfecs);
    var failingTests := FilterTests(tests, isFailing);
    var links := ReportLinks(artifacts);
    var browserstackBuildUrl := BrowserstackUrl(tests);
    if browserstackBuildUrl.Some? {
      links := links + [Link(browserstackBuildUrl.value, BrowserstackLabel)];
    }
    assert links == AllLinks(artifacts, tests);
    var previews := Previews(failingTests, options.maxPreviews);
    if ShouldSend(options.when, |failingTests|) {
      sent := Some(Message(options.webhook, options.channel, previews, links));
    } else {
      sent := None;
    }
  }
}
