/** The GitHub reporting plugin: pass/fail counters kept while tests end,
    a commit status, a pull-request comment that is updated rather than
    duplicated, and a pull-request review. The Octokit requests are
    recorded in a log instead of being sent; the open pull request and its
    comments, which the plugin fetches, are parameters. */
module PluginGithub {

  import opened Common

  /** The options the plugin reads. Absent string options are None. */
  datatype GithubOptions = GithubOptions(
    enableStatusChecks: bool,
    enablePullRequestComments: bool,
    enablePullRequestReviews: bool,
    repositoryOwner: Option<string>,
    repositoryName: Option<string>,
    commitHash: Option<string>,
    branchName: Option<string>,
    commitOwner: Option<string>,
    statusName: string,
    statusUrl: string)

  /** Milliseconds of the status-refresh window. */
  const RefreshWindow := 60000

  // ---------------------------------------------------------------------
  // Commit status: state and description
  // ---------------------------------------------------------------------

  datatype StatusState = Pending | Success | Failure

  /** The state posted with a status: pending while no report URL is known,
      then failure when any test failed and success otherwise. */
  function StateOf(url: Option<string>, failed: nat): (s: StatusState)
    ensures s == Pending <==> url.None?
    ensures s == Failure <==> url.Some? && failed != 0
    ensures s == Success <==> url.Some? && failed == 0
  {
    if url.None? then Pending else if failed != 0 then Failure else Success
  }

  function DigitChar(d: nat): (c: char)
    requires d < 10
    ensures '0' <= c <= '9'
  {
    ['0', '1', '2', '3', '4', '5', '6', '7', '8', '9'][d]
  }

  function DigitValue(c: char): (d: nat)
    requires '0' <= c <= '9'
    ensures d < 10 && DigitChar(d) == c
  {
    if c == '0' then 0 else if c == '1' then 1 else if c == '2' then 2
    else if c == '3' then 3 else if c == '4' then 4 else if c == '5' then 5
    else if c == '6' then 6 else if c == '7' then 7 else if c == '8' then 8 else 9
  }

  predicate IsDigits(s: string)
  {
    forall i :: 0 <= i < |s| ==> '0' <= s[i] <= '9'
  }

  /** The decimal text of a number, as a template literal writes it. */
  function NatToString(n: nat): (s: string)
    ensures |s| >= 1 && IsDigits(s)
    decreases n
  {
    if n < 10 then [DigitChar(n)] else NatToString(n / 10) + [DigitChar(n % 10)]
  }

  /** Reads a non-empty run of decimal digits back as a number. */
  function DigitsValue(s: string): (n: nat)
    requires |s| >= 1 && IsDigits(s)
    decreases |s|
  {
    if |s| == 1 then DigitValue(s[0])
    else DigitsValue(s[..|s| - 1]) * 10 + DigitValue(s[|s| - 1])
  }

  lemma DigitRoundTrip(d: nat)
    requires d < 10
    ensures DigitValue(DigitChar(d)) == d
  {
  }

  lemma {:induction false} DigitsValueOfNatToString(n: nat)
    ensures DigitsValue(NatToString(n)) == n
    decreases n
  {
    var s := NatToString(n);
    if n < 10 {
      DigitRoundTrip(n);
    } else {
      assert s == NatToString(n / 10) + [DigitChar(n % 10)];
      assert s[..|s| - 1] == NatToString(n / 10);
      DigitsValueOfNatToString(n / 10);
      DigitRoundTrip(n % 10);
      assert DigitsValue(s) == n / 10 * 10 + n % 10;
    }
  }

  const DescriptionSuffix := " tests have passed"

  /** `"<successes>/<successes + failures> tests have passed"`. */
  function Description(successes: nat, failed: nat): (d: string)
    ensures '/' in d
  {
    NatToString(successes) + "/" + NatToString(successes + failed) + DescriptionSuffix
  }

  /** Partner of Description: the two counts read back from the text. */
  function ParseDescription(d: string): (r: Option<(nat, nat)>)
  {
    var slash := IndexOf(d, '/');
    if slash < 1 || |d| < slash + 2 + |DescriptionSuffix| then None
    else
      var passed := d[..slash];
      var total := d[slash + 1..|d| - |DescriptionSuffix|];
      if d[|d| - |DescriptionSuffix|..] == DescriptionSuffix && IsDigits(passed) && IsDigits(total)
      then Some((DigitsValue(passed), DigitsValue(total)))
      else None
  }

  /** The description states the number of passing tests and the number of
      tests that ended, and nothing else: both are recovered from it. */
  lemma DescriptionRoundTrip(successes: nat, failed: nat)
    ensures ParseDescription(Description(successes, failed)) == Some((successes, successes + failed))
  {
    var a, b := NatToString(successes), NatToString(successes + failed);
    var d := Description(successes, failed);
    assert d == a + "/" + b + DescriptionSuffix;
    assert '/' !in a;
    assert d[..|a|] == a;
    assert d[|a|] == '/';
    assert IndexOf(d, '/') == |a|;
    assert d[|a| + 1..|d| - |DescriptionSuffix|] == b;
    assert d[|d| - |DescriptionSuffix|..] == DescriptionSuffix;
    DigitsValueOfNatToString(successes);
    DigitsValueOfNatToString(successes + failed);
  }

  // ---------------------------------------------------------------------
  // Missing options
  // ---------------------------------------------------------------------

  /** The operations that throw a DullahanError when an option is missing. */
  datatype Operation = SetStatusOperation | CommentOperation | ReviewOperation

  /** The options those operations need. */
  datatype RequiredOption = RepositoryOwner | RepositoryName | CommitHash | BranchName

  /** The DullahanError thrown when `operation` finds `option` missing. */
  datatype GithubError = MissingOption(operation: Operation, option: RequiredOption)

  /** The error's message. */
  function Message(e: GithubError): string
  {
    match e.operation
    case SetStatusOperation => "Could not set status on Github: no " + OptionName(e.option)
    case CommentOperation => "Could not add/update comment on Github: no " + OptionName(e.option)
    case ReviewOperation => "Could not add review on Github: no " + OptionName(e.option)
  }

  function OptionName(option: RequiredOption): string
  {
    match option
    case RepositoryOwner => "repositoryOwner"
    case RepositoryName => "repositoryName"
    case CommitHash => "commitHash"
    case BranchName => "branchName"
  }

  /** The first absent option of three, checked in the order given. */
  function FirstMissing(operation: Operation, a: (RequiredOption, Option<string>), b: (RequiredOption, Option<string>),
                        c: (RequiredOption, Option<string>)): (r: Option<GithubError>)
    ensures r.None? <==> a.1.Some? && b.1.Some? && c.1.Some?
    ensures a.1.None? ==> r == Some(MissingOption(operation, a.0))
    ensures a.1.Some? && b.1.None? ==> r == Some(MissingOption(operation, b.0))
    ensures a.1.Some? && b.1.Some? && c.1.None? ==> r == Some(MissingOption(operation, c.0))
  {
    if a.1.None? then Some(MissingOption(operation, a.0))
    else if b.1.None? then Some(MissingOption(operation, b.0))
    else if c.1.None? then Some(MissingOption(operation, c.0))
    else None
  }

  /** `setStatus` needs owner, repository and commit, checked in that order. */
  function StatusError(o: GithubOptions): (e: Option<GithubError>)
    ensures e.None? <==> o.repositoryOwner.Some? && o.repositoryName.Some? && o.commitHash.Some?
    ensures e.Some? ==> e.value.operation == SetStatusOperation
    ensures o.repositoryOwner.None? ==> e == Some(MissingOption(SetStatusOperation, RepositoryOwner))
    ensures o.repositoryOwner.Some? && o.repositoryName.None? ==>
      e == Some(MissingOption(SetStatusOperation, RepositoryName))
    ensures o.repositoryOwner.Some? && o.repositoryName.Some? && o.commitHash.None? ==>
      e == Some(MissingOption(SetStatusOperation, CommitHash))
  {
    FirstMissing(SetStatusOperation,
      (RepositoryOwner, o.repositoryOwner), (RepositoryName, o.repositoryName), (CommitHash, o.commitHash))
  }

  /** `setComment` needs owner, repository and branch, checked in that order. */
  function CommentError(o: GithubOptions): (e: Option<GithubError>)
    ensures e.None? <==> o.repositoryOwner.Some? && o.repositoryName.Some? && o.branchName.Some?
    ensures e.Some? ==> e.value.operation == CommentOperation
    ensures o.repositoryOwner.None? ==> e == Some(MissingOption(CommentOperation, RepositoryOwner))
    ensures o.repositoryOwner.Some? && o.repositoryName.None? ==>
      e == Some(MissingOption(CommentOperation, RepositoryName))
    ensures o.repositoryOwner.Some? && o.repositoryName.Some? && o.branchName.None? ==>
      e == Some(MissingOption(CommentOperation, BranchName))
  {
    FirstMissing(CommentOperation,
      (RepositoryOwner, o.repositoryOwner), (RepositoryName, o.repositoryName), (BranchName, o.branchName))
  }

  /** `setReview` needs owner, repository and branch, checked in that order. */
  function ReviewError(o: GithubOptions): (e: Option<GithubError>)
    ensures e.None? <==> o.repositoryOwner.Some? && o.repositoryName.Some? && o.branchName.Some?
    ensures e.Some? ==> e.value.operation == ReviewOperation
    ensures o.repositoryOwner.None? ==> e == Some(MissingOption(ReviewOperation, RepositoryOwner))
    ensures o.repositoryOwner.Some? && o.repositoryName.None? ==>
      e == Some(MissingOption(ReviewOperation, RepositoryName))
    ensures o.repositoryOwner.Some? && o.repositoryName.Some? && o.branchName.None? ==>
      e == Some(MissingOption(ReviewOperation, BranchName))
  {
    FirstMissing(ReviewOperation,
      (RepositoryOwner, o.repositoryOwner), (RepositoryName, o.repositoryName), (BranchName, o.branchName))
  }

  // ---------------------------------------------------------------------
  // Pull-request comment: identifier and find-or-create
  // ---------------------------------------------------------------------

  /** `comment.substring(0, comment.indexOf(']'))`: the text before the
      first `]`, and the empty string when there is none (a negative end
      is read as 0). */
  function Identifier(comment: string): (id: string)
    ensures ']' !in id
    ensures StartsWith(comment, id)
    ensures ']' in comment ==> |id| < |comment| && comment[|id|] == ']'
    ensures ']' !in comment ==> id == ""
  {
    var end := IndexOf(comment, ']');
    if end < 0 then "" else comment[..end]
  }

  /** Without a `]` the identifier is empty and every existing comment
      matches it. */
  lemma EmptyIdentifierMatchesAny(comment: string, body: string)
    requires ']' !in comment
    ensures StartsWith(body, Identifier(comment))
  {
  }

  /** An existing comment on the pull request. */
  datatype IssueComment = IssueComment(id: nat, body: string)

  /** `comments.find(body starts with identifier)`: the first match. */
  function FindComment(comments: seq<IssueComment>, identifier: string): (r: Option<nat>)
    ensures r.None? <==> forall i :: 0 <= i < |comments| ==> !StartsWith(comments[i].body, identifier)
    ensures r.Some? ==> exists i ::
      && 0 <= i < |comments| && comments[i].id == r.value
      && StartsWith(comments[i].body, identifier)
      && forall j :: 0 <= j < i ==> !StartsWith(comments[j].body, identifier)
  {
    if comments == [] then None
    else if StartsWith(comments[0].body, identifier) then Some(comments[0].id)
    else
      var rest := FindComment(comments[1..], identifier);
      if rest.Some? then
        var i :| 0 <= i < |comments[1..]| && comments[1..][i].id == rest.value &&
          StartsWith(comments[1..][i].body, identifier) &&
          forall j :: 0 <= j < i ==> !StartsWith(comments[1..][j].body, identifier);
        assert comments[i + 1] == comments[1..][i];
        rest
      else rest
  }

  /** What `setComment` does once the comment list is known. */
  datatype CommentAction = UpdateComment(commentId: nat) | CreateComment

  function ChooseCommentAction(comments: seq<IssueComment>, comment: string): (a: CommentAction)
    ensures a.CreateComment? <==> forall i :: 0 <= i < |comments| ==> !StartsWith(comments[i].body, Identifier(comment))
    ensures a.UpdateComment? ==> exists i ::
      && 0 <= i < |comments| && comments[i].id == a.commentId
      && StartsWith(comments[i].body, Identifier(comment))
      && forall j :: 0 <= j < i ==> !StartsWith(comments[j].body, Identifier(comment))
  {
    match FindComment(comments, Identifier(comment))
    case Some(id) => UpdateComment(id)
    case None => CreateComment
  }

  /** Posting the same report again updates the earlier comment instead of
      adding a second one: the comment starts with its own identifier. */
  lemma RepostUpdates(comments: seq<IssueComment>, posted: IssueComment, comment: string)
    requires posted in comments && posted.body == comment
    ensures ChooseCommentAction(comments, comment).UpdateComment?
  {
    var i :| 0 <= i < |comments| && comments[i] == posted;
    assert StartsWith(comments[i].body, Identifier(comment));
  }

  // ---------------------------------------------------------------------
  // Review verdict
  // ---------------------------------------------------------------------

  datatype ReviewEvent = Approve | RequestChanges

  /** Changes are requested exactly when some test failed. */
  function ReviewEventOf(failed: nat): (e: ReviewEvent)
    ensures e == RequestChanges <==> failed != 0
    ensures e == Approve <==> failed == 0
  {
    if failed != 0 then RequestChanges else Approve
  }

  // ---------------------------------------------------------------------
  // Inputs of processResults
  // ---------------------------------------------------------------------

  const HtmlScope := "dullahan-plugin-report-html"
  const MarkdownScope := "dullahan-plugin-report-markdown"
  const ReportName := "report"
  const MissingReportText := "[@k2g/dullahan-plugin-report-markdown](https://github.com/Kaartje2go/Dullahan/tree/master/packages/dullahan-plugin-report-markdown) not found"

  /** `artifacts.find(scope and name match)`: the first such artifact. */
  function FindArtifact(artifacts: seq<StoredArtifact>, scope: string, name: string): (r: Option<StoredArtifact>)
    ensures r.None? <==> forall i :: 0 <= i < |artifacts| ==> !IsArtifact(artifacts[i], scope, name)
    ensures r.Some? ==> exists i ::
      && 0 <= i < |artifacts| && artifacts[i] == r.value
      && IsArtifact(artifacts[i], scope, name)
      && forall j :: 0 <= j < i ==> !IsArtifact(artifacts[j], scope, name)
  {
    if artifacts == [] then None
    else if IsArtifact(artifacts[0], scope, name) then Some(artifacts[0])
    else
      var rest := FindArtifact(artifacts[1..], scope, name);
      if rest.Some? then
        var i :| 0 <= i < |artifacts[1..]| && artifacts[1..][i] == rest.value &&
          IsArtifact(artifacts[1..][i], scope, name) &&
          forall j :: 0 <= j < i ==> !IsArtifact(artifacts[1..][j], scope, name);
        assert artifacts[i + 1] == artifacts[1..][i];
        rest
      else rest
  }

  predicate IsArtifact(a: StoredArtifact, scope: string, name: string)
  {
    a.scope == scope && a.name == name
  }

  /** The comment body: the markdown report's data, or a fixed text naming
      the missing plugin. */
  function CommentBody(artifacts: seq<StoredArtifact>): (c: string)
    ensures var md := FindArtifact(artifacts, MarkdownScope, ReportName);
      (md.Some? && md.value.data.Some? ==> c == md.value.data.value) &&
      (!(md.Some? && md.value.data.Some?) ==> c == MissingReportText)
  {
    var md := FindArtifact(artifacts, MarkdownScope, ReportName);
    if md.Some? && md.value.data.Some? then md.value.data.value else MissingReportText
  }

  /** `artifact?.remoteUrls[0]`: nothing when the artifact or its first URL
      is missing. */
  function FirstUrl(a: Option<StoredArtifact>): (u: Option<string>)
    ensures u.Some? <==> a.Some? && |a.value.remoteUrls| > 0
    ensures u.Some? ==> u.value == a.value.remoteUrls[0]
  {
    if a.Some? && |a.value.remoteUrls| > 0 then Some(a.value.remoteUrls[0]) else None
  }

  /** The report URL for the final status: the HTML report's first URL, and
      the markdown report's only when the HTML report has none. */
  function StatusUrl(artifacts: seq<StoredArtifact>): (u: Option<string>)
    ensures var html := FirstUrl(FindArtifact(artifacts, HtmlScope, ReportName));
      var md := FirstUrl(FindArtifact(artifacts, MarkdownScope, ReportName));
      (html.Some? ==> u == html) && (html.None? ==> u == md)
  {
    var html := FirstUrl(FindArtifact(artifacts, HtmlScope, ReportName));
    if html.Some? then html else FirstUrl(FindArtifact(artifacts, MarkdownScope, ReportName))
  }

  // ---------------------------------------------------------------------
  // Counters and the refresh condition
  // ---------------------------------------------------------------------

  /** Passing and failing test-end calls in a sequence. */
  function Tally(calls: seq<TestEndCall>): (r: (nat, nat))
    ensures r.0 + r.1 == |calls|
  {
    if calls == [] then (0, 0)
    else
      var rest := Tally(calls[..|calls| - 1]);
      if calls[|calls| - 1].error.Some? then (rest.0, rest.1 + 1) else (rest.0 + 1, rest.1)
  }

  /** Counting calls in two batches adds up: the counters after a run of
      test ends are the tally of all of them. */
  lemma {:induction false} TallyAppend(a: seq<TestEndCall>, b: seq<TestEndCall>)
    ensures Tally(a + b) == (Tally(a).0 + Tally(b).0, Tally(a).1 + Tally(b).1)
    decreases |b|
  {
    if b != [] {
      var n := |b| - 1;
      assert (a + b)[..|a + b| - 1] == a + b[..n];
      TallyAppend(a, b[..n]);
    } else {
      assert a + b == a;
    }
  }

  /** A call's error decides which count it adds to. */
  lemma TallyOne(c: TestEndCall)
    ensures Tally([c]) == if c.error.Some? then (0, 1) else (1, 0)
  {
    assert [c][..0] == [];
  }

  /** `onTestEnd` refreshes the status when status checks are enabled and
      the last status was posted less than the window ago. */
  predicate ShouldRefresh(enabled: bool, lastStatusCheck: int, now: int)
  {
    enabled && lastStatusCheck + RefreshWindow > now
  }

  /** The time of the last status post after test ends at the given times:
      a refresh moves it to the current time. */
  function LastCheckAfter(enabled: bool, lastStatusCheck: int, nows: seq<int>): (last: int)
    ensures last == lastStatusCheck || last in nows
    decreases |nows|
  {
    if nows == [] then lastStatusCheck
    else LastCheckAfter(enabled, if ShouldRefresh(enabled, lastStatusCheck, nows[0]) then nows[0] else lastStatusCheck, nows[1..])
  }

  predicate NonDecreasing(nows: seq<int>)
  {
    forall i, j :: 0 <= i < j < |nows| ==> nows[i] <= nows[j]
  }

  /** Once a test ends a whole window after the last status post, the
      clock never runs backwards and no later test end refreshes the status
      again: the condition only holds within the window after a post. In
      particular a fresh plugin, whose last check is set a window in the
      past, never refreshes from onTestEnd unless a status was posted by
      start. */
  lemma {:induction false} NoRefreshOnceWindowPassed(enabled: bool, lastStatusCheck: int, nows: seq<int>)
    requires NonDecreasing(nows)
    requires |nows| > 0 && nows[0] >= lastStatusCheck + RefreshWindow
    ensures forall i :: 0 <= i < |nows| ==> !ShouldRefresh(enabled, lastStatusCheck, nows[i])
    ensures LastCheckAfter(enabled, lastStatusCheck, nows) == lastStatusCheck
    decreases |nows|
  {
    assert !ShouldRefresh(enabled, lastStatusCheck, nows[0]);
    if |nows| > 1 {
      assert NonDecreasing(nows[1..]);
      NoRefreshOnceWindowPassed(enabled, lastStatusCheck, nows[1..]);
      forall i | 0 <= i < |nows|
        ensures !ShouldRefresh(enabled, lastStatusCheck, nows[i])
      {
        if i > 0 { assert nows[i] == nows[1..][i - 1]; }
      }
    }
  }

  // ---------------------------------------------------------------------
  // The plugin
  // ---------------------------------------------------------------------

  /** A request sent through Octokit. `pullRequest` is the number of the
      first open pull request of the branch, None when there is none. */
  datatype Request =
    | CreateStatus(owner: string, repo: string, sha: string, state: StatusState,
                   context: string, targetUrl: string, description: string)
    | ListPullRequests(owner: string, repo: string, head: string)
    | ListComments(owner: string, repo: string, pullRequest: Option<nat>)
    | UpdateCommentRequest(owner: string, repo: string, commentId: nat, body: string)
    | CreateCommentRequest(owner: string, repo: string, pullRequest: Option<nat>, body: string)
    | CreateReview(owner: string, repo: string, pullRequest: Option<nat>, body: string, event: ReviewEvent)

  /** The `head` filter for the pull-request search: `<owner>:<branch>`,
      with the commit owner preferred over the repository owner. */
  function Head(o: GithubOptions): (h: string)
    requires o.repositoryOwner.Some? && o.branchName.Some?
    ensures o.commitOwner.Some? ==> h == o.commitOwner.value + ":" + o.branchName.value
    ensures o.commitOwner.None? ==> h == o.repositoryOwner.value + ":" + o.branchName.value
  {
    (if o.commitOwner.Some? then o.commitOwner.value else o.repositoryOwner.value) + ":" + o.branchName.value
  }

  /** The status request `setStatus` sends when its options are complete. */
  function StatusRequest(o: GithubOptions, url: Option<string>, successes: nat, failed: nat): (r: Request)
    requires StatusError(o).None?
    ensures r.CreateStatus? && r.state == StateOf(url, failed) && r.description == Description(successes, failed)
    ensures r.owner == o.repositoryOwner.value && r.repo == o.repositoryName.value && r.sha == o.commitHash.value
    ensures r.context == o.statusName
    ensures r.targetUrl == if url.Some? then url.value else o.statusUrl
  {
    CreateStatus(o.repositoryOwner.value, o.repositoryName.value, o.commitHash.value, StateOf(url, failed),
                 o.statusName, if url.Some? then url.value else o.statusUrl, Description(successes, failed))
  }

  /** The requests `setComment` sends when its options are complete, for
      the given open pull request and the comments found on it. */
  function CommentRequests(o: GithubOptions, pullRequest: Option<nat>, comments: seq<IssueComment>, comment: string): (rs: seq<Request>)
    requires CommentError(o).None?
    ensures |rs| == 3 && rs[0] == ListPullRequests(o.repositoryOwner.value, o.repositoryName.value, Head(o))
    ensures rs[1] == ListComments(o.repositoryOwner.value, o.repositoryName.value, pullRequest)
    ensures rs[2].UpdateCommentRequest? <==> ChooseCommentAction(comments, comment).UpdateComment?
    ensures rs[2].UpdateCommentRequest? ==> rs[2].commentId == ChooseCommentAction(comments, comment).commentId
    ensures rs[2].CreateCommentRequest? ==> rs[2].pullRequest == pullRequest
    ensures rs[2].UpdateCommentRequest? || rs[2].CreateCommentRequest?
    ensures rs[2].body == comment
  {
    var owner, repo := o.repositoryOwner.value, o.repositoryName.value;
    [ ListPullRequests(owner, repo, Head(o)),
      ListComments(owner, repo, pullRequest),
      match ChooseCommentAction(comments, comment)
      case UpdateComment(id) => UpdateCommentRequest(owner, repo, id, comment)
      case CreateComment => CreateCommentRequest(owner, repo, pullRequest, comment) ]
  }

  /** The requests `setReview` sends when its options are complete. */
  function ReviewRequests(o: GithubOptions, pullRequest: Option<nat>, comment: string, failed: nat): (rs: seq<Request>)
    requires ReviewError(o).None?
    ensures |rs| == 2 && rs[0] == ListPullRequests(o.repositoryOwner.value, o.repositoryName.value, Head(o))
    ensures rs[1].CreateReview? && rs[1].pullRequest == pullRequest && rs[1].body == comment
    ensures rs[1].event == RequestChanges <==> failed != 0
  {
    [ ListPullRequests(o.repositoryOwner.value, o.repositoryName.value, Head(o)),
      CreateReview(o.repositoryOwner.value, o.repositoryName.value, pullRequest, comment, ReviewEventOf(failed)) ]
  }

  /** What `setStatus` sends: its request, or nothing when it throws. */
  function StatusOutcome(o: GithubOptions, url: Option<string>, successes: nat, failed: nat): (rs: seq<Request>)
    ensures |rs| <= 1 && (rs == [] <==> StatusError(o).Some?)
  {
    if StatusError(o).None? then [StatusRequest(o, url, successes, failed)] else []
  }

  /** What `setReview` sends: its requests, or nothing when it throws. */
  function ReviewOutcome(o: GithubOptions, pullRequest: Option<nat>, comment: string, failed: nat): (rs: seq<Request>)
    ensures rs == [] <==> ReviewError(o).Some?
  {
    if ReviewError(o).None? then ReviewRequests(o, pullRequest, comment, failed) else []
  }

  /** What `setComment` sends: its requests, or nothing when it throws. */
  function CommentOutcome(o: GithubOptions, pullRequest: Option<nat>, comments: seq<IssueComment>, comment: string): (rs: seq<Request>)
    ensures rs == [] <==> CommentError(o).Some?
  {
    if CommentError(o).None? then CommentRequests(o, pullRequest, comments, comment) else []
  }

  /** A promise `processResults` waits for. */
  datatype Step = StatusStep(url: Option<string>) | ReviewStep(comment: string) | CommentStep(comment: string)

  /** The promises `processResults` collects, in order: the final status
      with the report URL, the review and the comment, each when enabled. */
  function Steps(o: GithubOptions, artifacts: seq<StoredArtifact>): seq<Step>
  {
    StepsOf(o, StatusUrl(artifacts), CommentBody(artifacts))
  }

  function StepsOf(o: GithubOptions, url: Option<string>, comment: string): seq<Step>
  {
    (if o.enableStatusChecks then [StatusStep(url)] else [])
    + (if o.enablePullRequestReviews then [ReviewStep(comment)] else [])
    + (if o.enablePullRequestComments then [CommentStep(comment)] else [])
  }

  /** Each enabled operation is awaited, and nothing else. */
  lemma StepsOfContents(o: GithubOptions, url: Option<string>, comment: string)
    ensures var steps := StepsOf(o, url, comment);
      && |steps| <= 3
      && (StatusStep(url) in steps <==> o.enableStatusChecks)
      && (HasStatusStep(steps) <==> o.enableStatusChecks)
      && (ReviewStep(comment) in steps <==> o.enablePullRequestReviews)
      && (CommentStep(comment) in steps <==> o.enablePullRequestComments)
      && forall i :: 0 <= i < |steps| ==> StepEnabled(o, steps[i]) && steps[i] in {StatusStep(url), ReviewStep(comment), CommentStep(comment)}
  {
  }

  /** The option that enables a step. */
  predicate StepEnabled(o: GithubOptions, step: Step)
  {
    match step
    case StatusStep(_) => o.enableStatusChecks
    case ReviewStep(_) => o.enablePullRequestReviews
    case CommentStep(_) => o.enablePullRequestComments
  }

  predicate HasStatusStep(steps: seq<Step>)
  {
    exists i :: 0 <= i < |steps| && steps[i].StatusStep?
  }

  function StepError(o: GithubOptions, step: Step): Option<GithubError>
  {
    match step
    case StatusStep(_) => StatusError(o)
    case ReviewStep(_) => ReviewError(o)
    case CommentStep(_) => CommentError(o)
  }

  function StepOutcome(o: GithubOptions, step: Step, pullRequest: Option<nat>, comments: seq<IssueComment>,
                       successes: nat, failed: nat): seq<Request>
  {
    match step
    case StatusStep(url) => StatusOutcome(o, url, successes, failed)
    case ReviewStep(comment) => ReviewOutcome(o, pullRequest, comment, failed)
    case CommentStep(comment) => CommentOutcome(o, pullRequest, comments, comment)
  }

  /** What `f` gives for each element, one after the other. */
  function FlatMap<S, T>(f: S -> seq<T>, xs: seq<S>): seq<T>
  {
    if xs == [] then [] else FlatMap(f, xs[..|xs| - 1]) + f(xs[|xs| - 1])
  }

  lemma {:induction false} FlatMapAppend<S, T>(f: S -> seq<T>, a: seq<S>, b: seq<S>)
    ensures FlatMap(f, a + b) == FlatMap(f, a) + FlatMap(f, b)
    decreases |b|
  {
    if b == [] {
      assert a + b == a;
    } else {
      var n := |b| - 1;
      assert (a + b)[..|a + b| - 1] == a + b[..n];
      FlatMapAppend(f, a, b[..n]);
    }
  }

  /** The requests of the steps, one after the other. */
  function Outcomes(o: GithubOptions, steps: seq<Step>, pullRequest: Option<nat>, comments: seq<IssueComment>,
                    successes: nat, failed: nat): seq<Request>
  {
    FlatMap((step: Step) => StepOutcome(o, step, pullRequest, comments, successes, failed), steps)
  }

  /** The rejection `Promise.all` reports: every step throws before it
      awaits anything, so the first failing step in promise order wins. */
  function FirstStepError(o: GithubOptions, steps: seq<Step>): (e: Option<GithubError>)
    ensures e.None? <==> forall i :: 0 <= i < |steps| ==> StepError(o, steps[i]).None?
  {
    if steps == [] then None
    else
      var before := FirstStepError(o, steps[..|steps| - 1]);
      if before.Some? then before else StepError(o, steps[|steps| - 1])
  }

  /** `processResults` fails with the first incomplete option set among
      the enabled steps, checked as status, review, comment. */
  lemma ResultsError(o: GithubOptions, url: Option<string>, comment: string)
    ensures var e := FirstStepError(o, StepsOf(o, url, comment));
      && (e.None? <==>
          && (o.enableStatusChecks ==> StatusError(o).None?)
          && (o.enablePullRequestReviews ==> ReviewError(o).None?)
          && (o.enablePullRequestComments ==> CommentError(o).None?))
      && (o.enableStatusChecks && StatusError(o).Some? ==> e == StatusError(o))
      && ((o.enableStatusChecks ==> StatusError(o).None?) && o.enablePullRequestReviews && ReviewError(o).Some? ==>
           e == ReviewError(o))
      && (e.Some? && e.value.operation == CommentOperation ==> e == CommentError(o))
  {
    var steps := StepsOf(o, url, comment);
    if o.enableStatusChecks {
      assert steps[0] == StatusStep(url);
      assert FirstStepError(o, steps[..1]) == StatusError(o) by { assert steps[..1][..0] == []; }
      PrefixError(o, steps, 1);
    }
    var k := if o.enableStatusChecks then 1 else 0;
    if o.enablePullRequestReviews && (o.enableStatusChecks ==> StatusError(o).None?) {
      assert steps[k] == ReviewStep(comment);
      assert steps[..k + 1][..k] == steps[..k];
      assert FirstStepError(o, steps[..k]).None? by {
        if k == 1 { assert steps[..k][..0] == []; }
      }
      PrefixError(o, steps, k + 1);
    }
    ErrorOfStep(o, steps);
    NoResultsError(o, url, comment);
  }

  lemma NoResultsError(o: GithubOptions, url: Option<string>, comment: string)
    ensures FirstStepError(o, StepsOf(o, url, comment)).None? <==>
      && (o.enableStatusChecks ==> StatusError(o).None?)
      && (o.enablePullRequestReviews ==> ReviewError(o).None?)
      && (o.enablePullRequestComments ==> CommentError(o).None?)
  {
    var steps := StepsOf(o, url, comment);
    StepsOfContents(o, url, comment);
    if && (o.enableStatusChecks ==> StatusError(o).None?)
       && (o.enablePullRequestReviews ==> ReviewError(o).None?)
       && (o.enablePullRequestComments ==> CommentError(o).None?)
    {
      forall i | 0 <= i < |steps|
        ensures StepError(o, steps[i]).None?
      {
        assert StepEnabled(o, steps[i]);
      }
    }
    if FirstStepError(o, steps).None? {
      if o.enableStatusChecks {
        var i :| 0 <= i < |steps| && steps[i] == StatusStep(url);
        assert StepError(o, steps[i]).None?;
      }
      if o.enablePullRequestReviews {
        var i :| 0 <= i < |steps| && steps[i] == ReviewStep(comment);
        assert StepError(o, steps[i]).None?;
      }
      if o.enablePullRequestComments {
        var i :| 0 <= i < |steps| && steps[i] == CommentStep(comment);
        assert StepError(o, steps[i]).None?;
      }
    }
  }

  /** The reported error is the error of one of the steps. */
  lemma {:induction false} ErrorOfStep(o: GithubOptions, steps: seq<Step>)
    ensures FirstStepError(o, steps).Some? ==> exists i :: 0 <= i < |steps| && FirstStepError(o, steps) == StepError(o, steps[i])
    decreases |steps|
  {
    if steps != [] {
      var n := |steps| - 1;
      ErrorOfStep(o, steps[..n]);
      if FirstStepError(o, steps[..n]).Some? {
        var i :| 0 <= i < n && FirstStepError(o, steps[..n]) == StepError(o, steps[..n][i]);
        assert steps[..n][i] == steps[i];
      }
    }
  }

  /** A step that fails decides the error regardless of the steps after it. */
  lemma {:induction false} PrefixError(o: GithubOptions, steps: seq<Step>, k: nat)
    requires k <= |steps|
    ensures FirstStepError(o, steps[..k]).Some? ==> FirstStepError(o, steps) == FirstStepError(o, steps[..k])
    decreases |steps| - k
  {
    if k < |steps| {
      var n := |steps|;
      assert steps[..n - 1][..k] == steps[..k];
      PrefixError(o, steps[..n - 1], k);
      assert steps[..n][..n - 1] == steps[..n - 1];
    } else {
      assert steps[..k] == steps;
    }
  }

  /** `processResults` sends, in promise order, what each enabled step sends. */
  lemma ResultsRequests(o: GithubOptions, url: Option<string>, comment: string, pullRequest: Option<nat>,
                        comments: seq<IssueComment>, successes: nat, failed: nat)
    ensures Outcomes(o, StepsOf(o, url, comment), pullRequest, comments, successes, failed) ==
      (if o.enableStatusChecks then StatusOutcome(o, url, successes, failed) else [])
      + (if o.enablePullRequestReviews then ReviewOutcome(o, pullRequest, comment, failed) else [])
      + (if o.enablePullRequestComments then CommentOutcome(o, pullRequest, comments, comment) else [])
  {
    var a := if o.enableStatusChecks then [StatusStep(url)] else [];
    var b := if o.enablePullRequestReviews then [ReviewStep(comment)] else [];
    var c := if o.enablePullRequestComments then [CommentStep(comment)] else [];
    OptionalStep(o, o.enableStatusChecks, StatusStep(url), pullRequest, comments, successes, failed);
    OptionalStep(o, o.enablePullRequestReviews, ReviewStep(comment), pullRequest, comments, successes, failed);
    OptionalStep(o, o.enablePullRequestComments, CommentStep(comment), pullRequest, comments, successes, failed);
    assert StepsOf(o, url, comment) == a + b + c;
    OutcomesAppend(o, a, b, pullRequest, comments, successes, failed);
    OutcomesAppend(o, a + b, c, pullRequest, comments, successes, failed);
  }

  lemma StepsSnoc(o: GithubOptions, done: seq<Step>, step: Step, pullRequest: Option<nat>, comments: seq<IssueComment>,
                  successes: nat, failed: nat)
    ensures Outcomes(o, done + [step], pullRequest, comments, successes, failed) ==
      Outcomes(o, done, pullRequest, comments, successes, failed) + StepOutcome(o, step, pullRequest, comments, successes, failed)
    ensures FirstStepError(o, done + [step]) ==
      if FirstStepError(o, done).Some? then FirstStepError(o, done) else StepError(o, step)
    ensures HasStatusStep(done + [step]) <==> HasStatusStep(done) || step.StatusStep?
  {
    var all := done + [step];
    assert all[..|all| - 1] == done && all[|all| - 1] == step;
    if HasStatusStep(done) {
      var j :| 0 <= j < |done| && done[j].StatusStep?;
      assert all[j] == done[j];
    }
  }

  lemma OptionalStep(o: GithubOptions, enabled: bool, step: Step, pullRequest: Option<nat>, comments: seq<IssueComment>,
                     successes: nat, failed: nat)
    ensures Outcomes(o, if enabled then [step] else [], pullRequest, comments, successes, failed) ==
      if enabled then StepOutcome(o, step, pullRequest, comments, successes, failed) else []
  {
    OutcomesSingle(o, if enabled then [step] else [], pullRequest, comments, successes, failed);
  }

  lemma OutcomesSingle(o: GithubOptions, steps: seq<Step>, pullRequest: Option<nat>, comments: seq<IssueComment>,
                       successes: nat, failed: nat)
    requires |steps| <= 1
    ensures Outcomes(o, steps, pullRequest, comments, successes, failed) ==
      if steps == [] then [] else StepOutcome(o, steps[0], pullRequest, comments, successes, failed)
  {
    if steps != [] {
      assert steps[..0] == [];
      assert FlatMap((step: Step) => StepOutcome(o, step, pullRequest, comments, successes, failed), steps[..0]) == [];
    }
  }

  lemma OutcomesAppend(o: GithubOptions, a: seq<Step>, b: seq<Step>, pullRequest: Option<nat>,
                       comments: seq<IssueComment>, successes: nat, failed: nat)
    ensures Outcomes(o, a + b, pullRequest, comments, successes, failed) ==
      Outcomes(o, a, pullRequest, comments, successes, failed) + Outcomes(o, b, pullRequest, comments, successes, failed)
  {
    FlatMapAppend((step: Step) => StepOutcome(o, step, pullRequest, comments, successes, failed), a, b);
  }

  class GithubPlugin {
    const options: GithubOptions
    var lastStatusCheck: int
    var successfulTestsCounter: nat
    var failedTestsCounter: nat
    /** The Octokit requests sent so far, in order. */
    var requests: seq<Request>

    /** A new plugin at time `now`: the last check is a window in the past. */
    constructor(options: GithubOptions, now: int)
      ensures this.options == options
      ensures lastStatusCheck == now - RefreshWindow
      ensures successfulTestsCounter == 0 && failedTestsCounter == 0
      ensures requests == []
    {
      this.options := options;
      lastStatusCheck := now - RefreshWindow;
      successfulTestsCounter := 0;
      failedTestsCounter := 0;
      requests := [];
    }

    /** `setStatus`: the time is recorded before the options are checked;
        the status carries the counts as they are now. Returns the
        DullahanError it throws, None when it completes. */
    method SetStatus(url: Option<string>, now: int) returns (error: Option<GithubError>)
      modifies this
      ensures lastStatusCheck == now
      ensures successfulTestsCounter == old(successfulTestsCounter) && failedTestsCounter == old(failedTestsCounter)
      ensures error == StatusError(options)
      ensures requests == old(requests) + StatusOutcome(options, url, successfulTestsCounter, failedTestsCounter)
    {
      var state := StateOf(url, failedTestsCounter);
      var description := Description(successfulTestsCounter, failedTestsCounter);
      lastStatusCheck := now;
      error := StatusError(options);
      if error.None? {
        var targetUrl := if url.Some? then url.value else options.statusUrl;
        requests := requests + [CreateStatus(options.repositoryOwner.value, options.repositoryName.value,
                                             options.commitHash.value, state, options.statusName, targetUrl, description)];
      }
    }

    /** `start`: a pending status when status checks are enabled. */
    method Start(now: int) returns (error: Option<GithubError>)
      modifies this
      ensures successfulTestsCounter == old(successfulTestsCounter) && failedTestsCounter == old(failedTestsCounter)
      ensures !options.enableStatusChecks ==>
        error.None? && requests == old(requests) && lastStatusCheck == old(lastStatusCheck)
      ensures options.enableStatusChecks ==> (lastStatusCheck == now && error == StatusError(options) &&
        requests == old(requests) + StatusOutcome(options, None, successfulTestsCounter, failedTestsCounter))
    {
      error := None;
      if options.enableStatusChecks {
        error := SetStatus(None, now);
      }
    }

    /** `onTestEnd`: exactly one counter goes up, chosen by the call's
        error; then the status is refreshed under the window condition;
        the call is handed back unchanged, unless the refresh rejected and
        nothing is returned. */
    method OnTestEnd(dtec: TestEndCall, now: int) returns (r: Option<TestEndCall>, error: Option<GithubError>)
      modifies this
      ensures r == if error.None? then Some(dtec) else None
      ensures dtec.error.Some? ==>
        failedTestsCounter == old(failedTestsCounter) + 1 && successfulTestsCounter == old(successfulTestsCounter)
      ensures dtec.error.None? ==>
        successfulTestsCounter == old(successfulTestsCounter) + 1 && failedTestsCounter == old(failedTestsCounter)
      ensures (successfulTestsCounter, failedTestsCounter) ==
        (old(successfulTestsCounter) + Tally([dtec]).0, old(failedTestsCounter) + Tally([dtec]).1)
      ensures var refresh := ShouldRefresh(options.enableStatusChecks, old(lastStatusCheck), now);
        (refresh ==> (lastStatusCheck == now && error == StatusError(options) &&
           requests == old(requests) + StatusOutcome(options, None, successfulTestsCounter, failedTestsCounter))) &&
        (!refresh ==> lastStatusCheck == old(lastStatusCheck) && error.None? && requests == old(requests))
      ensures lastStatusCheck == LastCheckAfter(options.enableStatusChecks, old(lastStatusCheck), [now])
    {
      if dtec.error.Some? {
        failedTestsCounter := failedTestsCounter + 1;
      } else {
        successfulTestsCounter := successfulTestsCounter + 1;
      }
      error := None;
      if options.enableStatusChecks && lastStatusCheck + RefreshWindow > now {
        error := SetStatus(None, now);
      }
      r := if error.None? then Some(dtec) else None;
    }

    /** `setComment`, with the first open pull request and its comments
        given. */
    method SetComment(comment: string, pullRequest: Option<nat>, comments: seq<IssueComment>) returns (error: Option<GithubError>)
      modifies this
      ensures lastStatusCheck == old(lastStatusCheck)
      ensures successfulTestsCounter == old(successfulTestsCounter) && failedTestsCounter == old(failedTestsCounter)
      ensures error == CommentError(options)
      ensures requests == old(requests) + CommentOutcome(options, pullRequest, comments, comment)
    {
      error := CommentError(options);
      if error.None? {
        var owner, repo := options.repositoryOwner.value, options.repositoryName.value;
        requests := requests + [ListPullRequests(owner, repo, Head(options)), ListComments(owner, repo, pullRequest)];
        var found := FindComment(comments, Identifier(comment));
        if found.Some? {
          requests := requests + [UpdateCommentRequest(owner, repo, found.value, comment)];
        } else {
          requests := requests + [CreateCommentRequest(owner, repo, pullRequest, comment)];
        }
      }
    }

    /** `setReview`, with the first open pull request given. */
    method SetReview(comment: string, pullRequest: Option<nat>) returns (error: Option<GithubError>)
      modifies this
      ensures lastStatusCheck == old(lastStatusCheck)
      ensures successfulTestsCounter == old(successfulTestsCounter) && failedTestsCounter == old(failedTestsCounter)
      ensures error == ReviewError(options)
      ensures requests == old(requests) + ReviewOutcome(options, pullRequest, comment, failedTestsCounter)
    {
      error := ReviewError(options);
      if error.None? {
        var owner, repo := options.repositoryOwner.value, options.repositoryName.value;
        var event := if failedTestsCounter != 0 then RequestChanges else Approve;
        requests := requests + [ListPullRequests(owner, repo, Head(options)),
                                CreateReview(owner, repo, pullRequest, comment, event)];
      }
    }

    /** One awaited step of `processResults`. */
    method RunStep(step: Step, pullRequest: Option<nat>, comments: seq<IssueComment>, now: int) returns (error: Option<GithubError>)
      modifies this
      ensures successfulTestsCounter == old(successfulTestsCounter) && failedTestsCounter == old(failedTestsCounter)
      ensures lastStatusCheck == if step.StatusStep? then now else old(lastStatusCheck)
      ensures error == StepError(options, step)
      ensures requests == old(requests) + StepOutcome(options, step, pullRequest, comments, successfulTestsCounter, failedTestsCounter)
    {
      match step
      case StatusStep(url) => error := SetStatus(url, now);
      case ReviewStep(comment) => error := SetReview(comment, pullRequest);
      case CommentStep(comment) => error := SetComment(comment, pullRequest, comments);
    }

    /** `Promise.all` over the collected steps: every step runs, in order,
        and the error reported is the first among them. */
    method AwaitAll(steps: seq<Step>, pullRequest: Option<nat>, comments: seq<IssueComment>, now: int)
      returns (error: Option<GithubError>)
      modifies this
      ensures successfulTestsCounter == old(successfulTestsCounter) && failedTestsCounter == old(failedTestsCounter)
      ensures lastStatusCheck == if HasStatusStep(steps) then now else old(lastStatusCheck)
      ensures error == FirstStepError(options, steps)
      ensures requests == old(requests) + Outcomes(options, steps, pullRequest, comments, successfulTestsCounter, failedTestsCounter)
    {
      error := None;
      for i := 0 to |steps|
        invariant successfulTestsCounter == old(successfulTestsCounter) && failedTestsCounter == old(failedTestsCounter)
        invariant lastStatusCheck == if HasStatusStep(steps[..i]) then now else old(lastStatusCheck)
        invariant error == FirstStepError(options, steps[..i])
        invariant requests == old(requests) +
          Outcomes(options, steps[..i], pullRequest, comments, successfulTestsCounter, failedTestsCounter)
      {
        ghost var sent := Outcomes(options, steps[..i], pullRequest, comments, successfulTestsCounter, failedTestsCounter);
        var stepError := RunStep(steps[i], pullRequest, comments, now);
        ghost var next := StepOutcome(options, steps[i], pullRequest, comments, successfulTestsCounter, failedTestsCounter);
        assert requests == old(requests) + sent + next;
        AppendAssoc(old(requests), sent, next);
        assert steps[..i + 1] == steps[..i] + [steps[i]];
        StepsSnoc(options, steps[..i], steps[i], pullRequest, comments, successfulTestsCounter, failedTestsCounter);
        if error.None? {
          error := stepError;
        }
      }
      assert steps[..|steps|] == steps;
    }

    /** `processResults`: the steps collected for the options, awaited
        together. The open pull request and its comments are the ones the
        steps would fetch. */
    method ProcessResults(artifacts: seq<StoredArtifact>, pullRequest: Option<nat>, comments: seq<IssueComment>, now: int)
      returns (error: Option<GithubError>)
      modifies this
      ensures successfulTestsCounter == old(successfulTestsCounter) && failedTestsCounter == old(failedTestsCounter)
      ensures lastStatusCheck == if options.enableStatusChecks then now else old(lastStatusCheck)
      ensures error == FirstStepError(options, Steps(options, artifacts))
      ensures requests == old(requests) +
        Outcomes(options, Steps(options, artifacts), pullRequest, comments, successfulTestsCounter, failedTestsCounter)
    {
      StepsOfContents(options, StatusUrl(artifacts), CommentBody(artifacts));
      error := AwaitAll(Steps(options, artifacts), pullRequest, comments, now);
    }
  }
}
