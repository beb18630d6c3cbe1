/**
 * The `sync-repo` command's run (Sources/RepoTools/SyncRepo.swift:51-76): with a clean working
 * tree, make sure the public and the private remote exist, fetch the private remote, create a
 * sync branch from its main branch, push that branch and the release tags to the public
 * remote, and produce the URL of a pull request for the branch. The first failure ends the run.
 */
module SyncRepo {
  import opened Results
  import opened Sequences
  import opened Model
  import opened Shell
  import opened DateFormat
  import opened Git

  const PublicRemoteName := "public-repo"
  const PrivateRemoteName := "private-repo"

  const GithubSite := "https://github.com/"
  const CompareSegment := "/compare/"
  const PullRequestQuery :=
    "?quick_pull=1&title=Sync+public+repo+from+private+repository"
    + "&body=This+PR+proposes+the+latest+changes+from+private+to+public+repository."

  /** The GitHub page that proposes a pull request from `branch` into `repo`. */
  function PullRequestUrl(repo: GithubRepo, branch: Branch): string {
    GithubSite + repo.path + CompareSegment + branch.name + PullRequestQuery
  }

  /** After both remotes are set up: fetch the private remote, create the branch, push it and the tags. */
  function SyncTail(publicRemote: Remote, privateRemote: Remote, workingDirectory: string, branchName: string): seq<Call> {
    FetchCalls(privateRemote, workingDirectory)
      + ([BranchCall(branchName, workingDirectory)]
         + (PushCalls(Branch(branchName), publicRemote, workingDirectory)
            + [TagPipelineCall(publicRemote, workingDirectory)]))
  }

  /** The invocations setting up one remote: its lookup, and its addition when `add` holds. */
  function RemotePlan(remote: Remote, add: bool, workingDirectory: string): seq<Call> {
    [RemoteUrlCall(remote, workingDirectory)] + if add then [AddRemoteCall(remote, workingDirectory)] else []
  }

  /** The invocations setting up the public and then the private remote. */
  function SetupPlan(publicRepo: GithubRepo, privateRepo: GithubRepo, addPublic: bool, addPrivate: bool,
                     workingDirectory: string): seq<Call>
  {
    RemotePlan(Remote(PublicRemoteName, publicRepo), addPublic, workingDirectory)
      + RemotePlan(Remote(PrivateRemoteName, privateRepo), addPrivate, workingDirectory)
  }

  /**
   * Every invocation a run makes when nothing fails, given which of the two remotes the
   * lookups find missing: the status check, each remote's lookup (and its addition when
   * missing), the private remote's fetch, the branch, its push to the public remote, and the
   * tag pipeline towards the public remote.
   */
  function SyncPlan(publicRepo: GithubRepo, privateRepo: GithubRepo, addPublic: bool, addPrivate: bool,
                    workingDirectory: string, branchName: string): seq<Call>
  {
    [StatusCall(workingDirectory)]
      + (SetupPlan(publicRepo, privateRepo, addPublic, addPrivate, workingDirectory)
         + SyncTail(Remote(PublicRemoteName, publicRepo), Remote(PrivateRemoteName, privateRepo),
                    workingDirectory, branchName))
  }

  /** Setting up the public and then the private remote; the first failure ends the setup. */
  function SetupOutcome(script: seq<Response>, publicRepo: GithubRepo, privateRepo: GithubRepo,
                        workingDirectory: string): Attempt<()>
  {
    var p := EnsureRemote(script, Remote(PublicRemoteName, publicRepo), workingDirectory);
    if p.result.Err? then p
    else
      var q := EnsureRemote(Drop(script, |p.calls|), Remote(PrivateRemoteName, privateRepo), workingDirectory);
      Attempt(p.calls + q.calls, q.result)
  }

  /**
   * What a run does once the working tree is known to be clean: set up both remotes, then the
   * fail-fast tail; on success the result is the pull-request URL for the sync branch.
   */
  function CleanTreeOutcome(script: seq<Response>, publicRepo: GithubRepo, privateRepo: GithubRepo,
                            workingDirectory: string, now: LocalTime): Attempt<string>
  {
    var u := SetupOutcome(script, publicRepo, privateRepo, workingDirectory);
    if u.result.Err? then Attempt(u.calls, Err(u.result.error))
    else
      var branch := Branch(SyncBranchName(now));
      var t := FailFast(Drop(script, |u.calls|),
                        SyncTail(Remote(PublicRemoteName, publicRepo), Remote(PrivateRemoteName, privateRepo),
                                 workingDirectory, branch.name));
      Attempt(u.calls + t.calls, if t.result.Ok? then Ok(PullRequestUrl(publicRepo, branch)) else Err(t.result.error))
  }

  /**
   * What a run does against the scripted responses `script`: the status check and its guard,
   * then, on a clean tree, CleanTreeOutcome on the remaining responses.
   */
  function SyncOutcome(script: seq<Response>, publicRepo: GithubRepo, privateRepo: GithubRepo,
                       workingDirectory: string, now: LocalTime): Attempt<string>
  {
    var status := [StatusCall(workingDirectory)];
    match Answer(script)
    case Failure(c) => Attempt(status, Err(CommandFailed(c)))
    case Output(text) =>
      if text != "" then Attempt(status, Err(DirtyWorkingTree))
      else
        var c := CleanTreeOutcome(Drop(script, 1), publicRepo, privateRepo, workingDirectory, now);
        Attempt(status + c.calls, c.result)
  }

  /** Whether the public remote's lookup finds it missing. */
  function PublicMissing(script: seq<Response>): bool {
    RemoteAbsent(Answer(Drop(script, 1)))
  }

  /** Whether the private remote's lookup, which follows the public remote's setup, finds it missing. */
  function PrivateMissing(script: seq<Response>): bool {
    RemoteAbsent(Answer(Drop(script, if PublicMissing(script) then 3 else 2)))
  }

  /**
   * SyncRepo.run (SyncRepo.swift:51-76) with the executor and the clock reading passed in: the
   * invocations it appends, the responses it consumes and its result are those of SyncOutcome.
   */
  method Run(sh: RecordingShell, publicRepo: GithubRepo, privateRepo: GithubRepo,
             workingDirectory: string, now: LocalTime)
    returns (r: Result<string, Error>)
    modifies sh
    ensures var o := SyncOutcome(old(sh.script), publicRepo, privateRepo, workingDirectory, now);
      sh.calls == old(sh.calls) + o.calls && sh.script == Drop(old(sh.script), |o.calls|) && r == o.result
  {
    ghost var s0, c0 := sh.script, sh.calls;

    var isPorcelain := WorkingDirectoryIsPorcelain(sh, workingDirectory);
    if isPorcelain.Err? {
      return Err(isPorcelain.error);
    }
    if !isPorcelain.value {
      return Err(DirtyWorkingTree);
    }

    ghost var c := CleanTreeOutcome(sh.script, publicRepo, privateRepo, workingDirectory, now);
    r := SyncCleanTree(sh, publicRepo, privateRepo, workingDirectory, now);
    AppendAssoc(c0, [StatusCall(workingDirectory)], c.calls);
    DropDrop(s0, 1, |c.calls|);
  }

  /** The rest of SyncRepo.run once the working tree is clean (SyncRepo.swift:55-75). */
  method SyncCleanTree(sh: RecordingShell, publicRepo: GithubRepo, privateRepo: GithubRepo,
                       workingDirectory: string, now: LocalTime)
    returns (r: Result<string, Error>)
    modifies sh
    ensures var c := CleanTreeOutcome(old(sh.script), publicRepo, privateRepo, workingDirectory, now);
      sh.calls == old(sh.calls) + c.calls && sh.script == Drop(old(sh.script), |c.calls|) && r == c.result
  {
    ghost var s0, c0 := sh.script, sh.calls;
    var publicRemote := Remote(PublicRemoteName, publicRepo);
    var privateRemote := Remote(PrivateRemoteName, privateRepo);
    ghost var u := SetupOutcome(s0, publicRepo, privateRepo, workingDirectory);
    var added := SetUpRemotes(sh, publicRemote, privateRemote, workingDirectory);
    if added.Err? {
      return Err(added.error);
    }

    ghost var t := FailFast(sh.script, SyncTail(publicRemote, privateRemote, workingDirectory, SyncBranchName(now)));
    var syncBranch := FetchBranchAndPush(sh, publicRemote, privateRemote, workingDirectory, now);
    AppendAssoc(c0, u.calls, t.calls);
    DropDrop(s0, |u.calls|, |t.calls|);
    if syncBranch.Err? {
      return Err(syncBranch.error);
    }
    r := Ok(PullRequestUrl(publicRemote.repo, syncBranch.value));
  }

  /** The two Remote.addIfNeeded calls of SyncRepo.run (SyncRepo.swift:55-62). */
  method SetUpRemotes(sh: RecordingShell, publicRemote: Remote, privateRemote: Remote, workingDirectory: string)
    returns (r: Result<(), Error>)
    requires publicRemote.name == PublicRemoteName && privateRemote.name == PrivateRemoteName
    modifies sh
    ensures var u := SetupOutcome(old(sh.script), publicRemote.repo, privateRemote.repo, workingDirectory);
      sh.calls == old(sh.calls) + u.calls && sh.script == Drop(old(sh.script), |u.calls|) && r == u.result
  {
    ghost var s0, c0 := sh.script, sh.calls;
    ghost var p := EnsureRemote(s0, publicRemote, workingDirectory);
    var added := AddIfNeeded(sh, publicRemote, workingDirectory);
    if added.Err? {
      return Err(added.error);
    }
    ghost var q := EnsureRemote(sh.script, privateRemote, workingDirectory);
    added := AddIfNeeded(sh, privateRemote, workingDirectory);
    AppendAssoc(c0, p.calls, q.calls);
    DropDrop(s0, |p.calls|, |q.calls|);
    r := added;
  }

  /**
   * The second half of SyncRepo.run (SyncRepo.swift:63-73): fetch the private remote, create
   * the sync branch, push it and the release tags to the public remote, stopping at the first
   * failure; the result is the branch. Its effect is the fail-fast run of SyncTail.
   */
  method FetchBranchAndPush(sh: RecordingShell, publicRemote: Remote, privateRemote: Remote,
                            workingDirectory: string, now: LocalTime)
    returns (r: Result<Branch, Error>)
    modifies sh
    ensures var t := FailFast(old(sh.script), SyncTail(publicRemote, privateRemote, workingDirectory, SyncBranchName(now)));
      && sh.calls == old(sh.calls) + t.calls && sh.script == Drop(old(sh.script), |t.calls|)
      && (t.result.Ok? ==> r == Ok(Branch(SyncBranchName(now))))
      && (t.result.Err? ==> r == Err(t.result.error))
  {
    ghost var c0, s3 := sh.calls, sh.script;
    ghost var name := SyncBranchName(now);
    ghost var t := FailFast(s3, SyncTail(publicRemote, privateRemote, workingDirectory, name));
    ghost var tagCall := TagPipelineCall(publicRemote, workingDirectory);
    ghost var pushTag := PushCalls(Branch(name), publicRemote, workingDirectory) + [tagCall];
    ghost var afterFetch := [BranchCall(name, workingDirectory)] + pushTag;
    FailFastAppend(s3, FetchCalls(privateRemote, workingDirectory), afterFetch);
    var fetched := FetchRepo(sh, privateRemote, workingDirectory);
    ghost var trace := FailFast(s3, FetchCalls(privateRemote, workingDirectory)).calls;
    
    if fetched.Err? {
      return Err(fetched.error);
    }

    ghost var s4 := sh.script;
    ghost var b := FailFast(s4, afterFetch);
    assert t == Attempt(trace + b.calls, b.result);
    FailFastOne(s4, BranchCall(name, workingDirectory));
    FailFastAppend(s4, [BranchCall(name, workingDirectory)], pushTag);
    var syncBranch := CreateSyncBranch(sh, workingDirectory, now);
    AppendAssoc(c0, trace, [BranchCall(name, workingDirectory)]);
    DropDrop(s3, |trace|, 1);
    if syncBranch.Err? {
      assert t.calls == trace + [BranchCall(name, workingDirectory)];
      return Err(syncBranch.error);
    }
    trace := trace + [BranchCall(name, workingDirectory)];

    ghost var s5 := sh.script;
    ghost var d := FailFast(s5, pushTag);
    assert t == Attempt(trace + d.calls, d.result) by {
      AppendAssoc(FetchCalls(privateRemote, workingDirectory), [BranchCall(name, workingDirectory)], d.calls);
    }
    FailFastAppend(s5, PushCalls(Branch(name), publicRemote, workingDirectory), [tagCall]);
    var pushed := Push(sh, syncBranch.value, publicRemote, workingDirectory);
    ghost var pushedCalls := FailFast(s5, PushCalls(Branch(name), publicRemote, workingDirectory)).calls;
    AppendAssoc(c0, trace, pushedCalls);
    DropDrop(s3, |trace|, |pushedCalls|);
    if pushed.Err? {
      assert d.calls == pushedCalls;
      assert |t.calls| == |trace| + |pushedCalls|;
      return Err(pushed.error);
    }
    trace := trace + pushedCalls;

    ghost var s6 := sh.script;
    FailFastOne(s6, tagCall);
    assert t == Attempt(trace + [tagCall], Completed(Answer(s6))) by {
      AppendAssoc(trace[..|trace| - 2], pushedCalls, [tagCall]);
    }
    var tagsPushed := PushAllReleaseTags(sh, publicRemote, workingDirectory);
    AppendAssoc(c0, trace, [tagCall]);
    DropDrop(s3, |trace|, 1);
    if tagsPushed.Err? {
      return Err(tagsPushed.error);
    }

    r := Ok(syncBranch.value);
  }
}
