/**
 * What a `sync-repo` run promises, stated over SyncOutcome, the behaviour Run is proved to
 * have: the invocations follow the plan in order and stop at the first failure, whose exit
 * status is reported; a dirty working tree is reported after the status check alone; and a
 * shell that answers every command with empty output sees the whole plan and gets the
 * pull-request URL.
 */
module SyncProperties {
  import opened Results
  import opened Sequences
  import opened Model
  import opened Shell
  import opened DateFormat
  import opened Git
  import opened SyncRepo

  /**
   * Setting up one remote issues its lookup and, exactly when the lookup finds nothing, its
   * addition; an error is always a failed command, and it is the last invocation that failed.
   */
  lemma EnsureRemoteFollowsPlan(s: seq<Response>, remote: Remote, workingDirectory: string)
    ensures var a := EnsureRemote(s, remote, workingDirectory);
      && a.calls == RemotePlan(remote, RemoteAbsent(Answer(s)), workingDirectory)
      && (a.result.Err? ==>
            Answer(Drop(s, |a.calls| - 1)).Failure?
            && a.result.error == CommandFailed(Answer(Drop(s, |a.calls| - 1)).status))
  {
    assert Drop(s, 0) == s;
  }

  /** Both remotes' setup follows SetupPlan; a failure ends it at the command that failed. */
  lemma SetupFollowsPlan(s: seq<Response>, publicRepo: GithubRepo, privateRepo: GithubRepo, workingDirectory: string)
    ensures var u := SetupOutcome(s, publicRepo, privateRepo, workingDirectory);
      var addPublic := RemoteAbsent(Answer(s));
      var addPrivate := RemoteAbsent(Answer(Drop(s, if addPublic then 2 else 1)));
      var plan := SetupPlan(publicRepo, privateRepo, addPublic, addPrivate, workingDirectory);
      && u.calls <= plan
      && (u.result.Ok? ==> u.calls == plan)
  {
    var publicRemote, privateRemote := Remote(PublicRemoteName, publicRepo), Remote(PrivateRemoteName, privateRepo);
    var addPublic := RemoteAbsent(Answer(s));
    var p := EnsureRemote(s, publicRemote, workingDirectory);
    EnsureRemoteFollowsPlan(s, publicRemote, workingDirectory);
    var first := RemotePlan(publicRemote, addPublic, workingDirectory);
    var rest := Drop(s, |p.calls|);
    var second := RemotePlan(privateRemote, RemoteAbsent(Answer(rest)), workingDirectory);
    if p.result.Err? {
      PrefixOfAppend(p.calls, first, second);
    } else {
      var q := EnsureRemote(rest, privateRemote, workingDirectory);
      EnsureRemoteFollowsPlan(rest, privateRemote, workingDirectory);
      assert p.calls + q.calls == first + second;
    }
  }

  /** A failed setup reports a failed command, and the last invocation is the one that failed. */
  lemma SetupStopsAtFailure(s: seq<Response>, publicRepo: GithubRepo, privateRepo: GithubRepo, workingDirectory: string)
    ensures var u := SetupOutcome(s, publicRepo, privateRepo, workingDirectory);
      u.result.Err? ==>
        0 < |u.calls|
        && Answer(Drop(s, |u.calls| - 1)).Failure?
        && u.result.error == CommandFailed(Answer(Drop(s, |u.calls| - 1)).status)
  {
    var publicRemote, privateRemote := Remote(PublicRemoteName, publicRepo), Remote(PrivateRemoteName, privateRepo);
    var p := EnsureRemote(s, publicRemote, workingDirectory);
    EnsureRemoteFollowsPlan(s, publicRemote, workingDirectory);
    if p.result.Ok? {
      var rest := Drop(s, |p.calls|);
      var q := EnsureRemote(rest, privateRemote, workingDirectory);
      EnsureRemoteFollowsPlan(rest, privateRemote, workingDirectory);
      if q.result.Err? {
        DropDrop(s, |p.calls|, |q.calls| - 1);
      }
    }
  }

  /** On a clean tree: the setup, then the fail-fast tail. */
  lemma CleanTreeFollowsPlan(s: seq<Response>, publicRepo: GithubRepo, privateRepo: GithubRepo,
                             workingDirectory: string, now: LocalTime)
    ensures var c := CleanTreeOutcome(s, publicRepo, privateRepo, workingDirectory, now);
      var addPublic := RemoteAbsent(Answer(s));
      var addPrivate := RemoteAbsent(Answer(Drop(s, if addPublic then 2 else 1)));
      var plan := SetupPlan(publicRepo, privateRepo, addPublic, addPrivate, workingDirectory)
        + SyncTail(Remote(PublicRemoteName, publicRepo), Remote(PrivateRemoteName, privateRepo),
                   workingDirectory, SyncBranchName(now));
      && c.calls <= plan
      && (c.result.Ok? ==> c.calls == plan && c.result.value == PullRequestUrl(publicRepo, Branch(SyncBranchName(now))))
  {
    var addPublic := RemoteAbsent(Answer(s));
    var addPrivate := RemoteAbsent(Answer(Drop(s, if addPublic then 2 else 1)));
    var setup := SetupPlan(publicRepo, privateRepo, addPublic, addPrivate, workingDirectory);
    var tail := SyncTail(Remote(PublicRemoteName, publicRepo), Remote(PrivateRemoteName, privateRepo),
                         workingDirectory, SyncBranchName(now));
    var u := SetupOutcome(s, publicRepo, privateRepo, workingDirectory);
    SetupFollowsPlan(s, publicRepo, privateRepo, workingDirectory);
    if u.result.Err? {
      PrefixOfAppend(u.calls, setup, tail);
    } else {
      PrefixAppend(u.calls, FailFast(Drop(s, |u.calls|), tail).calls, tail);
    }
  }

  /** On a clean tree, an error is a failed command, and the last invocation is the one that failed. */
  lemma CleanTreeStopsAtFailure(s: seq<Response>, publicRepo: GithubRepo, privateRepo: GithubRepo,
                                workingDirectory: string, now: LocalTime)
    ensures var c := CleanTreeOutcome(s, publicRepo, privateRepo, workingDirectory, now);
      c.result.Err? ==>
        0 < |c.calls|
        && Answer(Drop(s, |c.calls| - 1)).Failure?
        && c.result.error == CommandFailed(Answer(Drop(s, |c.calls| - 1)).status)
  {
    var u := SetupOutcome(s, publicRepo, privateRepo, workingDirectory);
    SetupStopsAtFailure(s, publicRepo, privateRepo, workingDirectory);
    if u.result.Ok? {
      var rest := Drop(s, |u.calls|);
      var tail := SyncTail(Remote(PublicRemoteName, publicRepo), Remote(PrivateRemoteName, privateRepo),
                           workingDirectory, SyncBranchName(now));
      var t := FailFast(rest, tail);
      FailFastReportsFailure(rest, tail);
      if t.result.Err? {
        DropDrop(s, |u.calls|, |t.calls| - 1);
      }
    }
  }

  /**
   * A run's invocations are a prefix of SyncPlan, for the remotes its lookups find missing,
   * and all of it when the run succeeds, whose result is then the pull-request URL of the
   * branch named after the clock reading.
   */
  lemma SyncFollowsPlan(s: seq<Response>, publicRepo: GithubRepo, privateRepo: GithubRepo,
                        workingDirectory: string, now: LocalTime)
    ensures var o := SyncOutcome(s, publicRepo, privateRepo, workingDirectory, now);
      var plan := SyncPlan(publicRepo, privateRepo, PublicMissing(s), PrivateMissing(s), workingDirectory, SyncBranchName(now));
      && o.calls <= plan
      && (o.result.Ok? ==> o.calls == plan && o.result == Ok(PullRequestUrl(publicRepo, Branch(SyncBranchName(now)))))
  {
    var status := [StatusCall(workingDirectory)];
    if Answer(s) == Output("") {
      var rest := Drop(s, 1);
      CleanTreeFollowsPlan(rest, publicRepo, privateRepo, workingDirectory, now);
      DropDrop(s, 1, if RemoteAbsent(Answer(rest)) then 2 else 1);
      var c := CleanTreeOutcome(rest, publicRepo, privateRepo, workingDirectory, now);
      var addPublic := RemoteAbsent(Answer(rest));
      var addPrivate := RemoteAbsent(Answer(Drop(rest, if addPublic then 2 else 1)));
      PrefixAppend(status, c.calls,
                   SetupPlan(publicRepo, privateRepo, addPublic, addPrivate, workingDirectory)
                     + SyncTail(Remote(PublicRemoteName, publicRepo), Remote(PrivateRemoteName, privateRepo),
                                workingDirectory, SyncBranchName(now)));
    }
  }

  /**
   * Up to the `n`th, every invocation of `calls` gave output, or was one of the remote lookups
   * and exited with status 1, which hasRemote reads as "not configured".
   */
  predicate Tolerated(s: seq<Response>, calls: seq<Call>, lookups: set<Call>, n: int) {
    forall i :: 0 <= i < n && i < |calls| ==>
      Answer(Drop(s, i)).Output? || (Answer(Drop(s, i)) == Failure(1) && calls[i] in lookups)
  }

  lemma ToleratedAppend(s: seq<Response>, a: seq<Call>, b: seq<Call>, lookups: set<Call>, n: int)
    requires Tolerated(s, a, lookups, |a|) && Tolerated(Drop(s, |a|), b, lookups, n)
    ensures Tolerated(s, a + b, lookups, |a| + n)
  {
    forall i | 0 <= i < |a| + n && i < |a + b|
      ensures Answer(Drop(s, i)).Output? || (Answer(Drop(s, i)) == Failure(1) && (a + b)[i] in lookups)
    {
      if i >= |a| {
        DropDrop(s, |a|, i - |a|);
        assert (a + b)[i] == b[i - |a|];
      }
    }
  }

  /** Setting up one remote tolerates only its lookup's status 1; on success its last call is tolerated too. */
  lemma EnsureRemoteTolerated(s: seq<Response>, remote: Remote, workingDirectory: string, lookups: set<Call>)
    requires RemoteUrlCall(remote, workingDirectory) in lookups
    ensures var a := EnsureRemote(s, remote, workingDirectory);
      && Tolerated(s, a.calls, lookups, |a.calls| - 1)
      && (a.result.Ok? ==> Tolerated(s, a.calls, lookups, |a.calls|))
  {
    assert Drop(s, 0) == s;
  }

  /** In a fail-fast run every invocation but the last gave output, and the last one too on success. */
  lemma FailFastTolerated(s: seq<Response>, plan: seq<Call>, lookups: set<Call>)
    ensures var a := FailFast(s, plan);
      && Tolerated(s, a.calls, lookups, |a.calls| - 1)
      && (a.result.Ok? ==> Tolerated(s, a.calls, lookups, |a.calls|))
  {
    FailFastStopsAtFailure(s, plan);
  }

  lemma SetupTolerated(s: seq<Response>, publicRepo: GithubRepo, privateRepo: GithubRepo,
                       workingDirectory: string, lookups: set<Call>)
    requires RemoteUrlCall(Remote(PublicRemoteName, publicRepo), workingDirectory) in lookups
    requires RemoteUrlCall(Remote(PrivateRemoteName, privateRepo), workingDirectory) in lookups
    ensures var u := SetupOutcome(s, publicRepo, privateRepo, workingDirectory);
      && Tolerated(s, u.calls, lookups, |u.calls| - 1)
      && (u.result.Ok? ==> Tolerated(s, u.calls, lookups, |u.calls|))
  {
    var p := EnsureRemote(s, Remote(PublicRemoteName, publicRepo), workingDirectory);
    EnsureRemoteTolerated(s, Remote(PublicRemoteName, publicRepo), workingDirectory, lookups);
    if p.result.Ok? {
      var rest := Drop(s, |p.calls|);
      var q := EnsureRemote(rest, Remote(PrivateRemoteName, privateRepo), workingDirectory);
      EnsureRemoteTolerated(rest, Remote(PrivateRemoteName, privateRepo), workingDirectory, lookups);
      ToleratedAppend(s, p.calls, q.calls, lookups, |q.calls| - 1);
      if q.result.Ok? {
        ToleratedAppend(s, p.calls, q.calls, lookups, |q.calls|);
      }
    }
  }

  lemma CleanTreeTolerated(s: seq<Response>, publicRepo: GithubRepo, privateRepo: GithubRepo,
                           workingDirectory: string, now: LocalTime, lookups: set<Call>)
    requires RemoteUrlCall(Remote(PublicRemoteName, publicRepo), workingDirectory) in lookups
    requires RemoteUrlCall(Remote(PrivateRemoteName, privateRepo), workingDirectory) in lookups
    ensures var c := CleanTreeOutcome(s, publicRepo, privateRepo, workingDirectory, now);
      Tolerated(s, c.calls, lookups, |c.calls| - 1)
  {
    var u := SetupOutcome(s, publicRepo, privateRepo, workingDirectory);
    SetupTolerated(s, publicRepo, privateRepo, workingDirectory, lookups);
    if u.result.Ok? {
      var rest := Drop(s, |u.calls|);
      var tail := SyncTail(Remote(PublicRemoteName, publicRepo), Remote(PrivateRemoteName, privateRepo),
                           workingDirectory, SyncBranchName(now));
      var t := FailFast(rest, tail);
      FailFastTolerated(rest, tail, lookups);
      ToleratedAppend(s, u.calls, t.calls, lookups, |t.calls| - 1);
    }
  }

  /** Over a whole run, only the two remote lookups may fail without ending it. */
  lemma SyncTolerated(s: seq<Response>, publicRepo: GithubRepo, privateRepo: GithubRepo,
                      workingDirectory: string, now: LocalTime, lookups: set<Call>)
    requires RemoteUrlCall(Remote(PublicRemoteName, publicRepo), workingDirectory) in lookups
    requires RemoteUrlCall(Remote(PrivateRemoteName, privateRepo), workingDirectory) in lookups
    ensures var o := SyncOutcome(s, publicRepo, privateRepo, workingDirectory, now);
      Tolerated(s, o.calls, lookups, |o.calls| - 1)
  {
    assert Drop(s, 0) == s;
    if Answer(s) == Output("") {
      var rest := Drop(s, 1);
      CleanTreeTolerated(rest, publicRepo, privateRepo, workingDirectory, now, lookups);
      var c := CleanTreeOutcome(rest, publicRepo, privateRepo, workingDirectory, now);
      ToleratedAppend(s, [StatusCall(workingDirectory)], c.calls, lookups, |c.calls| - 1);
    }
  }

  /**
   * A run that reports a failed command stops right after it: the last invocation is the one
   * whose exit status is reported. Every invocation before it gave output, or was one of the
   * two remote lookups exiting with status 1: no other failure is passed over.
   */
  lemma SyncStopsAtFailure(s: seq<Response>, publicRepo: GithubRepo, privateRepo: GithubRepo,
                           workingDirectory: string, now: LocalTime)
    ensures var o := SyncOutcome(s, publicRepo, privateRepo, workingDirectory, now);
      o.result.Err? && o.result.error.CommandFailed? ==>
        0 < |o.calls| && Answer(Drop(s, |o.calls| - 1)) == Failure(o.result.error.status)
    ensures var o := SyncOutcome(s, publicRepo, privateRepo, workingDirectory, now);
      forall i :: 0 <= i < |o.calls| - 1 ==>
        Answer(Drop(s, i)).Output?
        || (Answer(Drop(s, i)) == Failure(1)
            && o.calls[i] in {RemoteUrlCall(Remote(PublicRemoteName, publicRepo), workingDirectory),
                              RemoteUrlCall(Remote(PrivateRemoteName, privateRepo), workingDirectory)})
  {
    SyncTolerated(s, publicRepo, privateRepo, workingDirectory, now,
                  {RemoteUrlCall(Remote(PublicRemoteName, publicRepo), workingDirectory),
                   RemoteUrlCall(Remote(PrivateRemoteName, privateRepo), workingDirectory)});
    assert Drop(s, 0) == s;
    if Answer(s) == Output("") {
      var rest := Drop(s, 1);
      CleanTreeStopsAtFailure(rest, publicRepo, privateRepo, workingDirectory, now);
      var c := CleanTreeOutcome(rest, publicRepo, privateRepo, workingDirectory, now);
      if c.result.Err? {
        DropDrop(s, 1, |c.calls| - 1);
      }
    }
  }

  /**
   * The working-tree guard: a run ends with the dirty-tree error exactly when the status check
   * prints something, and then after that one invocation.
   */
  lemma SyncDirtyTree(s: seq<Response>, publicRepo: GithubRepo, privateRepo: GithubRepo,
                      workingDirectory: string, now: LocalTime)
    ensures var o := SyncOutcome(s, publicRepo, privateRepo, workingDirectory, now);
      && (o.result == Err(DirtyWorkingTree) <==> Answer(s).Output? && Answer(s).text != "")
      && (o.result == Err(DirtyWorkingTree) ==> o.calls == [StatusCall(workingDirectory)])
  {
    if Answer(s) == Output("") {
      CleanTreeStopsAtFailure(Drop(s, 1), publicRepo, privateRepo, workingDirectory, now);
    }
  }

  /** On a clean tree, ten empty outputs add both remotes and carry the tail through. */
  lemma CleanTreeCompletes(s: seq<Response>, publicRepo: GithubRepo, privateRepo: GithubRepo,
                           workingDirectory: string, now: LocalTime)
    requires forall i: nat :: i < 10 ==> Answer(Drop(s, i)) == Output("")
    ensures CleanTreeOutcome(s, publicRepo, privateRepo, workingDirectory, now)
         == Attempt(SetupPlan(publicRepo, privateRepo, true, true, workingDirectory)
                      + SyncTail(Remote(PublicRemoteName, publicRepo), Remote(PrivateRemoteName, privateRepo),
                                 workingDirectory, SyncBranchName(now)),
                    Ok(PullRequestUrl(publicRepo, Branch(SyncBranchName(now)))))
  {
    assert Drop(s, 0) == s;
    assert Answer(Drop(s, 1)) == Output("") && Answer(Drop(s, 2)) == Output("") && Answer(Drop(s, 3)) == Output("");
    DropDrop(s, 2, 1);
    var u := SetupOutcome(s, publicRepo, privateRepo, workingDirectory);
    assert u == Attempt(SetupPlan(publicRepo, privateRepo, true, true, workingDirectory), Ok(()));
    var tail := SyncTail(Remote(PublicRemoteName, publicRepo), Remote(PrivateRemoteName, privateRepo),
                         workingDirectory, SyncBranchName(now));
    FailFastStopsAtFailure(Drop(s, 4), tail);
    forall i | 0 <= i < |tail|
      ensures Answer(Drop(Drop(s, 4), i)).Output?
    {
      DropDrop(s, 4, i);
    }
  }

  /**
   * When the status check and the ten commands after it all print nothing, both lookups find
   * their remote missing, so both are added, and the run goes through the whole plan to the
   * pull-request URL.
   */
  lemma SyncCompletes(s: seq<Response>, publicRepo: GithubRepo, privateRepo: GithubRepo,
                      workingDirectory: string, now: LocalTime)
    requires forall i: nat :: i < 11 ==> Answer(Drop(s, i)) == Output("")
    ensures SyncOutcome(s, publicRepo, privateRepo, workingDirectory, now)
         == Attempt(SyncPlan(publicRepo, privateRepo, true, true, workingDirectory, SyncBranchName(now)),
                    Ok(PullRequestUrl(publicRepo, Branch(SyncBranchName(now)))))
  {
    assert Drop(s, 0) == s;
    forall i: nat | i < 10
      ensures Answer(Drop(Drop(s, 1), i)) == Output("")
    {
      DropDrop(s, 1, i);
    }
    CleanTreeCompletes(Drop(s, 1), publicRepo, privateRepo, workingDirectory, now);
  }

  /**
   * A shell that has nothing scripted answers every command with empty output, as the test
   * suite's fake does by default; the run then adds both remotes and succeeds.
   */
  lemma SyncWithSilentShell(publicRepo: GithubRepo, privateRepo: GithubRepo, workingDirectory: string, now: LocalTime)
    ensures SyncOutcome([], publicRepo, privateRepo, workingDirectory, now)
         == Attempt(SyncPlan(publicRepo, privateRepo, true, true, workingDirectory, SyncBranchName(now)),
                    Ok(PullRequestUrl(publicRepo, Branch(SyncBranchName(now)))))
  {
    SyncCompletes([], publicRepo, privateRepo, workingDirectory, now);
  }

  /**
   * The tail fetches the private remote, starts the sync branch from that remote's main branch,
   * and pushes the branch and then the tags to the public remote.
   */
  lemma BranchStartsFromFetchedRemote(publicRepo: GithubRepo, privateRepo: GithubRepo,
                                      workingDirectory: string, name: string)
    ensures var tail := SyncTail(Remote(PublicRemoteName, publicRepo), Remote(PrivateRemoteName, privateRepo),
                                 workingDirectory, name);
      && |tail| == 6
      && tail[0].arguments == ["fetch " + PrivateRemoteName]
      && tail[2].arguments == ["branch " + name + " " + PrivateRemoteName + "/main"]
      && tail[3].arguments == ["push", PublicRemoteName, name]
      && tail[5] == TagPipelineCall(Remote(PublicRemoteName, publicRepo), workingDirectory)
  {
    var tail := SyncTail(Remote(PublicRemoteName, publicRepo), Remote(PrivateRemoteName, privateRepo),
                         workingDirectory, name);
    assert tail[2] == BranchCall(name, workingDirectory);
    var head := "branch " + name;
    assert " " + PrivateRemoteName + "/main" == " private-repo/main";
    AppendAssoc(head, " " + PrivateRemoteName, "/main");
    assert head + " private-repo/main" == head + " " + PrivateRemoteName + "/main";
  }

  /** The pull-request URL of a repository names the branch it was built for: different branches, different URLs. */
  lemma PullRequestUrlDeterminesBranch(repo: GithubRepo, b1: Branch, b2: Branch)
    requires PullRequestUrl(repo, b1) == PullRequestUrl(repo, b2)
    ensures b1 == b2
  {
    var head := GithubSite + repo.path + CompareSegment;
    SplitAtEnd(head + b1.name, PullRequestQuery, head + b2.name, PullRequestQuery);
    SplitAtStart(head, b1.name, head, b2.name);
  }
}
