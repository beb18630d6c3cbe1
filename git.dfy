/**
 * The git operations of Sources/RepoToolsCore/Git.swift and `Remote.addIfNeeded`, over the
 * recording executor of module Shell. Each operation is a method that appends its invocations
 * to the executor's call log; its postcondition states exactly which invocations were made, in
 * which order, and how their responses were interpreted. A failed invocation (a thrown
 * `ShellOutError`) ends the operation at once.
 */
module Git {
  import opened Results
  import opened Model
  import opened Shell
  import opened DateFormat

  /** A failed invocation and its exit status, or a working tree with uncommitted changes. */
  datatype Error = CommandFailed(status: ExitStatus) | DirtyWorkingTree

  /** The invocations a sequence of commands made, and how the sequence ended. */
  datatype Attempt<T> = Attempt(calls: seq<Call>, result: Result<T, Error>)

  /** The outcome of a single invocation whose output is not used. */
  function Completed(a: Response): Result<(), Error> {
    match a
    case Output(_) => Ok(())
    case Failure(status) => Err(CommandFailed(status))
  }

  /**
   * Running the commands of `plan` one after another against `script`, stopping at the first
   * failure. The invocations made are a prefix of the plan, and all of it when nothing failed.
   */
  function FailFast(script: seq<Response>, plan: seq<Call>): (a: Attempt<()>)
    ensures a.calls <= plan
    ensures a.result.Ok? ==> a.calls == plan
    decreases |plan|
  {
    if plan == [] then Attempt([], Ok(()))
    else
      match Answer(script)
      case Failure(status) => Attempt([plan[0]], Err(CommandFailed(status)))
      case Output(_) =>
        var rest := FailFast(Drop(script, 1), plan[1..]);
        Attempt([plan[0]] + rest.calls, rest.result)
  }

  /**
   * A fail-fast run succeeds exactly when every command of the plan gave output; when it fails,
   * every invocation before the last gave output and the last one failed, with the status reported.
   */
  lemma {:induction false} FailFastStopsAtFailure(script: seq<Response>, plan: seq<Call>)
    ensures var a := FailFast(script, plan);
      && (a.result.Ok? <==> forall i :: 0 <= i < |plan| ==> Answer(Drop(script, i)).Output?)
      && (a.result.Err? ==>
            && 0 < |a.calls|
            && (forall i :: 0 <= i < |a.calls| - 1 ==> Answer(Drop(script, i)).Output?)
            && Answer(Drop(script, |a.calls| - 1)).Failure?
            && a.result.error == CommandFailed(Answer(Drop(script, |a.calls| - 1)).status))
    decreases |plan|
  {
    assert Drop(script, 0) == script;
    if plan != [] && Answer(script).Output? {
      FailFastStopsAtFailure(Drop(script, 1), plan[1..]);
      DropSucc(script);
    }
  }

  /** The error part of FailFastStopsAtFailure alone: the last invocation failed, with the status reported. */
  lemma FailFastReportsFailure(script: seq<Response>, plan: seq<Call>)
    ensures var a := FailFast(script, plan);
      a.result.Err? ==>
        0 < |a.calls|
        && Answer(Drop(script, |a.calls| - 1)).Failure?
        && a.result.error == CommandFailed(Answer(Drop(script, |a.calls| - 1)).status)
  {
    FailFastStopsAtFailure(script, plan);
  }

  lemma DropSucc(script: seq<Response>)
    ensures forall i: nat :: Drop(Drop(script, 1), i) == Drop(script, 1 + i)
    ensures forall i: nat :: 1 <= i ==> Drop(script, i) == Drop(Drop(script, 1), i - 1)
  {
  }

  /** Two commands run fail-fast: the second runs only when the first gave output. */
  lemma FailFastTwo(script: seq<Response>, first: Call, second: Call)
    ensures FailFast(script, [first, second])
         == if Answer(script).Failure? then Attempt([first], Completed(Answer(script)))
            else Attempt([first, second], Completed(Answer(Drop(script, 1))))
  {
    assert [first, second][1..] == [second];
    assert [second][1..] == [];
    var rest := Drop(script, 1);
    assert FailFast(Drop(rest, 1), []) == Attempt([], Ok(()));
    assert FailFast(rest, [second]) == Attempt([second], Completed(Answer(rest)));
  }

  lemma FailFastOne(script: seq<Response>, call: Call)
    ensures FailFast(script, [call]) == Attempt([call], Completed(Answer(script)))
  {
    assert [call][1..] == [];
    assert FailFast(Drop(script, 1), []) == Attempt([], Ok(()));
  }

  /** Running `first + second` fail-fast is running `first`, then, if it succeeded, `second`. */
  lemma {:induction false} FailFastAppend(script: seq<Response>, first: seq<Call>, second: seq<Call>)
    ensures var a := FailFast(script, first);
      FailFast(script, first + second)
        == if a.result.Err? then a
           else var b := FailFast(Drop(script, |first|), second); Attempt(first + b.calls, b.result)
    decreases |first|
  {
    if first == [] {
      assert first + second == second;
      assert Drop(script, 0) == script;
    } else {
      assert (first + second)[0] == first[0];
      assert (first + second)[1..] == first[1..] + second;
      FailFastAppend(Drop(script, 1), first[1..], second);
      DropDrop(script, 1, |first| - 1);
    }
  }

  // The exact invocations each operation makes.

  function PushCalls(branch: Branch, remote: Remote, workingDirectory: string): seq<Call> {
    [ Call("git", ["push", remote.name, branch.name], workingDirectory),
      Call("git", ["lfs push", remote.name, "--all"], workingDirectory) ]
  }

  function StatusCall(workingDirectory: string): Call {
    Call("git", ["status --porcelain"], workingDirectory)
  }

  function RemoteUrlCall(remote: Remote, workingDirectory: string): Call {
    Call("git", ["config remote." + remote.name + ".url"], workingDirectory)
  }

  function AddRemoteCall(remote: Remote, workingDirectory: string): Call {
    Call("git", ["remote add " + remote.name + " git@github.com:" + remote.repo.path], workingDirectory)
  }

  function FetchCalls(remote: Remote, workingDirectory: string): seq<Call> {
    [ Call("git", ["fetch " + remote.name], workingDirectory),
      Call("git", ["lfs fetch " + remote.name + " --all"], workingDirectory) ]
  }

  function SyncBranchName(now: LocalTime): string {
    "sync/" + Timestamp(now)
  }

  function BranchCall(branchName: string, workingDirectory: string): Call {
    Call("git", ["branch " + branchName + " private-repo/main"], workingDirectory)
  }

  // The fixed text of the release-tag pipeline's stages.
  const ListLocalTags := "git show-ref --tags"
  const DropRemoteTagsHead := "grep -v -F \"$(git ls-remote --tags "
  const DropRemoteTagsTail := " | grep -v '\\^{}' | cut -f 2)\""
  const KeepReleaseTags := "grep -e \"Holder-\" -e \"Verifier-\""
  const DropCandidates := "grep -v \"\\-RC\""
  const KeepReference := "cut -f2 -d \" \""
  const PushEachHead := "xargs -L1 git push "

  /**
   * The six stages of the release-tag pipeline: list local tags, drop those the remote has,
   * keep `Holder-`/`Verifier-` tags, drop release candidates, keep the reference, push each.
   */
  function TagFragments(remoteName: string): seq<string> {
    [ ListLocalTags,
      DropRemoteTagsHead + remoteName + DropRemoteTagsTail,
      KeepReleaseTags,
      DropCandidates,
      KeepReference,
      PushEachHead + remoteName ]
  }

  /** The parts, in order, with `separator` between neighbours. */
  function Join(parts: seq<string>, separator: string): string {
    if |parts| == 0 then ""
    else if |parts| == 1 then parts[0]
    else parts[0] + separator + Join(parts[1..], separator)
  }

  /** The release-tag pipeline, run as one shell command in the working directory. */
  function TagPipelineCall(remote: Remote, workingDirectory: string): Call {
    Call(ListLocalTags
         + " | " + (DropRemoteTagsHead + remote.name + DropRemoteTagsTail)
         + " | " + KeepReleaseTags
         + " | " + DropCandidates
         + " | " + KeepReference
         + " | " + (PushEachHead + remote.name),
         [], workingDirectory)
  }

  /** A remote-URL lookup that finds nothing: empty output, or exit status 1. */
  predicate RemoteAbsent(a: Response) {
    a == Output("") || a == Failure(1)
  }

  // The operations.

  /** Git.push: push the branch, then its large-file content, to the remote. */
  method Push(sh: RecordingShell, branch: Branch, remote: Remote, workingDirectory: string)
    returns (r: Result<(), Error>)
    modifies sh
    ensures var a := FailFast(old(sh.script), PushCalls(branch, remote, workingDirectory));
      sh.calls == old(sh.calls) + a.calls && sh.script == Drop(old(sh.script), |a.calls|) && r == a.result
  {
    var out := sh.Run("git", ["push", remote.name, branch.name], workingDirectory);
    if out.Failure? {
      return Err(CommandFailed(out.status));
    }
    out := sh.Run("git", ["lfs push", remote.name, "--all"], workingDirectory);
    if out.Failure? {
      return Err(CommandFailed(out.status));
    }
    DropDrop(old(sh.script), 1, 1);
    FailFastTwo(old(sh.script), PushCalls(branch, remote, workingDirectory)[0], PushCalls(branch, remote, workingDirectory)[1]);
    return Ok(());
  }

  /** Git.workingDirectoryIsPorcelain: the tree is clean exactly when `status --porcelain` prints nothing. */
  method WorkingDirectoryIsPorcelain(sh: RecordingShell, workingDirectory: string)
    returns (r: Result<bool, Error>)
    modifies sh
    ensures sh.calls == old(sh.calls) + [StatusCall(workingDirectory)]
    ensures sh.script == Drop(old(sh.script), 1)
    ensures var a := Answer(old(sh.script));
      && (a.Output? ==> r == Ok(|a.text| == 0))
      && (a.Failure? ==> r == Err(CommandFailed(a.status)))
  {
    var out := sh.Run("git", ["status --porcelain"], workingDirectory);
    match out
    case Output(text) => r := Ok(text == "");
    case Failure(status) => r := Err(CommandFailed(status));
  }

  /**
   * Git.hasRemote: a non-empty URL means the remote is configured; empty output or exit
   * status 1 means it is not; any other failure is passed on.
   */
  method HasRemote(sh: RecordingShell, remote: Remote, workingDirectory: string)
    returns (r: Result<bool, Error>)
    modifies sh
    ensures sh.calls == old(sh.calls) + [RemoteUrlCall(remote, workingDirectory)]
    ensures sh.script == Drop(old(sh.script), 1)
    ensures var a := Answer(old(sh.script));
      && (a.Output? ==> r == Ok(a.text != ""))
      && (a == Failure(1) ==> r == Ok(false))
      && (a.Failure? && a.status != 1 ==> r == Err(CommandFailed(a.status)))
  {
    var out := sh.Run("git", ["config remote." + remote.name + ".url"], workingDirectory);
    match out
    case Output(text) => r := Ok(text != "");
    case Failure(status) =>
      if status == 1 {
        r := Ok(false);
      } else {
        r := Err(CommandFailed(status));
      }
  }

  /** Git.addRemote: one invocation adding the remote at the repository's SSH address. */
  method AddRemote(sh: RecordingShell, remote: Remote, workingDirectory: string)
    returns (r: Result<(), Error>)
    modifies sh
    ensures sh.calls == old(sh.calls) + [AddRemoteCall(remote, workingDirectory)]
    ensures sh.script == Drop(old(sh.script), 1)
    ensures r == Completed(Answer(old(sh.script)))
  {
    var out := sh.Run("git", ["remote add " + remote.name + " git@github.com:" + remote.repo.path], workingDirectory);
    r := Completed(out);
  }

  /** Git.fetchRepo: fetch the remote, then its large-file content. */
  method FetchRepo(sh: RecordingShell, remote: Remote, workingDirectory: string)
    returns (r: Result<(), Error>)
    modifies sh
    ensures var a := FailFast(old(sh.script), FetchCalls(remote, workingDirectory));
      sh.calls == old(sh.calls) + a.calls && sh.script == Drop(old(sh.script), |a.calls|) && r == a.result
  {
    var out := sh.Run("git", ["fetch " + remote.name], workingDirectory);
    if out.Failure? {
      return Err(CommandFailed(out.status));
    }
    out := sh.Run("git", ["lfs fetch " + remote.name + " --all"], workingDirectory);
    if out.Failure? {
      return Err(CommandFailed(out.status));
    }
    DropDrop(old(sh.script), 1, 1);
    FailFastTwo(old(sh.script), FetchCalls(remote, workingDirectory)[0], FetchCalls(remote, workingDirectory)[1]);
    return Ok(());
  }

  /**
   * Git.createSyncBranch, with the clock reading passed in: create `sync/<timestamp>` from the
   * private remote's main branch and return a branch of that same name.
   */
  method CreateSyncBranch(sh: RecordingShell, workingDirectory: string, now: LocalTime)
    returns (r: Result<Branch, Error>)
    modifies sh
    ensures sh.calls == old(sh.calls) + [BranchCall(SyncBranchName(now), workingDirectory)]
    ensures sh.script == Drop(old(sh.script), 1)
    ensures var a := Answer(old(sh.script));
      && (a.Output? ==> r == Ok(Branch(SyncBranchName(now))))
      && (a.Failure? ==> r == Err(CommandFailed(a.status)))
  {
    var timestamp := Timestamp(now);
    var branchName := "sync/" + timestamp;
    var out := sh.Run("git", ["branch " + branchName + " private-repo/main"], workingDirectory);
    if out.Failure? {
      return Err(CommandFailed(out.status));
    }
    return Ok(Branch(branchName));
  }

  /**
   * Git.pushAllReleaseTags: collect the six pipeline stages, join them with " | " and run the
   * result as one shell command without arguments.
   */
  method PushAllReleaseTags(sh: RecordingShell, remote: Remote, workingDirectory: string)
    returns (r: Result<(), Error>)
    modifies sh
    ensures sh.calls == old(sh.calls) + [TagPipelineCall(remote, workingDirectory)]
    ensures sh.script == Drop(old(sh.script), 1)
    ensures r == Completed(Answer(old(sh.script)))
  {
    var commandFragments: seq<string> := [];
    commandFragments := commandFragments + ["git show-ref --tags"];
    commandFragments := commandFragments
      + ["grep -v -F \"$(git ls-remote --tags " + remote.name + " | grep -v '\\^{}' | cut -f 2)\""];
    commandFragments := commandFragments + ["grep -e \"Holder-\" -e \"Verifier-\""];
    commandFragments := commandFragments + ["grep -v \"\\-RC\""];
    commandFragments := commandFragments + ["cut -f2 -d \" \""];
    commandFragments := commandFragments + ["xargs -L1 git push " + remote.name];
    assert commandFragments == TagFragments(remote.name);
    TagPipelineCommand(remote, workingDirectory);
    var command := Join(commandFragments, " | ");
    var out := sh.Run(command, [], workingDirectory);
    r := Completed(out);
  }

  /** What Remote.addIfNeeded does: the lookup, then the addition only when the lookup finds nothing. */
  function EnsureRemote(script: seq<Response>, remote: Remote, workingDirectory: string): Attempt<()> {
    var a := Answer(script);
    if RemoteAbsent(a) then
      Attempt([RemoteUrlCall(remote, workingDirectory), AddRemoteCall(remote, workingDirectory)],
              Completed(Answer(Drop(script, 1))))
    else
      Attempt([RemoteUrlCall(remote, workingDirectory)], Completed(a))
  }

  /**
   * Remote.addIfNeeded: look the remote up and add it only when the lookup finds nothing; a
   * failed lookup is passed on without adding.
   */
  method AddIfNeeded(sh: RecordingShell, remote: Remote, workingDirectory: string)
    returns (r: Result<(), Error>)
    modifies sh
    ensures var a := EnsureRemote(old(sh.script), remote, workingDirectory);
      sh.calls == old(sh.calls) + a.calls && sh.script == Drop(old(sh.script), |a.calls|) && r == a.result
  {
    var present := HasRemote(sh, remote, workingDirectory);
    if present.Err? {
      return Err(present.error);
    }
    if !present.value {
      r := AddRemote(sh, remote, workingDirectory);
      DropDrop(old(sh.script), 1, 1);
    } else {
      r := Ok(());
    }
  }

  // Properties of the invocations.

  /**
   * The lookup always comes first; the remote is added exactly when the lookup finds nothing,
   * and a lookup that fails otherwise is passed on.
   */
  lemma EnsureRemoteAddsOnlyWhenMissing(script: seq<Response>, remote: Remote, workingDirectory: string)
    ensures var a := EnsureRemote(script, remote, workingDirectory);
      && 0 < |a.calls| && a.calls[0] == RemoteUrlCall(remote, workingDirectory)
      && (AddRemoteCall(remote, workingDirectory) in a.calls <==> RemoteAbsent(Answer(script)))
      && (RemoteAbsent(Answer(script)) ==> a.calls[1..] == [AddRemoteCall(remote, workingDirectory)])
      && (a.result.Err? <==> if RemoteAbsent(Answer(script)) then Answer(Drop(script, 1)).Failure? else Answer(script).Failure?)
  {
    var lookup, add := RemoteUrlCall(remote, workingDirectory), AddRemoteCall(remote, workingDirectory);
    assert lookup.arguments[0][0] == 'c' && add.arguments[0][0] == 'r';
  }

  /** The remote name enters the tag pipeline only in its second and sixth stage, and determines both. */
  lemma TagFragmentsNameOnlyAt2And6(a: string, b: string)
    ensures |TagFragments(a)| == 6
    ensures TagFragments(a)[0] == TagFragments(b)[0] && TagFragments(a)[2] == TagFragments(b)[2]
    ensures TagFragments(a)[3] == TagFragments(b)[3] && TagFragments(a)[4] == TagFragments(b)[4]
    ensures TagFragments(a)[1] == TagFragments(b)[1] <==> a == b
    ensures TagFragments(a)[5] == TagFragments(b)[5] <==> a == b
  {
    var p1, p6, q1 := DropRemoteTagsHead, PushEachHead, DropRemoteTagsTail;
    if TagFragments(a)[1] == TagFragments(b)[1] {
      assert |a| == |b|;
      assert a == (p1 + a + q1)[|p1|..|p1| + |a|];
      assert b == (p1 + b + q1)[|p1|..|p1| + |b|];
    }
    if TagFragments(a)[5] == TagFragments(b)[5] {
      assert a == (p6 + a)[|p6|..];
      assert b == (p6 + b)[|p6|..];
    }
  }

  /**
   * The pipeline's command is the six stages of TagFragments in order with " | " between them,
   * which is how pushAllReleaseTags assembles it.
   */
  lemma TagPipelineCommand(remote: Remote, workingDirectory: string)
    ensures TagPipelineCall(remote, workingDirectory) == Call(Join(TagFragments(remote.name), " | "), [], workingDirectory)
  {
    JoinSix(TagFragments(remote.name), " | ");
  }


  lemma JoinSix(parts: seq<string>, separator: string)
    requires |parts| == 6
    ensures Join(parts, separator)
         == parts[0] + separator + parts[1] + separator + parts[2] + separator + parts[3]
          + separator + parts[4] + separator + parts[5]
  {
    var p, sep := parts, separator;
    assert Join(p[4..], sep) == p[4] + sep + p[5] by { assert p[4..][1..] == p[5..]; }
    assert Join(p[3..], sep) == p[3] + sep + Join(p[4..], sep) by { assert p[3..][1..] == p[4..]; }
    assert Join(p[2..], sep) == p[2] + sep + Join(p[3..], sep) by { assert p[2..][1..] == p[3..]; }
    assert Join(p[1..], sep) == p[1] + sep + Join(p[2..], sep) by { assert p[1..][1..] == p[2..]; }
  }

  /** Equal sync branch names come from readings that agree on everything but the half of the day. */
  lemma SyncBranchNameDeterminesReading(t1: LocalTime, t2: LocalTime)
    requires t1.Valid() && t2.Valid() && t1.year < 10000 && t2.year < 10000
    requires SyncBranchName(t1) == SyncBranchName(t2)
    ensures t1.year == t2.year && t1.month == t2.month && t1.day == t2.day
    ensures t1.hour % 12 == t2.hour % 12
    ensures t1.minute == t2.minute && t1.second == t2.second
  {
    assert Timestamp(t1) == SyncBranchName(t1)[5..];
    assert Timestamp(t2) == SyncBranchName(t2)[5..];
    TimestampDeterminesReading(t1, t2);
  }

  /** The test suite's branch: 2023-01-06 13:32:02 local time gives `sync/2023106-013202`. */
  lemma SyncBranchExample()
    ensures SyncBranchName(LocalTime(2023, 1, 6, 13, 32, 2)) == "sync/2023106-013202"
  {
    TimestampExample();
  }
}
