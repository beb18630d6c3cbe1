# nl-rdo-git-repository-tools — a Dafny model of `sync-repo`

`sync-repo` takes a development team's private GitHub fork and brings its work into the public
repository. It checks that the working copy is clean. It makes sure two git remotes exist,
`public-repo` and `private-repo`. It fetches the private remote and creates a `sync/<timestamp>`
branch from `private-repo/main`. It pushes that branch to the public remote, then the release
tags its tag pipeline selects (see ## Findings for a tag the pipeline misses). Finally it builds
the URL of a GitHub pull request for the branch.

Everything the tool does goes through a single effect: run a command with arguments in a
directory, and get back its output or a non-zero exit status. The model replaces that effect
with a recording executor, as the repository's own test double does. `Shell.RecordingShell`
keeps a call log and answers each call from a script of responses. Once the script is
exhausted, it answers with empty output. Each git operation is a method over that executor. Its
postcondition says exactly which calls it appends, in which order, and how it reads the answers.
A failed call ends the operation, just as a thrown error does.

Modules:

- `Results` holds the `Result` datatype.
- `Sequences` holds facts about concatenation and prefixes.
- `Model` holds `GithubRepo`, `Remote` and `Branch`, and the validation of `owner/repo` paths.
- `Shell` holds the executor.
- `DateFormat` models the `yyyyMdd-hhmmss` timestamp of branch names.
- `Git` holds the git operations and `Remote.addIfNeeded`. It also has `FailFast`, which runs a
  list of commands and stops at the first failure.
- `GitOracles` checks the tag pipeline's stages against the test suite's expected command.
- `TagFilter` states which tags the release-tag pipeline selects.
- `SyncRepo` holds the `run` of `sync-repo`. Its behaviour is stated as the function `SyncOutcome`.
- `SyncProperties` proves what a run promises, in terms of `SyncOutcome`.

The clock reading and the executor are parameters. The repository's tests assume both:
they build `Git(provider:)` and pass `now:` to `createSyncBranch`. In the source itself, `Git`
is a static enum that reads `Date()` directly.

The date pattern `hh` is the hour on a 12-hour clock, and the model follows the code here. So a
run before noon and a run twelve hours later on the same day produce the same branch name
(`DateFormat.TimestampTwelveHoursApart`). The name does not identify the moment of a run. It
identifies it only up to the half of the day (`Git.SyncBranchNameDeterminesReading`).

## Model

| member | source | states |
|---|---|---|
| Model.ParseGithubRepo | Sources/RepoToolsCore/Model.swift:37-49 | Succeeds exactly when the input matches the anchored `[\w-]+/[\w-]+`. On success `path` is the whole input, the two fields are non-empty `[\w-]` runs, and `organisation + "/" + repository == path`. Otherwise it fails with the one fixed error. |
| Model.ParseJoinRoundTrip | Sources/RepoToolsCore/Model.swift:46-48 | Joining two valid segments with `/` and parsing the result gives back exactly those two segments. |
| Model.ParseRejects | Sources/RepoToolsCore/Model.swift:43-44 | A path is rejected if it has no slash, has two slashes, starts or ends with a slash, or contains a character outside `[\w-]`. |
| Shell.RecordingShell.constructor | Tests/RepoToolsCoreTests/RepoToolsCoreTests.swift:11-15 | A fresh executor has an empty call log and the given script. |
| Shell.RecordingShell.Run | Tests/RepoToolsCoreTests/RepoToolsCoreTests.swift:17-27 | Appends the call to the log and answers with the next scripted response, or with empty output once the script is exhausted. |
| DateFormat.PaddedRoundTrip | Sources/RepoToolsCore/Git.swift:47-50 | A number printed by a date-pattern field is all digits, and reading those digits back gives the number. |
| DateFormat.PaddedWidth | Sources/RepoToolsCore/Git.swift:47-50 | A number below 10^n printed by an n-letter field has exactly n digits. |
| DateFormat.Hour12 | Sources/RepoToolsCore/Git.swift:49 | `hh` prints an hour from 1 to 12 that agrees with the 24-hour reading modulo 12. |
| DateFormat.TimestampDeterminesReading | Sources/RepoToolsCore/Git.swift:47-50 | For years below 10000, two valid readings with the same timestamp agree on year, month, day, minute, second and the hour modulo 12. |
| DateFormat.TimestampTwelveHoursApart | Sources/RepoToolsCore/Git.swift:49 | A reading before noon and the reading twelve hours later on the same day print the same timestamp. |
| DateFormat.TimestampShape | Sources/RepoToolsCore/Git.swift:47-50 | For a valid reading with a year below 10000, `Timestamp` gives 14 characters, or 15 for a two-digit month. The `-` is seventh from the end, and the two characters after it read back as the 12-hour hour. |
| DateFormat.TimestampExample | Tests/RepoToolsCoreTests/RepoToolsCoreTests.swift:127-129 | The reading 2023-01-06 13:32:02 prints as `2023106-013202`. |
| Git.FailFast | Sources/RepoTools/SyncRepo.swift:51-76 | Running a list of commands with `try`: the calls made are a prefix of the list, and the whole list when nothing failed. |
| Git.FailFastStopsAtFailure | Sources/RepoTools/SyncRepo.swift:51-76 | A run succeeds exactly when every planned command gave output. When it fails, every call before the last gave output, the last one failed, and its exit status is the error. |
| Git.FailFastReportsFailure | Sources/RepoTools/SyncRepo.swift:51-76 | The error half of the above: the last call failed, and its status is reported. |
| Git.FailFastTwo | Sources/RepoToolsCore/Git.swift:16-17 | Of two commands, the second runs only when the first gave output. |
| Git.FailFastAppend | Sources/RepoTools/SyncRepo.swift:65-71 | Running two lists back to back is running the first, then the second only if the first succeeded. |
| Git.Push | Sources/RepoToolsCore/Git.swift:13-18 | Appends `git push <remote> <branch>`, then `git lfs push <remote> --all` in the working directory. It stops at the first failure, and its log and result are those of `FailFast` over those two calls. |
| Git.WorkingDirectoryIsPorcelain | Sources/RepoToolsCore/Git.swift:20-22 | Makes one `status --porcelain` call. The tree is clean exactly when the output is empty, and a failure is passed on. |
| Git.HasRemote | Sources/RepoToolsCore/Git.swift:24-32 | Makes one `config remote.<name>.url` call. Non-empty output means true. Empty output or exit status 1 means false. Any other status is passed on as an error. |
| Git.AddRemote | Sources/RepoToolsCore/Git.swift:34-37 | Makes one `remote add <name> git@github.com:<path>` call, and its outcome is the result. |
| Git.FetchRepo | Sources/RepoToolsCore/Git.swift:39-43 | Appends `fetch <name>`, then `lfs fetch <name> --all`, stopping at the first failure. |
| Git.CreateSyncBranch | Sources/RepoToolsCore/Git.swift:45-59 | Makes one `branch sync/<timestamp> private-repo/main` call. On success it returns a branch of exactly that name. |
| Git.PushAllReleaseTags | Sources/RepoToolsCore/Git.swift:61-82 | Collects the six stages, joins them with ` \| ` and makes exactly one call: that command, with no arguments, in the working directory. |
| Git.TagPipelineCommand | Sources/RepoToolsCore/Git.swift:63-78 | The command run is the six stages in their fixed order, joined with ` \| `. |
| GitOracles.TestRemoteFixedStages | Tests/RepoToolsCoreTests/RepoToolsCoreTests.swift:143-145 | For the remote `my-remote` there are six stages, and stages 1, 3, 4 and 5 are, text for text, those pieces of the test's expected command. |
| GitOracles.TestRemoteLookupStage | Tests/RepoToolsCoreTests/RepoToolsCoreTests.swift:143-145 | Stage 2 for `my-remote` is the test's `grep -v -F "$(git ls-remote --tags my-remote \| grep -v '\^{}' \| cut -f 2)"`. |
| GitOracles.TestRemotePushStage | Tests/RepoToolsCoreTests/RepoToolsCoreTests.swift:143-145 | Stage 6 for `my-remote` is the test's `xargs -L1 git push my-remote`. |
| Git.TagFragmentsNameOnlyAt2And6 | Sources/RepoToolsCore/Git.swift:63-76 | There are six stages. The remote name affects only stages 2 and 6, and each of those two determines the name. |
| Git.AddIfNeeded | Sources/RepoToolsCore/Git.swift:85-91 | Looks the remote up and adds it only when the lookup finds nothing. A failed lookup is passed on without adding. The log and result are those of `EnsureRemote`. |
| Git.EnsureRemoteAddsOnlyWhenMissing | Sources/RepoToolsCore/Git.swift:87-91 | The lookup always comes first. The add call appears exactly when the lookup found nothing, and then it is the only other call. The result is an error exactly when the call last made failed. |
| Git.SyncBranchNameDeterminesReading | Sources/RepoToolsCore/Git.swift:47-55 | Equal sync-branch names come from readings that differ at most in the half of the day. |
| Git.SyncBranchExample | Tests/RepoToolsCoreTests/RepoToolsCoreTests.swift:127-134 | The test's reading gives the branch `sync/2023106-013202`. |
| TagFilter.KnownRefs | Sources/RepoToolsCore/Git.swift:67-68 | The remote's references are exactly its listed references that are not peeled `^{}` entries. |
| TagFilter.SelectMembership | Sources/RepoToolsCore/Git.swift:65-76 | A tag is selected exactly when a local line carries it, the remote lacks it, the line names a `Holder-` or `Verifier-` tag, and the line has no `-RC`. |
| TagFilter.SelectSkipsRemoteTags | Sources/RepoToolsCore/Git.swift:67-68 | No tag the remote already has is selected. |
| TagFilter.SelectAppend | Sources/RepoToolsCore/Git.swift:73-76 | Lines are judged one at a time and their order is kept, so one push happens per selected line, in listing order. |
| TagFilter.AsWrittenAgreesWithoutOverlap | Sources/RepoToolsCore/Git.swift:68 | The substring filter of the code and the exact-reference filter agree when no remote reference occurs in a local line except as that line's own reference. |
| TagFilter.AsWrittenDropsExtendedTag | Sources/RepoToolsCore/Git.swift:68 | As written, a release tag whose reference strictly extends a remote reference is never pushed, although the remote lacks it. The corrected `Select` pushes it. |
| TagFilter.HolderLineIsRelease | Sources/RepoToolsCore/Git.swift:70-72 | A Holder tag line whose hash and version contain no `R` passes the release-tag stages. |
| TagFilter.AsWrittenMissesHolder2130 | Sources/RepoToolsCore/Git.swift:68 | With `refs/tags/Holder-2.1.3` on the remote, the code drops the local `refs/tags/Holder-2.1.30`. `Select` keeps it. |
| SyncRepo.Run | Sources/RepoTools/SyncRepo.swift:51-76 | The calls a run appends, the responses it consumes and its result are those of `SyncOutcome`. That covers the status guard, then both remotes, fetch, branch, push and tags, each ending the run on failure, and finally the pull-request URL. |
| SyncRepo.SyncCleanTree | Sources/RepoTools/SyncRepo.swift:59-75 | On a clean tree the calls and the result are those of `CleanTreeOutcome`: set up the remotes, run the tail, and build the URL. |
| SyncRepo.SetUpRemotes | Sources/RepoTools/SyncRepo.swift:59-63 | Ensures `public-repo`, then `private-repo`, and stops at the first failure. The calls and the result are those of `SetupOutcome`. |
| SyncRepo.FetchBranchAndPush | Sources/RepoTools/SyncRepo.swift:65-71 | Fetches the private remote, creates the branch, pushes it, then pushes the tags to the public remote. Its calls are the fail-fast run of `SyncTail`, and on success it returns the branch named after the clock reading. |
| SyncProperties.EnsureRemoteFollowsPlan | Sources/RepoToolsCore/Git.swift:87-91 | Setting up one remote makes its lookup, plus the add exactly when the lookup finds nothing. An error is the last call's failure status. |
| SyncProperties.SetupFollowsPlan | Sources/RepoTools/SyncRepo.swift:59-63 | Setting up both remotes makes a prefix of the public-then-private plan, and all of it on success. |
| SyncProperties.SetupStopsAtFailure | Sources/RepoTools/SyncRepo.swift:59-63 | A failed setup ends at the call that failed, and reports its status. |
| SyncProperties.CleanTreeFollowsPlan | Sources/RepoTools/SyncRepo.swift:59-75 | On a clean tree the calls are a prefix of setup plus tail. On success they are all of it, and the result is the pull-request URL of `sync/<timestamp>`. |
| SyncProperties.CleanTreeStopsAtFailure | Sources/RepoTools/SyncRepo.swift:59-71 | On a clean tree an error is the status of the last call, which is the one that failed. |
| SyncProperties.SyncFollowsPlan | Sources/RepoTools/SyncRepo.swift:51-75 | A run's calls are a prefix of the full plan, for whichever remotes turn out missing. The plan is: status, lookup and add for each remote, fetch of the private remote, branch, push and tags to the public remote. Nothing of a later step appears before an earlier step completes. On success the run makes the whole plan and returns the URL. |
| SyncProperties.SyncStopsAtFailure | Sources/RepoTools/SyncRepo.swift:51-76 | A run that reports a failed command stops right after that call, so no later step runs and no URL is produced. Every call before the last gave output, or was one of the two remote lookups exiting with status 1. No other failure is passed over. |
| SyncProperties.SyncTolerated | Sources/RepoTools/SyncRepo.swift:51-76 | Over a whole run, every call before the last gave output or was a remote lookup exiting with status 1. |
| SyncProperties.SyncDirtyTree | Sources/RepoTools/SyncRepo.swift:52-57 | The run ends with the dirty-tree error exactly when `status --porcelain` prints something. In that case the status call is the only call made. |
| SyncProperties.CleanTreeCompletes | Sources/RepoTools/SyncRepo.swift:59-75 | On a clean tree, ten empty answers add both remotes and carry the run through to the URL. |
| SyncProperties.SyncCompletes | Sources/RepoTools/SyncRepo.swift:51-75 | When the status check and the next ten calls all print nothing, the run makes all eleven calls of the plan in order and returns the URL. |
| SyncProperties.SyncWithSilentShell | Tests/RepoToolsCoreTests/RepoToolsCoreTests.swift:9-15 | With the test double's default of empty output, a run adds both remotes and succeeds. |
| SyncProperties.PullRequestUrlDeterminesBranch | Sources/RepoTools/SyncRepo.swift:75 | `PullRequestUrl` (site, repository path, `/compare/`, branch name, fixed query) gives different URLs for different branches of one repository. |
| SyncProperties.BranchStartsFromFetchedRemote | Sources/RepoToolsCore/Git.swift:56 | The branch starts from the main branch of the remote the run fetches, `private-repo`. The branch and the tags go to `public-repo`. |

## Left out

- Process spawning through ShellOut, and its output and error handles. They are replaced by the recording executor. A thrown `ShellOutError` becomes a `Failure` response that carries the exit status.
- The browser launch with `open` (Sources/RepoTools/SyncRepo.swift:76). The run ends by returning the URL.
- The `print` progress lines, the `validate()` filesystem check, the ArgumentParser declarations and Package.swift. Sources/repotools/RepoTools.swift is not part of this model.
- `DateFormatter`, `Date()`, the locale and the time zone. A local wall-clock reading (`DateFormat.LocalTime`) is passed in. The test's `01` hour for its instant holds only at UTC+1 or UTC−11.
- The Unicode extent of `\w` in Swift regexes. The model takes ASCII letters, digits and `_`.
- The real semantics of grep, cut and xargs. `TagFilter` models the selection on lines of text. It does not model BRE escaping of `\-RC`, or that `grep -v -F` with an empty pattern list drops every line, so a remote with no tags would get none pushed. It does not model `xargs` on empty input either. The command string itself is modelled exactly.
- git's own state. Nothing records whether a remote or branch already exists between runs, so repeated runs are not modelled.
- `Remote.init` and `Branch.init` become datatype constructors. They store their arguments unchanged and the fields cannot change, so no member states this.
- `Shell.RecordingShell.Run`: a thrown error's message text is not kept, only the exit status.

## Findings

| source | as written | input that shows it | evidently intended | confidence | as-written member | corrected member |
|---|---|---|---|---|---|---|
| Sources/RepoToolsCore/Git.swift:67-68 | The remote's references are given to `grep -v -F` as fixed-string patterns. That drops every local line that CONTAINS a remote reference as a substring. | The remote has `refs/tags/Holder-2.1.3`, and the working copy also has `refs/tags/Holder-2.1.30`. The line `62578f6 refs/tags/Holder-2.1.30` contains the remote reference, so the new tag is never pushed. | Per its comment, the stage keeps the tags that do not appear on the remote: an exact match on the reference. | not executed | TagFilter.AsWrittenMissesHolder2130 | TagFilter.SelectMembership |
