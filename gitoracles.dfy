/**
 * The release-tag pipeline for the test suite's remote `my-remote`, stage by stage, as the
 * expected command of Tests/RepoToolsCoreTests/RepoToolsCoreTests.swift:143-145 spells it out.
 * With Git.TagPipelineCommand, the command run is these six texts joined by " | ".
 */
module GitOracles {
  import opened Git

  lemma TestRemoteFixedStages()
    ensures |TagFragments("my-remote")| == 6
    ensures TagFragments("my-remote")[0] == "git show-ref --tags"
    ensures TagFragments("my-remote")[2] == "grep -e \"Holder-\" -e \"Verifier-\""
    ensures TagFragments("my-remote")[3] == "grep -v \"\\-RC\""
    ensures TagFragments("my-remote")[4] == "cut -f2 -d \" \""
  {
  }

  /** The second stage, written in two pieces that join at the end of the remote's name. */
  lemma TestRemoteLookupStage()
    ensures TagFragments("my-remote")[1]
         == "grep -v -F \"$(git ls-remote --tags my-remote" + " | grep -v '\\^{}' | cut -f 2)\""
  {
    assert DropRemoteTagsHead + "my-remote" == "grep -v -F \"$(git ls-remote --tags my-remote";
  }

  lemma TestRemotePushStage()
    ensures TagFragments("my-remote")[5] == "xargs -L1 git push my-remote"
  {
  }
}
