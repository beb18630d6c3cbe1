/**
 * What the release-tag pipeline of Sources/RepoToolsCore/Git.swift:63-78 selects, stated on
 * lines of text instead of through grep and cut. Local tags come as lines of
 * `git show-ref --tags` (a hash, a space, a tag reference); the remote's tags as lines of
 * `git ls-remote --tags`. A tag is pushed when the remote does not have it, its line names a
 * `Holder-` or `Verifier-` tag, and it is not a release candidate (`-RC`).
 *
 * Two readings of the "not on the remote" stage are given: `Select`, the reference match the
 * stage's comment describes, and `SelectAsWritten`, what `grep -v -F` with the remote's
 * references as fixed-string patterns does: drop every line that CONTAINS one of them.
 */
module TagFilter {

  /** One listed tag: the commit hash and the tag reference (`refs/tags/...`). */
  datatype RefLine = RefLine(hash: string, ref: string)

  /** A line of `git show-ref --tags`. */
  function LineText(l: RefLine): string {
    l.hash + " " + l.ref
  }

  /** Fixed-string search: `pattern` occurs somewhere in `text`. */
  predicate Contains(text: string, pattern: string) {
    pattern <= text || (text != [] && Contains(text[1..], pattern))
  }

  lemma {:induction false} ContainsMiddle(before: string, pattern: string, after: string)
    ensures Contains(before + pattern + after, pattern)
  {
    if before != [] {
      ContainsMiddle(before[1..], pattern, after);
      assert (before + pattern + after)[1..] == before[1..] + pattern + after;
    }
  }

  /** A pattern with a character the text lacks does not occur in it. */
  lemma {:induction false} MissingCharNotContained(text: string, pattern: string, i: nat)
    requires i < |pattern| && pattern[i] !in text
    ensures !Contains(text, pattern)
  {
    if text != [] {
      MissingCharNotContained(text[1..], pattern, i);
    }
  }

  /** A release tag line: names a Holder or Verifier tag, and is not a release candidate. */
  predicate IsReleaseLine(line: string) {
    (Contains(line, "Holder-") || Contains(line, "Verifier-")) && !Contains(line, "-RC")
  }

  /** The remote's tag references, without the peeled `^{}` entries of annotated tags. */
  function KnownRefs(remote: seq<RefLine>): (known: seq<string>)
    ensures forall k :: k in known <==> exists l :: l in remote && l.ref == k && !Contains(l.ref, "^{}")
  {
    if remote == [] then []
    else
      var rest := KnownRefs(remote[1..]);
      assert forall l :: l in remote[1..] ==> l in remote;
      assert forall l :: l in remote ==> l == remote[0] || l in remote[1..];
      (if Contains(remote[0].ref, "^{}") then [] else [remote[0].ref]) + rest
  }

  /** A local line the pipeline should push, given the references the remote already has. */
  predicate Wanted(l: RefLine, known: seq<string>) {
    l.ref !in known && IsReleaseLine(LineText(l))
  }

  /** The intended selection: each wanted line's reference, in listing order. */
  function Select(local: seq<RefLine>, known: seq<string>): seq<string> {
    if local == [] then []
    else (if Wanted(local[0], known) then [local[0].ref] else []) + Select(local[1..], known)
  }

  /** The tags to push, from the local and the remote tag listings. */
  function SelectTags(local: seq<RefLine>, remote: seq<RefLine>): seq<string> {
    Select(local, KnownRefs(remote))
  }

  /** A reference is selected exactly when some local line carries it and is wanted. */
  lemma {:induction false} SelectMembership(local: seq<RefLine>, known: seq<string>, t: string)
    ensures t in Select(local, known) <==> exists l :: l in local && l.ref == t && Wanted(l, known)
  {
    if local != [] {
      SelectMembership(local[1..], known, t);
      assert forall l :: l in local ==> l == local[0] || l in local[1..];
    }
  }

  /** Nothing the remote already has is ever selected. */
  lemma SelectSkipsRemoteTags(local: seq<RefLine>, remote: seq<RefLine>, t: string)
    requires t in SelectTags(local, remote)
    ensures t !in KnownRefs(remote)
  {
    SelectMembership(local, KnownRefs(remote), t);
  }

  /** Lines are judged one at a time and their order kept: one push per selected line, in order. */
  lemma {:induction false} SelectAppend(a: seq<RefLine>, b: seq<RefLine>, known: seq<string>)
    ensures Select(a + b, known) == Select(a, known) + Select(b, known)
  {
    if a != [] {
      SelectAppend(a[1..], b, known);
      assert (a + b)[1..] == a[1..] + b;
    } else {
      assert a + b == b;
    }
  }

  /** `grep -v -F`: some pattern of `patterns` occurs in `line`. */
  predicate ContainsAny(line: string, patterns: seq<string>) {
    exists p :: p in patterns && Contains(line, p)
  }

  /** The selection the shell pipeline makes: the remote stage drops lines containing a known reference. */
  function SelectAsWritten(local: seq<RefLine>, known: seq<string>): seq<string> {
    if local == [] then []
    else
      var l := local[0];
      (if !ContainsAny(LineText(l), known) && IsReleaseLine(LineText(l)) then [l.ref] else [])
        + SelectAsWritten(local[1..], known)
  }

  /** The two readings agree when no known reference occurs in a line other than as its own reference. */
  lemma {:induction false} AsWrittenAgreesWithoutOverlap(local: seq<RefLine>, known: seq<string>)
    requires forall l, k :: l in local && k in known && Contains(LineText(l), k) ==> l.ref == k
    ensures SelectAsWritten(local, known) == Select(local, known)
  {
    if local != [] {
      var l := local[0];
      if l.ref in known {
        ContainsMiddle(l.hash + " ", l.ref, "");
        assert LineText(l) == l.hash + " " + l.ref + "";
      }
      AsWrittenAgreesWithoutOverlap(local[1..], known);
    }
  }

  /**
   * The pipeline never pushes a tag whose reference extends one the remote has: with
   * `refs/tags/Holder-2.1.3` on the remote, a local `refs/tags/Holder-2.1.30` is dropped
   * although the remote lacks it.
   */
  lemma AsWrittenDropsExtendedTag(l: RefLine, k: string, suffix: string)
    requires l.ref == k + suffix && suffix != []
    requires IsReleaseLine(LineText(l))
    ensures SelectAsWritten([l], [k]) == []
    ensures Select([l], [k]) == [l.ref]
  {
    ContainsMiddle(l.hash + " ", k, suffix);
    assert LineText(l) == l.hash + " " + k + suffix;
    assert l.ref != k;
  }

  // The concrete case: the remote has Holder 2.1.3, the working copy also has Holder 2.1.30.
  const ExampleHash := "62578f6"
  const TagsPrefix := "refs/tags/"
  const HolderPrefix := "Holder-"
  const RemoteHolderTag := TagsPrefix + HolderPrefix + "2.1.3"
  const LocalHolderTag := RemoteHolderTag + "0"

  /** A line of a Holder tag whose hash and version hold no `R` is a release line. */
  lemma HolderLineIsRelease(hash: string, version: string)
    requires 'R' !in hash && 'R' !in version
    ensures IsReleaseLine(LineText(RefLine(hash, TagsPrefix + HolderPrefix + version)))
  {
    var line := LineText(RefLine(hash, TagsPrefix + HolderPrefix + version));
    assert line == (hash + " " + TagsPrefix) + HolderPrefix + version;
    ContainsMiddle(hash + " " + TagsPrefix, HolderPrefix, version);
    MissingCharNotContained(line, "-RC", 1);
  }

  /** With `refs/tags/Holder-2.1.3` on the remote, the pipeline drops the unpublished `refs/tags/Holder-2.1.30`. */
  lemma AsWrittenMissesHolder2130()
    ensures SelectAsWritten([RefLine(ExampleHash, LocalHolderTag)], [RemoteHolderTag]) == []
    ensures Select([RefLine(ExampleHash, LocalHolderTag)], [RemoteHolderTag]) == [LocalHolderTag]
  {
    HolderLineIsRelease(ExampleHash, "2.1.3" + "0");
    assert LocalHolderTag == TagsPrefix + HolderPrefix + ("2.1.3" + "0");
    AsWrittenDropsExtendedTag(RefLine(ExampleHash, LocalHolderTag), RemoteHolderTag, "0");
  }
}
