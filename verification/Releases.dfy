/**
  Deciding and publishing releases (scripts/release.py): tags are never moved, releases of
  successive runs get strictly increasing tags, and where a failed run can leave a public release.
 */
module Releases {
  import opened Basics
  import opened Versions

  /** A release with its tag; a draft is not public. */
  datatype Release = Release(tag: string, commit: string, public: bool, assets: map<string, string>)

  /**
    One write: done and acknowledged, refused without effect, done with the answer lost, or done
    with an answer that fails the check of the response.
   */
  datatype Answer = Acknowledged | Refused | Lost | Differs

  /** How far a publication got. */
  datatype Reached = Checking | Tagging | Drafting | Uploading | Inspecting | Publishing

  // ---------------------------------------------------------------- plan

  /** Newer than every release tag, by section 11 precedence. */
  ghost predicate Newest(tags: set<string>, version: string)
    requires ReleaseVersion(version)
  {
    forall t :: t in tags && ReleaseVersion(t) ==> Precedes(Parse(t), Parse(version))
  }

  ghost predicate Older(tag: string, version: string) {
    ReleaseVersion(tag) && ReleaseVersion(version) && Precedes(Parse(tag), Parse(version))
  }

  lemma KeyIsOlder(tag: string, version: string)
    requires ReleaseVersion(tag) && ReleaseVersion(version)
    ensures KeyLess(VersionKey(tag), VersionKey(version)) <==> Older(tag, version)
  {
    hide ReleaseVersion, KeyLess, VersionKey, Precedes;
    KeyOrder(tag, version);
  }

  lemma NotNewest(tags: set<string>, tag: string, version: string)
    requires ReleaseVersion(tag) && ReleaseVersion(version) && tag in tags && !Older(tag, version)
    ensures !Newest(tags, version)
  {
    hide ReleaseVersion, Precedes;
  }

  lemma AllOlder(tags: set<string>, version: string)
    requires ReleaseVersion(version) && forall t :: t in tags && ReleaseVersion(t) ==> Older(t, version)
    ensures Newest(tags, version)
  {
    hide ReleaseVersion, Precedes;
  }

  datatype Decision = Invalid | NotNewer | NoNotes | AlreadyReleased | ReleaseNow

  /** Decides whether a commit releases its version, from the tags and the commits they name. */
  method Plan(commit: string, version: string, names: seq<string>, tagged: map<string, string>, notes: bool)
    returns (decision: Decision)
    requires forall t :: t in names <==> t in tagged
    ensures decision == Invalid <==> !ReleaseVersion(version)
    ensures decision == AlreadyReleased <==> ReleaseVersion(version) && version in tagged && tagged[version] != commit
    ensures decision == NotNewer <==> ReleaseVersion(version) && version !in tagged && !Newest(tagged.Keys, version)
    ensures decision == ReleaseNow <==>
              && ReleaseVersion(version) && notes
              && (if version in tagged then tagged[version] == commit else Newest(tagged.Keys, version))
  {
    if !ReleaseVersion(version) { return Invalid; }
    hide *;
    var tags: set<string> := {};
    for n := 0 to |names|
      invariant forall t :: t in tags <==> t in names[..n] && ReleaseVersion(t)
    {
      assert names[..n + 1] == names[..n] + [names[n]];
      if ReleaseVersion(names[n]) { tags := tags + {names[n]}; }
    }
    assert names[..|names|] == names;
    if version in tags {
      if tagged[version] != commit { return AlreadyReleased; }
    } else {
      var rest := tags;
      while rest != {}
        invariant rest <= tags
        invariant forall t :: t in tags - rest ==> Older(t, version)
        decreases rest
      {
        var tag :| tag in rest;
        KeyIsOlder(tag, version);
        if !KeyLess(VersionKey(tag), VersionKey(version)) {
          NotNewest(tagged.Keys, tag, version);
          return NotNewer;
        }
        rest := rest - {tag};
      }
      AllOlder(tagged.Keys, version);
    }
    if !notes { return NoNotes; }
    return ReleaseNow;
  }

  // ---------------------------------------------------------------- publish

  /** What the final call does to the release: it becomes public unless the call is refused. */
  function MadePublic(r: Release, answer: Answer): Release {
    if answer == Refused then r else r.(public := true)
  }

  /** The final call took effect, and the publication failed all the same. */
  predicate FailedInEffect(reached: Reached, final: Answer) {
    reached == Publishing && (final == Lost || final == Differs)
  }

  /** Whatever was added is an unpublished draft. */
  ghost predicate DraftsOnly(before: map<nat, Release>, after: map<nat, Release>) {
    forall id :: id in after && id !in before ==> !after[id].public
  }

  /** Nothing that existed has changed, and at most one release of this tag and commit was added. */
  ghost predicate Added(before: map<nat, Release>, after: map<nat, Release>, tag: string, commit: string) {
    && (forall id :: id in before ==> id in after && after[id] == before[id])
    && (forall id :: id in after && id !in before ==> after[id].tag == tag && after[id].commit == commit)
    && (forall i, j :: i in after && i !in before && j in after && j !in before ==> i == j)
  }

  lemma NoneAdded(before: map<nat, Release>, tag: string, commit: string)
    ensures Added(before, before, tag, commit) && DraftsOnly(before, before)
  {
  }

  lemma OneAdded(before: map<nat, Release>, id: nat, r: Release)
    requires id !in before
    ensures Added(before, before[id := r], r.tag, r.commit)
    ensures DraftsOnly(before, before[id := r]) <==> !r.public
  {
    assert id in before[id := r] && before[id := r][id] == r;
  }

  class Remote {
    var tags: map<string, string>
    var releases: map<nat, Release>
    ghost var faults: nat   // how many calls have failed, or were answered otherwise than expected

    constructor (tags: map<string, string>, releases: map<nat, Release>)
      ensures this.tags == tags && this.releases == releases
    {
      this.tags, this.releases, faults := tags, releases, 0;
    }

    method Answered() returns (answer: Answer)
      modifies this`faults
      ensures if answer == Acknowledged then faults == old(faults) else faults > old(faults)
    {
      answer := *;
      if answer != Acknowledged { faults := faults + 1; }
    }

    /** A reading call may fail. */
    method Fails() returns (fails: bool)
      modifies this`faults
      ensures if fails then faults > old(faults) else faults == old(faults)
    {
      fails := *;
      if fails { faults := faults + 1; }
    }

    /** A release, draft or public, that already carries the tag. */
    method ExistingRelease(tag: string) returns (exists_: bool, ok: bool)
      modifies this`faults
      ensures if ok then faults == old(faults) else faults > old(faults)
      ensures ok ==> (exists_ <==> exists id :: id in releases && releases[id].tag == tag)
    {
      var fails := Fails();
      ok := !fails;
      var ids := releases.Keys;
      exists_ := false;
      while ids != {}
        invariant ids <= releases.Keys
        invariant exists_ <==> exists id :: id in releases.Keys - ids && releases[id].tag == tag
        decreases ids
      {
        var id :| id in ids;
        if releases[id].tag == tag { exists_ := true; }
        ids := ids - {id};
      }
    }

    method FindTag(tag: string) returns (commit: Option<string>, ok: bool)
      modifies this`faults
      ensures if ok then faults == old(faults) else faults > old(faults)
      ensures ok ==> commit == if tag in tags then Some(tags[tag]) else None
    {
      var fails := Fails();
      ok := !fails;
      commit := if tag in tags then Some(tags[tag]) else None;
    }

    /** Creates a reference; the service refuses to create one that exists. */
    method CreateTag(tag: string, commit: string) returns (ok: bool)
      modifies this`tags, this`faults
      ensures ok || tag in old(tags) || faults > old(faults)
      ensures old(faults) <= faults && (ok ==> faults == old(faults))
      ensures tags == old(tags) || (tag !in old(tags) && tags == old(tags)[tag := commit])
      ensures ok ==> tag !in old(tags) && tags == old(tags)[tag := commit]
    {
      var made := Answered();
      if made != Acknowledged { return false; }
      var answer := Answered();
      if tag in tags || answer == Refused { return false; }
      tags := tags[tag := commit];
      return answer == Acknowledged;
    }

    method CreateDraft(tag: string, commit: string) returns (id: nat, ok: bool)
      modifies this`releases, this`faults
      ensures if ok then faults == old(faults) else faults > old(faults)
      ensures releases == old(releases) || (id !in old(releases) && releases == old(releases)[id := Release(tag, commit, false, map[])])
      ensures ok ==> id !in old(releases) && releases == old(releases)[id := Release(tag, commit, false, map[])]
    {
      id := 0;
      var ids := releases.Keys;
      while ids != {}
        invariant ids <= releases.Keys && forall k :: k in releases && k !in ids ==> k < id
        decreases ids
      {
        var k :| k in ids;
        if id <= k { id := k + 1; }
        ids := ids - {k};
      }
      var answer := Answered();
      if answer == Refused { return id, false; }
      releases := releases[id := Release(tag, commit, false, map[])];
      return id, answer == Acknowledged;
    }

    method Upload(id: nat, name: string, digest: string) returns (ok: bool)
      requires id in releases
      modifies this`releases, this`faults
      ensures if ok then faults == old(faults) else faults > old(faults)
      ensures id in releases && releases == old(releases)[id := releases[id]]
      ensures releases[id] == old(releases[id]) || releases[id] == old(releases[id]).(assets := old(releases[id].assets)[name := digest])
      ensures ok ==> releases[id] == old(releases[id]).(assets := old(releases[id].assets)[name := digest])
    {
      var answer := Answered();
      if answer == Refused { return false; }
      releases := releases[id := releases[id].(assets := releases[id].assets[name := digest])];
      return answer == Acknowledged;
    }

    method MakePublic(id: nat) returns (answer: Answer)
      requires id in releases
      modifies this`releases, this`faults
      ensures if answer == Acknowledged then faults == old(faults) else faults > old(faults)
      ensures id in releases && releases == old(releases)[id := MadePublic(old(releases[id]), answer)]
    {
      answer := Answered();
      releases := releases[id := MadePublic(releases[id], answer)];
    }
  }

  /** The tag is there already, or was created by this call; nothing else changed. */
  ghost predicate Tagged(before: map<string, string>, after: map<string, string>, tag: string, commit: string) {
    after == before || (tag !in before && after == before[tag := commit])
  }

  /** Finds or creates the tag and confirms that it names the commit. */
  method EnsureTag(remote: Remote, tag: string, commit: string) returns (ok: bool)
    modifies remote`tags, remote`faults
    ensures ok || (tag in old(remote.tags) && old(remote.tags)[tag] != commit) || remote.faults > old(remote.faults)
    ensures old(remote.faults) <= remote.faults
    ensures Tagged(old(remote.tags), remote.tags, tag, commit)
    ensures ok ==> tag in remote.tags && remote.tags[tag] == commit
  {
    var current, found := remote.FindTag(tag);
    if !found { return false; }
    if current.None? {
      var created := remote.CreateTag(tag, commit);
      if !created { return false; }
    } else if current.value != commit {
      return false;
    }
    var confirmed, confirmedOk := remote.FindTag(tag);
    return confirmedOk && confirmed == Some(commit);
  }

  /** Fills the draft; every failure leaves it a draft. */
  method UploadAll(remote: Remote, id: nat, tag: string, commit: string, names: seq<string>, files: map<string, string>)
    returns (ok: bool)
    requires forall n :: n in names <==> n in files
    requires id in remote.releases && remote.releases[id] == Release(tag, commit, false, map[])
    modifies remote`releases, remote`faults
    ensures ok || remote.faults > old(remote.faults)
    ensures old(remote.faults) <= remote.faults
    ensures id in remote.releases && remote.releases == old(remote.releases)[id := remote.releases[id]]
    ensures var r := remote.releases[id]; r.tag == tag && r.commit == commit && !r.public
    ensures ok ==> remote.releases[id] == Release(tag, commit, false, files)
  {
    var uploaded: map<string, string> := map[];
    for n := 0 to |names|
      invariant remote.faults == old(remote.faults)
      invariant id in remote.releases && remote.releases == old(remote.releases)[id := remote.releases[id]]
      invariant remote.releases[id] == Release(tag, commit, false, uploaded)
      invariant forall name :: name in uploaded <==> name in names[..n]
      invariant forall name :: name in uploaded ==> name in files && uploaded[name] == files[name]
    {
      assert names[..n + 1] == names[..n] + [names[n]];
      var sent := remote.Upload(id, names[n], files[names[n]]);
      if !sent { return false; }
      uploaded := uploaded[names[n] := files[names[n]]];
    }
    assert names[..|names|] == names && uploaded == files;
    ok := true;
  }

  /** Drafts the release, fills it and makes it public; a lost or differing answer to the last call is a failure. */
  method PublishTagged(remote: Remote, tag: string, commit: string, names: seq<string>, files: map<string, string>)
    returns (ok: bool, reached: Reached, final: Answer)
    requires forall n :: n in names <==> n in files
    modifies remote`releases, remote`faults
    ensures ok || remote.faults > old(remote.faults) || tag !in remote.tags || remote.tags[tag] != commit
    ensures old(remote.faults) <= remote.faults
    ensures Added(old(remote.releases), remote.releases, tag, commit)
    ensures !ok ==> (DraftsOnly(old(remote.releases), remote.releases) <==> !FailedInEffect(reached, final))
    ensures ok ==> exists id :: id in remote.releases && id !in old(remote.releases)
                                && remote.releases[id] == Release(tag, commit, true, files)
  {
    ghost var before := remote.releases;
    NoneAdded(before, tag, commit);
    hide Added, DraftsOnly;
    ok, reached, final := false, Drafting, Refused;
    var id, drafted := remote.CreateDraft(tag, commit);
    if !drafted {
      if remote.releases != before { OneAdded(before, id, Release(tag, commit, false, map[])); }
      return;
    }
    reached := Uploading;
    var filled := UploadAll(remote, id, tag, commit, names, files);
    assert remote.releases == before[id := remote.releases[id]];
    OneAdded(before, id, remote.releases[id]);
    if !filled { return; }
    reached := Inspecting;
    var unread := remote.Fails();
    if unread || remote.releases[id] != Release(tag, commit, false, files) { return; }
    var still, stillOk := remote.FindTag(tag);
    if !stillOk || still != Some(commit) { return; }
    reached := Publishing;
    final := remote.MakePublic(id);
    assert remote.releases == before[id := MadePublic(Release(tag, commit, false, files), final)];
    OneAdded(before, id, MadePublic(Release(tag, commit, false, files), final));
    ok := final == Acknowledged;
    assert ok ==> remote.releases[id] == Release(tag, commit, true, files);
  }

  /** The local checks fail, a release has the tag already, or the tag names another commit. */
  ghost predicate Refusable(tags: map<string, string>, releases: map<nat, Release>, tag: string, commit: string, local: bool) {
    || !ReleaseVersion(tag) || !local
    || (exists id :: id in releases && releases[id].tag == tag)
    || (tag in tags && tags[tag] != commit)
  }

  /** What one publication did to the tags and the releases. */
  ghost predicate PublishEffect(tags: map<string, string>, releases: map<nat, Release>, tags': map<string, string>, releases': map<nat, Release>,
                                tag: string, commit: string, files: map<string, string>, ok: bool, reached: Reached, final: Answer) {
    && Tagged(tags, tags', tag, commit)
    && Added(releases, releases', tag, commit)
    && (tags' != tags ==> ReleaseVersion(tag))
    && (releases' != releases ==> tag in tags' && tags'[tag] == commit)
    && (!ok ==> (DraftsOnly(releases, releases') <==> !FailedInEffect(reached, final)))
    && ((exists id :: id in releases && releases[id].tag == tag) ==> !ok && releases' == releases && tags' == tags)
    && (ok ==> ReleaseVersion(tag) && tag in tags' && tags'[tag] == commit
               && exists id :: id in releases' && id !in releases && releases'[id] == Release(tag, commit, true, files))
  }

  /**
    Tags a commit and publishes its release.  A failure leaves the existing tags and releases as
    they were and adds at most the tag and one release, and that release is an unpublished draft
    unless the final call took effect and its answer was lost or differed.
   */
  method Publish(remote: Remote, tag: string, commit: string, names: seq<string>, files: map<string, string>, local: bool)
    returns (ok: bool, reached: Reached, final: Answer)
    requires forall n :: n in names <==> n in files
    modifies remote
    ensures PublishEffect(old(remote.tags), old(remote.releases), remote.tags, remote.releases, tag, commit, files, ok, reached, final)
    // it fails only for a reason, and always for these
    ensures Refusable(old(remote.tags), old(remote.releases), tag, commit, local) ==> !ok
    ensures ok || remote.faults > old(remote.faults) || Refusable(old(remote.tags), old(remote.releases), tag, commit, local)
  {
    NoneAdded(remote.releases, tag, commit);
    assert Tagged(remote.tags, remote.tags, tag, commit);
    hide ReleaseVersion, Tagged, Added, DraftsOnly;
    ok, reached, final := false, Checking, Refused;
    if !ReleaseVersion(tag) || !local { return; }
    var exists_, listed := remote.ExistingRelease(tag);
    if !listed || exists_ { return; }
    reached := Tagging;
    var tagged := EnsureTag(remote, tag, commit);
    if !tagged { return; }
    ok, reached, final := PublishTagged(remote, tag, commit, names, files);
  }

  /**
    The promise that a failure at any step leaves at most an unpublished draft does not cover the
    final call: a publication that fails because the answer to that call is lost, or differs from
    what is expected, has left a public release behind, and every other failure has not.
   */
  lemma FailedYetPublic(tags: map<string, string>, releases: map<nat, Release>, tags': map<string, string>, releases': map<nat, Release>,
                        tag: string, commit: string, files: map<string, string>, reached: Reached, final: Answer)
    requires PublishEffect(tags, releases, tags', releases', tag, commit, files, false, reached, final)
    ensures (exists id :: id in releases' && id !in releases && releases'[id].public) <==> FailedInEffect(reached, final)
  {
    hide ReleaseVersion, FailedInEffect;
    if FailedInEffect(reached, final) {
      assert !DraftsOnly(releases, releases');
    }
  }

  /** Both failures happen: the draft was filled and made public, and the answer was lost, or differed. */
  lemma FailedYetPublicHappens(tag: string, commit: string, files: map<string, string>)
    requires ReleaseVersion(tag)
    ensures var tags, releases := map[tag := commit], map[0 := Release(tag, commit, true, files)];
            && PublishEffect(map[], map[], tags, releases, tag, commit, files, false, Publishing, Lost)
            && PublishEffect(map[], map[], tags, releases, tag, commit, files, false, Publishing, Differs)
  {
    hide ReleaseVersion;
    var before: map<nat, Release> := map[];
    OneAdded(before, 0, Release(tag, commit, true, files));
    assert before[0 := Release(tag, commit, true, files)] == map[0 := Release(tag, commit, true, files)];
  }

  // ---------------------------------------------------------------- successive runs

  /** What one plan-then-publish run does to the tags. */
  ghost predicate RunTags(before: map<string, string>, after: map<string, string>, version: string, commit: string) {
    || after == before
    || (version !in before && ReleaseVersion(version) && Newest(before.Keys, version) && after == before[version := commit])
  }

  /** The commit is to be released, and nothing there stands in the way. */
  ghost predicate Due(tags: map<string, string>, releases: map<nat, Release>, version: string, commit: string, notes: bool, local: bool) {
    && ReleaseVersion(version) && notes && local
    && (if version in tags then tags[version] == commit else Newest(tags.Keys, version))
    && forall id :: id in releases ==> releases[id].tag != version
  }

  /** One run: it releases a version that is due unless a call fails, and no other. */
  method ReleaseRun(remote: Remote, commit: string, version: string, tagNames: seq<string>, notes: bool,
                    names: seq<string>, files: map<string, string>, local: bool)
    returns (released: bool)
    requires forall t :: t in tagNames <==> t in remote.tags
    requires forall n :: n in names <==> n in files
    modifies remote
    ensures RunTags(old(remote.tags), remote.tags, version, commit)
    ensures Added(old(remote.releases), remote.releases, version, commit)
    ensures Due(old(remote.tags), old(remote.releases), version, commit, notes, local) ==> released || remote.faults > old(remote.faults)
    ensures released ==>
              && Due(old(remote.tags), old(remote.releases), version, commit, notes, local)
              && version in remote.tags && remote.tags[version] == commit
              && exists id :: id in remote.releases && id !in old(remote.releases)
                              && remote.releases[id] == Release(version, commit, true, files)
  {
    hide ReleaseVersion, Newest;
    var decision := Plan(commit, version, tagNames, remote.tags, notes);
    if decision != ReleaseNow { return false; }
    var reached, final;
    released, reached, final := Publish(remote, version, commit, names, files, local);
  }

  /** Runs one after the other: the tags before each and after the last. */
  ghost predicate Runs(tags: seq<map<string, string>>, versions: seq<string>, commits: seq<string>) {
    && |tags| == |versions| + 1 && |commits| == |versions|
    && forall k {:trigger versions[k]} :: 0 <= k < |versions| ==> RunTags(tags[k], tags[k + 1], versions[k], commits[k])
  }

  /** No run ever moves or removes a tag. */
  lemma {:induction false} TagsStay(tags: seq<map<string, string>>, versions: seq<string>, commits: seq<string>, j: nat, k: nat)
    requires Runs(tags, versions, commits) && j <= k < |tags|
    ensures forall t :: t in tags[j] ==> t in tags[k] && tags[k][t] == tags[j][t]
    decreases k - j
  {
    hide ReleaseVersion, Newest;
    if j < k {
      TagsStay(tags, versions, commits, j, k - 1);
      var version := versions[k - 1];
      assert RunTags(tags[k - 1], tags[k - 1 + 1], version, commits[k - 1]);
    }
  }

  /** The tags that successive runs create are strictly increasing release versions. */
  lemma CreatedIncrease(tags: seq<map<string, string>>, versions: seq<string>, commits: seq<string>, j: nat, k: nat)
    requires Runs(tags, versions, commits) && j < k < |versions|
    requires tags[j + 1] != tags[j] && tags[k + 1] != tags[k]
    ensures ReleaseVersion(versions[j]) && ReleaseVersion(versions[k])
    ensures Precedes(Parse(versions[j]), Parse(versions[k]))
  {
    hide ReleaseVersion, Precedes;
    var v, w := versions[j], versions[k];
    assert RunTags(tags[j], tags[j + 1], v, commits[j]) && RunTags(tags[k], tags[k + 1], w, commits[k]);
    TagsStay(tags, versions, commits, j + 1, k);
    assert v in tags[j + 1] && v in tags[k];
  }
}
