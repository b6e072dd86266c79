/** Freezing a submission into a candidate, checking its manifest, and what that means for a release of it. */
module CandidateFreeze {
  import opened Wrappers
  import opened Domain
  import opened Registry
  import opened ReleaseDecision

  /** An artifact directory as submitted for a layer: what its manifest says, whether its contents are allowed, and
      the identifier that its layer and contents give it. */
  datatype ArtifactDir = ArtifactDir(artifactId: string, layer: Layer, contractHash: string, timeoutMs: int, allowed: bool)

  datatype Submission = Submission(declared: seq<Layer>, dirs: Layer -> ArtifactDir)

  /** A directory is frozen when its manifest names the layer and the contract expected of it. */
  function FreezeArtifact(dir: ArtifactDir, layer: Layer, contractHash: string, snapshotDigest: string): Option<Package> {
    if dir.allowed && dir.layer == layer && dir.contractHash == contractHash
    then Some(Package(dir.artifactId, dir.layer, dir.timeoutMs, dir.contractHash, snapshotDigest)) else None
  }

  /** The base release's artifacts, with those of the declared layers frozen in their place. */
  function Frozen(base: map<Layer, Package>, s: Submission, declared: seq<Layer>, contractHash: string, snapshotDigest: string): Option<map<Layer, Package>> {
    if declared == [] then Some(base)
    else
      var n := |declared| - 1;
      var before := Frozen(base, s, declared[..n], contractHash, snapshotDigest);
      var package := FreezeArtifact(s.dirs(declared[n]), declared[n], contractHash, snapshotDigest);
      if before.None? || package.None? then None else Some(before.value[declared[n] := package.value])
  }

  lemma {:induction false} FreezingStops(base: map<Layer, Package>, s: Submission, declared: seq<Layer>, contractHash: string, snapshotDigest: string, i: nat)
    requires i <= |declared| && Frozen(base, s, declared[..i], contractHash, snapshotDigest).None?
    ensures Frozen(base, s, declared, contractHash, snapshotDigest).None?
  {
    if i == |declared| {
      assert declared[..i] == declared;
    } else {
      assert declared[..|declared| - 1][..i] == declared[..i];
      FreezingStops(base, s, declared[..|declared| - 1], contractHash, snapshotDigest, i);
    }
  }

  method FreezeCandidate(base: map<Layer, Package>, s: Submission, contractHash: string, snapshotDigest: string) returns (artifacts: Option<map<Layer, Package>>)
    ensures artifacts == Frozen(base, s, s.declared, contractHash, snapshotDigest)
  {
    var frozen := base;
    for i := 0 to |s.declared|
      invariant Frozen(base, s, s.declared[..i], contractHash, snapshotDigest) == Some(frozen)
    {
      assert s.declared[..i + 1][..i] == s.declared[..i];
      var layer := s.declared[i];
      var package := FreezeArtifact(s.dirs(layer), layer, contractHash, snapshotDigest);
      if package.None? {
        FreezingStops(base, s, s.declared, contractHash, snapshotDigest, i + 1);
        return None;
      }
      frozen := frozen[layer := package.value];
    }
    assert s.declared[..|s.declared|] == s.declared;
    artifacts := Some(frozen);
  }

  /** The failures of a candidate's manifest that its artifacts cause: a foreign contract, a wrong layer, and an
      artifact that has the base's identifier at its layer but is not the base's package. */
  predicate ManifestPasses(c: CandidateRecord, contractHash: string, base: Release) {
    && c.contractHash == contractHash && base.contractHash == contractHash && base.targetName == c.targetName
    && c.baseReleaseId == base.releaseId
    && Filed(c.artifacts, contractHash)
    && forall layer <- c.artifacts ::
         layer in base.artifacts && c.artifacts[layer].artifactId == base.artifacts[layer].artifactId ==> c.artifacts[layer] == base.artifacts[layer]
  }

  /** Frozen artifacts are the base's at the layers not declared, and fresh packages of the snapshot at the others. */
  lemma {:induction false} FrozenArtifacts(base: map<Layer, Package>, s: Submission, declared: seq<Layer>, contractHash: string, snapshotDigest: string)
    requires Frozen(base, s, declared, contractHash, snapshotDigest).Some?
    ensures var frozen := Frozen(base, s, declared, contractHash, snapshotDigest).value;
            forall layer: Layer ::
              if layer in declared then
                && layer in frozen && FreezeArtifact(s.dirs(layer), layer, contractHash, snapshotDigest) == Some(frozen[layer])
                && frozen[layer].layer == layer && frozen[layer].contractHash == contractHash && frozen[layer].snapshotDigest == snapshotDigest
              else (layer in frozen <==> layer in base) && (layer in base ==> frozen[layer] == base[layer])
  {
    if declared != [] {
      var n := |declared| - 1;
      FrozenArtifacts(base, s, declared[..n], contractHash, snapshotDigest);
      assert forall layer: Layer :: layer in declared <==> layer in declared[..n] || layer == declared[n];
    }
  }

  /** Every candidate frozen on a release that loads has its artifacts filed, and so has every one whose manifest
      passes; a release created from either loads back. */
  lemma FrozenCandidateLoads(
    c: CandidateRecord, s: SnapshotRef, base: Release, r: Report, approval: Approval, newId: ReleaseId, disk: Disk, submission: Submission)
    requires || ManifestPasses(c, c.contractHash, base)
             || (Atomic(base) && base.contractHash == c.contractHash
                 && Frozen(base.artifacts, submission, submission.declared, c.contractHash, s.snapshotDigest) == Some(c.artifacts))
    ensures Filed(c.artifacts, c.contractHash)
    ensures var release := CreateRelease(c, s, base, r, approval, newId, disk);
            release.Some? ==> LoadRelease(newId, map[newId := release.value], disk) == release
  {
    if !ManifestPasses(c, c.contractHash, base) {
      FrozenArtifacts(base.artifacts, submission, submission.declared, c.contractHash, s.snapshotDigest);
    }
    if CreateRelease(c, s, base, r, approval, newId, disk).Some? {
      CreatedReleaseIsAtomic(c, s, base, r, approval, newId, disk);
    }
  }

  /** A frozen candidate holds an artifact of another snapshot exactly when it inherits one, at a layer it does not
      declare, from a base release of another snapshot. */
  lemma ForeignArtifactsAreInherited(c: CandidateRecord, s: SnapshotRef, base: Release, submission: Submission)
    requires Atomic(base) && Frozen(base.artifacts, submission, submission.declared, c.contractHash, s.snapshotDigest) == Some(c.artifacts)
    ensures (exists layer <- c.artifacts :: c.artifacts[layer].snapshotDigest != s.snapshotDigest)
            <==> base.snapshotDigest != Some(s.snapshotDigest) && exists layer <- base.artifacts :: layer !in submission.declared
  {
    FrozenArtifacts(base.artifacts, submission, submission.declared, c.contractHash, s.snapshotDigest);
    if base.artifacts != map[] {
      assert base.snapshotDigest.Some?;
    }
  }

  /** No release carries an artifact over from a base of another snapshot: inherited, it fails creation; declared
      again with the same contents, it fails the manifest check. */
  lemma NoArtifactCrossesSnapshots(
    c: CandidateRecord, s: SnapshotRef, base: Release, r: Report, approval: Approval, newId: ReleaseId, disk: Disk, layer: Layer)
    requires Atomic(base) && ManifestPasses(c, c.contractHash, base)
    requires layer in c.artifacts && layer in base.artifacts && c.artifacts[layer].artifactId == base.artifacts[layer].artifactId
    ensures base.snapshotDigest != Some(s.snapshotDigest) ==> CreateRelease(c, s, base, r, approval, newId, disk).None?
  {
    assert c.artifacts[layer] == base.artifacts[layer];
    assert base.snapshotDigest == Some(base.artifacts[layer].snapshotDigest);
  }
}
