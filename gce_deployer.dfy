/** Run-scoped resource naming and default configuration of the kubetest2 GCE
    deployer (kubetest2-gce/deployer/deployer.go).

    A run is identified by a UUID. The deployer keeps only a short leading
    fragment of it and prefixes that with "kt2-" to name the cluster's instances
    and its network, so that the names start with a letter and stay short enough
    for Compute Engine's naming rules. */
module GceDeployer {

  /** Most characters of the run identifier kept in a resource name. */
  const MaxResourceNamePrefixLength: nat := 13

  /** Fixed lead of every derived name; it makes the name start with a letter. */
  const NamePrefix: string := "kt2-"

  /** Most characters in a derived instance prefix or network name. */
  const MaxDerivedNameLength: nat := |NamePrefix| + MaxResourceNamePrefixLength

  /** Default number of seconds to wait for Boskos to grant a project. */
  const DefaultBoskosAcquireTimeoutSeconds: int := 5 * 60

  /** Default number of seconds between two Boskos heartbeats (0 would disable them). */
  const DefaultBoskosHeartbeatIntervalSeconds: int := 5 * 60

  /** Default location of the Boskos server, exactly as the deployer writes it. */
  const DefaultBoskosLocation: string := "http://boskos.test-pods.svc.cluster.local."

  /** Default number of nodes in the cluster. */
  const DefaultNumNodes: int := 3

  // ---------------------------------------------------------------------------
  // Characters and Compute Engine resource names
  // ---------------------------------------------------------------------------

  predicate IsLowerLetter(c: char) { 'a' <= c <= 'z' }

  predicate IsDigit(c: char) { '0' <= c <= '9' }

  predicate IsLowerHexDigit(c: char) { IsDigit(c) || 'a' <= c <= 'f' }

  /** A character allowed anywhere in a Compute Engine resource name. */
  predicate IsNameChar(c: char) { IsLowerLetter(c) || IsDigit(c) || c == '-' }

  /** Compute Engine's rule for resource names: 1 to 63 characters matching
      [a-z]([-a-z0-9]*[a-z0-9])?, i.e. a lower-case letter first, then lower-case
      letters, digits and hyphens, and not ending with a hyphen. */
  predicate IsValidResourceName(s: string)
  {
    1 <= |s| <= 63
    && IsLowerLetter(s[0])
    && (forall i :: 0 <= i < |s| ==> IsNameChar(s[i]))
    && s[|s| - 1] != '-'
  }

  // ---------------------------------------------------------------------------
  // pseudoUniqueSubstring
  // ---------------------------------------------------------------------------

  /** The leading fragment of a run identifier used in resource names: the
      identifier itself when it is at most 13 characters long, otherwise its
      first 13 characters. */
  function PseudoUniqueSubstring(uuid: string): (r: string)
    ensures r <= uuid
    ensures |r| <= MaxResourceNamePrefixLength
    ensures |uuid| <= MaxResourceNamePrefixLength ==> r == uuid
    ensures |uuid| > MaxResourceNamePrefixLength ==> |r| == MaxResourceNamePrefixLength
  {
    if |uuid| <= MaxResourceNamePrefixLength then uuid else uuid[..MaxResourceNamePrefixLength]
  }

  /** Applying the truncation to its own result changes nothing. */
  lemma PseudoUniqueSubstringIdempotent(uuid: string)
    ensures PseudoUniqueSubstring(PseudoUniqueSubstring(uuid)) == PseudoUniqueSubstring(uuid)
  {
  }

  /** The fragment keeps as much of the identifier as the bound allows: every
      prefix of the identifier that fits within 13 characters is a prefix of it. */
  lemma {:induction false} PseudoUniqueSubstringIsLongestBoundedPrefix(uuid: string, p: string)
    requires p <= uuid && |p| <= MaxResourceNamePrefixLength
    ensures p <= PseudoUniqueSubstring(uuid)
  {
    var r := PseudoUniqueSubstring(uuid);
    assert |p| <= |r|;
    forall i | 0 <= i < |p|
      ensures p[i] == r[i]
    {
      assert p[i] == uuid[i];
      assert r[i] == uuid[i];
    }
  }

  // ---------------------------------------------------------------------------
  // Canonical RFC 4122 identifiers
  // ---------------------------------------------------------------------------

  /** The five hexadecimal groups of an RFC 4122 UUID, as in its canonical text
      form 09a2565a-7ac6-11eb-a603-2218f636630c. */
  datatype Uuid = Uuid(timeLow: string, timeMid: string, timeHiAndVersion: string,
                       clockSeq: string, node: string)

  predicate IsHexGroup(s: string, n: nat)
  {
    |s| == n && forall i :: 0 <= i < |s| ==> IsLowerHexDigit(s[i])
  }

  /** Groups of 8, 4, 4, 4 and 12 lower-case hexadecimal digits. */
  predicate WellFormed(u: Uuid)
  {
    IsHexGroup(u.timeLow, 8) && IsHexGroup(u.timeMid, 4) && IsHexGroup(u.timeHiAndVersion, 4)
    && IsHexGroup(u.clockSeq, 4) && IsHexGroup(u.node, 12)
  }

  /** The canonical text of a UUID: its groups joined by hyphens. */
  function UuidText(u: Uuid): (s: string)
    ensures WellFormed(u) ==> |s| == 36
  {
    u.timeLow + "-" + u.timeMid + "-" + u.timeHiAndVersion + "-" + u.clockSeq + "-" + u.node
  }

  /** For a canonical UUID the kept fragment is exactly its time-dependent part,
      time_low "-" time_mid (09a2565a-7ac6 in the example above). */
  lemma {:induction false} UuidFragmentIsTimeFields(u: Uuid)
    requires WellFormed(u)
    ensures PseudoUniqueSubstring(UuidText(u)) == u.timeLow + "-" + u.timeMid
  {
    var head := u.timeLow + "-" + u.timeMid;
    var tail := "-" + u.timeHiAndVersion + "-" + u.clockSeq + "-" + u.node;
    assert UuidText(u) == head + tail;
    assert |head| == MaxResourceNamePrefixLength;
    assert (head + tail)[..|head|] == head;
  }

  // ---------------------------------------------------------------------------
  // New
  // ---------------------------------------------------------------------------

  /** The fields of a freshly created GCE deployer that New derives or defaults.
      GCPProject is empty, which makes the deployer lease a project from Boskos. */
  datatype Deployer = Deployer(
    instancePrefix: string,
    network: string,
    boskosAcquireTimeoutSeconds: int,
    boskosHeartbeatIntervalSeconds: int,
    boskosLocation: string,
    numNodes: int,
    gcpProject: string,
    buildStrategy: string,
    targetBuildArch: string)

  /** The name New gives both the instance prefix and the network of a run. */
  function DerivedName(runId: string): (name: string)
    ensures NamePrefix <= name
    ensures IsLowerLetter(name[0])
    ensures |NamePrefix| <= |name| <= MaxDerivedNameLength
    ensures name[|NamePrefix|..] <= runId
    ensures |name| == |NamePrefix| + (if |runId| <= MaxResourceNamePrefixLength then |runId| else MaxResourceNamePrefixLength)
  {
    NamePrefix + PseudoUniqueSubstring(runId)
  }

  /** A new GCE deployer for the run identified by runId. */
  function New(runId: string): (d: Deployer)
    ensures d.instancePrefix == d.network
    ensures NamePrefix <= d.instancePrefix && IsLowerLetter(d.instancePrefix[0])
    ensures |d.instancePrefix| <= MaxDerivedNameLength
    ensures d.instancePrefix[|NamePrefix|..] <= runId
    ensures |d.instancePrefix| == |NamePrefix| + (if |runId| <= MaxResourceNamePrefixLength then |runId| else MaxResourceNamePrefixLength)
    ensures d.boskosAcquireTimeoutSeconds == 300
    ensures d.boskosHeartbeatIntervalSeconds == 300
    ensures d.boskosLocation == DefaultBoskosLocation
    ensures d.numNodes == 3
    ensures d.gcpProject == ""
    ensures d.buildStrategy == "make" && d.targetBuildArch == "linux/amd64"
  {
    Deployer(
      instancePrefix := DerivedName(runId),
      network := DerivedName(runId),
      boskosAcquireTimeoutSeconds := DefaultBoskosAcquireTimeoutSeconds,
      boskosHeartbeatIntervalSeconds := DefaultBoskosHeartbeatIntervalSeconds,
      boskosLocation := DefaultBoskosLocation,
      numNodes := DefaultNumNodes,
      gcpProject := "",
      buildStrategy := "make",
      targetBuildArch := "linux/amd64")
  }

  /** The derived names only contain characters the run identifier's fragment
      brings in beside "kt2-": if the identifier uses only lower-case letters,
      digits and hyphens, so do the names. */
  lemma {:induction false} DerivedNameChars(runId: string)
    requires forall i :: 0 <= i < |runId| ==> IsNameChar(runId[i])
    ensures forall i :: 0 <= i < |DerivedName(runId)| ==> IsNameChar(DerivedName(runId)[i])
  {
    var name := DerivedName(runId);
    forall i | 0 <= i < |name|
      ensures IsNameChar(name[i])
    {
      if i >= |NamePrefix| {
        assert name[i] == name[|NamePrefix|..][i - |NamePrefix|];
        assert name[i] == runId[i - |NamePrefix|];
      }
    }
  }

  /** For a run identified by a canonical UUID, the instance prefix and the
      network are valid Compute Engine resource names. */
  lemma {:induction false} UuidRunNamesAreValid(u: Uuid)
    requires WellFormed(u)
    ensures IsValidResourceName(New(UuidText(u)).instancePrefix)
    ensures IsValidResourceName(New(UuidText(u)).network)
  {
    UuidFragmentIsTimeFields(u);
    var name := New(UuidText(u)).instancePrefix;
    assert name == NamePrefix + (u.timeLow + "-" + u.timeMid);
    assert |name| == 17;
    forall i | 0 <= i < |name|
      ensures IsNameChar(name[i])
    {
      if 4 <= i < 12 {
        assert name[i] == u.timeLow[i - 4];
      } else if 13 <= i {
        assert name[i] == u.timeMid[i - 13];
      }
    }
    assert name[16] == u.timeMid[3];
  }

  /** Two runs identified by canonical UUIDs get the same instance prefix (and
      network) exactly when their UUIDs agree on time_low and time_mid. */
  lemma {:induction false} UuidRunNamesCollideIffTimeFieldsAgree(u: Uuid, v: Uuid)
    requires WellFormed(u) && WellFormed(v)
    ensures New(UuidText(u)).instancePrefix == New(UuidText(v)).instancePrefix
        <==> u.timeLow == v.timeLow && u.timeMid == v.timeMid
  {
    UuidFragmentIsTimeFields(u);
    UuidFragmentIsTimeFields(v);
    var a := New(UuidText(u)).instancePrefix;
    var b := New(UuidText(v)).instancePrefix;
    assert a == NamePrefix + u.timeLow + "-" + u.timeMid;
    assert b == NamePrefix + v.timeLow + "-" + v.timeMid;
    if a == b {
      assert u.timeLow == a[4..12] == b[4..12] == v.timeLow;
      assert u.timeMid == a[13..] == b[13..] == v.timeMid;
    }
  }
}
