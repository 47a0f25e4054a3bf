/** Resource discovery: the Pods that belong to a Deployment through its
    ReplicaSets, and the Deployment's observed replica count
    (internal/utils/resources.go). */
module Resources {
  import opened Api

  /** The cluster as discovery sees it during one pass: the answer to the Get
      of the referenced Deployment, the answer to the List of ReplicaSets that
      match the Deployment's selector (matching is done by the API server),
      and the answer to the List of all Pods of the namespace, which every
      Pod listing of the pass receives. */
  datatype Cluster = Cluster(
    deployment: Result<Deployment>,
    replicaSets: Result<seq<ReplicaSet>>,
    pods: Result<seq<Pod>>)

  /** The read requests discovery sends to the API server. */
  datatype Lookup = GetDeployment | ListReplicaSets | ListPods

  /** n Pod listings in a row. */
  function PodListings(n: nat): seq<Lookup> {
    seq(n, _ => ListPods)
  }

  /** `p` has exactly one owner reference, and it points at `uid`. */
  predicate SoleOwner(p: Pod, uid: string) {
    |p.ownerReferences| == 1 && p.ownerReferences[0].uid == uid
  }

  /** The Pods of `pods` whose sole owner is `uid`, in list order. */
  function OwnedBy(uid: string, pods: seq<Pod>): seq<Pod>
  {
    if pods == [] then []
    else
      var last := pods[|pods| - 1];
      OwnedBy(uid, pods[..|pods| - 1]) + (if SoleOwner(last, uid) then [last] else [])
  }

  /** The positions, in `pods`, of the Pods that `OwnedBy` keeps. */
  function KeptIndices(uid: string, pods: seq<Pod>): seq<nat>
  {
    if pods == [] then []
    else
      var n := |pods| - 1;
      KeptIndices(uid, pods[..n]) + (if SoleOwner(pods[n], uid) then [n] else [])
  }

  /** What one `getPodsByReplicaSet` call yields for `rs`: nothing when the
      Pod listing failed. */
  function PodsOf(rs: ReplicaSet, listing: Result<seq<Pod>>): seq<Pod>
  {
    if listing.Err? then [] else OwnedBy(rs.uid, listing.value)
  }

  /** The Pods of every ReplicaSet of `rss`, concatenated in ReplicaSet order. */
  function ConcatPods(rss: seq<ReplicaSet>, listing: Result<seq<Pod>>): seq<Pod>
  {
    if rss == [] then []
    else ConcatPods(rss[..|rss| - 1], listing) + PodsOf(rss[|rss| - 1], listing)
  }

  /** What `getRsIdsByDeployment` returns: the slice is made with length n and
      then appended to, so n zero-valued ReplicaSets precede the n listed. */
  function ReplicaSetIds(listing: Result<seq<ReplicaSet>>): seq<ReplicaSet>
  {
    if listing.Err? then [] else seq(|listing.value|, _ => ZeroReplicaSet) + listing.value
  }

  /** What `GetPodsByDeployment` returns for the cluster `c`. */
  function PodsByDeployment(c: Cluster): seq<Pod>
  {
    if c.deployment.Err? then [] else ConcatPods(ReplicaSetIds(c.replicaSets), c.pods)
  }

  /** The Deployment's observed replica count, or 0 when it cannot be fetched. */
  function GetDeploymentReplicas(c: Cluster): (replicas: int32)
    ensures c.deployment.Ok? ==> replicas == c.deployment.value.statusReplicas
    ensures c.deployment.Err? ==> replicas == 0
  {
    match c.deployment
    case Err(_) => 0
    case Ok(deployment) => deployment.statusReplicas
  }

  /** Keeps, in order, the listed Pods whose one owner reference is `rs`. */
  method GetPodsByReplicaSet(rs: ReplicaSet, listing: Result<seq<Pod>>) returns (pods: seq<Pod>)
    ensures listing.Err? ==> pods == []
    ensures listing.Ok? ==> pods == OwnedBy(rs.uid, listing.value)
  {
    if listing.Err? {
      return [];
    }
    var items := listing.value;
    pods := [];
    for i := 0 to |items|
      invariant pods == OwnedBy(rs.uid, items[..i])
    {
      var pod := items[i];
      if |pod.ownerReferences| == 1 && pod.ownerReferences[0].uid == rs.uid {
        pods := pods + [pod];
      }
      assert items[..i + 1][..i] == items[..i];
    }
    assert items[..|items|] == items;
  }

  /** Collects the ReplicaSets of the Deployment, behind as many zero values. */
  method GetRsIdsByDeployment(listing: Result<seq<ReplicaSet>>) returns (rsIds: seq<ReplicaSet>)
    ensures listing.Err? ==> rsIds == []
    ensures listing.Ok? ==> |rsIds| == 2 * |listing.value|
    ensures listing.Ok? ==> forall i :: 0 <= i < |listing.value| ==> rsIds[i] == ZeroReplicaSet
    ensures listing.Ok? ==> rsIds[|listing.value|..] == listing.value
    ensures rsIds == ReplicaSetIds(listing)
  {
    if listing.Err? {
      return [];
    }
    var items := listing.value;
    rsIds := seq(|items|, _ => ZeroReplicaSet);
    for i := 0 to |items|
      invariant |rsIds| == |items| + i
      invariant forall j :: 0 <= j < |items| ==> rsIds[j] == ZeroReplicaSet
      invariant rsIds[|items|..] == items[..i]
    {
      rsIds := rsIds + [items[i]];
    }
  }

  /** Fetches the Deployment, then gathers the Pods of each of its ReplicaSets.
      `lookups` are the requests sent, in order: one Pod listing per entry of
      the ReplicaSet slice, placeholders included. */
  method GetPodsByDeployment(c: Cluster) returns (podsList: seq<Pod>, lookups: seq<Lookup>)
    ensures podsList == PodsByDeployment(c)
    ensures c.deployment.Err? ==> lookups == [GetDeployment]
    ensures c.deployment.Ok? ==>
      lookups == [GetDeployment, ListReplicaSets] + PodListings(|ReplicaSetIds(c.replicaSets)|)
  {
    lookups := [GetDeployment];
    if c.deployment.Err? {
      return [], lookups;
    }
    lookups := lookups + [ListReplicaSets];
    var rsIds := GetRsIdsByDeployment(c.replicaSets);
    podsList := [];
    for i := 0 to |rsIds|
      invariant podsList == ConcatPods(rsIds[..i], c.pods)
      invariant lookups == [GetDeployment, ListReplicaSets] + PodListings(i)
    {
      lookups := lookups + [ListPods];
      assert PodListings(i) + [ListPods] == PodListings(i + 1);
      var pods := GetPodsByReplicaSet(rsIds[i], c.pods);
      podsList := podsList + pods;
      ConcatPodsStep(rsIds, i, c.pods);
    }
    assert rsIds[..|rsIds|] == rsIds;
  }

  lemma ConcatPodsStep(rss: seq<ReplicaSet>, i: nat, listing: Result<seq<Pod>>)
    requires i < |rss|
    ensures ConcatPods(rss[..i + 1], listing) == ConcatPods(rss[..i], listing) + PodsOf(rss[i], listing)
  {
    assert rss[..i + 1][..i] == rss[..i];
  }

  /** A Pod is kept exactly when it is listed and `uid` is its sole owner. */
  lemma {:induction false} OwnedByMembership(uid: string, pods: seq<Pod>)
    ensures forall p :: p in OwnedBy(uid, pods) <==> p in pods && SoleOwner(p, uid)
  {
    if pods != [] {
      var init := pods[..|pods| - 1];
      OwnedByMembership(uid, init);
      assert pods == init + [pods[|pods| - 1]];
    }
  }

  /** `OwnedBy` is the sub-list of `pods` at the ascending positions
      `KeptIndices`, and those are exactly the positions of owned Pods: the
      filter neither reorders, duplicates nor drops an owned Pod. */
  lemma {:induction false} OwnedByIsOrderedSelection(uid: string, pods: seq<Pod>)
    ensures |KeptIndices(uid, pods)| == |OwnedBy(uid, pods)|
    ensures forall k :: 0 <= k < |KeptIndices(uid, pods)| ==>
      KeptIndices(uid, pods)[k] < |pods| && OwnedBy(uid, pods)[k] == pods[KeptIndices(uid, pods)[k]]
    ensures forall k, l :: 0 <= k < l < |KeptIndices(uid, pods)| ==>
      KeptIndices(uid, pods)[k] < KeptIndices(uid, pods)[l]
    ensures forall j :: 0 <= j < |pods| ==> (j in KeptIndices(uid, pods) <==> SoleOwner(pods[j], uid))
  {
    if pods != [] {
      var n := |pods| - 1;
      var init := pods[..n];
      OwnedByIsOrderedSelection(uid, init);
      var idx0, r0 := KeptIndices(uid, init), OwnedBy(uid, init);
      var idx, r := KeptIndices(uid, pods), OwnedBy(uid, pods);
      assert idx == idx0 + (if SoleOwner(pods[n], uid) then [n] else []);
      assert r == r0 + (if SoleOwner(pods[n], uid) then [pods[n]] else []);
      assert forall k :: 0 <= k < |idx0| ==> idx0[k] < n;
      forall j | 0 <= j < |pods|
        ensures j in idx <==> SoleOwner(pods[j], uid)
      {
        if j < n {
          assert init[j] == pods[j];
        }
      }
    }
  }

  /** Discovery of several ReplicaSets is the concatenation of their parts. */
  lemma {:induction false} ConcatPodsAppend(a: seq<ReplicaSet>, b: seq<ReplicaSet>, listing: Result<seq<Pod>>)
    ensures ConcatPods(a + b, listing) == ConcatPods(a, listing) + ConcatPods(b, listing)
  {
    if b != [] {
      var n := |b| - 1;
      ConcatPodsAppend(a, b[..n], listing);
      assert (a + b)[..|a + b| - 1] == a + b[..n];
      assert (a + b)[|a + b| - 1] == b[n];
    } else {
      assert a + b == a;
    }
  }

  /** A failed Pod listing leaves every ReplicaSet without Pods. */
  lemma {:induction false} ConcatPodsOfFailedListing(rss: seq<ReplicaSet>, listing: Result<seq<Pod>>)
    requires listing.Err?
    ensures ConcatPods(rss, listing) == []
  {
    if rss != [] {
      ConcatPodsOfFailedListing(rss[..|rss| - 1], listing);
    }
  }

  /** A Pod is discovered for `rss` exactly when it is listed and its sole
      owner is one of `rss`. */
  lemma {:induction false} ConcatPodsMembership(rss: seq<ReplicaSet>, pods: seq<Pod>, p: Pod)
    ensures p in ConcatPods(rss, Ok(pods)) <==>
      p in pods && exists i :: 0 <= i < |rss| && SoleOwner(p, rss[i].uid)
  {
    if rss != [] {
      var n := |rss| - 1;
      var init := rss[..n];
      ConcatPodsMembership(init, pods, p);
      OwnedByMembership(rss[n].uid, pods);
      assert ConcatPods(rss, Ok(pods)) == ConcatPods(init, Ok(pods)) + OwnedBy(rss[n].uid, pods);
      assert forall i :: 0 <= i < n ==> init[i] == rss[i];
    }
  }

  /** Each Pod discovered for a Deployment has exactly one owner reference,
      whose UID is empty (a zero-valued placeholder) or that of a listed
      ReplicaSet. */
  lemma PodsByDeploymentOwned(c: Cluster, p: Pod)
    requires p in PodsByDeployment(c)
    ensures c.deployment.Ok? && c.replicaSets.Ok? && c.pods.Ok? && p in c.pods.value
    ensures |p.ownerReferences| == 1
    ensures p.ownerReferences[0].uid == ""
      || exists i :: 0 <= i < |c.replicaSets.value| && c.replicaSets.value[i].uid == p.ownerReferences[0].uid
  {
    var rsIds := ReplicaSetIds(c.replicaSets);
    if c.pods.Err? {
      ConcatPodsOfFailedListing(rsIds, c.pods);
    }
    ConcatPodsMembership(rsIds, c.pods.value, p);
    var i :| 0 <= i < |rsIds| && SoleOwner(p, rsIds[i].uid);
    var n := |c.replicaSets.value|;
    if i >= n {
      assert rsIds[i] == c.replicaSets.value[i - n];
    }
  }

  /** When the Deployment, the ReplicaSets or the Pods cannot be fetched,
      discovery finds nothing. */
  lemma PodsByDeploymentOnFailure(c: Cluster)
    requires c.deployment.Err? || c.replicaSets.Err? || c.pods.Err?
    ensures PodsByDeployment(c) == []
  {
    if c.pods.Err? {
      ConcatPodsOfFailedListing(ReplicaSetIds(c.replicaSets), c.pods);
    }
  }

  /** The zero-valued placeholders match only Pods whose sole owner UID is
      empty; without such Pods, discovery is the concatenation over the listed
      ReplicaSets alone. */
  lemma PlaceholdersAddNothing(c: Cluster)
    requires c.deployment.Ok? && c.replicaSets.Ok? && c.pods.Ok?
    requires forall p :: p in c.pods.value ==> !SoleOwner(p, "")
    ensures PodsByDeployment(c) == ConcatPods(c.replicaSets.value, c.pods)
  {
    var items := c.replicaSets.value;
    var zeros := seq(|items|, _ => ZeroReplicaSet);
    ConcatPodsAppend(zeros, items, c.pods);
    PlaceholdersContributeNothing(|items|, c.pods.value);
  }

  /** n zero-valued ReplicaSets discover nothing among Pods none of which
      names the empty UID as sole owner. */
  lemma {:induction false} PlaceholdersContributeNothing(n: nat, pods: seq<Pod>)
    requires forall p :: p in pods ==> !SoleOwner(p, "")
    ensures ConcatPods(seq(n, _ => ZeroReplicaSet), Ok(pods)) == []
  {
    var zeros := seq(n, _ => ZeroReplicaSet);
    if n > 0 {
      PlaceholdersContributeNothing(n - 1, pods);
      assert zeros[..n - 1] == seq(n - 1, _ => ZeroReplicaSet);
      OwnedByNothing("", pods);
    }
  }

  /** `n` copies of `pods`, one after the other. */
  function Repeat(pods: seq<Pod>, n: nat): seq<Pod> {
    if n == 0 then [] else Repeat(pods, n - 1) + pods
  }

  /** n zero-valued ReplicaSets discover, n times over, the Pods whose sole
      owner UID is empty. */
  lemma {:induction false} PlaceholdersRepeatEmptyOwner(n: nat, pods: seq<Pod>)
    ensures ConcatPods(seq(n, _ => ZeroReplicaSet), Ok(pods)) == Repeat(OwnedBy("", pods), n)
  {
    if n > 0 {
      PlaceholdersRepeatEmptyOwner(n - 1, pods);
      assert seq(n, _ => ZeroReplicaSet)[..n - 1] == seq(n - 1, _ => ZeroReplicaSet);
    }
  }

  /** What a Deployment's discovery yields when every fetch succeeds: the
      Pods whose sole owner UID is empty, once per listed ReplicaSet, then the
      Pods of each listed ReplicaSet in list order. */
  lemma PodsByDeploymentLayout(c: Cluster)
    requires c.deployment.Ok? && c.replicaSets.Ok? && c.pods.Ok?
    ensures PodsByDeployment(c)
      == Repeat(OwnedBy("", c.pods.value), |c.replicaSets.value|) + ConcatPods(c.replicaSets.value, c.pods)
  {
    var items := c.replicaSets.value;
    ConcatPodsAppend(seq(|items|, _ => ZeroReplicaSet), items, c.pods);
    PlaceholdersRepeatEmptyOwner(|items|, c.pods.value);
  }

  /** No Pod is kept for an owner that no listed Pod names as sole owner. */
  lemma {:induction false} OwnedByNothing(uid: string, pods: seq<Pod>)
    requires forall p :: p in pods ==> !SoleOwner(p, uid)
    ensures OwnedBy(uid, pods) == []
  {
    if pods != [] {
      OwnedByNothing(uid, pods[..|pods| - 1]);
      assert pods[|pods| - 1] in pods;
    }
  }
}
