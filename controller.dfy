/** The reconciler of UpGrade requests: one pass fetches the request, moves
    its status from unset through Running to Successful or Failure, and runs
    the image patch executor on a prefix of the Deployment's Pods
    (internal/controller/upgrade_controller.go). */
module Controller {
  import opened Api
  import Resources
  import ImagePatch

  const PodStatusSuccess := "Successful"
  const PodStatusRunning := "Running"
  const PodStatusFailed := "Failure"
  const Upgrade := "upgrade"

  /** `ctrl.Result`, reduced to its `Requeue` flag. */
  datatype ReconcileResult = ReconcileResult(requeue: bool)

  const Done := ReconcileResult(false)

  /** One run of the image patch executor: the position of the Pod in the
      discovered list, the Pod, the image list it was given, and how many
      status updates the pass had sent when the run started. The last field
      places the run within the pass's status updates. */
  datatype PodAttempt = PodAttempt(index: nat, pod: Pod, images: seq<string>, updatesBefore: nat)

  /** What one pass does and answers: the in-memory request at its end, the
      statuses it sent to the status subresource (in order), the executor runs
      it made (in order), and the value it returns. */
  datatype Trace = Trace(
    spec: UpGradeSpec,
    status: UpGradeStatus,
    writes: seq<UpGradeStatus>,
    attempts: seq<PodAttempt>,
    result: ReconcileResult,
    err: Option<Error>)

  /** The outcome of the n-th status update of a pass; updates beyond the end
      of `writeErrs` succeed. */
  function WriteOutcome(writeErrs: seq<Option<Error>>, n: nat): Option<Error> {
    if n < |writeErrs| then writeErrs[n] else None
  }

  /** The step outcomes of the executor run on the i-th Pod; runs beyond the
      end of `patchFaults` succeed. */
  function FaultsAt(patchFaults: seq<ImagePatch.Faults>, i: nat): ImagePatch.Faults {
    if i < |patchFaults| then patchFaults[i] else ImagePatch.NoFaults
  }

  predicate PatchFails(patchFaults: seq<ImagePatch.Faults>, i: nat) {
    !ImagePatch.Succeeds(FaultsAt(patchFaults, i))
  }

  /** The replica count the pass works with: the requested count, lowered to
      the number of Pods found. */
  function EffectiveCount(requested: int, found: nat): (count: int)
    ensures count <= requested && count <= found
    ensures count == requested || count == found
  {
    if found < requested then found else requested
  }

  /** How many times `for i := 0; i < count; i++` runs. */
  function Selected(count: int): nat {
    if count < 0 then 0 else count
  }

  /** The position of the first failing executor run among the first n, or n
      when none of them fails. */
  function FirstFailure(patchFaults: seq<ImagePatch.Faults>, n: nat): (k: nat)
    ensures k <= n
    ensures forall j :: 0 <= j < k ==> !PatchFails(patchFaults, j)
    ensures k < n ==> PatchFails(patchFaults, k)
  {
    if n == 0 then 0
    else
      var k := FirstFailure(patchFaults, n - 1);
      if k < n - 1 then k
      else if PatchFails(patchFaults, n - 1) then n - 1
      else n
  }

  /** The images to install: those of the spec, in order, for an `upgrade`
      request, and none otherwise. */
  function ImageList(spec: UpGradeSpec): seq<string> {
    if spec.kind == Upgrade then seq(|spec.images|, i requires 0 <= i < |spec.images| => spec.images[i].image)
    else []
  }

  /** Executor runs on the first m Pods, in order, each after `sent` status
      updates. */
  function Attempts(pods: seq<Pod>, images: seq<string>, sent: nat, m: nat): seq<PodAttempt>
    requires m <= |pods|
  {
    seq(m, j requires 0 <= j < m => PodAttempt(j, pods[j], images, sent))
  }

  /** The status the first update of a pass sends. */
  function RunningStatus(u: UpGrade): UpGradeStatus {
    var typed := if u.spec.kind == Upgrade then u.status.(kind := Upgrade) else u.status;
    typed.(status := PodStatusRunning)
  }

  /** One reconciliation pass: `get` is the answer to the Get of the request,
      `cluster` what discovery sees, `writeErrs` the outcomes of the pass's
      status updates and `patchFaults` those of its executor runs. */
  function Pass(get: Result<UpGrade>, cluster: Resources.Cluster, writeErrs: seq<Option<Error>>,
                patchFaults: seq<ImagePatch.Faults>): Trace
  {
    match get
    case Err(e) => Trace(ZeroSpec, ZeroStatus, [], [], Done, if e.NotFound? then None else Some(e))
    case Ok(u) =>
      if u.status.status == PodStatusSuccess then Trace(u.spec, u.status, [], [], Done, None)
      else
        var running := RunningStatus(u);
        if WriteOutcome(writeErrs, 0).Some? then
          Trace(u.spec, running, [running], [], Done, WriteOutcome(writeErrs, 0))
        else
          var pods := Resources.PodsByDeployment(cluster);
          if |pods| == 0 then Trace(u.spec, running, [running], [], Done, None)
          else
            var t := UpgradePhase(u.spec, running, pods, 1, writeErrs, patchFaults);
            t.(writes := [running] + t.writes)
  }

  /** The part of a pass after Running was stored and Pods were found, the
      pass having sent `sent` status updates so far; its `writes` are the
      status updates made from there on. */
  function UpgradePhase(spec: UpGradeSpec, running: UpGradeStatus, pods: seq<Pod>, sent: nat,
                        writeErrs: seq<Option<Error>>, patchFaults: seq<ImagePatch.Faults>): Trace
  {
    PatchPhase(spec, running, pods, ImageList(spec), EffectiveCount(spec.upgradeReplicas, |pods|),
               sent, writeErrs, patchFaults)
  }

  /** The executor runs on the first `count` Pods, up to the first failure,
      and the status updates that follow them. */
  function PatchPhase(spec: UpGradeSpec, running: UpGradeStatus, pods: seq<Pod>, images: seq<string>,
                      count: int, sent: nat, writeErrs: seq<Option<Error>>,
                      patchFaults: seq<ImagePatch.Faults>): Trace
    requires count <= |pods|
  {
    var n := Selected(count);
    var k := FirstFailure(patchFaults, n);
    if k < n then
      var failed := running.(status := PodStatusFailed);
      Trace(spec, failed, [failed], Attempts(pods, images, sent, k + 1), Done, WriteOutcome(writeErrs, 1))
    else
      SuccessPhase(spec, running, count, writeErrs).(attempts := Attempts(pods, images, sent, n))
  }

  /** The status updates after every selected Pod was upgraded: Successful,
      then the upgraded count. */
  function SuccessPhase(spec: UpGradeSpec, running: UpGradeStatus, count: int,
                        writeErrs: seq<Option<Error>>): Trace
  {
    var succeeded := running.(status := PodStatusSuccess);
    if WriteOutcome(writeErrs, 1).Some? then
      Trace(spec, succeeded, [succeeded], [], Done, WriteOutcome(writeErrs, 1))
    else
      var recorded := succeeded.(upGradeReplicas := count);
      Trace(spec, recorded, [succeeded, recorded], [], Done, WriteOutcome(writeErrs, 2))
  }

  /** Copies the image of every entry of `images`, in order. */
  method CollectImages(images: seq<ImageSpec>) returns (imageList: seq<string>)
    ensures |imageList| == |images|
    ensures forall i :: 0 <= i < |images| ==> imageList[i] == images[i].image
  {
    imageList := [];
    for i := 0 to |images|
      invariant |imageList| == i
      invariant forall j :: 0 <= j < i ==> imageList[j] == images[j].image
    {
      imageList := imageList + [images[i].image];
    }
  }

  class UpGradeReconciler {
    /** The UpGrade request of the current pass, as held in memory. */
    var spec: UpGradeSpec
    var status: UpGradeStatus
    /** Every status the current pass sent to the status subresource, in
        order. */
    ghost var writes: seq<UpGradeStatus>
    /** Every run of the image patch executor in the current pass, in order. */
    ghost var attempts: seq<PodAttempt>

    constructor ()
      ensures spec == ZeroSpec && status == ZeroStatus
      ensures writes == [] && attempts == []
    {
      spec := ZeroSpec;
      status := ZeroStatus;
      writes := [];
      attempts := [];
    }

    /** `Status().Update`: sends the in-memory status as the n-th status
        update of the pass. */
    method UpdateStatus(writeErrs: seq<Option<Error>>, n: nat) returns (err: Option<Error>)
      modifies this`writes
      ensures writes == old(writes) + [status]
      ensures err == WriteOutcome(writeErrs, n)
    {
      writes := writes + [status];
      err := WriteOutcome(writeErrs, n);
    }

    /** One reconciliation pass, with the cluster's answers as parameters.
        The logs start afresh with the pass. */
    method Reconcile(get: Result<UpGrade>, cluster: Resources.Cluster, writeErrs: seq<Option<Error>>,
                     patchFaults: seq<ImagePatch.Faults>)
      returns (result: ReconcileResult, err: Option<Error>)
      modifies this
      ensures var t := Pass(get, cluster, writeErrs, patchFaults);
        spec == t.spec && status == t.status && writes == t.writes && attempts == t.attempts
        && result == t.result && err == t.err
    {
      writes, attempts := [], [];
      if get.Err? {
        spec, status := ZeroSpec, ZeroStatus;
        if !get.error.NotFound? {
          return Done, Some(get.error);
        }
        return Done, None;
      }
      spec, status := get.value.spec, get.value.status;

      if status.status == PodStatusSuccess {
        return Done, None;
      }

      if spec.kind == Upgrade {
        status := status.(kind := Upgrade);
      }

      status := status.(status := PodStatusRunning);
      err := UpdateStatus(writeErrs, 0);
      if err.Some? {
        return Done, err;
      }

      var podList, lookups := Resources.GetPodsByDeployment(cluster);
      if |podList| == 0 {
        return Done, None;
      }

      result, err := UpgradePods(cluster, podList, writeErrs, patchFaults);
    }

    /** The part of Reconcile that follows discovery: resolves the replica
        count and the image list, then upgrades the Pods. */
    method UpgradePods(cluster: Resources.Cluster, podList: seq<Pod>, writeErrs: seq<Option<Error>>,
                       patchFaults: seq<ImagePatch.Faults>)
      returns (result: ReconcileResult, err: Option<Error>)
      modifies this
      ensures var t := UpgradePhase(old(spec), old(status), podList, |old(writes)|, writeErrs, patchFaults);
        spec == t.spec && status == t.status
        && writes == old(writes) + t.writes && attempts == old(attempts) + t.attempts
        && result == t.result && err == t.err
    {
      var replicaCount := spec.upgradeReplicas;
      if spec.upgradeReplicas == 0 {
        var discarded := Resources.GetDeploymentReplicas(cluster);
        spec := spec.(upgradeReplicas := replicaCount);
      }
      if |podList| < spec.upgradeReplicas {
        replicaCount := |podList|;
      }

      var imageList := [];
      if spec.kind == Upgrade {
        imageList := CollectImages(spec.images);
      }
      assert imageList == ImageList(spec);

      result, err := PatchPods(podList, imageList, replicaCount, writeErrs, patchFaults);
    }

    /** The loop of Reconcile: runs the executor on Pods 0 .. count-1 in
        order; the first failure stores Failure and ends the pass, otherwise
        the pass ends with the success updates. */
    method PatchPods(podList: seq<Pod>, imageList: seq<string>, replicaCount: int,
                     writeErrs: seq<Option<Error>>, patchFaults: seq<ImagePatch.Faults>)
      returns (result: ReconcileResult, err: Option<Error>)
      requires replicaCount <= |podList|
      modifies this`status, this`writes, this`attempts
      ensures var t := PatchPhase(spec, old(status), podList, imageList, replicaCount, |old(writes)|,
                                  writeErrs, patchFaults);
        status == t.status && writes == old(writes) + t.writes && attempts == old(attempts) + t.attempts
        && result == t.result && err == t.err
    {
      ghost var running := status;
      ghost var n := Selected(replicaCount);
      var i := 0;
      while i < replicaCount
        invariant 0 <= i <= n
        invariant forall j :: 0 <= j < i ==> !PatchFails(patchFaults, j)
        invariant attempts == old(attempts) + Attempts(podList, imageList, |old(writes)|, i)
        invariant status == running && writes == old(writes)
      {
        var patchErr, sent := ImagePatch.UpgradePodByImages(podList[i], imageList, FaultsAt(patchFaults, i));
        attempts := attempts + [PodAttempt(i, podList[i], imageList, |writes|)];
        AttemptsGrow(podList, imageList, |writes|, i);
        if patchErr.Some? {
          assert PatchFails(patchFaults, i);
          assert FirstFailure(patchFaults, n) == i;
          status := status.(status := PodStatusFailed);
          err := UpdateStatus(writeErrs, 1);
          if err.Some? {
            return Done, err;
          }
          return ReconcileResult(false), err;
        }
        i := i + 1;
      }
      assert FirstFailure(patchFaults, n) == n;
      result, err := RecordSuccess(replicaCount, writeErrs);
    }

    /** Stores Successful, then the upgraded replica count, stopping at the
        first update that fails. */
    method RecordSuccess(replicaCount: int, writeErrs: seq<Option<Error>>)
      returns (result: ReconcileResult, err: Option<Error>)
      modifies this`status, this`writes
      ensures var t := SuccessPhase(spec, old(status), replicaCount, writeErrs);
        status == t.status && writes == old(writes) + t.writes && result == t.result && err == t.err
    {
      status := status.(status := PodStatusSuccess);
      err := UpdateStatus(writeErrs, 1);
      if err.Some? {
        return Done, err;
      }

      status := status.(upGradeReplicas := replicaCount);
      err := UpdateStatus(writeErrs, 2);
      if err.Some? {
        return Done, err;
      }
      return Done, None;
    }
  }

  lemma AttemptsGrow(pods: seq<Pod>, images: seq<string>, sent: nat, i: nat)
    requires i < |pods|
    ensures Attempts(pods, images, sent, i) + [PodAttempt(i, pods[i], images, sent)]
      == Attempts(pods, images, sent, i + 1)
  {
  }

  /** A request already Successful is left alone: nothing is written or
      patched and the pass succeeds. */
  lemma SuccessfulIsNoOp(u: UpGrade, cluster: Resources.Cluster, writeErrs: seq<Option<Error>>,
                         patchFaults: seq<ImagePatch.Faults>)
    requires u.status.status == PodStatusSuccess
    ensures var t := Pass(Ok(u), cluster, writeErrs, patchFaults);
      t.writes == [] && t.attempts == [] && t.err == None && t.status == u.status
  {
  }

  /** A failed Get writes and patches nothing; it is an error unless the
      request was not found. */
  lemma GetFailureIsNoOp(e: Error, cluster: Resources.Cluster, writeErrs: seq<Option<Error>>,
                         patchFaults: seq<ImagePatch.Faults>)
    ensures var t := Pass(Err(e), cluster, writeErrs, patchFaults);
      t.writes == [] && t.attempts == []
      && (e.NotFound? ==> t.err == None)
      && (!e.NotFound? ==> t.err == Some(e))
  {
  }

  /** Every status sent carries type `upgrade` when the spec asks for an
      upgrade, and the prior type otherwise. */
  lemma StatusTypeMirrorsSpec(u: UpGrade, cluster: Resources.Cluster, writeErrs: seq<Option<Error>>,
                              patchFaults: seq<ImagePatch.Faults>)
    requires u.status.status != PodStatusSuccess
    ensures var t := Pass(Ok(u), cluster, writeErrs, patchFaults);
      var kind := if u.spec.kind == Upgrade then Upgrade else u.status.kind;
      t.status.kind == kind && forall i :: 0 <= i < |t.writes| ==> t.writes[i].kind == kind
  {
  }

  /** The first status update of a pass that gets past the Successful check
      stores Running; if it fails, the pass ends with its error and no Pod is
      touched. Every executor run starts after exactly one status update, so
      Running precedes all runs and every later update follows them all. */
  lemma RunningWrittenFirst(u: UpGrade, cluster: Resources.Cluster, writeErrs: seq<Option<Error>>,
                            patchFaults: seq<ImagePatch.Faults>)
    requires u.status.status != PodStatusSuccess
    ensures var t := Pass(Ok(u), cluster, writeErrs, patchFaults);
      |t.writes| >= 1 && t.writes[0].status == PodStatusRunning
      && t.writes[0].upGradeReplicas == u.status.upGradeReplicas
    ensures var t := Pass(Ok(u), cluster, writeErrs, patchFaults);
      WriteOutcome(writeErrs, 0).Some? ==>
        |t.writes| == 1 && t.attempts == [] && t.err == WriteOutcome(writeErrs, 0)
    ensures var t := Pass(Ok(u), cluster, writeErrs, patchFaults);
      forall j :: 0 <= j < |t.attempts| ==> t.attempts[j].updatesBefore == 1
  {
  }

  /** When no Pod is found the pass ends without error, with nothing patched
      and the request left Running. */
  lemma NoPodsLeavesRunning(u: UpGrade, cluster: Resources.Cluster, writeErrs: seq<Option<Error>>,
                            patchFaults: seq<ImagePatch.Faults>)
    requires u.status.status != PodStatusSuccess
    requires WriteOutcome(writeErrs, 0).None?
    requires Resources.PodsByDeployment(cluster) == []
    ensures var t := Pass(Ok(u), cluster, writeErrs, patchFaults);
      |t.writes| == 1 && t.writes[0].status == PodStatusRunning && t.status.status == PodStatusRunning
      && t.attempts == [] && t.err == None
  {
  }

  /** The executor runs on the discovered Pods 0, 1, 2, ... in order, each time
      with the request's image list, never past the effective count and so
      never past the end of the list. */
  lemma AttemptsArePrefix(u: UpGrade, cluster: Resources.Cluster, writeErrs: seq<Option<Error>>,
                          patchFaults: seq<ImagePatch.Faults>)
    ensures var t := Pass(Ok(u), cluster, writeErrs, patchFaults);
      var pods := Resources.PodsByDeployment(cluster);
      |t.attempts| <= Selected(EffectiveCount(u.spec.upgradeReplicas, |pods|)) && |t.attempts| <= |pods|
      && forall j :: 0 <= j < |t.attempts| ==>
           t.attempts[j].index == j && t.attempts[j].pod == pods[j] && t.attempts[j].images == ImageList(u.spec)
  {
  }

  /** Every executor run but the last succeeded; when the last one failed,
      Failure is the second and final status sent and the pass answers with
      that update's outcome, without requeue. */
  lemma HaltsAtFirstFailure(u: UpGrade, cluster: Resources.Cluster, writeErrs: seq<Option<Error>>,
                            patchFaults: seq<ImagePatch.Faults>)
    ensures var t := Pass(Ok(u), cluster, writeErrs, patchFaults);
      forall j :: 0 <= j < |t.attempts| - 1 ==> !PatchFails(patchFaults, j)
    ensures var t := Pass(Ok(u), cluster, writeErrs, patchFaults);
      t.attempts != [] && PatchFails(patchFaults, |t.attempts| - 1) ==>
        |t.writes| == 2 && t.writes[1] == t.writes[0].(status := PodStatusFailed)
        && t.status.status == PodStatusFailed
        && t.err == WriteOutcome(writeErrs, 1) && !t.result.requeue
  {
  }

  /** The number of executor runs: up to and including the first failing
      one, or every selected Pod when none fails. */
  lemma RunCount(u: UpGrade, cluster: Resources.Cluster, writeErrs: seq<Option<Error>>,
                 patchFaults: seq<ImagePatch.Faults>)
    requires u.status.status != PodStatusSuccess
    requires WriteOutcome(writeErrs, 0).None?
    requires Resources.PodsByDeployment(cluster) != []
    ensures var t := Pass(Ok(u), cluster, writeErrs, patchFaults);
      var n := Selected(EffectiveCount(u.spec.upgradeReplicas, |Resources.PodsByDeployment(cluster)|));
      var k := FirstFailure(patchFaults, n);
      |t.attempts| == (if k < n then k + 1 else n)
  {
  }

  /** When every selected Pod is upgraded, Successful is sent, then (if that
      update succeeded) the effective count is recorded by a third update. */
  lemma FullSuccessWritesTwice(u: UpGrade, cluster: Resources.Cluster, writeErrs: seq<Option<Error>>,
                               patchFaults: seq<ImagePatch.Faults>)
    requires u.status.status != PodStatusSuccess
    requires WriteOutcome(writeErrs, 0).None?
    requires Resources.PodsByDeployment(cluster) != []
    requires var count := EffectiveCount(u.spec.upgradeReplicas, |Resources.PodsByDeployment(cluster)|);
      forall j :: 0 <= j < Selected(count) ==> !PatchFails(patchFaults, j)
    ensures var t := Pass(Ok(u), cluster, writeErrs, patchFaults);
      var count := EffectiveCount(u.spec.upgradeReplicas, |Resources.PodsByDeployment(cluster)|);
      |t.attempts| == Selected(count) && |t.writes| >= 2
      && t.writes[1] == t.writes[0].(status := PodStatusSuccess)
      && (WriteOutcome(writeErrs, 1).Some? ==> |t.writes| == 2 && t.err == WriteOutcome(writeErrs, 1))
      && (WriteOutcome(writeErrs, 1).None? ==>
            |t.writes| == 3 && t.writes[2] == t.writes[1].(upGradeReplicas := count)
            && t.status == t.writes[2] && t.err == WriteOutcome(writeErrs, 2))
  {
  }

  /** Successful is only ever sent after every selected Pod was upgraded, and
      Failure only after a failed run; the statuses sent go Running, then one
      of Successful or Failure. */
  lemma StatusLifecycle(u: UpGrade, cluster: Resources.Cluster, writeErrs: seq<Option<Error>>,
                        patchFaults: seq<ImagePatch.Faults>)
    ensures var t := Pass(Ok(u), cluster, writeErrs, patchFaults);
      |t.writes| <= 3 && (t.writes != [] ==> t.writes[0].status == PodStatusRunning)
      && (forall i :: 1 <= i < |t.writes| ==>
            t.writes[i].status == PodStatusSuccess || t.writes[i].status == PodStatusFailed)
    ensures var t := Pass(Ok(u), cluster, writeErrs, patchFaults);
      var count := EffectiveCount(u.spec.upgradeReplicas, |Resources.PodsByDeployment(cluster)|);
      forall i :: 1 <= i < |t.writes| ==>
        (t.writes[i].status == PodStatusSuccess <==>
           |t.attempts| == Selected(count) && forall j :: 0 <= j < |t.attempts| ==> !PatchFails(patchFaults, j))
    ensures var t := Pass(Ok(u), cluster, writeErrs, patchFaults);
      forall i :: 1 <= i < |t.writes| && t.writes[i].status == PodStatusFailed ==>
        t.attempts != [] && PatchFails(patchFaults, |t.attempts| - 1)
  {
  }

  /** A requested count of 0 upgrades no Pod, and a pass that completes
      records 0 upgraded replicas. */
  lemma ZeroReplicasUpgradesNothing(u: UpGrade, cluster: Resources.Cluster, writeErrs: seq<Option<Error>>,
                                    patchFaults: seq<ImagePatch.Faults>)
    requires u.spec.upgradeReplicas == 0
    ensures var t := Pass(Ok(u), cluster, writeErrs, patchFaults);
      t.attempts == [] && (|t.writes| == 3 ==> t.status.upGradeReplicas == 0)
  {
  }

  /** The replica count the Deployment reports has no influence on a pass,
      not even when the request asks for 0 replicas and the count is fetched:
      the value fetched is discarded. */
  lemma DeploymentReplicasIgnored(u: UpGrade, cluster: Resources.Cluster, writeErrs: seq<Option<Error>>,
                                  patchFaults: seq<ImagePatch.Faults>, replicas: int32)
    requires cluster.deployment.Ok?
    ensures var other := cluster.(deployment := Ok(cluster.deployment.value.(statusReplicas := replicas)));
      Pass(Ok(u), other, writeErrs, patchFaults) == Pass(Ok(u), cluster, writeErrs, patchFaults)
  {
  }

  /** No exit of a pass asks for a requeue. */
  lemma NeverRequeues(get: Result<UpGrade>, cluster: Resources.Cluster, writeErrs: seq<Option<Error>>,
                      patchFaults: seq<ImagePatch.Faults>)
    ensures !Pass(get, cluster, writeErrs, patchFaults).result.requeue
  {
  }

  /** Every Pod the executor runs on was discovered for the Deployment: it
      has exactly one owner reference, pointing at a listed ReplicaSet or
      empty (a zero-valued placeholder's UID). */
  lemma AttemptedPodsAreOwned(u: UpGrade, cluster: Resources.Cluster, writeErrs: seq<Option<Error>>,
                              patchFaults: seq<ImagePatch.Faults>, j: nat)
    requires j < |Pass(Ok(u), cluster, writeErrs, patchFaults).attempts|
    ensures var p := Pass(Ok(u), cluster, writeErrs, patchFaults).attempts[j].pod;
      cluster.replicaSets.Ok? && |p.ownerReferences| == 1
      && (p.ownerReferences[0].uid == ""
          || exists i :: 0 <= i < |cluster.replicaSets.value| && cluster.replicaSets.value[i].uid == p.ownerReferences[0].uid)
  {
    AttemptsArePrefix(u, cluster, writeErrs, patchFaults);
    var pods := Resources.PodsByDeployment(cluster);
    Resources.PodsByDeploymentOwned(cluster, pods[j]);
  }
}
