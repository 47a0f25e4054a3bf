# upgrade-controller reconciliation core, in Dafny

This project models the deterministic core of a Kubernetes controller that
upgrades the container images of some of a Deployment's Pods, driven by an
`UpGrade` custom resource. The cluster is replaced by plain input data:

- the answer to the Get of the `UpGrade` request (`Result<UpGrade>`);
- a snapshot `Resources.Cluster` holding the answer to the Get of the
  referenced Deployment, to the List of its ReplicaSets and to the List of
  the namespace's Pods;
- the outcomes of the pass's status updates (`writeErrs`, by update number);
- the outcomes of the four fallible steps of each run of the image patch
  executor (`patchFaults`, by Pod position).

Files:

- `api.dfy` (module `Api`): the resource types, `Option`, `Result` and the
  API error (`NotFound` is the one kind the controller tells apart).
- `resources.dfy` (module `Resources`): Pod discovery through ReplicaSet
  ownership and the Deployment's observed replica count. The slice-building
  loops are methods proved against filter/concatenation functions
  (`OwnedBy`, `ConcatPods`, `PodsByDeployment`).
- `image_patch.dfy` (module `ImagePatch`): the JSON Patch document (section
  4.3 of RFC 6902) of `replace` operations on the JSON Pointers (RFC 6901)
  `/spec/containers/<k>/image`, the decimal rendering of `k` with its inverse,
  and the executor's chain of fallible steps.
- `controller.dfy` (module `Controller`): the `UpGradeReconciler` class. Its
  fields `spec` and `status` are the in-memory request; the ghost fields
  `writes` and `attempts` log the status updates sent and the executor runs
  made in the current pass; each run records how many status updates preceded
  it, which fixes the order of updates and runs. `Reconcile` and its helper methods are proved equal to the pure
  function `Pass`, and the lifecycle properties are lemmas about `Pass`.

Behaviour reproduced as the code has it:

- A requested count of 0 upgrades no Pod. The Deployment's replica count is
  fetched and discarded, and the count written back is the requested one
  (`ZeroReplicasUpgradesNothing`, `DeploymentReplicasIgnored`). The comments
  at internal/controller/upgrade_controller.go:104 and :109 call for the
  Deployment's replica count; the model follows the code.
- `getRsIdsByDeployment` returns n zero-valued ReplicaSets before the n
  listed ones. So every Pod listing is done 2n times, and a Pod whose only
  owner reference has an empty UID is discovered once per placeholder
  (`GetRsIdsByDeployment`, `PodsByDeploymentLayout`).
- The executor's error is replaced by the outcome of the `Failure` status
  update. A pass that stored `Failure` therefore returns no error
  (`HaltsAtFirstFailure`).
- A negative requested count runs the loop zero times and then stores
  `Successful` with that negative count.

## Model

| member | source | states |
|---|---|---|
| `Resources.GetDeploymentReplicas` | internal/utils/resources.go:68-76 | the Deployment's `Status.Replicas` when the Get succeeds, 0 when it fails |
| `Resources.GetPodsByReplicaSet` | internal/utils/resources.go:50-64 | a failed Pod listing gives no Pods; otherwise the result is the listing filtered by `OwnedBy` |
| `Resources.OwnedByMembership` | internal/utils/resources.go:58-62 | a Pod is kept iff it is listed, has exactly one owner reference, and that reference's UID is the ReplicaSet's |
| `Resources.OwnedByIsOrderedSelection` | internal/utils/resources.go:57-64 | the kept Pods are the listing at strictly ascending positions, and those positions are exactly the ones holding owned Pods (an order-preserving subsequence, no duplicates, no omissions) |
| `Resources.OwnedByNothing` | internal/utils/resources.go:58-62 | an owner that no listed Pod names as sole owner keeps nothing |
| `Resources.GetRsIdsByDeployment` | internal/utils/resources.go:32-46 | a list error gives no ReplicaSets; otherwise 2n entries: n zero-valued ReplicaSets, then the n listed ones in list order |
| `Resources.GetPodsByDeployment` | internal/utils/resources.go:14-28 | the result is the concatenation, in ReplicaSet order, of each ReplicaSet's Pods; a failed Deployment Get sends no further lookup; otherwise one ReplicaSet listing and one Pod listing per slice entry |
| `Resources.ConcatPodsAppend` | internal/utils/resources.go:22-25 | discovery over two runs of ReplicaSets is the concatenation of the two discoveries |
| `Resources.ConcatPodsOfFailedListing` | internal/utils/resources.go:51-55 | when the Pod listing fails, no ReplicaSet contributes a Pod |
| `Resources.ConcatPodsMembership` | internal/utils/resources.go:22-25 | a Pod is discovered iff it is listed and its sole owner is one of the ReplicaSets |
| `Resources.PodsByDeploymentOwned` | internal/utils/resources.go:14-28 | every discovered Pod was listed, has exactly one owner reference, and its UID is empty or that of a listed ReplicaSet |
| `Resources.PodsByDeploymentOnFailure` | internal/utils/resources.go:15-19 | a failed Deployment Get, ReplicaSet listing or Pod listing yields no Pods |
| `Resources.PlaceholdersAddNothing` | internal/utils/resources.go:41-45 | if no listed Pod names the empty UID as sole owner, the placeholders change nothing: discovery equals the concatenation over the listed ReplicaSets |
| `Resources.PlaceholdersRepeatEmptyOwner` | internal/utils/resources.go:41-45 | the n zero-valued ReplicaSets discover, n times over, exactly the Pods whose sole owner UID is empty |
| `Resources.PodsByDeploymentLayout` | internal/utils/resources.go:14-28 | when every fetch succeeds, discovery yields the empty-UID-owned Pods once per listed ReplicaSet, then each listed ReplicaSet's Pods in list order |
| `Resources.PlaceholdersContributeNothing` | internal/utils/resources.go:41 | n zero-valued ReplicaSets discover no Pod when none names the empty UID |
| `ImagePatch.Decimal` | internal/controller/upgrade.go:29 | the rendering of k is a non-empty digit string with no leading zero unless k is 0 |
| `ImagePatch.DecimalRoundTrip` | internal/controller/upgrade.go:29 | reading the rendering of k back as a decimal number gives k |
| `ImagePatch.ImagePathRoundTrip` | internal/controller/upgrade.go:29 | the path written for container k parses back to container index k |
| `ImagePatch.ImagePathInjective` | internal/controller/upgrade.go:26-31 | distinct container indices get distinct paths |
| `ImagePatch.BuildPatchList` | internal/controller/upgrade.go:25-33 | one operation per image, in image order: operation k is `replace` on `/spec/containers/<k>/image` with value image k (so no images give no operations) |
| `ImagePatch.PatchAddressesMissingContainer` | internal/controller/upgrade.go:23-33 | the document does not consult the Pod: with more images than containers, it addresses a container index the Pod lacks |
| `ImagePatch.UpgradePodByImages` | internal/controller/upgrade.go:23-60 | no error iff every step succeeds; otherwise the first failing step's error, unchanged; a patch request carrying the document, for the Pod's namespace and name and of type JSON Patch, is sent iff the encoding steps succeed |
| `Controller.EffectiveCount` | internal/controller/upgrade_controller.go:102-116 | the count is the minimum of the requested count and the number of Pods found |
| `Controller.FirstFailure` | internal/controller/upgrade_controller.go:127-139 | the position of the first failing executor run among the first n, or n when none fails |
| `Controller.CollectImages` | internal/controller/upgrade_controller.go:119-124 | the image list holds each spec image's name, in order |
| `Controller.UpGradeReconciler.constructor` | internal/controller/upgrade_controller.go:62 | the in-memory request starts zero-valued and the logs empty |
| `Controller.UpGradeReconciler.UpdateStatus` | internal/controller/upgrade_controller.go:88-92 | a status update sends the in-memory status and yields the update's outcome |
| `Controller.UpGradeReconciler.Reconcile` | internal/controller/upgrade_controller.go:58-158 | the final in-memory request, the pass's status updates, its executor runs (each with the number of updates before it) and the returned value are those of `Pass` |
| `Controller.UpGradeReconciler.UpgradePods` | internal/controller/upgrade_controller.go:101-124 | after discovery, the pass's effects are those of `UpgradePhase`; the `Spec.UpgradeReplicas` reassignment leaves the spec unchanged |
| `Controller.UpGradeReconciler.PatchPods` | internal/controller/upgrade_controller.go:126-139 | the loop runs the executor on Pods 0, 1, ... in order, every index within the Pod list, and stops at the first failure after storing `Failure` |
| `Controller.UpGradeReconciler.RecordSuccess` | internal/controller/upgrade_controller.go:141-157 | `Successful` is stored, then the upgraded count, stopping at the first failed update |
| `Controller.SuccessfulIsNoOp` | internal/controller/upgrade_controller.go:74-78 | a request already `Successful` gets no status update and no executor run, and no error |
| `Controller.GetFailureIsNoOp` | internal/controller/upgrade_controller.go:64-72 | a failed Get of the request writes and patches nothing; not-found gives no error, any other error is returned |
| `Controller.StatusTypeMirrorsSpec` | internal/controller/upgrade_controller.go:80-84 | every status sent has type `upgrade` when the spec's type is `upgrade`, and the prior status type otherwise |
| `Controller.RunningWrittenFirst` | internal/controller/upgrade_controller.go:86-92 | the first update stores `Running`; if it fails, its error is returned and no Pod is touched; every executor run starts after exactly one status update, so `Running` precedes every run and every later update follows them all |
| `Controller.NoPodsLeavesRunning` | internal/controller/upgrade_controller.go:94-99 | with no Pods discovered, the pass ends without error, with no executor run and `Running` the last status stored |
| `Controller.AttemptsArePrefix` | internal/controller/upgrade_controller.go:113-128 | the executor runs on discovered Pods 0, 1, ... in order, each with the request's image list (the spec images for `upgrade`, none otherwise), never more than min(requested, found) times, so every index is in bounds |
| `Controller.HaltsAtFirstFailure` | internal/controller/upgrade_controller.go:127-139 | all runs but the last succeeded; a failed last run is followed by exactly one more update, `Failure`, and the pass returns that update's outcome without requeue |
| `Controller.RunCount` | internal/controller/upgrade_controller.go:126-139 | once Running is stored and Pods are found, the executor runs exactly up to and including the first failing Pod, or on every selected Pod when none fails |
| `Controller.FullSuccessWritesTwice` | internal/controller/upgrade_controller.go:141-157 | when every selected Pod is upgraded, `Successful` is stored, then (if that succeeded) `UpGradeReplicas` = effective count in a third update whose outcome is returned |
| `Controller.StatusLifecycle` | internal/controller/upgrade_controller.go:86-157 | at most three updates, the first `Running`, each later one `Successful` or `Failure`; `Successful` is sent iff every selected Pod was upgraded, and `Failure` only after a failed executor run |
| `Controller.ZeroReplicasUpgradesNothing` | internal/controller/upgrade_controller.go:101-116 | a requested count of 0 runs the executor on no Pod, and a completed pass records 0 |
| `Controller.DeploymentReplicasIgnored` | internal/controller/upgrade_controller.go:104-111 | the replica count the Deployment reports has no influence on the pass |
| `Controller.NeverRequeues` | internal/controller/upgrade_controller.go:58-158 | no exit of a pass asks for a requeue |
| `Controller.AttemptedPodsAreOwned` | internal/controller/upgrade_controller.go:95-128 | every Pod the executor runs on has exactly one owner reference, whose UID is empty or that of a listed ReplicaSet |

## Left out

- Cluster access: the Gets, Lists, Patch and `Status().Update` calls are inputs and outcome sequences. The cluster is one snapshot for the whole pass, so each Pod listing sees the same answer, and the Get in `GetDeploymentReplicas` sees the same answer as the one in `GetPodsByDeployment`.
- The Deployment name and namespace are not parameters of discovery. The snapshot holds the answers for the referenced Deployment.
- ReplicaSet label-selector matching is done by the API server, so the listed ReplicaSets are taken as given.
- JSON encoding, `jsonpatch.DecodePatch` and the `omitempty` tag: each of the three steps is modelled only as a step that may fail (`ImagePatch.Faults`).
- The API server's application of the patch: the all-or-nothing semantics of section 5 of RFC 6902 and the idempotence of a repeated `replace`.
- Client construction (internal/controller/config.go), `SetupWithManager`, the RBAC markers, logging and `context` propagation.
- Concurrency between reconciles of different requests.
- Fields of the Kubernetes objects that the core never reads.
