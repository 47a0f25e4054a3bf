/** Values exchanged with the cluster API: the UpGrade custom resource, the
    Deployment, ReplicaSet and Pod objects the controller reads, and the
    error values the API client hands back. */
module Api {

  /** A value that may be absent; `Option<Error>` stands for a Go `error`
      that is either nil (`None`) or not. */
  datatype Option<+T> = None | Some(value: T)

  /** The answer to one API call: the object(s) asked for, or an error. */
  datatype Result<+T> = Ok(value: T) | Err(error: Error)

  /** Errors returned by the API client. `NotFound` is the one kind the
      controller tells apart (through `client.IgnoreNotFound`). */
  datatype Error = NotFound | ApiError(reason: string)

  /** Kubernetes declares replica counts as 32-bit integers. */
  newtype int32 = x: int | -0x8000_0000 <= x < 0x8000_0000

  datatype OwnerReference = OwnerReference(kind: string, name: string, uid: string)

  datatype Container = Container(name: string, image: string)

  datatype Pod = Pod(
    name: string,
    namespace: string,
    ownerReferences: seq<OwnerReference>,
    containers: seq<Container>)

  datatype ReplicaSet = ReplicaSet(name: string, namespace: string, uid: string)

  /** The zero value of a Go `appsv1.ReplicaSet`: every field empty. */
  const ZeroReplicaSet := ReplicaSet("", "", "")

  datatype Deployment = Deployment(name: string, namespace: string, statusReplicas: int32)

  datatype DeploymentRef = DeploymentRef(name: string, namespace: string)

  datatype ImageSpec = ImageSpec(image: string)

  /** The desired state of an UpGrade request. `kind` is the Go field `Type`. */
  datatype UpGradeSpec = UpGradeSpec(
    kind: string,
    deploymentRef: DeploymentRef,
    upgradeReplicas: int,
    images: seq<ImageSpec>)

  /** The observed state of an UpGrade request. `kind` is the Go field `Type`. */
  datatype UpGradeStatus = UpGradeStatus(kind: string, status: string, upGradeReplicas: int)

  datatype UpGrade = UpGrade(spec: UpGradeSpec, status: UpGradeStatus)

  /** Zero values, as a freshly allocated Go object holds them. */
  const ZeroSpec := UpGradeSpec("", DeploymentRef("", ""), 0, [])
  const ZeroStatus := UpGradeStatus("", "", 0)
}
