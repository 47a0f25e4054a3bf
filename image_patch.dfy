/** The image patch executor: the JSON Patch document that replaces the
    images of a Pod's containers (section 4.3 of RFC 6902, paths being JSON
    Pointers as in RFC 6901), and the chain of fallible steps that sends it
    (internal/controller/upgrade.go). */
module ImagePatch {
  import opened Api

  /** One entry of the patch document (`patchUpgradeOperation`). */
  datatype PatchOperation = PatchOperation(op: string, path: string, value: string)

  /** A patch request as sent to the API server. */
  datatype PatchRequest = PatchRequest(namespace: string, name: string, patchType: string, body: seq<PatchOperation>)

  const Replace := "replace"
  const JsonPatchType := "application/json-patch+json"
  const ContainersPrefix := "/spec/containers/"
  const ImageSuffix := "/image"

  predicate IsDigit(c: char) {
    '0' <= c <= '9'
  }

  predicate AllDigits(s: string) {
    forall i :: 0 <= i < |s| ==> IsDigit(s[i])
  }

  function DigitChar(d: nat): (c: char)
    requires d < 10
  {
    (48 + d) as char
  }

  /** The decimal rendering of `n`, as Go's `%v` verb writes an int. */
  function Decimal(n: nat): (s: string)
    ensures |s| >= 1 && AllDigits(s)
    ensures s[0] == '0' ==> n == 0
  {
    if n < 10 then [DigitChar(n)] else Decimal(n / 10) + [DigitChar(n % 10)]
  }

  /** The number a string of decimal digits denotes. */
  function DigitsValue(s: string): nat
    requires AllDigits(s)
  {
    if s == [] then 0
    else
      var init := s[..|s| - 1];
      assert AllDigits(init) by {
        forall i | 0 <= i < |init| ensures IsDigit(init[i]) {
          assert init[i] == s[i];
        }
      }
      DigitsValue(init) * 10 + (s[|s| - 1] as int - '0' as int)
  }

  /** Reading back the decimal rendering of `n` gives `n`. */
  lemma {:induction false} DecimalRoundTrip(n: nat)
    ensures DigitsValue(Decimal(n)) == n
  {
    if n >= 10 {
      DecimalRoundTrip(n / 10);
      var s := Decimal(n);
      assert s[..|s| - 1] == Decimal(n / 10);
    }
  }

  /** The JSON Pointer to the image of container `k`. */
  function ImagePath(k: nat): string {
    ContainersPrefix + Decimal(k) + ImageSuffix
  }

  /** The container index a path of the form `/spec/containers/<k>/image`
      names, or None for any other string. */
  function ContainerIndex(path: string): Option<nat>
  {
    var p, q := |ContainersPrefix|, |ImageSuffix|;
    if |path| > p + q && path[..p] == ContainersPrefix && path[|path| - q..] == ImageSuffix
       && AllDigits(path[p..|path| - q])
    then Some(DigitsValue(path[p..|path| - q]))
    else None
  }

  /** The path written for container `k` names container `k`. */
  lemma ImagePathRoundTrip(k: nat)
    ensures ContainerIndex(ImagePath(k)) == Some(k)
  {
    var path, d := ImagePath(k), Decimal(k);
    var p, q := |ContainersPrefix|, |ImageSuffix|;
    assert path[..p] == ContainersPrefix;
    assert path[|path| - q..] == ImageSuffix;
    assert path[p..|path| - q] == d;
    DecimalRoundTrip(k);
  }

  /** Distinct containers get distinct paths. */
  lemma ImagePathInjective(j: nat, k: nat)
    requires ImagePath(j) == ImagePath(k)
    ensures j == k
  {
    ImagePathRoundTrip(j);
    ImagePathRoundTrip(k);
  }

  /** The operation that replaces the image of container `k` by `image`. */
  function ReplaceImage(k: nat, image: string): PatchOperation {
    PatchOperation(Replace, ImagePath(k), image)
  }

  /** The patch document for `images`: image k goes to container k. */
  function PatchList(images: seq<string>): seq<PatchOperation> {
    seq(|images|, k requires 0 <= k < |images| => ReplaceImage(k, images[k]))
  }

  /** Builds the patch document, one `replace` per image, in image order. */
  method BuildPatchList(images: seq<string>) returns (patchList: seq<PatchOperation>)
    ensures |patchList| == |images|
    ensures forall k :: 0 <= k < |images| ==>
      patchList[k].op == Replace && patchList[k].path == ImagePath(k) && patchList[k].value == images[k]
  {
    patchList := [];
    for k := 0 to |images|
      invariant |patchList| == k
      invariant forall j :: 0 <= j < k ==> patchList[j] == ReplaceImage(j, images[j])
    {
      var p := PatchOperation(Replace, ImagePath(k), images[k]);
      patchList := patchList + [p];
    }
  }

  /** The document never looks at the Pod: with more images than the Pod has
      containers, it addresses a container the Pod does not have. */
  lemma PatchAddressesMissingContainer(pod: Pod, images: seq<string>)
    requires |images| > |pod.containers|
    ensures exists k :: 0 <= k < |PatchList(images)| && ContainerIndex(PatchList(images)[k].path) == Some(|pod.containers|)
  {
    var k := |pod.containers|;
    ImagePathRoundTrip(k);
    assert ContainerIndex(PatchList(images)[k].path) == Some(k);
  }

  /** Outcomes of the four fallible steps of one executor run: encoding the
      document, decoding it as a JSON Patch, encoding that again, and the
      patch call. `None` means the step succeeds. */
  datatype Faults = Faults(
    marshal: Option<Error>,
    decode: Option<Error>,
    remarshal: Option<Error>,
    patch: Option<Error>)

  const NoFaults := Faults(None, None, None, None)

  /** Every step succeeds. */
  predicate Succeeds(f: Faults) {
    f.marshal.None? && f.decode.None? && f.remarshal.None? && f.patch.None?
  }

  /** Replaces the images of `pod`'s containers by `images`. The first step
      that fails ends the run and its error is returned as is; `sent` is the
      patch request, if the run got as far as sending one. */
  method UpgradePodByImages(pod: Pod, images: seq<string>, f: Faults)
    returns (err: Option<Error>, sent: Option<PatchRequest>)
    ensures err.None? <==> Succeeds(f)
    ensures f.marshal.Some? ==> err == f.marshal
    ensures f.marshal.None? && f.decode.Some? ==> err == f.decode
    ensures f.marshal.None? && f.decode.None? && f.remarshal.Some? ==> err == f.remarshal
    ensures f.marshal.None? && f.decode.None? && f.remarshal.None? ==> err == f.patch
    ensures sent.Some? <==> f.marshal.None? && f.decode.None? && f.remarshal.None?
    ensures sent.Some? ==> sent.value == PatchRequest(pod.namespace, pod.name, JsonPatchType, PatchList(images))
  {
    var patchList := BuildPatchList(images);
    if f.marshal.Some? {
      return f.marshal, None;
    }
    if f.decode.Some? {
      return f.decode, None;
    }
    if f.remarshal.Some? {
      return f.remarshal, None;
    }
    assert patchList == PatchList(images);
    sent := Some(PatchRequest(pod.namespace, pod.name, JsonPatchType, patchList));
    if f.patch.Some? {
      return f.patch, sent;
    }
    return None, sent;
  }
}
