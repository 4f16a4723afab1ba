/** The Kubernetes documents both generators emit, and the choice of the one
    Namespace document. Each document kind is its own datatype, so its fixed
    `apiVersion` and `kind` are implied by the constructor. */
module Manifests {
  import opened Wrappers
  import opened Text

  const DEFAULT_NAMESPACE := "default"
  const DEFAULT_STORAGE := "1Gi"
  const READ_WRITE_ONCE := "ReadWriteOnce"
  /** A claim is named after its volume with this suffix. */
  const CLAIM_SUFFIX := "c"

  /** The `env` list of a container: `{"name": k, "value": v}` entries. */
  type Env = seq<(string, string)>

  datatype VolumeMount = VolumeMount(name: string, mountPath: string)

  /** An entry of a pod template's `volumes`. */
  datatype PodVolume =
    | ClaimVolume(name: string, claimName: string)
    | HostPathVolume(name: string, path: string)

  /** A container of a pod template. `None` stands for a key the container
      dictionary does not have; an empty `volumeMounts` for the absent key. */
  datatype ContainerBlock = ContainerBlock(
    name: Option<string>,
    image: Option<string>,
    env: Option<Env>,
    volumeMounts: seq<VolumeMount>)

  /** An apps/v1 Deployment. `app` is both the selector's `matchLabels.app`
      and the template's `labels.app`; an empty `volumes` stands for the
      absent key. */
  datatype Deployment = Deployment(
    name: string,
    namespace: string,
    replicas: int,
    app: string,
    containers: seq<ContainerBlock>,
    volumes: seq<PodVolume>)

  datatype NamespaceDoc = NamespaceDoc(name: string)

  datatype PersistentVolume = PersistentVolume(
    name: string,
    namespace: Option<string>,
    storage: string,
    accessModes: seq<string>,
    hostPath: Option<string>)

  datatype PersistentVolumeClaim = PersistentVolumeClaim(
    name: string,
    namespace: string,
    accessModes: seq<string>,
    storage: string,
    storageClassName: string)

  /** `n.lower() == "default"`. */
  predicate IsDefaultNamespace(n: string) {
    ToLower(n) == DEFAULT_NAMESPACE
  }

  /** `n` is the first element of `sorted(n for n in namespaces if
      n.lower() != "default")`. */
  predicate IsSmallestNonDefault(namespaces: set<string>, n: string) {
    && n in namespaces
    && !IsDefaultNamespace(n)
    && forall m :: m in namespaces && !IsDefaultNamespace(m) ==> LexLe(n, m)
  }

  /** Any set with a non-default namespace has a smallest one. */
  lemma {:induction false} SmallestExists(namespaces: set<string>, x: string)
    requires x in namespaces && !IsDefaultNamespace(x)
    ensures exists n :: IsSmallestNonDefault(namespaces, n)
    decreases namespaces
  {
    var rest := namespaces - {x};
    if y :| y in rest && !IsDefaultNamespace(y) {
      SmallestExists(rest, y);
      var m :| IsSmallestNonDefault(rest, m);
      LexLeTotal(m, x);
      if LexLe(m, x) {
        assert IsSmallestNonDefault(namespaces, m);
      } else {
        forall z | z in namespaces && !IsDefaultNamespace(z)
          ensures LexLe(x, z)
        {
          if z != x {
            LexLeTransitive(x, m, z);
          } else {
            LexLeTotal(x, x);
          }
        }
        assert IsSmallestNonDefault(namespaces, x);
      }
    } else {
      LexLeTotal(x, x);
      assert IsSmallestNonDefault(namespaces, x);
    }
  }

  /** The namespace the Namespace document names, if any. */
  ghost function SmallestNonDefaultOf(namespaces: set<string>): (r: Option<string>)
    ensures r.None? <==> forall n :: n in namespaces ==> IsDefaultNamespace(n)
    ensures r.Some? ==> IsSmallestNonDefault(namespaces, r.value)
  {
    if forall n :: n in namespaces ==> IsDefaultNamespace(n) then None
    else
      var x :| x in namespaces && !IsDefaultNamespace(x);
      SmallestExists(namespaces, x);
      var m :| IsSmallestNonDefault(namespaces, m);
      Some(m)
  }

  /** The choice is determined by the set: two smallest non-default
      namespaces are the same string. */
  lemma SmallestIsUnique(namespaces: set<string>, a: string, b: string)
    requires IsSmallestNonDefault(namespaces, a) && IsSmallestNonDefault(namespaces, b)
    ensures a == b
  {
    LexLeAntisymmetric(a, b);
  }

  /** `sorted(n for n in namespaces if n.lower() != "default")`, then its
      first element or `None` when the list is empty: a scan that keeps the
      smallest non-default namespace seen so far. */
  method SmallestNonDefault(namespaces: set<string>) returns (first: Option<string>)
    ensures first.None? <==> forall n :: n in namespaces ==> IsDefaultNamespace(n)
    ensures first.Some? ==> IsSmallestNonDefault(namespaces, first.value)
    ensures first == SmallestNonDefaultOf(namespaces)
  {
    first := None;
    var rest := namespaces;
    while rest != {}
      invariant rest <= namespaces
      invariant first.None? ==> forall n :: n in namespaces - rest ==> IsDefaultNamespace(n)
      invariant first.Some? ==> first.value in namespaces && !IsDefaultNamespace(first.value)
      invariant first.Some? ==> forall n :: n in namespaces - rest && !IsDefaultNamespace(n) ==> LexLe(first.value, n)
      decreases rest
    {
      var n :| n in rest;
      if !IsDefaultNamespace(n) {
        LexLeTotal(n, n);
        if first.None? {
          first := Some(n);
        } else if !LexLe(first.value, n) {
          LexLeTotal(first.value, n);
          forall m | m in namespaces - rest && !IsDefaultNamespace(m)
            ensures LexLe(n, m)
          {
            LexLeTransitive(n, first.value, m);
          }
          first := Some(n);
        }
      }
      rest := rest - {n};
    }
    if first.Some? {
      SmallestIsUnique(namespaces, first.value, SmallestNonDefaultOf(namespaces).value);
    }
  }
}
