/** The earlier Kubernetes generator (the top-level copy): one pass over the
    selected pod instances, each read through an `elif` chain over its data
    properties and through the volume individuals it `binds`, giving one
    Deployment per pod with a deployment name, then a Namespace document and a
    PersistentVolume per distinct volume name. */
module KubeEarlier {
  import opened Wrappers
  import opened Text
  import opened OrderedMaps
  import opened Ontology
  import opened Selection
  import opened Manifests

  /** `find_kubernetes_instances`: "Pod" in the name or in a class name. */
  method FindKubernetesInstances(all: seq<Instance>) returns (containerList: seq<Instance>)
    ensures containerList == Select(all, NameOrClass("Pod"))
  {
    containerList := FindByKeyword(all, "Pod");
  }

  // ---------------------------------------------------------------
  // The property loop
  // ---------------------------------------------------------------

  /** The local variables the property loop sets for one instance, and the
      namespaces it adds to `resources["namespaces"]`. */
  datatype PodFields = PodFields(
    deploymentName: Option<string>,
    name: Option<string>,
    image: Option<string>,
    namespace: string,
    replicas: int,
    env: Env,
    namespaces: set<string>)

  const NO_FIELDS := PodFields(None, None, None, DEFAULT_NAMESPACE, 1, [], {})

  /** One branch of the `elif` chain, for property `p` with first value `v`.
      A replica count `int()` rejects becomes 1. */
  function ScanStep(f: PodFields, p: string, v: string): PodFields {
    if p == "deployment_name" then f.(deploymentName := Some(v))
    else if p == "container_name" then f.(name := Some(v))
    else if p == "related_image" then f.(image := Some(v))
    else if p == "related_namespace" then f.(namespace := v, namespaces := f.namespaces + {v})
    else if p == "replicas" then f.(replicas := ParseInt(v).GetOr(1))
    else if StartsWith(p, ENV_PREFIX) then f.(env := f.env + [(EnvKey(p), v)])
    else f
  }

  /** The chain applied to the (property, first value) pairs in order. */
  function ScanData(data: seq<(string, string)>): PodFields {
    if data == [] then NO_FIELDS
    else
      var last := data[|data| - 1];
      ScanStep(ScanData(data[..|data| - 1]), last.0, last.1)
  }

  method ScanProperties(inst: Instance, props: seq<string>) returns (fields: PodFields)
    ensures fields == ScanData(FirstValues(inst, props))
  {
    var deploymentName: Option<string> := None;
    var name: Option<string> := None;
    var image: Option<string> := None;
    var namespace := DEFAULT_NAMESPACE;
    var replicas := 1;
    var envVars: Env := [];
    var namespaces: set<string> := {};
    for i := 0 to |props|
      invariant PodFields(deploymentName, name, image, namespace, replicas, envVars, namespaces)
             == ScanData(FirstValues(inst, props[..i]))
    {
      var propName := props[i];
      assert props[..i + 1][..i] == props[..i];
      var values := Values(inst, propName);
      if values == [] {
        assert FirstValues(inst, props[..i + 1]) == FirstValues(inst, props[..i]);
        continue;
      }
      ghost var data := FirstValues(inst, props[..i]);
      assert FirstValues(inst, props[..i + 1]) == data + [(propName, values[0])];
      assert (data + [(propName, values[0])])[..|data|] == data;
      ghost var prior := PodFields(deploymentName, name, image, namespace, replicas, envVars, namespaces);
      if propName == "deployment_name" {
        deploymentName := Some(values[0]);
      } else if propName == "container_name" {
        name := Some(values[0]);
      } else if propName == "related_image" {
        image := Some(values[0]);
      } else if propName == "related_namespace" {
        namespace := values[0];
        namespaces := namespaces + {namespace};
      } else if propName == "replicas" {
        var parsed := ParseInt(values[0]);
        if parsed.Some? {
          replicas := parsed.value;
        } else {
          replicas := 1;
        }
      } else if StartsWith(propName, ENV_PREFIX) {
        envVars := envVars + [(EnvKey(propName), values[0])];
      }
      assert PodFields(deploymentName, name, image, namespace, replicas, envVars, namespaces)
          == ScanStep(prior, propName, values[0]);
    }
    assert props[..|props|] == props;
    fields := PodFields(deploymentName, name, image, namespace, replicas, envVars, namespaces);
  }

  /** Read declaratively: with each property once, the chain takes each
      field from the first value of its property, falls back to "default"
      and 1, keeps every `env_` entry in order without de-duplication, and
      adds the asserted namespace, if any. */
  lemma ScanFields(data: seq<(string, string)>)
    requires Distinct(Keys(data))
    ensures ScanData(data).deploymentName == Get(data, "deployment_name")
    ensures ScanData(data).name == Get(data, "container_name")
    ensures ScanData(data).image == Get(data, "related_image")
    ensures ScanData(data).namespace == Get(data, "related_namespace").GetOr(DEFAULT_NAMESPACE)
    ensures ScanData(data).namespaces == if Get(data, "related_namespace").Some? then {Get(data, "related_namespace").value} else {}
    ensures ScanData(data).replicas == if Get(data, "replicas").Some? then ParseInt(Get(data, "replicas").value).GetOr(1) else 1
    ensures ScanData(data).env == EnvPairs(data)
  {
    ScanContainerFields(data);
    ScanNamespace(data);
    ScanReplicas(data);
    ScanEnv(data);
  }

  /** In a dictionary with distinct keys, the last entry is the only one
      with its key. */
  lemma GetDistinctLast(data: seq<(string, string)>, k: string)
    requires data != [] && Distinct(Keys(data))
    ensures Distinct(Keys(data[..|data| - 1]))
    ensures Get(data, k) == if k == data[|data| - 1].0 then Some(data[|data| - 1].1) else Get(data[..|data| - 1], k)
    ensures k == data[|data| - 1].0 ==> Get(data[..|data| - 1], k).None?
  {
    var n := |data| - 1;
    var init, last := data[..n], data[n];
    assert Keys(init) == Keys(data)[..n];
    assert last.0 !in Keys(init) by {
      assert Keys(data)[n] == last.0;
    }
    assert data == init + [last];
    GetAppend(init, last, k);
    GetIffKey(init, k);
  }

  lemma {:induction false} ScanContainerFields(data: seq<(string, string)>)
    requires Distinct(Keys(data))
    ensures ScanData(data).deploymentName == Get(data, "deployment_name")
    ensures ScanData(data).name == Get(data, "container_name")
    ensures ScanData(data).image == Get(data, "related_image")
  {
    if data != [] {
      GetDistinctLast(data, "deployment_name");
      GetDistinctLast(data, "container_name");
      GetDistinctLast(data, "related_image");
      ScanContainerFields(data[..|data| - 1]);
    }
  }

  lemma {:induction false} ScanNamespace(data: seq<(string, string)>)
    requires Distinct(Keys(data))
    ensures ScanData(data).namespace == Get(data, "related_namespace").GetOr(DEFAULT_NAMESPACE)
    ensures ScanData(data).namespaces == if Get(data, "related_namespace").Some? then {Get(data, "related_namespace").value} else {}
  {
    if data != [] {
      GetDistinctLast(data, "related_namespace");
      ScanNamespace(data[..|data| - 1]);
    }
  }

  lemma {:induction false} ScanReplicas(data: seq<(string, string)>)
    requires Distinct(Keys(data))
    ensures ScanData(data).replicas == if Get(data, "replicas").Some? then ParseInt(Get(data, "replicas").value).GetOr(1) else 1
  {
    if data != [] {
      GetDistinctLast(data, "replicas");
      ScanReplicas(data[..|data| - 1]);
    }
  }

  /** The `env_` branch is the last of the chain, but no earlier branch's
      property name starts with "env_". */
  lemma {:induction false} ScanEnv(data: seq<(string, string)>)
    ensures ScanData(data).env == EnvPairs(data)
  {
    if data != [] {
      ScanEnv(data[..|data| - 1]);
      NotStartsWith("deployment_name", ENV_PREFIX);
      NotStartsWith("container_name", ENV_PREFIX);
      NotStartsWith("related_image", ENV_PREFIX);
      NotStartsWith("related_namespace", ENV_PREFIX);
      NotStartsWith("replicas", ENV_PREFIX);
    }
  }

  // ---------------------------------------------------------------
  // The binding loop
  // ---------------------------------------------------------------

  /** A bound volume the loop accepts: its name, host path and storage and
      the mount path at its own position in `volume_mount_path`. */
  datatype Binding = Binding(name: string, hostPath: string, mountPath: string, storage: string)

  /** A PersistentVolume entry of `resources["volumes"]`. */
  datatype VolumeInfo = VolumeInfo(hostPath: string, storage: string)

  /** The `i`-th bound volume is accepted when it has a volume name and a
      host path and there is an `i`-th mount path. */
  function BindingOf(vol: Instance, i: nat, mountPaths: seq<string>): (b: Option<Binding>)
    ensures b.Some? ==> i < |mountPaths| && b.value.mountPath == mountPaths[i]
  {
    var names := Values(vol, "volume_name");
    var hostPaths := Values(vol, "volume_host_path");
    var storage := Values(vol, "reserved_storage");
    if names != [] && hostPaths != [] && i < |mountPaths| then
      Some(Binding(names[0], hostPaths[0], mountPaths[i], if storage != [] then storage[0] else DEFAULT_STORAGE))
    else None
  }

  /** The accepted bindings, in `binds` order. */
  function Bindings(binds: seq<Instance>, mountPaths: seq<string>): seq<Binding> {
    if binds == [] then []
    else
      var n := |binds| - 1;
      Bindings(binds[..n], mountPaths) + BindingOf(binds[n], n, mountPaths).ToSeq()
  }

  /** The accepted bindings are exactly the accepted positions of `binds`,
      in order, each paired with the mount path at that same position (not
      at its rank among the accepted ones). */
  lemma {:induction false} BindingPositions(binds: seq<Instance>, mountPaths: seq<string>) returns (idx: seq<nat>)
    ensures |idx| == |Bindings(binds, mountPaths)|
    ensures forall j :: 0 <= j < |idx| ==>
      && idx[j] < |binds| && idx[j] < |mountPaths|
      && Some(Bindings(binds, mountPaths)[j]) == BindingOf(binds[idx[j]], idx[j], mountPaths)
      && Bindings(binds, mountPaths)[j].mountPath == mountPaths[idx[j]]
    ensures forall j, k :: 0 <= j < k < |idx| ==> idx[j] < idx[k]
    ensures forall i :: 0 <= i < |binds| ==> (i in idx <==> BindingOf(binds[i], i, mountPaths).Some?)
  {
    if binds == [] {
      idx := [];
    } else {
      var n := |binds| - 1;
      idx := BindingPositions(binds[..n], mountPaths);
      assert forall i :: 0 <= i < n ==> binds[..n][i] == binds[i];
      var b := BindingOf(binds[n], n, mountPaths);
      if b.Some? {
        assert Bindings(binds, mountPaths) == Bindings(binds[..n], mountPaths) + [b.value];
        idx := idx + [n];
      } else {
        assert Bindings(binds, mountPaths) == Bindings(binds[..n], mountPaths);
      }
    }
  }

  function MountsOf(bs: seq<Binding>): (mounts: seq<VolumeMount>)
    ensures |mounts| == |bs|
  {
    seq(|bs|, i requires 0 <= i < |bs| => VolumeMount(bs[i].name, bs[i].mountPath))
  }

  function HostVolumesOf(bs: seq<Binding>): (volumes: seq<PodVolume>)
    ensures |volumes| == |bs|
  {
    seq(|bs|, i requires 0 <= i < |bs| => HostPathVolume(bs[i].name, bs[i].hostPath))
  }

  function EntriesOf(bs: seq<Binding>): (entries: seq<(string, VolumeInfo)>)
    ensures |entries| == |bs|
  {
    seq(|bs|, i requires 0 <= i < |bs| => (bs[i].name, VolumeInfo(bs[i].hostPath, bs[i].storage)))
  }

  /** `volumeMounts` and the pod's `volumes` have one entry per accepted
      binding each, and the entries at the same position name the same
      volume; the table gets that volume's host path. */
  lemma MountsMatchVolumes(bs: seq<Binding>)
    ensures |MountsOf(bs)| == |HostVolumesOf(bs)| == |EntriesOf(bs)| == |bs|
    ensures forall i :: 0 <= i < |bs| ==>
      && MountsOf(bs)[i].name == HostVolumesOf(bs)[i].name == EntriesOf(bs)[i].0 == bs[i].name
      && MountsOf(bs)[i].mountPath == bs[i].mountPath
      && HostVolumesOf(bs)[i].path == EntriesOf(bs)[i].1.hostPath == bs[i].hostPath
  {
  }

  /** One more accepted binding adds one mount, one pod volume and one
      table entry at the end. */
  lemma BindingAppended(bs: seq<Binding>, b: Binding)
    ensures MountsOf(bs + [b]) == MountsOf(bs) + [VolumeMount(b.name, b.mountPath)]
    ensures HostVolumesOf(bs + [b]) == HostVolumesOf(bs) + [HostPathVolume(b.name, b.hostPath)]
    ensures EntriesOf(bs + [b]) == EntriesOf(bs) + [(b.name, VolumeInfo(b.hostPath, b.storage))]
  {
  }

  /** The binding loop: the mounts, the pod volumes, and the volume table
      with each accepted volume assigned under its name. */
  method BindVolumes(binds: seq<Instance>, mountPaths: seq<string>, volumes: seq<(string, VolumeInfo)>)
    returns (volumeMounts: seq<VolumeMount>, podVolumes: seq<PodVolume>, newVolumes: seq<(string, VolumeInfo)>)
    ensures volumeMounts == MountsOf(Bindings(binds, mountPaths))
    ensures podVolumes == HostVolumesOf(Bindings(binds, mountPaths))
    ensures newVolumes == PutAll(volumes, EntriesOf(Bindings(binds, mountPaths)))
  {
    volumeMounts, podVolumes, newVolumes := [], [], volumes;
    for i := 0 to |binds|
      invariant volumeMounts == MountsOf(Bindings(binds[..i], mountPaths))
      invariant podVolumes == HostVolumesOf(Bindings(binds[..i], mountPaths))
      invariant newVolumes == PutAll(volumes, EntriesOf(Bindings(binds[..i], mountPaths)))
    {
      assert binds[..i + 1][..i] == binds[..i];
      ghost var before := Bindings(binds[..i], mountPaths);
      var volumeInst := binds[i];
      var volName := Values(volumeInst, "volume_name");
      var hostPath := Values(volumeInst, "volume_host_path");
      var storage := Values(volumeInst, "reserved_storage");
      if volName != [] && hostPath != [] && i < |mountPaths| {
        var vname, hpath, mpath := volName[0], hostPath[0], mountPaths[i];
        volumeMounts := volumeMounts + [VolumeMount(vname, mpath)];
        podVolumes := podVolumes + [HostPathVolume(vname, hpath)];
        newVolumes := Put(newVolumes, vname, VolumeInfo(hpath, if storage != [] then storage[0] else DEFAULT_STORAGE));
        ghost var b := BindingOf(volumeInst, i, mountPaths).value;
        assert Bindings(binds[..i + 1], mountPaths) == before + [b];
        BindingAppended(before, b);
      } else {
        assert Bindings(binds[..i + 1], mountPaths) == before;
      }
    }
    assert binds[..|binds|] == binds;
  }

  // ---------------------------------------------------------------
  // One instance, and the whole loop
  // ---------------------------------------------------------------

  /** The Deployment a pod instance yields: only with a non-empty deployment
      name; a single container whose `env` is present only when non-empty;
      labelled with the container name, or the deployment name when that is
      missing or empty. */
  function PodDeployment(inst: Instance, props: seq<string>): Option<Deployment> {
    var f := ScanData(FirstValues(inst, props));
    var bs := Bindings(inst.binds, Values(inst, "volume_mount_path"));
    if Truthy(f.deploymentName) then
      var app := if Truthy(f.name) then f.name.value else f.deploymentName.value;
      var block := ContainerBlock(f.name, f.image, if f.env != [] then Some(f.env) else None, MountsOf(bs));
      Some(Deployment(f.deploymentName.value, f.namespace, f.replicas, app, [block], HostVolumesOf(bs)))
    else None
  }

  /** What the loop has collected: `resources["namespaces"]`,
      `resources["deployments"]` and `resources["volumes"]`. */
  datatype Collection = Collection(
    namespaces: set<string>,
    deployments: seq<Deployment>,
    volumes: seq<(string, VolumeInfo)>)

  function Collect(c: Collection, inst: Instance, props: seq<string>): Collection {
    var f := ScanData(FirstValues(inst, props));
    var bs := Bindings(inst.binds, Values(inst, "volume_mount_path"));
    Collection(c.namespaces + f.namespaces,
               c.deployments + PodDeployment(inst, props).ToSeq(),
               PutAll(c.volumes, EntriesOf(bs)))
  }

  function Collected(insts: seq<Instance>, props: seq<string>): Collection {
    if insts == [] then Collection({}, [], [])
    else Collect(Collected(insts[..|insts| - 1], props), insts[|insts| - 1], props)
  }

  /** One iteration of the instance loop. */
  method CollectInstance(c: Collection, inst: Instance, props: seq<string>) returns (next: Collection)
    ensures next == Collect(c, inst, props)
  {
    var fields := ScanProperties(inst, props);
    var mountPaths := Values(inst, "volume_mount_path");
    var volumeMounts, podVolumes, volumes := BindVolumes(inst.binds, mountPaths, c.volumes);
    var deployments := c.deployments;
    if Truthy(fields.deploymentName) {
      var env: Option<Env> := None;
      if fields.env != [] {
        env := Some(fields.env);
      }
      var block := ContainerBlock(fields.name, fields.image, env, volumeMounts);
      var app := if Truthy(fields.name) then fields.name.value else fields.deploymentName.value;
      deployments := deployments + [Deployment(fields.deploymentName.value, fields.namespace, fields.replicas, app, [block], podVolumes)];
    }
    next := Collection(c.namespaces + fields.namespaces, deployments, volumes);
  }

  /** The instance loop. */
  method CollectAll(containerList: seq<Instance>, props: seq<string>) returns (c: Collection)
    ensures c == Collected(containerList, props)
  {
    c := Collection({}, [], []);
    for i := 0 to |containerList|
      invariant c == Collected(containerList[..i], props)
    {
      assert containerList[..i + 1][..i] == containerList[..i];
      c := CollectInstance(c, containerList[i], props);
    }
    assert containerList[..|containerList|] == containerList;
  }

  // ---------------------------------------------------------------
  // The returned documents
  // ---------------------------------------------------------------

  /** What the generator returns: the Namespace document, the Deployments
      and the PersistentVolumes (no claims in this version). */
  datatype Output = Output(
    namespace: Option<NamespaceDoc>,
    deployments: seq<Deployment>,
    volumes: seq<PersistentVolume>)

  /** A PersistentVolume per entry of the volume table, named after its
      key, without a namespace. */
  function PersistentVolumesOf(volumes: seq<(string, VolumeInfo)>): seq<PersistentVolume> {
    seq(|volumes|, i requires 0 <= i < |volumes| =>
      PersistentVolume(volumes[i].0, None, volumes[i].1.storage, [READ_WRITE_ONCE], Some(volumes[i].1.hostPath)))
  }

  /** `generate_kubernetes_yaml_files` on the selected instances, with the
      data properties of `registry`. */
  ghost function Generated(containerList: seq<Instance>, registry: seq<string>): Output {
    var c := Collected(containerList, DataProperties(registry));
    var chosen := SmallestNonDefaultOf(c.namespaces);
    Output(if chosen.Some? then Some(NamespaceDoc(chosen.value)) else None,
           c.deployments,
           PersistentVolumesOf(c.volumes))
  }

  method BuildPersistentVolumes(volumes: seq<(string, VolumeInfo)>) returns (pvs: seq<PersistentVolume>)
    ensures pvs == PersistentVolumesOf(volumes)
  {
    pvs := [];
    for i := 0 to |volumes|
      invariant |pvs| == i
      invariant forall j :: 0 <= j < i ==> pvs[j] == PersistentVolumesOf(volumes)[j]
    {
      var (vname, vinfo) := volumes[i];
      pvs := pvs + [PersistentVolume(vname, None, vinfo.storage, [READ_WRITE_ONCE], Some(vinfo.hostPath))];
    }
  }

  /** `generate_kubernetes_yaml_files`. */
  method GenerateKubernetesYamlFiles(containerList: seq<Instance>, registry: seq<string>) returns (out: Output)
    ensures out == Generated(containerList, registry)
  {
    var props := DataProperties(registry);
    var c := CollectAll(containerList, props);
    var chosen := SmallestNonDefault(c.namespaces);
    var namespaceDoc: Option<NamespaceDoc> := None;
    if chosen.Some? {
      namespaceDoc := Some(NamespaceDoc(chosen.value));
    }
    var pvs := BuildPersistentVolumes(c.volumes);
    out := Output(namespaceDoc, c.deployments, pvs);
  }

  // ---------------------------------------------------------------
  // Properties
  // ---------------------------------------------------------------

  /** The Deployment of one pod, field by field from its data: present iff
      the deployment name is non-empty; namespace and replicas from their
      properties or "default" and 1; one container with the container name
      and image when given, its `env_` entries in order (none: no `env`
      key) and its accepted bindings as mounts; pod volumes are host paths. */
  lemma PodDeploymentFields(inst: Instance, props: seq<string>)
    requires Distinct(props)
    ensures var data := FirstValues(inst, props);
      var bs := Bindings(inst.binds, Values(inst, "volume_mount_path"));
      var d := PodDeployment(inst, props);
      && (d.Some? <==> Truthy(Get(data, "deployment_name")))
      && (d.Some? ==>
           && d.value.name == Get(data, "deployment_name").value
           && d.value.namespace == Get(data, "related_namespace").GetOr(DEFAULT_NAMESPACE)
           && d.value.replicas == (if Get(data, "replicas").Some? then ParseInt(Get(data, "replicas").value).GetOr(1) else 1)
           && d.value.app == (if Truthy(Get(data, "container_name")) then Get(data, "container_name").value
                              else Get(data, "deployment_name").value)
           && d.value.containers == [ContainerBlock(Get(data, "container_name"), Get(data, "related_image"),
                                                    if EnvPairs(data) != [] then Some(EnvPairs(data)) else None,
                                                    MountsOf(bs))]
           && d.value.volumes == HostVolumesOf(bs)
           && |d.value.containers[0].volumeMounts| == |d.value.volumes|
           && forall i :: 0 <= i < |d.value.volumes| ==>
                d.value.containers[0].volumeMounts[i].name == d.value.volumes[i].name)
  {
    FirstValuesDistinct(inst, props);
    ScanFields(FirstValues(inst, props));
    MountsMatchVolumes(Bindings(inst.binds, Values(inst, "volume_mount_path")));
  }

  /** The Deployment each pod yields, if any, in input order. */
  function PodDeployments(insts: seq<Instance>, props: seq<string>): seq<Option<Deployment>> {
    seq(|insts|, i requires 0 <= i < |insts| => PodDeployment(insts[i], props))
  }

  lemma {:induction false} CollectedDeploymentsSomes(insts: seq<Instance>, props: seq<string>)
    ensures Collected(insts, props).deployments == Somes(PodDeployments(insts, props))
  {
    if insts != [] {
      var n := |insts| - 1;
      CollectedDeploymentsSomes(insts[..n], props);
      assert PodDeployments(insts, props)[..n] == PodDeployments(insts[..n], props);
      DeploymentsGrow(insts, props);
    }
  }

  /** The Deployments are those of the pods with a deployment name, one per
      pod, in input order: two pods naming the same deployment give two
      Deployments. `idx` maps each to its pod. */
  lemma CollectedDeployments(insts: seq<Instance>, props: seq<string>) returns (idx: seq<nat>)
    ensures |idx| == |Collected(insts, props).deployments|
    ensures forall j :: 0 <= j < |idx| ==>
      idx[j] < |insts| && Some(Collected(insts, props).deployments[j]) == PodDeployment(insts[idx[j]], props)
    ensures forall j, k :: 0 <= j < k < |idx| ==> idx[j] < idx[k]
    ensures forall i :: 0 <= i < |insts| ==> (i in idx <==> PodDeployment(insts[i], props).Some?)
  {
    CollectedDeploymentsSomes(insts, props);
    idx := SomesPositions(PodDeployments(insts, props));
  }

  lemma DeploymentsGrow(insts: seq<Instance>, props: seq<string>)
    requires insts != []
    ensures Collected(insts, props).deployments
         == Collected(insts[..|insts| - 1], props).deployments + PodDeployment(insts[|insts| - 1], props).ToSeq()
  {
  }

  /** The volume-table assignments of every accepted binding, in order. */
  function AllEntries(insts: seq<Instance>, props: seq<string>): seq<(string, VolumeInfo)> {
    if insts == [] then []
    else
      var last := insts[|insts| - 1];
      AllEntries(insts[..|insts| - 1], props) + EntriesOf(Bindings(last.binds, Values(last, "volume_mount_path")))
  }

  lemma {:induction false} PutAllAppend<K, V>(m: seq<(K, V)>, xs: seq<(K, V)>, ys: seq<(K, V)>)
    ensures PutAll(m, xs + ys) == PutAll(PutAll(m, xs), ys)
  {
    if ys != [] {
      var n := |ys| - 1;
      assert (xs + ys)[..|xs| + n] == xs + ys[..n];
      PutAllAppend(m, xs, ys[..n]);
    } else {
      assert xs + ys == xs;
    }
  }

  /** `resources["volumes"]`, hence the PersistentVolumes: one per distinct
      volume name in order of first binding, with the host path and storage
      of the last binding of that name. */
  lemma {:induction false} CollectedVolumes(insts: seq<Instance>, props: seq<string>)
    ensures Collected(insts, props).volumes == PutAll([], AllEntries(insts, props))
    ensures Keys(Collected(insts, props).volumes) == Dedup(Keys(AllEntries(insts, props)))
    ensures Distinct(Keys(Collected(insts, props).volumes))
    ensures forall k :: Get(Collected(insts, props).volumes, k) == LastValue(AllEntries(insts, props), k)
  {
    if insts != [] {
      var n := |insts| - 1;
      CollectedVolumes(insts[..n], props);
      var last := insts[n];
      PutAllAppend([], AllEntries(insts[..n], props), EntriesOf(Bindings(last.binds, Values(last, "volume_mount_path"))));
    }
    DictFromPairs(AllEntries(insts, props));
  }

  /** The PersistentVolumes of a table built from `entries`: one per key,
      named after it, so their names are distinct and are exactly the keys
      of `entries`; each has no namespace and the host path and storage of
      the last entry of its name. */
  lemma PersistentVolumesOfEntries(entries: seq<(string, VolumeInfo)>)
    ensures var table := PutAll([], entries);
      var pvs := PersistentVolumesOf(table);
      && |pvs| == |table|
      && (forall i :: 0 <= i < |pvs| ==>
            && pvs[i].name == Keys(table)[i]
            && pvs[i].namespace == None
            && LastValue(entries, pvs[i].name) == Some(VolumeInfo(pvs[i].hostPath.value, pvs[i].storage)))
      && (forall i, j :: 0 <= i < j < |pvs| ==> pvs[i].name != pvs[j].name)
      && (forall k :: k in Keys(entries) <==> exists i :: 0 <= i < |pvs| && pvs[i].name == k)
  {
    var table := PutAll([], entries);
    var pvs := PersistentVolumesOf(table);
    DictFromPairs(entries);
    forall i | 0 <= i < |pvs|
      ensures LastValue(entries, pvs[i].name) == Some(VolumeInfo(pvs[i].hostPath.value, pvs[i].storage))
    {
      GetDistinct(table, i);
    }
    forall k | k in Keys(entries)
      ensures exists i :: 0 <= i < |pvs| && pvs[i].name == k
    {
      var i :| 0 <= i < |table| && Keys(table)[i] == k;
      assert pvs[i].name == k;
    }
  }

  /** The generator's PersistentVolumes: one per distinct volume name of the
      accepted bindings of all pods, as `PersistentVolumesOfEntries` states. */
  lemma GeneratedPersistentVolumes(insts: seq<Instance>, registry: seq<string>)
    ensures var props := DataProperties(registry);
      var pvs := Generated(insts, registry).volumes;
      && (forall i, j :: 0 <= i < j < |pvs| ==> pvs[i].name != pvs[j].name)
      && (forall k :: k in Keys(AllEntries(insts, props)) <==> exists i :: 0 <= i < |pvs| && pvs[i].name == k)
      && (forall i :: 0 <= i < |pvs| ==>
            LastValue(AllEntries(insts, props), pvs[i].name) == Some(VolumeInfo(pvs[i].hostPath.value, pvs[i].storage)))
  {
    var props := DataProperties(registry);
    CollectedVolumes(insts, props);
    PersistentVolumesOfEntries(AllEntries(insts, props));
  }

  /** The instance's first `related_namespace` value is `ns`. */
  predicate AssertsNamespace(inst: Instance, props: seq<string>, ns: string) {
    Get(FirstValues(inst, props), "related_namespace") == Some(ns)
  }

  /** The namespaces one instance adds. */
  function InstanceNamespaces(inst: Instance, props: seq<string>): set<string> {
    ScanData(FirstValues(inst, props)).namespaces
  }

  /** With each property once, an instance adds exactly the namespace it
      asserts. */
  lemma InstanceNamespacesAsserted(inst: Instance, props: seq<string>, ns: string)
    requires Distinct(props)
    ensures ns in InstanceNamespaces(inst, props) <==> AssertsNamespace(inst, props, ns)
  {
    FirstValuesDistinct(inst, props);
    ScanNamespace(FirstValues(inst, props));
  }

  /** The namespaces part of the collection. */
  function NamespacesFold(insts: seq<Instance>, props: seq<string>): set<string> {
    if insts == [] then {}
    else NamespacesFold(insts[..|insts| - 1], props) + InstanceNamespaces(insts[|insts| - 1], props)
  }

  lemma {:induction false} NamespacesFoldCollected(insts: seq<Instance>, props: seq<string>)
    ensures Collected(insts, props).namespaces == NamespacesFold(insts, props)
  {
    if insts != [] {
      NamespacesFoldCollected(insts[..|insts| - 1], props);
    }
  }

  lemma {:induction false} NamespacesFoldMember(insts: seq<Instance>, props: seq<string>, ns: string)
    ensures ns in NamespacesFold(insts, props)
        <==> exists i :: 0 <= i < |insts| && ns in InstanceNamespaces(insts[i], props)
  {
    if insts != [] {
      var n := |insts| - 1;
      var init := insts[..n];
      NamespacesFoldMember(init, props, ns);
      if i :| 0 <= i < n && ns in InstanceNamespaces(init[i], props) {
        assert init[i] == insts[i];
      }
      if i :| 0 <= i < |insts| && ns in InstanceNamespaces(insts[i], props) {
        if i < n {
          assert init[i] == insts[i];
        }
      }
    }
  }

  /** `resources["namespaces"]` holds exactly the namespaces the selected
      instances assert, whether or not they name a deployment. */
  lemma CollectedNamespaces(insts: seq<Instance>, props: seq<string>, ns: string)
    requires Distinct(props)
    ensures ns in Collected(insts, props).namespaces
        <==> exists i :: 0 <= i < |insts| && AssertsNamespace(insts[i], props, ns)
  {
    NamespacesFoldCollected(insts, props);
    NamespacesFoldMember(insts, props, ns);
    forall i | 0 <= i < |insts| {
      InstanceNamespacesAsserted(insts[i], props, ns);
    }
  }


}
