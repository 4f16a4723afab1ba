/** The current Kubernetes generator (the `ontology_python_tools` copy):
    selection of pod and volume individuals, then a first pass that gathers
    a volume table and per-deployment configurations, and a second pass that
    resolves mounts and emits Deployment, Namespace, PersistentVolume and
    PersistentVolumeClaim documents. */
module KubeCurrent {
  import opened Wrappers
  import opened Text
  import opened OrderedMaps
  import opened Ontology
  import opened Selection
  import opened Manifests

  // ---------------------------------------------------------------
  // Selection
  // ---------------------------------------------------------------

  /** `find_kubernetes_instances`. The class loop re-tests the instance name
      for "Kubernetes_Volume", which the name test before it has already
      ruled out, so the selection is `PodOrKubernetesVolume`. */
  method FindKubernetesInstances(all: seq<Instance>) returns (containerList: seq<Instance>)
    ensures containerList == Select(all, PodOrKubernetesVolume)
  {
    containerList := [];
    for i := 0 to |all|
      invariant containerList == Select(all[..i], PodOrKubernetesVolume)
    {
      var inst := all[i];
      assert all[..i + 1][..i] == all[..i];
      if Contains(inst.name, "Pod") || Contains(inst.name, "Kubernetes_Volume") {
        containerList := containerList + [inst];
        continue;
      }
      var j := 0;
      while j < |inst.classNames|
        invariant 0 <= j <= |inst.classNames|
        invariant forall k :: 0 <= k < j ==> !Contains(inst.classNames[k], "Pod")
      {
        if Contains(inst.classNames[j], "Pod") || Contains(inst.name, "Kubernetes_Volume") {
          containerList := containerList + [inst];
          break;
        }
        j := j + 1;
      }
    }
    assert all[..|all|] == all;
  }

  // ---------------------------------------------------------------
  // instance_data
  // ---------------------------------------------------------------

  /** The loop that fills `instance_data` (one assignment per property with
      values). */
  method ExtractInstanceData(inst: Instance, props: seq<string>) returns (data: seq<(string, string)>)
    requires Distinct(props)
    ensures data == FirstValues(inst, props)
  {
    data := [];
    for i := 0 to |props|
      invariant data == FirstValues(inst, props[..i])
    {
      var p := props[i];
      assert props[..i + 1][..i] == props[..i];
      var values := Values(inst, p);
      if values == [] {
        continue;
      }
      FirstValuesKeys(inst, props[..i]);
      assert p !in props[..i];
      PutAbsent(data, p, values[0]);
      data := Put(data, p, values[0]);
    }
    assert props[..|props|] == props;
  }


  method CollectEnv(data: seq<(string, string)>) returns (envVars: Env)
    ensures envVars == EnvPairs(data)
  {
    envVars := [];
    for i := 0 to |data|
      invariant envVars == EnvPairs(data[..i])
    {
      assert data[..i + 1][..i] == data[..i];
      var (propName, value) := data[i];
      if StartsWith(propName, ENV_PREFIX) {
        envVars := envVars + [(EnvKey(propName), value)];
      }
    }
    assert data[..|data|] == data;
  }

  // ---------------------------------------------------------------
  // Pass 1: the volume table and the deployment configurations
  // ---------------------------------------------------------------

  /** An entry of `resources["volumes"]`. */
  datatype Volume = Volume(name: string, hostPath: Option<string>, storage: string, accessMode: string)

  /** An entry of `config["volume_mounts"]`: the linkage key of the pod
      instance and the mount path it asserts. */
  datatype MountRequest = MountRequest(prefix: string, mountPath: string)

  /** A container of a configuration; `env` is already de-duplicated. */
  datatype ContainerSpec = ContainerSpec(name: Option<string>, image: Option<string>, env: Env)

  /** An entry of `deployment_configs`. */
  datatype Config = Config(
    namespace: string,
    replicas: int,
    containers: seq<ContainerSpec>,
    mounts: seq<MountRequest>)

  const NEW_CONFIG := Config(DEFAULT_NAMESPACE, 1, [], [])

  /** What the first pass leaves: `resources["namespaces"]`,
      `resources["volumes"]` keyed by linkage key, `deployment_configs` keyed
      by deployment name. */
  datatype Aggregate = Aggregate(
    namespaces: set<string>,
    volumes: seq<(string, Volume)>,
    configs: seq<(string, Config)>)

  const EMPTY_AGGREGATE := Aggregate({}, [], [])

  /** The linkage key: the instance name up to its first "_". */
  function LinkKey(inst: Instance): string {
    BeforeFirst(inst.name, '_')
  }

  predicate IsVolumeInstance(inst: Instance) {
    Contains(ToLower(inst.name), "volume")
  }

  /** Handled as a pod: "pod" in the lower-cased name and not a volume. */
  predicate IsPodInstance(inst: Instance) {
    !IsVolumeInstance(inst) && Contains(ToLower(inst.name), "pod")
  }

  /** `x or "1Gi"`. */
  function StorageOrDefault(storage: Option<string>): string {
    if Truthy(storage) then storage.value else DEFAULT_STORAGE
  }

  /** The volume-table entry an instance's data describes, when it names a
      volume. */
  function VolumeEntry(data: seq<(string, string)>): Option<Volume> {
    var volumeName := Get(data, "volume_name");
    if Truthy(volumeName) then
      Some(Volume(volumeName.value, Get(data, "volume_host_path"),
                  StorageOrDefault(Get(data, "reserved_storage")), READ_WRITE_ONCE))
    else None
  }

  /** The container an instance's data describes: only when it has a
      container name or an image, with its environment de-duplicated. */
  function ContainerOf(data: seq<(string, string)>): Option<ContainerSpec> {
    var name := Get(data, "container_name");
    var image := Get(data, "related_image");
    if Truthy(name) || Truthy(image) then
      Some(ContainerSpec(if Truthy(name) then name else None,
                         if Truthy(image) then image else None,
                         PutAll([], EnvPairs(data))))
    else None
  }

  /** The mount an instance's data requests, tagged with its linkage key. */
  function MountOf(data: seq<(string, string)>, prefix: string): Option<MountRequest> {
    var mountPath := Get(data, "volume_mount_path");
    if Truthy(mountPath) then Some(MountRequest(prefix, mountPath.value)) else None
  }

  /** The namespace after merging `data` into a configuration. */
  function MergedNamespace(config: Config, data: seq<(string, string)>): string {
    Get(data, "related_namespace").GetOr(config.namespace)
  }

  /** The replica count after merging: `int()` of the asserted value, or the
      previous count when there is none or `int()` rejects it. */
  function MergedReplicas(config: Config, data: seq<(string, string)>): int {
    var replicas := Get(data, "replicas");
    if replicas.Some? && ParseInt(replicas.value).Some? then ParseInt(replicas.value).value
    else config.replicas
  }

  /** One pod instance merged into the configuration of its deployment. */
  function Merge(config: Config, data: seq<(string, string)>, prefix: string): Config {
    Config(MergedNamespace(config, data),
           MergedReplicas(config, data),
           config.containers + ContainerOf(data).ToSeq(),
           config.mounts + MountOf(data, prefix).ToSeq())
  }

  /** The deployment a pod instance contributes to, if any. */
  function DeploymentNameOf(inst: Instance, props: seq<string>): Option<string> {
    var deploymentName := Get(FirstValues(inst, props), "deployment_name");
    if IsPodInstance(inst) && Truthy(deploymentName) then deploymentName else None
  }

  /** The volume-table assignment a volume instance makes, if any. */
  function VolumeUpdate(inst: Instance, props: seq<string>): Option<(string, Volume)> {
    var entry := VolumeEntry(FirstValues(inst, props));
    if IsVolumeInstance(inst) && entry.Some? then Some((LinkKey(inst), entry.value)) else None
  }

  /** The configuration a pod instance stores under its deployment name, if
      any: the stored one (or a fresh one) with the pod merged in. */
  function PodUpdate(configs: seq<(string, Config)>, inst: Instance, props: seq<string>): Option<(string, Config)> {
    var d := DeploymentNameOf(inst, props);
    if d.Some? then
      Some((d.value, Merge(Get(configs, d.value).GetOr(NEW_CONFIG), FirstValues(inst, props), LinkKey(inst))))
    else None
  }

  /** One iteration of the first pass. A volume instance is never a pod
      instance, so at most one of the two updates applies. */
  function Absorb(agg: Aggregate, inst: Instance, props: seq<string>): Aggregate {
    var v := VolumeUpdate(inst, props);
    var u := PodUpdate(agg.configs, inst, props);
    Aggregate(
      if u.Some? then agg.namespaces + {u.value.1.namespace} else agg.namespaces,
      if v.Some? then Put(agg.volumes, v.value.0, v.value.1) else agg.volumes,
      if u.Some? then Put(agg.configs, u.value.0, u.value.1) else agg.configs)
  }

  /** The state the first pass leaves after the given instances. */
  function Aggregated(insts: seq<Instance>, props: seq<string>): Aggregate {
    if insts == [] then EMPTY_AGGREGATE
    else Absorb(Aggregated(insts[..|insts| - 1], props), insts[|insts| - 1], props)
  }

  /** The body of the pod branch: one pod instance's data merged into the
      configuration of its deployment. */
  method MergePod(config: Config, data: seq<(string, string)>, prefix: string) returns (merged: Config)
    ensures merged == Merge(config, data, prefix)
  {
    merged := config;
    // deployment metadata
    var namespace := Get(data, "related_namespace");
    if namespace.Some? {
      merged := merged.(namespace := namespace.value);
    }
    var replicas := Get(data, "replicas");
    if replicas.Some? {
      var parsed := ParseInt(replicas.value);
      if parsed.Some? {
        merged := merged.(replicas := parsed.value);
      }
    }
    // container spec
    var name: Option<string> := None;
    var image: Option<string> := None;
    var containerName := Get(data, "container_name");
    if Truthy(containerName) {
      name := containerName;
    }
    var relatedImage := Get(data, "related_image");
    if Truthy(relatedImage) {
      image := relatedImage;
    }
    var envVars := CollectEnv(data);
    // volume mount, linked to its volume by the prefix
    var mountPath := Get(data, "volume_mount_path");
    if Truthy(mountPath) {
      merged := merged.(mounts := merged.mounts + [MountRequest(prefix, mountPath.value)]);
    }
    if name.Some? || image.Some? {
      var dedup := PutAll([], envVars);
      merged := merged.(containers := merged.containers + [ContainerSpec(name, image, dedup)]);
    }
  }

  /** One iteration of pass 1: the volume branch, else the pod branch. */
  method AbsorbInstance(agg: Aggregate, inst: Instance, props: seq<string>) returns (next: Aggregate)
    requires Distinct(props)
    ensures next == Absorb(agg, inst, props)
  {
    var namespaces, volumes, configs := agg.namespaces, agg.volumes, agg.configs;
    var prefix := BeforeFirst(inst.name, '_');
    var data := ExtractInstanceData(inst, props);
    var lowerName := ToLower(inst.name);
    if Contains(lowerName, "volume") {
      var volumeName := Get(data, "volume_name");
      if Truthy(volumeName) {
        volumes := Put(volumes, prefix, Volume(volumeName.value, Get(data, "volume_host_path"),
                                               StorageOrDefault(Get(data, "reserved_storage")),
                                               READ_WRITE_ONCE));
      }
    } else if Contains(lowerName, "pod") {
      var deploymentName := Get(data, "deployment_name");
      if Truthy(deploymentName) {
        var d := deploymentName.value;
        ghost var before := configs;
        ghost var created := Get(configs, d).None?;
        if Get(configs, d).None? {
          configs := Put(configs, d, NEW_CONFIG);
          PutGet(before, d, NEW_CONFIG, d);
        }
        var config := Get(configs, d).value;
        var merged := MergePod(config, data, prefix);
        namespaces := namespaces + {merged.namespace};
        configs := Put(configs, d, merged);
        if created {
          PutPut(before, d, NEW_CONFIG, merged);
        }
      }
    }
    next := Aggregate(namespaces, volumes, configs);
  }

  /** Pass 1 of `generate_kubernetes_yaml_files`. */
  method AggregatePass(containerList: seq<Instance>, props: seq<string>) returns (agg: Aggregate)
    requires Distinct(props)
    ensures agg == Aggregated(containerList, props)
  {
    agg := EMPTY_AGGREGATE;
    for i := 0 to |containerList|
      invariant agg == Aggregated(containerList[..i], props)
    {
      assert containerList[..i + 1][..i] == containerList[..i];
      agg := AbsorbInstance(agg, containerList[i], props);
    }
    assert containerList[..|containerList|] == containerList;
  }

  // ---------------------------------------------------------------
  // Pass 1, stated declaratively
  // ---------------------------------------------------------------

  /** The deployment names the pod instances give, in order, repeats kept. */
  function DeploymentNames(insts: seq<Instance>, props: seq<string>): seq<string> {
    if insts == [] then []
    else
      var last := insts[|insts| - 1];
      DeploymentNames(insts[..|insts| - 1], props) + DeploymentNameOf(last, props).ToSeq()
  }

  /** The pod instances that contribute to deployment `d`, in order. */
  function PodsOf(insts: seq<Instance>, props: seq<string>, d: string): seq<Instance> {
    if insts == [] then []
    else
      var last := insts[|insts| - 1];
      PodsOf(insts[..|insts| - 1], props, d) + (if DeploymentNameOf(last, props) == Some(d) then [last] else [])
  }

  /** `pods` merged one after the other into `config`. */
  function MergeAll(config: Config, pods: seq<Instance>, props: seq<string>): Config {
    if pods == [] then config
    else
      var last := pods[|pods| - 1];
      Merge(MergeAll(config, pods[..|pods| - 1], props), FirstValues(last, props), LinkKey(last))
  }

  /** `deployment_configs` holds one entry per distinct deployment name, in
      order of first appearance, and the entry of `d` is every pod of `d`
      merged, in input order, into the initial configuration. */
  lemma ConfigsByDeployment(insts: seq<Instance>, props: seq<string>)
    ensures Keys(Aggregated(insts, props).configs) == Dedup(DeploymentNames(insts, props))
    ensures forall d ::
              Get(Aggregated(insts, props).configs, d) ==
              if PodsOf(insts, props, d) == [] then None
              else Some(MergeAll(NEW_CONFIG, PodsOf(insts, props, d), props))
  {
    ConfigKeys(insts, props);
    forall d
      ensures Get(Aggregated(insts, props).configs, d)
        == (if PodsOf(insts, props, d) == [] then None else Some(MergeAll(NEW_CONFIG, PodsOf(insts, props, d), props)))
    {
      ConfigEntry(insts, props, d);
    }
  }

  lemma {:induction false} ConfigKeys(insts: seq<Instance>, props: seq<string>)
    ensures Keys(Aggregated(insts, props).configs) == Dedup(DeploymentNames(insts, props))
  {
    if insts != [] {
      var n := |insts| - 1;
      var init, inst := insts[..n], insts[n];
      ConfigKeys(init, props);
      var agg := Aggregated(init, props);
      var u := PodUpdate(agg.configs, inst, props);
      if u.Some? {
        PutKeys(agg.configs, u.value.0, u.value.1);
        var names := DeploymentNames(init, props);
        assert DeploymentNames(insts, props) == names + [u.value.0];
        assert (names + [u.value.0])[..|names|] == names;
      } else {
        assert DeploymentNames(insts, props) == DeploymentNames(init, props);
      }
    }
  }

  lemma {:induction false} ConfigEntry(insts: seq<Instance>, props: seq<string>, d: string)
    ensures Get(Aggregated(insts, props).configs, d)
      == if PodsOf(insts, props, d) == [] then None else Some(MergeAll(NEW_CONFIG, PodsOf(insts, props, d), props))
  {
    if insts != [] {
      var n := |insts| - 1;
      var init, inst := insts[..n], insts[n];
      ConfigEntry(init, props, d);
      var agg := Aggregated(init, props);
      var u := PodUpdate(agg.configs, inst, props);
      var pods := PodsOf(init, props, d);
      if u.Some? {
        PutGet(agg.configs, u.value.0, u.value.1, d);
        if u.value.0 == d {
          assert PodsOf(insts, props, d) == pods + [inst];
          assert (pods + [inst])[..|pods|] == pods;
        } else {
          assert PodsOf(insts, props, d) == pods;
        }
      } else {
        assert PodsOf(insts, props, d) == pods;
      }
    }
  }

  /** The namespace the last pod asserting `related_namespace` gives. */
  function LastNamespace(pods: seq<Instance>, props: seq<string>): Option<string> {
    if pods == [] then None
    else
      var given := Get(FirstValues(pods[|pods| - 1], props), "related_namespace");
      if given.Some? then given else LastNamespace(pods[..|pods| - 1], props)
  }

  /** The replica count of the last pod whose `replicas` `int()` accepts. */
  function LastReplicas(pods: seq<Instance>, props: seq<string>): Option<int> {
    if pods == [] then None
    else
      var given := Get(FirstValues(pods[|pods| - 1], props), "replicas");
      if given.Some? && ParseInt(given.value).Some? then ParseInt(given.value)
      else LastReplicas(pods[..|pods| - 1], props)
  }

  /** The containers the pods describe, in order. */
  function ContainersOf(pods: seq<Instance>, props: seq<string>): seq<ContainerSpec> {
    if pods == [] then []
    else ContainersOf(pods[..|pods| - 1], props) + ContainerOf(FirstValues(pods[|pods| - 1], props)).ToSeq()
  }

  /** The mounts the pods request, in order. */
  function MountsOf(pods: seq<Instance>, props: seq<string>): seq<MountRequest> {
    if pods == [] then []
    else
      var last := pods[|pods| - 1];
      MountsOf(pods[..|pods| - 1], props) + MountOf(FirstValues(last, props), LinkKey(last)).ToSeq()
  }

  /** Field by field, a merged configuration has the namespace of the last
      pod that gives one (else the initial one), the replica count of the
      last pod whose count parses (else the initial one), and every
      container and every mount of the pods, in order. */
  lemma MergeAllFields(config: Config, pods: seq<Instance>, props: seq<string>)
    ensures MergeAll(config, pods, props).namespace == LastNamespace(pods, props).GetOr(config.namespace)
    ensures MergeAll(config, pods, props).replicas == LastReplicas(pods, props).GetOr(config.replicas)
    ensures MergeAll(config, pods, props).containers == config.containers + ContainersOf(pods, props)
    ensures MergeAll(config, pods, props).mounts == config.mounts + MountsOf(pods, props)
  {
    MergeAllScalars(config, pods, props);
    MergeAllLists(config, pods, props);
  }

  lemma {:induction false} MergeAllScalars(config: Config, pods: seq<Instance>, props: seq<string>)
    ensures MergeAll(config, pods, props).namespace == LastNamespace(pods, props).GetOr(config.namespace)
    ensures MergeAll(config, pods, props).replicas == LastReplicas(pods, props).GetOr(config.replicas)
  {
    if pods != [] {
      MergeAllScalars(config, pods[..|pods| - 1], props);
    }
  }

  lemma {:induction false} MergeAllLists(config: Config, pods: seq<Instance>, props: seq<string>)
    ensures MergeAll(config, pods, props).containers == config.containers + ContainersOf(pods, props)
    ensures MergeAll(config, pods, props).mounts == config.mounts + MountsOf(pods, props)
  {
    if pods != [] {
      var n := |pods| - 1;
      MergeAllLists(config, pods[..n], props);
      var prev := MergeAll(config, pods[..n], props);
      var data := FirstValues(pods[n], props);
      assert MergeAll(config, pods, props).containers == prev.containers + ContainerOf(data).ToSeq();
      assert MergeAll(config, pods, props).mounts == prev.mounts + MountOf(data, LinkKey(pods[n])).ToSeq();
    }
  }

  /** A deployment no pod gives a namespace stays in "default"; one no pod
      gives a parseable replica count keeps 1 replica. */
  lemma MergeAllDefaults(pods: seq<Instance>, props: seq<string>)
    ensures LastNamespace(pods, props).None? ==> MergeAll(NEW_CONFIG, pods, props).namespace == DEFAULT_NAMESPACE
    ensures LastReplicas(pods, props).None? ==> MergeAll(NEW_CONFIG, pods, props).replicas == 1
  {
    MergeAllFields(NEW_CONFIG, pods, props);
  }

  /** The volume-table assignments the volume instances make, in order. */
  function VolumeEntries(insts: seq<Instance>, props: seq<string>): seq<(string, Volume)> {
    if insts == [] then []
    else VolumeEntries(insts[..|insts| - 1], props) + VolumeUpdate(insts[|insts| - 1], props).ToSeq()
  }

  /** `resources["volumes"]` is the dictionary built from those assignments:
      one entry per linkage key, in order of first appearance, holding the
      volume of the last instance with that key. */
  lemma {:induction false} VolumeTable(insts: seq<Instance>, props: seq<string>)
    ensures Aggregated(insts, props).volumes == PutAll([], VolumeEntries(insts, props))
    ensures Keys(Aggregated(insts, props).volumes) == Dedup(Keys(VolumeEntries(insts, props)))
    ensures forall k :: Get(Aggregated(insts, props).volumes, k) == LastValue(VolumeEntries(insts, props), k)
  {
    VolumeTableFold(insts, props);
    DictFromPairs(VolumeEntries(insts, props));
  }

  lemma {:induction false} VolumeTableFold(insts: seq<Instance>, props: seq<string>)
    ensures Aggregated(insts, props).volumes == PutAll([], VolumeEntries(insts, props))
  {
    if insts != [] {
      var n := |insts| - 1;
      VolumeTableFold(insts[..n], props);
      var v := VolumeUpdate(insts[n], props);
      var prev := VolumeEntries(insts[..n], props);
      if v.Some? {
        assert (prev + [v.value])[..|prev|] == prev;
      } else {
        assert VolumeEntries(insts, props) == prev;
      }
    }
  }

  /** The namespaces the pods of a deployment assert, over all pods. */
  function AssertedNamespaces(insts: seq<Instance>, props: seq<string>): set<string> {
    if insts == [] then {}
    else
      var last := insts[|insts| - 1];
      var given := Get(FirstValues(last, props), "related_namespace");
      AssertedNamespaces(insts[..|insts| - 1], props)
        + (if DeploymentNameOf(last, props).Some? && given.Some? then {given.value} else {})
  }

  /** `resources["namespaces"]` holds every namespace a deployment's pod
      asserts and nothing else but "default"; so do the configurations. */
  lemma {:induction false} NamespacesAsserted(insts: seq<Instance>, props: seq<string>)
    ensures AssertedNamespaces(insts, props) <= Aggregated(insts, props).namespaces
    ensures Aggregated(insts, props).namespaces <= AssertedNamespaces(insts, props) + {DEFAULT_NAMESPACE}
    ensures forall d :: Get(Aggregated(insts, props).configs, d).Some? ==>
      Get(Aggregated(insts, props).configs, d).value.namespace in AssertedNamespaces(insts, props) + {DEFAULT_NAMESPACE}
  {
    if insts != [] {
      var n := |insts| - 1;
      var init, inst := insts[..n], insts[n];
      NamespacesAsserted(init, props);
      var agg := Aggregated(init, props);
      if DeploymentNameOf(inst, props).Some? {
        var d := DeploymentNameOf(inst, props).value;
        var merged := Merge(Get(agg.configs, d).GetOr(NEW_CONFIG), FirstValues(inst, props), LinkKey(inst));
        forall e | Get(Aggregated(insts, props).configs, e).Some?
          ensures Get(Aggregated(insts, props).configs, e).value.namespace
            in AssertedNamespaces(insts, props) + {DEFAULT_NAMESPACE}
        {
          PutGet(agg.configs, d, merged, e);
        }
      } else {
        forall e | Get(Aggregated(insts, props).configs, e).Some?
          ensures Get(Aggregated(insts, props).configs, e).value.namespace
            in AssertedNamespaces(insts, props) + {DEFAULT_NAMESPACE}
        {
          assert Get(Aggregated(insts, props).configs, e) == Get(agg.configs, e);
        }
      }
    }
  }

  // ---------------------------------------------------------------
  // Pass 2: documents
  // ---------------------------------------------------------------

  /** The two ways the generator stops with an exception: the first
      container of a deployment has no name (`KeyError` while choosing the
      app label), or there are volumes but no namespace other than
      "default" (`IndexError` on `namespaces[0]`). */
  datatype Failure =
    | ContainerWithoutName(deployment: string)
    | NoNamespaceForVolumes

  /** What the generator returns: the Namespace document (`ns`), the
      Deployments, the PersistentVolumes and the PersistentVolumeClaims. */
  datatype Output = Output(
    namespace: Option<NamespaceDoc>,
    deployments: seq<Deployment>,
    volumes: seq<PersistentVolume>,
    claims: seq<PersistentVolumeClaim>)

  /** The volume mounts of a deployment's containers: one per requested
      mount whose linkage key is in the volume table, named after the
      volume, in request order; other requests are dropped. */
  function Resolve(mounts: seq<MountRequest>, volumes: seq<(string, Volume)>): seq<VolumeMount> {
    if mounts == [] then []
    else
      var last := mounts[|mounts| - 1];
      var vol := Get(volumes, last.prefix);
      Resolve(mounts[..|mounts| - 1], volumes)
        + (if vol.Some? then [VolumeMount(vol.value.name, last.mountPath)] else [])
  }

  function Prefixes(mounts: seq<MountRequest>): seq<string> {
    seq(|mounts|, i requires 0 <= i < |mounts| => mounts[i].prefix)
  }

  lemma PrefixesStep(mounts: seq<MountRequest>, i: nat)
    requires i < |mounts|
    ensures Prefixes(mounts[..i + 1]) == Prefixes(mounts[..i]) + [mounts[i].prefix]
  {
  }

  /** The claim-backed pod volume of a volume. */
  function ClaimVolumeOf(vol: Volume): PodVolume {
    ClaimVolume(vol.name, vol.name + CLAIM_SUFFIX)
  }

  /** The pod volumes of the linkage keys `keys` that are in the table. */
  function ClaimsOf(keys: seq<string>, volumes: seq<(string, Volume)>): seq<PodVolume> {
    if keys == [] then []
    else
      var vol := Get(volumes, keys[|keys| - 1]);
      ClaimsOf(keys[..|keys| - 1], volumes) + (if vol.Some? then [ClaimVolumeOf(vol.value)] else [])
  }

  /** The pod template's `volumes`: one claim-backed volume per distinct
      resolvable linkage key, in order of first request. */
  function PodVolumesOf(mounts: seq<MountRequest>, volumes: seq<(string, Volume)>): seq<PodVolume> {
    ClaimsOf(Dedup(Prefixes(mounts)), volumes)
  }

  /** `dict(container_spec)` with the resolved mounts added. */
  function BlockOf(c: ContainerSpec, mounts: seq<VolumeMount>): ContainerBlock {
    ContainerBlock(c.name, c.image, Some(c.env), mounts)
  }

  /** `config["containers"][0]["name"]` fails. */
  predicate FirstContainerUnnamed(config: Config) {
    config.containers != [] && config.containers[0].name.None?
  }

  /** The app label: the first container's name, or the deployment name
      when there is no container. When the first container has no name the
      generator fails instead; this label (the deployment name) is the one
      the corrected generator uses. */
  function AppLabel(d: string, config: Config): string {
    if config.containers != [] && config.containers[0].name.Some? then config.containers[0].name.value else d
  }

  /** The Deployment of one configuration with the given app label. */
  function DeploymentWith(d: string, config: Config, volumes: seq<(string, Volume)>, app: string): Deployment {
    var mounts := Resolve(config.mounts, volumes);
    Deployment(d, config.namespace, config.replicas, app,
               seq(|config.containers|, i requires 0 <= i < |config.containers| => BlockOf(config.containers[i], mounts)),
               PodVolumesOf(config.mounts, volumes))
  }

  /** The Deployment of one configuration, or the `KeyError` its app label
      raises. */
  function DeploymentOf(d: string, config: Config, volumes: seq<(string, Volume)>): Result<Deployment, Failure> {
    if FirstContainerUnnamed(config) then Err(ContainerWithoutName(d))
    else Ok(DeploymentWith(d, config, volumes, AppLabel(d, config)))
  }

  /** The Deployments of the configurations in order, or the first failure. */
  function Deployments(configs: seq<(string, Config)>, volumes: seq<(string, Volume)>): Result<seq<Deployment>, Failure> {
    if configs == [] then Ok([])
    else
      var last := configs[|configs| - 1];
      var init := Deployments(configs[..|configs| - 1], volumes);
      if init.Err? then init
      else
        var dep := DeploymentOf(last.0, last.1, volumes);
        if dep.Err? then Err(dep.error) else Ok(init.value + [dep.value])
  }

  function PersistentVolumeOf(vol: Volume, namespace: string): PersistentVolume {
    PersistentVolume(vol.name, Some(namespace), vol.storage, [vol.accessMode], vol.hostPath)
  }

  function ClaimOf(vol: Volume, namespace: string): PersistentVolumeClaim {
    PersistentVolumeClaim(vol.name + CLAIM_SUFFIX, namespace, [vol.accessMode], vol.storage, "")
  }

  /** A PersistentVolume per entry of the volume table, in table order. */
  function PersistentVolumesOf(volumes: seq<(string, Volume)>, namespace: string): seq<PersistentVolume> {
    seq(|volumes|, i requires 0 <= i < |volumes| => PersistentVolumeOf(volumes[i].1, namespace))
  }

  /** A PersistentVolumeClaim per entry of the volume table, in table order. */
  function ClaimsOfVolumes(volumes: seq<(string, Volume)>, namespace: string): seq<PersistentVolumeClaim> {
    seq(|volumes|, i requires 0 <= i < |volumes| => ClaimOf(volumes[i].1, namespace))
  }

  /** The output of the second pass on what the first pass left. */
  ghost function Synthesized(agg: Aggregate): Result<Output, Failure> {
    var deployments := Deployments(agg.configs, agg.volumes);
    var chosen := SmallestNonDefaultOf(agg.namespaces);
    if deployments.Err? then Err(deployments.error)
    else if agg.volumes != [] && chosen.None? then Err(NoNamespaceForVolumes)
    else
      var ns := chosen.GetOr(DEFAULT_NAMESPACE);
      Ok(Output(
        if chosen.Some? then Some(NamespaceDoc(chosen.value)) else None,
        deployments.value,
        PersistentVolumesOf(agg.volumes, ns),
        ClaimsOfVolumes(agg.volumes, ns)))
  }

  /** `generate_kubernetes_yaml_files` on the selected instances, with the
      data properties of `registry`. */
  ghost function Generated(containerList: seq<Instance>, registry: seq<string>): Result<Output, Failure> {
    Synthesized(Aggregated(containerList, DataProperties(registry)))
  }

  method ResolveMounts(mounts: seq<MountRequest>, volumes: seq<(string, Volume)>) returns (volumeMounts: seq<VolumeMount>)
    ensures volumeMounts == Resolve(mounts, volumes)
  {
    volumeMounts := [];
    for i := 0 to |mounts|
      invariant volumeMounts == Resolve(mounts[..i], volumes)
    {
      assert mounts[..i + 1][..i] == mounts[..i];
      var prefix := mounts[i].prefix;
      var vol := Get(volumes, prefix);
      if vol.Some? {
        volumeMounts := volumeMounts + [VolumeMount(vol.value.name, mounts[i].mountPath)];
      }
    }
    assert mounts[..|mounts|] == mounts;
  }

  /** The `used_volumes` loop. */
  method ClaimVolumes(mounts: seq<MountRequest>, volumes: seq<(string, Volume)>) returns (podVolumes: seq<PodVolume>)
    ensures podVolumes == PodVolumesOf(mounts, volumes)
  {
    podVolumes := [];
    var used: set<string> := {};
    for i := 0 to |mounts|
      invariant podVolumes == ClaimsOf(Dedup(Prefixes(mounts[..i])), volumes)
      invariant forall p :: p in used <==> p in Prefixes(mounts[..i]) && Get(volumes, p).Some?
    {
      var prefix := mounts[i].prefix;
      var seen := Prefixes(mounts[..i]);
      PrefixesStep(mounts, i);
      assert (seen + [prefix])[..|seen|] == seen;
      AddNewGrows([], seen);
      if Get(volumes, prefix).Some? && prefix !in used {
        var vol := Get(volumes, prefix).value;
        podVolumes := podVolumes + [ClaimVolume(vol.name, vol.name + CLAIM_SUFFIX)];
        used := used + {prefix};
      }
    }
    assert mounts[..|mounts|] == mounts;
  }

  /** One iteration of the deployment loop. */
  method BuildDeployment(d: string, config: Config, volumes: seq<(string, Volume)>) returns (r: Result<Deployment, Failure>)
    ensures r == DeploymentOf(d, config, volumes)
  {
    var volumeMounts := ResolveMounts(config.mounts, volumes);
    var blocks: seq<ContainerBlock> := [];
    for i := 0 to |config.containers|
      invariant |blocks| == i
      invariant forall j :: 0 <= j < i ==> blocks[j] == BlockOf(config.containers[j], volumeMounts)
    {
      var c := config.containers[i];
      blocks := blocks + [ContainerBlock(c.name, c.image, Some(c.env), volumeMounts)];
    }
    var podVolumes := ClaimVolumes(config.mounts, volumes);
    var app: string;
    if config.containers != [] {
      if config.containers[0].name.None? {
        return Err(ContainerWithoutName(d));
      }
      app := config.containers[0].name.value;
    } else {
      app := d;
    }
    assert blocks == seq(|config.containers|, i requires 0 <= i < |config.containers| => BlockOf(config.containers[i], volumeMounts));
    r := Ok(Deployment(d, config.namespace, config.replicas, app, blocks, podVolumes));
  }

  /** The PersistentVolume and PersistentVolumeClaim loop. */
  method BuildStorage(volumes: seq<(string, Volume)>, namespace: string)
    returns (pvs: seq<PersistentVolume>, pvcs: seq<PersistentVolumeClaim>)
    ensures pvs == PersistentVolumesOf(volumes, namespace)
    ensures pvcs == ClaimsOfVolumes(volumes, namespace)
  {
    pvs, pvcs := [], [];
    for i := 0 to |volumes|
      invariant |pvs| == |pvcs| == i
      invariant forall j :: 0 <= j < i ==> pvs[j] == PersistentVolumeOf(volumes[j].1, namespace)
      invariant forall j :: 0 <= j < i ==> pvcs[j] == ClaimOf(volumes[j].1, namespace)
    {
      var v := volumes[i].1;
      pvs := pvs + [PersistentVolume(v.name, Some(namespace), v.storage, [v.accessMode], v.hostPath)];
      pvcs := pvcs + [PersistentVolumeClaim(v.name + CLAIM_SUFFIX, namespace, [v.accessMode], v.storage, "")];
    }
  }

  /** The deployment loop. */
  method BuildDeployments(configs: seq<(string, Config)>, volumes: seq<(string, Volume)>)
    returns (r: Result<seq<Deployment>, Failure>)
    ensures r == Deployments(configs, volumes)
  {
    var deployments: seq<Deployment> := [];
    for i := 0 to |configs|
      invariant Deployments(configs[..i], volumes) == Ok(deployments)
    {
      assert configs[..i + 1][..i] == configs[..i];
      var (d, config) := configs[i];
      var dep := BuildDeployment(d, config, volumes);
      if dep.Err? {
        DeploymentsStopAtFailure(configs, volumes, i + 1);
        return Err(dep.error);
      }
      deployments := deployments + [dep.value];
    }
    assert configs[..|configs|] == configs;
    r := Ok(deployments);
  }

  /** Pass 2 of `generate_kubernetes_yaml_files`. */
  method Synthesize(agg: Aggregate) returns (r: Result<Output, Failure>)
    ensures r == Synthesized(agg)
  {
    var deployments := BuildDeployments(agg.configs, agg.volumes);
    if deployments.Err? {
      return Err(deployments.error);
    }
    var chosen := SmallestNonDefault(agg.namespaces);
    var namespace: Option<NamespaceDoc> := None;
    if chosen.Some? {
      namespace := Some(NamespaceDoc(chosen.value));
    }
    if agg.volumes != [] && chosen.None? {
      return Err(NoNamespaceForVolumes);
    }
    var ns := chosen.GetOr(DEFAULT_NAMESPACE);
    var pvs, pvcs := BuildStorage(agg.volumes, ns);
    r := Ok(Output(namespace, deployments.value, pvs, pvcs));
  }

  /** Once a deployment fails, the whole loop fails with that failure. */
  lemma {:induction false} DeploymentsStopAtFailure(configs: seq<(string, Config)>, volumes: seq<(string, Volume)>, k: nat)
    requires 0 < k <= |configs|
    requires Deployments(configs[..k], volumes).Err?
    ensures Deployments(configs, volumes) == Deployments(configs[..k], volumes)
    decreases |configs|
  {
    if k < |configs| {
      var n := |configs| - 1;
      assert configs[..n][..k] == configs[..k];
      DeploymentsStopAtFailure(configs[..n], volumes, k);
    } else {
      assert configs[..k] == configs;
    }
  }

  /** `generate_kubernetes_yaml_files`: both passes. */
  method GenerateKubernetesYamlFiles(containerList: seq<Instance>, registry: seq<string>) returns (r: Result<Output, Failure>)
    ensures r == Generated(containerList, registry)
  {
    var props := DataProperties(registry);
    var agg := AggregatePass(containerList, props);
    r := Synthesize(agg);
  }

  // ---------------------------------------------------------------
  // Pass 2, properties
  // ---------------------------------------------------------------

  /** The deployment loop fails iff some configuration's first container
      has no name; otherwise it gives one Deployment per configuration, in
      order, named after it. */
  lemma DeploymentsShape(configs: seq<(string, Config)>, volumes: seq<(string, Volume)>)
    ensures Deployments(configs, volumes).Err? <==> exists i :: 0 <= i < |configs| && FirstContainerUnnamed(configs[i].1)
    ensures Deployments(configs, volumes).Ok? ==>
      && |Deployments(configs, volumes).value| == |configs|
      && forall i :: 0 <= i < |configs| ==>
           Ok(Deployments(configs, volumes).value[i]) == DeploymentOf(configs[i].0, configs[i].1, volumes)
  {
    DeploymentsFail(configs, volumes);
    if Deployments(configs, volumes).Ok? {
      DeploymentsList(configs, volumes);
    }
  }

  lemma {:induction false} DeploymentsFail(configs: seq<(string, Config)>, volumes: seq<(string, Volume)>)
    ensures Deployments(configs, volumes).Err? <==> exists i :: 0 <= i < |configs| && FirstContainerUnnamed(configs[i].1)
  {
    if configs != [] {
      var n := |configs| - 1;
      DeploymentsFail(configs[..n], volumes);
      assert DeploymentOf(configs[n].0, configs[n].1, volumes).Err? <==> FirstContainerUnnamed(configs[n].1);
      if exists i :: 0 <= i < n && FirstContainerUnnamed(configs[..n][i].1) {
        var i :| 0 <= i < n && FirstContainerUnnamed(configs[..n][i].1);
        assert configs[i] == configs[..n][i];
      }
      if exists i :: 0 <= i < |configs| && FirstContainerUnnamed(configs[i].1) {
        var i :| 0 <= i < |configs| && FirstContainerUnnamed(configs[i].1);
        if i < n {
          assert configs[..n][i] == configs[i];
        }
      }
    }
  }

  lemma {:induction false} DeploymentsList(configs: seq<(string, Config)>, volumes: seq<(string, Volume)>)
    requires Deployments(configs, volumes).Ok?
    ensures |Deployments(configs, volumes).value| == |configs|
    ensures forall i :: 0 <= i < |configs| ==>
              Ok(Deployments(configs, volumes).value[i]) == DeploymentOf(configs[i].0, configs[i].1, volumes)
  {
    if configs != [] {
      var n := |configs| - 1;
      var init := Deployments(configs[..n], volumes);
      assert init.Ok?;
      DeploymentsList(configs[..n], volumes);
      var dep := DeploymentOf(configs[n].0, configs[n].1, volumes);
      assert Deployments(configs, volumes).value == init.value + [dep.value];
      forall i | 0 <= i < n
        ensures Ok(Deployments(configs, volumes).value[i]) == DeploymentOf(configs[i].0, configs[i].1, volumes)
      {
        assert configs[..n][i] == configs[i];
      }
    }
  }

  /** The generator stops with an exception iff the first container of some
      deployment has no name, or the volume table is not empty while every
      namespace is "default" (the spelling of "default" is not checked for
      case). */
  lemma SynthesizedFails(agg: Aggregate)
    ensures Synthesized(agg).Err? <==>
      || (exists i :: 0 <= i < |agg.configs| && FirstContainerUnnamed(agg.configs[i].1))
      || (agg.volumes != [] && forall n :: n in agg.namespaces ==> IsDefaultNamespace(n))
  {
    DeploymentsShape(agg.configs, agg.volumes);
  }

  /** Read through both passes: when the generator returns, it gives one
      Deployment per distinct deployment name, in order of first appearance,
      in the namespace and with the replica count of that deployment's pods
      merged in order. */
  lemma GeneratedDeployments(containerList: seq<Instance>, registry: seq<string>)
    requires Generated(containerList, registry).Ok?
    ensures var props := DataProperties(registry);
      var names := Dedup(DeploymentNames(containerList, props));
      var deployments := Generated(containerList, registry).value.deployments;
      && |deployments| == |names|
      && forall i :: 0 <= i < |names| ==>
           && deployments[i].name == names[i]
           && deployments[i].namespace == MergeAll(NEW_CONFIG, PodsOf(containerList, props, names[i]), props).namespace
           && deployments[i].replicas == MergeAll(NEW_CONFIG, PodsOf(containerList, props, names[i]), props).replicas
  {
    var props := DataProperties(registry);
    var agg := Aggregated(containerList, props);
    var names := Dedup(DeploymentNames(containerList, props));
    ConfigsByDeployment(containerList, props);
    AddNewGrows([], DeploymentNames(containerList, props));
    DeploymentsShape(agg.configs, agg.volumes);
    var deployments := Generated(containerList, registry).value.deployments;
    forall i | 0 <= i < |names|
      ensures deployments[i].name == names[i]
      ensures deployments[i].namespace == MergeAll(NEW_CONFIG, PodsOf(containerList, props, names[i]), props).namespace
      ensures deployments[i].replicas == MergeAll(NEW_CONFIG, PodsOf(containerList, props, names[i]), props).replicas
    {
      assert Keys(agg.configs)[i] == names[i];
      GetDistinct(agg.configs, i);
    }
  }

  /** Every mount a resolved mount list holds comes from a request whose
      linkage key is in the table, and is named after that volume. */
  lemma {:induction false} ResolveSource(mounts: seq<MountRequest>, volumes: seq<(string, Volume)>, m: VolumeMount)
    requires m in Resolve(mounts, volumes)
    ensures exists r :: r in mounts && Get(volumes, r.prefix).Some? && m.name == Get(volumes, r.prefix).value.name
  {
    var n := |mounts| - 1;
    if m in Resolve(mounts[..n], volumes) {
      ResolveSource(mounts[..n], volumes, m);
      var r :| r in mounts[..n] && Get(volumes, r.prefix).Some? && m.name == Get(volumes, r.prefix).value.name;
      assert r in mounts;
    } else {
      assert mounts[n] in mounts;
    }
  }

  lemma {:induction false} ClaimsOfCover(keys: seq<string>, volumes: seq<(string, Volume)>, p: string)
    requires p in keys && Get(volumes, p).Some?
    ensures ClaimVolumeOf(Get(volumes, p).value) in ClaimsOf(keys, volumes)
  {
    var n := |keys| - 1;
    if keys[n] != p {
      assert p in keys[..n];
      ClaimsOfCover(keys[..n], volumes, p);
    }
  }

  /** Every volume mount of every container of every Deployment refers, by
      name, to a claim-backed volume of the same Deployment whose claim is
      the volume's name with the suffix "c", and a PersistentVolumeClaim of
      that name is emitted. */
  lemma MountsHaveClaims(agg: Aggregate, k: nat, j: nat, m: VolumeMount)
    requires Synthesized(agg).Ok?
    requires k < |Synthesized(agg).value.deployments|
    requires j < |Synthesized(agg).value.deployments[k].containers|
    requires m in Synthesized(agg).value.deployments[k].containers[j].volumeMounts
    ensures ClaimVolume(m.name, m.name + CLAIM_SUFFIX) in Synthesized(agg).value.deployments[k].volumes
    ensures exists c :: c in Synthesized(agg).value.claims && c.name == m.name + CLAIM_SUFFIX
  {
    DeploymentsShape(agg.configs, agg.volumes);
    var (d, config) := agg.configs[k];
    assert Ok(Synthesized(agg).value.deployments[k]) == DeploymentOf(d, config, agg.volumes);
    ResolveSource(config.mounts, agg.volumes, m);
    var r :| r in config.mounts && Get(agg.volumes, r.prefix).Some? && m.name == Get(agg.volumes, r.prefix).value.name;
    var vol := Get(agg.volumes, r.prefix).value;
    AddNewGrows([], Prefixes(config.mounts));
    var i :| 0 <= i < |config.mounts| && config.mounts[i] == r;
    assert Prefixes(config.mounts)[i] == r.prefix;
    ClaimsOfCover(Dedup(Prefixes(config.mounts)), agg.volumes, r.prefix);
    GetEntry(agg.volumes, r.prefix);
    var e :| 0 <= e < |agg.volumes| && agg.volumes[e] == (r.prefix, vol);
    assert Synthesized(agg).value.claims[e].name == m.name + CLAIM_SUFFIX;
  }

  /** The PersistentVolumes and the PersistentVolumeClaims pair up: one of
      each per volume-table entry, in table order; each claim is named after
      its volume with the suffix "c" and has the volume's storage, access
      modes and namespace. */
  lemma StoragePaired(volumes: seq<(string, Volume)>, ns: string)
    ensures var pvs, pvcs := PersistentVolumesOf(volumes, ns), ClaimsOfVolumes(volumes, ns);
      && |pvs| == |pvcs| == |volumes|
      && forall i :: 0 <= i < |pvs| ==>
           && pvs[i].name == volumes[i].1.name
           && pvs[i].hostPath == volumes[i].1.hostPath
           && pvcs[i].name == pvs[i].name + CLAIM_SUFFIX
           && pvcs[i].storage == pvs[i].storage
           && pvcs[i].accessModes == pvs[i].accessModes
           && pvs[i].namespace == Some(pvcs[i].namespace) == Some(ns)
  {
  }

  /** When the generator returns and there are volumes, it also returns the
      Namespace document, and every PersistentVolume and claim is in that
      namespace; the two lists pair up as `StoragePaired` states. */
  lemma SynthesizedStorage(agg: Aggregate)
    requires Synthesized(agg).Ok?
    ensures var out := Synthesized(agg).value;
      && |out.volumes| == |out.claims| == |agg.volumes|
      && (agg.volumes != [] ==> out.namespace.Some?)
      && forall i :: 0 <= i < |out.claims| ==>
           && out.claims[i].name == out.volumes[i].name + CLAIM_SUFFIX
           && out.claims[i].namespace == out.namespace.value.name
           && out.volumes[i].namespace == Some(out.namespace.value.name)
  {
    var ns := SmallestNonDefaultOf(agg.namespaces).GetOr(DEFAULT_NAMESPACE);
    StoragePaired(agg.volumes, ns);
  }

  /** The environment of a container lists each variable once, in order of
      first assertion, with the value of its last `env_` property. */
  lemma ContainerEnv(data: seq<(string, string)>)
    requires ContainerOf(data).Some?
    ensures Keys(ContainerOf(data).value.env) == Dedup(Keys(EnvPairs(data)))
    ensures Distinct(Keys(ContainerOf(data).value.env))
    ensures forall k :: Get(ContainerOf(data).value.env, k) == LastValue(EnvPairs(data), k)
  {
    DictFromPairs(EnvPairs(data));
  }

  // ---------------------------------------------------------------
  // The generator as evidently intended
  // ---------------------------------------------------------------

  /** The second pass without its two exceptions: a first container without
      a name gets the deployment name as app label, and the
      PersistentVolumes and PersistentVolumeClaims go to "default" when no
      other namespace is known. */
  ghost function SynthesizedCorrected(agg: Aggregate): (out: Output)
    ensures |out.deployments| == |agg.configs|
    ensures forall i :: 0 <= i < |agg.configs| ==> out.deployments[i].name == agg.configs[i].0
    ensures |out.volumes| == |out.claims| == |agg.volumes|
  {
    var chosen := SmallestNonDefaultOf(agg.namespaces);
    var ns := chosen.GetOr(DEFAULT_NAMESPACE);
    var configs := agg.configs;
    Output(
      if chosen.Some? then Some(NamespaceDoc(chosen.value)) else None,
      seq(|configs|, i requires 0 <= i < |configs| =>
        DeploymentWith(configs[i].0, configs[i].1, agg.volumes, AppLabel(configs[i].0, configs[i].1))),
      PersistentVolumesOf(agg.volumes, ns),
      ClaimsOfVolumes(agg.volumes, ns))
  }

  /** Wherever the generator as written returns, the corrected one returns
      the same documents. */
  lemma CorrectedExtendsAsWritten(agg: Aggregate)
    requires Synthesized(agg).Ok?
    ensures SynthesizedCorrected(agg) == Synthesized(agg).value
  {
    DeploymentsShape(agg.configs, agg.volumes);
    var written := Synthesized(agg).value.deployments;
    var corrected := SynthesizedCorrected(agg).deployments;
    forall i | 0 <= i < |agg.configs|
      ensures corrected[i] == written[i]
    {
      assert !FirstContainerUnnamed(agg.configs[i].1);
    }
  }

  /** Without a namespace assertion on any pod, a volume instance with a
      volume name makes the generator as written fail. */
  lemma {:induction false} NoNamespaceCrashes(insts: seq<Instance>, props: seq<string>)
    requires forall n :: n in AssertedNamespaces(insts, props) ==> IsDefaultNamespace(n)
    requires VolumeEntries(insts, props) != []
    ensures Synthesized(Aggregated(insts, props)).Err?
  {
    var agg := Aggregated(insts, props);
    NamespacesAsserted(insts, props);
    assert IsDefaultNamespace(DEFAULT_NAMESPACE);
    VolumesKept(insts, props);
    SynthesizedFails(agg);
  }

  /** A volume entry leaves the volume table non-empty. */
  lemma VolumesKept(insts: seq<Instance>, props: seq<string>)
    requires VolumeEntries(insts, props) != []
    ensures Aggregated(insts, props).volumes != []
  {
    VolumeTable(insts, props);
    var entries := VolumeEntries(insts, props);
    assert Keys(entries)[0] in Keys(entries);
    AddNewGrows([], Keys(entries));
  }

  // ---------------------------------------------------------------
  // A pod "p1_pod" and a volume "p1_Kubernetes_Volume", no namespace asserted
  // ---------------------------------------------------------------

  /** The data properties the scenario's ontology declares. */
  const SCENARIO_REGISTRY: seq<string> := ["deployment_name", "container_name", "related_image", "replicas",
                                           "volume_mount_path", "volume_name", "volume_host_path"]

  /** The pod: deployment "web", container "c1", image "nginx", 3 replicas
      and a mount at "/app/data", no namespace. Its class "Pod" makes the
      selector keep it. */
  const SCENARIO_POD := Instance("p1_pod", ["Pod"],
    map["deployment_name" := ["web"], "container_name" := ["c1"], "related_image" := ["nginx"],
        "replicas" := ["3"], "volume_mount_path" := ["/app/data"]], [])

  /** The volume "data" on host path "/srv", with the pod's linkage key
      "p1". The selector keeps a volume only when its name holds
      "Kubernetes_Volume" (or a class name holds "Pod"), so it is named
      "p1_Kubernetes_Volume" rather than "p1_volume". */
  const SCENARIO_VOLUME := Instance("p1_Kubernetes_Volume", ["Kubernetes_Volume"],
    map["volume_name" := ["data"], "volume_host_path" := ["/srv"]], [])

  const SCENARIO_INSTANCES := [SCENARIO_POD, SCENARIO_VOLUME]

  /** What the first pass leaves for the scenario (`ScenarioPass1`). */
  const SCENARIO := Aggregate(
    {DEFAULT_NAMESPACE},
    [("p1", Volume("data", Some("/srv"), DEFAULT_STORAGE, READ_WRITE_ONCE))],
    [("web", Config(DEFAULT_NAMESPACE, 3, [ContainerSpec(Some("c1"), Some("nginx"), [])], [MountRequest("p1", "/app/data")]))])

  /** `find_kubernetes_instances` keeps both individuals, in order. */
  lemma ScenarioSelected()
    ensures Select(SCENARIO_INSTANCES, PodOrKubernetesVolume) == SCENARIO_INSTANCES
  {
    assert Contains(SCENARIO_POD.classNames[0], "Pod");
    assert Matches(PodOrKubernetesVolume, SCENARIO_POD);
    ContainsAt(SCENARIO_VOLUME.name, "Kubernetes_Volume", 3);
    assert Matches(PodOrKubernetesVolume, SCENARIO_VOLUME);
    assert SCENARIO_INSTANCES[..1] == [SCENARIO_POD];
    assert [SCENARIO_POD][..0] == [];
    assert Select([SCENARIO_POD], PodOrKubernetesVolume) == [SCENARIO_POD];
  }

  /** The scenario declares each data property once. */
  lemma ScenarioProperties()
    ensures DataProperties(SCENARIO_REGISTRY) == SCENARIO_REGISTRY
    ensures forall p :: p in SCENARIO_REGISTRY ==> !StartsWith(p, ENV_PREFIX)
  {
    DedupDistinct(SCENARIO_REGISTRY);
    forall p | p in SCENARIO_REGISTRY
      ensures !StartsWith(p, ENV_PREFIX)
    {
      NotStartsWith(p, ENV_PREFIX);
    }
  }

  /** The pod is handled as a pod, the volume as a volume, both under "p1". */
  lemma ScenarioBranches()
    ensures IsPodInstance(SCENARIO_POD) && LinkKey(SCENARIO_POD) == "p1"
    ensures IsVolumeInstance(SCENARIO_VOLUME) && LinkKey(SCENARIO_VOLUME) == "p1"
  {
    ScenarioPodBranch();
    ScenarioVolumeBranch();
    BeforeFirstAt(SCENARIO_POD.name, '_', 2);
    BeforeFirstAt(SCENARIO_VOLUME.name, '_', 2);
  }

  lemma ScenarioPodBranch()
    ensures IsPodInstance(SCENARIO_POD)
  {
    var pod := ToLower(SCENARIO_POD.name);
    assert pod == "p1_pod";
    ContainsAt(pod, "pod", 3);
    assert !StartsWith(pod, "volume");
    if Contains(pod[1..], "volume") {
      ContainsLength(pod[1..], "volume");
    }
  }

  lemma ScenarioVolumeBranch()
    ensures IsVolumeInstance(SCENARIO_VOLUME)
  {
    var vol := ToLower(SCENARIO_VOLUME.name);
    assert |vol| == 20;
    assert vol[14] == 'v' && vol[15] == 'o' && vol[16] == 'l' && vol[17] == 'u' && vol[18] == 'm' && vol[19] == 'e';
    assert vol[14..20] == "volume";
    ContainsAt(vol, "volume", 14);
  }

  /** The instance data of a scenario individual has no `env_` entry. */
  lemma ScenarioNoEnv(inst: Instance)
    ensures EnvPairs(FirstValues(inst, SCENARIO_REGISTRY)) == []
  {
    ScenarioProperties();
    var data := FirstValues(inst, SCENARIO_REGISTRY);
    FirstValuesKeys(inst, SCENARIO_REGISTRY);
    forall i | 0 <= i < |data|
      ensures !StartsWith(data[i].0, ENV_PREFIX)
    {
      assert Keys(data)[i] == data[i].0;
    }
    EnvPairsNone(data);
  }

  /** A scenario individual's data holds the first value of each declared
      property it asserts. */
  lemma ScenarioGet(inst: Instance, p: string, v: string)
    requires p in SCENARIO_REGISTRY && p in inst.props && |inst.props[p]| > 0 && inst.props[p][0] == v
    ensures Get(FirstValues(inst, SCENARIO_REGISTRY), p) == Some(v)
  {
    FirstValuesGet(inst, SCENARIO_REGISTRY, p);
  }

  lemma ScenarioGetNone(inst: Instance, p: string)
    requires p !in inst.props
    ensures Get(FirstValues(inst, SCENARIO_REGISTRY), p) == None
  {
    FirstValuesGet(inst, SCENARIO_REGISTRY, p);
  }

  /** The pod's instance data, key by key. */
  lemma ScenarioPodData(data: seq<(string, string)>)
    requires data == FirstValues(SCENARIO_POD, SCENARIO_REGISTRY)
    ensures Get(data, "deployment_name") == Some("web")
    ensures Get(data, "related_namespace") == None
    ensures Get(data, "replicas") == Some("3")
    ensures Get(data, "container_name") == Some("c1")
    ensures Get(data, "related_image") == Some("nginx")
    ensures Get(data, "volume_mount_path") == Some("/app/data")
  {
    var inst := SCENARIO_POD;
    ScenarioGet(inst, "deployment_name", "web");
    ScenarioGetNone(inst, "related_namespace");
    ScenarioGet(inst, "replicas", "3");
    ScenarioGet(inst, "container_name", "c1");
    ScenarioGet(inst, "related_image", "nginx");
    ScenarioGet(inst, "volume_mount_path", "/app/data");
  }

  lemma ParseThree()
    ensures ParseInt("3") == Some(3)
  {
    ParseIntRoundTrip(3);
    assert IntToString(3) == "3";
  }

  /** Data with the pod's keys merges into the scenario's configuration. */
  lemma ScenarioMerge(data: seq<(string, string)>)
    requires Get(data, "related_namespace") == None
    requires Get(data, "replicas") == Some("3")
    requires Get(data, "container_name") == Some("c1")
    requires Get(data, "related_image") == Some("nginx")
    requires Get(data, "volume_mount_path") == Some("/app/data")
    requires EnvPairs(data) == []
    ensures Merge(NEW_CONFIG, data, "p1") == SCENARIO.configs[0].1
  {
    ParseThree();
    assert ContainerOf(data) == Some(ContainerSpec(Some("c1"), Some("nginx"), []));
    assert MountOf(data, "p1") == Some(MountRequest("p1", "/app/data"));
  }

  /** The pod's configuration after the first pass. */
  lemma ScenarioPodMerged()
    ensures PodUpdate([], SCENARIO_POD, SCENARIO_REGISTRY) == Some(SCENARIO.configs[0])
  {
    var data := FirstValues(SCENARIO_POD, SCENARIO_REGISTRY);
    ScenarioBranches();
    ScenarioPodData(data);
    ScenarioNoEnv(SCENARIO_POD);
    ScenarioMerge(data);
  }

  /** The volume's table entry after the first pass. */
  lemma ScenarioVolumeEntry()
    ensures VolumeUpdate(SCENARIO_VOLUME, SCENARIO_REGISTRY) == Some(SCENARIO.volumes[0])
  {
    var inst, props := SCENARIO_VOLUME, SCENARIO_REGISTRY;
    ScenarioBranches();
    FirstValuesGet(inst, props, "volume_name");
    FirstValuesGet(inst, props, "volume_host_path");
    FirstValuesGet(inst, props, "reserved_storage");
  }

  /** The first pass over a pod followed by a volume. */
  lemma AggregatedPodThenVolume(pod: Instance, vol: Instance, props: seq<string>)
    requires IsPodInstance(pod) && IsVolumeInstance(vol)
    requires PodUpdate([], pod, props).Some? && VolumeUpdate(vol, props).Some?
    ensures var c := PodUpdate([], pod, props).value;
      Aggregated([pod, vol], props) == Aggregate({c.1.namespace}, [VolumeUpdate(vol, props).value], [c])
  {
    assert [pod, vol][..1] == [pod];
    assert [pod][..0] == [];
    var c := PodUpdate([], pod, props).value;
    assert VolumeUpdate(pod, props) == None;
    assert Aggregated([pod], props) == Aggregate({c.1.namespace}, [], [c]);
    assert DeploymentNameOf(vol, props) == None;
    assert PodUpdate([c], vol, props) == None;
  }

  /** The first pass over the two individuals leaves `SCENARIO`: the
      namespace "default", the volume "data" under "p1", and the deployment
      "web" with container "c1" and its mount request under "p1". */
  lemma ScenarioPass1()
    ensures Aggregated(SCENARIO_INSTANCES, DataProperties(SCENARIO_REGISTRY)) == SCENARIO
  {
    ScenarioProperties();
    ScenarioBranches();
    ScenarioPodMerged();
    ScenarioVolumeEntry();
    AggregatedPodThenVolume(SCENARIO_POD, SCENARIO_VOLUME, SCENARIO_REGISTRY);
  }

  /** The facts of the first pass's result that the second pass depends on:
      no namespace but "default", a named first container, and the mount
      resolving to the volume "data". */
  lemma ScenarioFacts()
    ensures SmallestNonDefaultOf(SCENARIO.namespaces) == None
    ensures !FirstContainerUnnamed(SCENARIO.configs[0].1)
    ensures Resolve(SCENARIO.configs[0].1.mounts, SCENARIO.volumes) == [VolumeMount("data", "/app/data")]
    ensures PodVolumesOf(SCENARIO.configs[0].1.mounts, SCENARIO.volumes) == [ClaimVolume("data", "datac")]
  {
    assert ToLower(DEFAULT_NAMESPACE) == DEFAULT_NAMESPACE;
    ScenarioMounts();
  }

  lemma ScenarioMounts()
    ensures Resolve(SCENARIO.configs[0].1.mounts, SCENARIO.volumes) == [VolumeMount("data", "/app/data")]
    ensures PodVolumesOf(SCENARIO.configs[0].1.mounts, SCENARIO.volumes) == [ClaimVolume("data", "datac")]
  {
    var mounts := [MountRequest("p1", "/app/data")];
    assert SCENARIO.configs[0].1.mounts == mounts;
    assert mounts[..0] == [];
    assert Get(SCENARIO.volumes, "p1") == Some(SCENARIO.volumes[0].1);
    assert Prefixes(mounts) == ["p1"];
    var keys: seq<string> := ["p1"];
    assert keys[..0] == [];
    assert Dedup(keys) == keys;
    assert ClaimsOf(keys, SCENARIO.volumes) == [ClaimVolumeOf(SCENARIO.volumes[0].1)];
    assert "data" + CLAIM_SUFFIX == "datac";
  }

  /** As written, the generator fails on `namespaces[0]` for the scenario's
      selected individuals. */
  lemma ScenarioAsWritten()
    ensures Generated(Select(SCENARIO_INSTANCES, PodOrKubernetesVolume), SCENARIO_REGISTRY) == Err(NoNamespaceForVolumes)
  {
    ScenarioSelected();
    ScenarioPass1();
    ScenarioFacts();
    DeploymentsFail(SCENARIO.configs, SCENARIO.volumes);
  }

  /** The documents the corrected second pass gives for the scenario. */
  const SCENARIO_EXPECTED := Output(
    None,
    [Deployment("web", DEFAULT_NAMESPACE, 3, "c1",
       [ContainerBlock(Some("c1"), Some("nginx"), Some([]), [VolumeMount("data", "/app/data")])],
       [ClaimVolume("data", "datac")])],
    [PersistentVolume("data", Some(DEFAULT_NAMESPACE), DEFAULT_STORAGE, [READ_WRITE_ONCE], Some("/srv"))],
    [PersistentVolumeClaim("datac", DEFAULT_NAMESPACE, [READ_WRITE_ONCE], DEFAULT_STORAGE, "")])

  lemma ScenarioCorrectedOutput()
    ensures SynthesizedCorrected(SCENARIO) == SCENARIO_EXPECTED
  {
    ScenarioFacts();
    var out := SynthesizedCorrected(SCENARIO);
    var config := SCENARIO.configs[0].1;
    var mounts := [VolumeMount("data", "/app/data")];
    assert out.deployments[0] == DeploymentWith("web", config, SCENARIO.volumes, "c1");
    assert out.deployments[0].containers == [BlockOf(config.containers[0], mounts)];
    assert "data" + CLAIM_SUFFIX == "datac";
  }

  /** Corrected, the scenario's selected individuals give the Deployment
      "web" with 3 replicas and container "c1" mounting "data" at
      "/app/data", the PersistentVolume "data" and the
      PersistentVolumeClaim "datac", all in "default", and no Namespace. */
  lemma ScenarioCorrected()
    ensures SynthesizedCorrected(Aggregated(Select(SCENARIO_INSTANCES, PodOrKubernetesVolume),
                                            DataProperties(SCENARIO_REGISTRY))) == SCENARIO_EXPECTED
  {
    ScenarioSelected();
    ScenarioPass1();
    ScenarioCorrectedOutput();
  }

  /** A configuration whose only container has an image and no name: as
      written the generator fails on it; corrected, its Deployment is
      labelled with the deployment name. */
  lemma UnnamedContainerScenario(volumes: seq<(string, Volume)>)
    ensures var config := Config(DEFAULT_NAMESPACE, 1, [ContainerSpec(None, Some("nginx"), [])], []);
      && Synthesized(Aggregate({}, volumes, [("web", config)])).Err?
      && SynthesizedCorrected(Aggregate({}, volumes, [("web", config)])).deployments[0].app == "web"
  {
    var config := Config(DEFAULT_NAMESPACE, 1, [ContainerSpec(None, Some("nginx"), [])], []);
    SynthesizedFails(Aggregate({}, volumes, [("web", config)]));
    assert FirstContainerUnnamed([("web", config)][0].1);
  }
}
