# Ontology-to-deployment descriptor generators, modelled in Dafny

The repository reads an OWL ontology of a deployment: individuals for pods,
volumes and Docker containers, with data properties such as
`deployment_name`, `related_image`, `volume_mount_path` or `env_*`. From it
the repository builds Kubernetes documents (Namespace, Deployments,
PersistentVolumes, PersistentVolumeClaims) and a Docker Compose file. This
project models, as imperative Dafny proved against functional
specifications, the following parts:

- `find_platform_type` in both copies of the converter. It decides which
  plans the ontology asks for.
- The current Kubernetes generator
  (`ontology_python_tools/kubernetes_functions.py`). Pass 1 aggregates a
  volume table keyed by name prefix and one merged configuration per
  deployment name. Pass 2 resolves mounts, builds one Deployment per
  configuration, and emits one PersistentVolume and one claim per volume.
- The earlier Kubernetes generator (`kubernetes_functions.py`). It makes a
  single pass with one Deployment per pod instance and host-path volumes
  bound through `binds`.
- Both copies of the Docker Compose generator. They differ only in how a
  service's `environment` is built. The earlier one is proved to produce
  the same Compose file as the current one up to where `environment` sits
  among a service's keys: the current copy places it at the first `env_`
  property, the earlier one after every other key.

Modules:

- `Wrappers`, `Text`, `OrderedMaps`: Python semantics the generators rely on.
  - `str` methods, restricted to ASCII case mapping.
  - Dictionaries as insertion-ordered association lists.
  - `sorted` order on strings.
- `Ontology`: the individuals and the per-instance property data.
- `Selection`: the substring selectors.
- `Platform`: the platform classifier.
- `Manifests`: the Kubernetes document shapes and the Namespace choice.
- `KubeCurrent`, `KubeEarlier`: the two Kubernetes generators.
- `Compose`, `ComposeCurrent`, `ComposeEarlier`: the Compose generators.

Each loop of the source is a `method` whose `ensures` ties its result to a
fold over the input (`Aggregated`, `Collected`, `ServiceOf`, `ComposeOf`, …).
Lemmas then state what those folds mean.

The inputs are modelled as follows:

- An individual is an `Instance`. It holds its name, its class names, its
  data-property values keyed by lower-cased property name, and the
  individuals it `binds`.
- `onto.data_properties()` is the sequence `registry` of lower-cased
  property names.
- For `find_platform_type`, the printed labels `str(instance)` are the input
  `labels`.

The current Kubernetes generator can raise an exception. Those two exits
are modelled as `Err` results, `ContainerWithoutName` and
`NoNamespaceForVolumes`. `namespaces[0]` raises `IndexError` when volumes
exist but every namespace is "default", and `config["containers"][0]["name"]`
raises `KeyError` when the first container of a deployment has only an
image. The earlier generator has neither exit: it names the app after the
deployment when no container name is given (kubernetes_functions.py:167)
and falls back to one replica on a bad count (kubernetes_functions.py:119-124).
The model follows the code as written and adds a corrected second pass
(see "## Findings").
See "## Findings".

## Model

| member | source | states |
|---|---|---|
| Platform.FindPlatformType | ontology_python_tools/converter.py:42-64 | returns (kubernetes, docker); kubernetes iff some label is exactly "2024.Kubernetes", docker iff some label is one of the four Docker identifiers; the early `break` gives the full-scan result, and no label gives (false, false) |
| Platform.FullScanFlags | converter.py:33-55 | the earlier copy's scan: each flag is raised iff a matching label occurs |
| Selection.FindByKeyword | ontology_python_tools/docker_functions.py:1-15 | the name-or-class substring loop returns exactly the ordered filter of instances whose name, or some class name, contains the keyword |
| Selection.SelectMembers | docker_functions.py:1-15 | an instance is selected iff it is in the input and matches the rule |
| Selection.SelectPositions | kubernetes_functions.py:9-29 | the selection keeps exactly the matching positions, in input order, each once |
| KubeCurrent.FindKubernetesInstances | ontology_python_tools/kubernetes_functions.py:11-31 | selects exactly the instances with "Pod" or "Kubernetes_Volume" in the name or "Pod" in a class name; the class loop's re-test of the instance name adds nothing |
| KubeEarlier.FindKubernetesInstances | kubernetes_functions.py:9-29 | selects exactly the instances with "Pod" in the name or in a class name, in order |
| ComposeCurrent.FindDockerInstances | ontology_python_tools/docker_functions.py:1-15 | selects exactly the instances with "Docker_Container" in the name or a class name, in order, each once |
| ComposeEarlier.FindDockerInstances | docker_functions.py:1-15 | the earlier copy's text is the current selector's; it returns the same filter |
| Ontology.DataProperties | ontology_python_tools/kubernetes_functions.py:86 | the `data_props` dictionary has each lower-cased property name once, and exactly the registry's names |
| Ontology.FirstValuesGet | ontology_python_tools/kubernetes_functions.py:96-101 | `instance_data[p]` is the first value of `p` iff `p` is a data property the instance has values for, and absent otherwise |
| Ontology.FirstValuesDistinct | ontology_python_tools/kubernetes_functions.py:96-101 | with distinct property names, the instance data has distinct keys |
| Ontology.ParseIntRoundTrip | ontology_python_tools/kubernetes_functions.py:136-139 | `int()` parses the decimal text of any integer back to that integer |
| Ontology.ParseIntRejectsNonDigit | kubernetes_functions.py:119-124 | `int()` rejects text holding any printable ASCII character other than a digit, a sign or an underscore (a letter in either case, "/", "."), so the replicas fallback applies |
| OrderedMaps.DictFromPairs | ontology_python_tools/kubernetes_functions.py:164 | a dict built from pairs has each key once, in first-occurrence order, holding its last value |
| OrderedMaps.PutAllGet | ontology_python_tools/docker_functions.py:76 | after a sequence of assignments a key reads its last assigned value, and an unassigned key keeps its old value |
| OrderedMaps.PutGet | ontology_python_tools/docker_functions.py:74 | reading a dict after `m[k] = v` gives `v` at `k` and the old value elsewhere |
| OrderedMaps.PutKeys | ontology_python_tools/kubernetes_functions.py:108 | assignment keeps the key order and appends a new key at the end |
| OrderedMaps.LastValueAt | docker_functions.py:71 | the last pair for a key gives that key's value |
| Text.BeforeFirst | ontology_python_tools/docker_functions.py:94 | `s.split(":")[0]` is a prefix of `s` without the separator, ending where `s` ends or at a separator |
| Text.BeforeFirstAt | docker_functions.py:88 | corollary of `Text.BeforeFirst`: when the first separator is at position j, `split(sep)[0]` is the first j characters |
| Text.NotStartsWith | ontology_python_tools/docker_functions.py:71 | a string whose first character differs from the prefix's does not start with it |
| Text.LexLeTotal | ontology_python_tools/kubernetes_functions.py:237 | Python string order is total |
| Text.LexLeTransitive | ontology_python_tools/kubernetes_functions.py:237 | Python string order is transitive |
| Text.LexLeAntisymmetric | ontology_python_tools/kubernetes_functions.py:237 | Python string order is antisymmetric |
| Manifests.SmallestNonDefault | ontology_python_tools/kubernetes_functions.py:236-240 | the Namespace is absent iff every namespace is "default" ignoring case, and otherwise names the smallest non-default namespace |
| Manifests.SmallestExists | kubernetes_functions.py:201-204 | a set with a non-default namespace has a smallest one |
| Manifests.SmallestIsUnique | kubernetes_functions.py:201-204 | the chosen namespace is determined by the set |
| Manifests.SmallestNonDefaultOf | kubernetes_functions.py:201-211 | specification of the choice: None iff all default, else the smallest non-default |
| KubeCurrent.ExtractInstanceData | ontology_python_tools/kubernetes_functions.py:96-101 | the loop builds the first value of each property with values, in property order |
| KubeCurrent.CollectEnv | ontology_python_tools/kubernetes_functions.py:150-153 | the `env_` entries of the instance data, in order, keyed by the name with "env_" removed and upper-cased |
| KubeCurrent.MergePod | ontology_python_tools/kubernetes_functions.py:131-166 | merging one pod: the namespace is overwritten if asserted; replicas are overwritten only if `int()` accepts; a container is appended iff it has a name or an image; a mount is appended iff a mount path is given |
| KubeCurrent.AbsorbInstance | ontology_python_tools/kubernetes_functions.py:92-166 | one loop iteration of pass 1 gives `Absorb`: a name containing "volume" updates only the volume table; otherwise a name containing "pod" with a truthy `deployment_name` creates the config if it is missing, merges the pod into it, and adds its namespace |
| KubeCurrent.AggregatePass | ontology_python_tools/kubernetes_functions.py:91-166 | pass 1 equals the fold `Aggregated`. A "volume" name is handled only as a volume, even if it also contains "pod". The volume table is keyed by the text before the first "_". A deployment config is fetched or created with "default" and 1 |
| KubeCurrent.ConfigsByDeployment | ontology_python_tools/kubernetes_functions.py:119-131 | one config per distinct deployment name among pod instances, in order of first appearance; each config is the merge of exactly that name's pods, in order, from the defaults |
| KubeCurrent.ConfigKeys | ontology_python_tools/kubernetes_functions.py:119-131 | config keys are the distinct deployment names in first-appearance order; pods without a name contribute none |
| KubeCurrent.ConfigEntry | ontology_python_tools/kubernetes_functions.py:123-166 | a deployment's config is absent iff no pod names it, else the merge of its pods |
| KubeCurrent.MergeAllFields | ontology_python_tools/kubernetes_functions.py:134-166 | merged namespace is the last asserted one (else the default); replicas are the last value `int()` accepts (else the default); containers and mounts are all pods' in order |
| KubeCurrent.MergeAllScalars | ontology_python_tools/kubernetes_functions.py:134-139 | namespace and replicas: last asserted and last parseable value win |
| KubeCurrent.MergeAllLists | ontology_python_tools/kubernetes_functions.py:142-166 | containers and mounts accumulate over the pods in order |
| KubeCurrent.MergeAllDefaults | ontology_python_tools/kubernetes_functions.py:123-129 | corollary of `MergeAllFields`: with no namespace asserted the namespace is "default"; with no parseable replicas the count is 1 |
| KubeCurrent.VolumeTable | ontology_python_tools/kubernetes_functions.py:106-113 | the volume table is the volume entries assigned in turn: one key per distinct prefix, in first-occurrence order, with the last entry's volume (last wins) |
| KubeCurrent.VolumeTableFold | ontology_python_tools/kubernetes_functions.py:106-113 | only volume-branch instances with a truthy `volume_name` write the table |
| KubeCurrent.NamespacesAsserted | ontology_python_tools/kubernetes_functions.py:134-135 | the namespace set holds every namespace a named pod asserts, and nothing else except "default"; every config's namespace is among them |
| KubeCurrent.ContainerEnv | ontology_python_tools/kubernetes_functions.py:162-166 | after de-duplication each env key appears once, at its first position, with its last value |
| KubeCurrent.ResolveMounts | ontology_python_tools/kubernetes_functions.py:182-188 | mounts whose prefix has no volume are dropped; the others name the volume |
| KubeCurrent.ClaimVolumes | ontology_python_tools/kubernetes_functions.py:198-209 | one claim-backed volume per distinct resolvable prefix, in first-occurrence order, claim name = volume name + "c" |
| KubeCurrent.BuildDeployment | ontology_python_tools/kubernetes_functions.py:175-230 | a Deployment fails iff its first container has no name; otherwise every container gets the same mount list and the app label is the first container's name (or the deployment name with no containers) |
| KubeCurrent.BuildDeployments | ontology_python_tools/kubernetes_functions.py:175-230 | the loop over configs stops at the first failure |
| KubeCurrent.DeploymentsStopAtFailure | ontology_python_tools/kubernetes_functions.py:215 | once a config fails, later configs do not change the outcome |
| KubeCurrent.DeploymentsShape | ontology_python_tools/kubernetes_functions.py:175-230 | corollary of `DeploymentsFail` and `DeploymentsList`: deployments fail iff some config's first container is unnamed; otherwise one Deployment per config, in order |
| KubeCurrent.DeploymentsFail | ontology_python_tools/kubernetes_functions.py:215 | the `KeyError` happens iff some config's first container is unnamed |
| KubeCurrent.DeploymentsList | ontology_python_tools/kubernetes_functions.py:175-230 | without failure, the i-th Deployment is built from the i-th config |
| KubeCurrent.BuildStorage | ontology_python_tools/kubernetes_functions.py:242-269 | the PV and PVC arrays, one entry each per table key |
| KubeCurrent.StoragePaired | ontology_python_tools/kubernetes_functions.py:242-269 | one PV and one PVC per volume-table entry, in table order; the PV is named after the volume with its host path; each PVC is named PV name + "c", with the PV's storage, access modes and namespace |
| KubeCurrent.SynthesizedStorage | ontology_python_tools/kubernetes_functions.py:236-269 | when the generator returns with volumes, a Namespace document is returned, every PV and PVC is in that namespace, and each PVC is named its PV's name + "c" |
| KubeCurrent.Synthesize | ontology_python_tools/kubernetes_functions.py:175-271 | pass 2 equals `Synthesized`, including its two exception exits |
| KubeCurrent.SynthesizedFails | ontology_python_tools/kubernetes_functions.py:215-249 | the generator fails iff some first container is unnamed, or volumes exist and every namespace is "default" |
| KubeCurrent.GenerateKubernetesYamlFiles | ontology_python_tools/kubernetes_functions.py:77-271 | the whole generator is pass 1 then pass 2 over the de-duplicated data properties |
| KubeCurrent.GeneratedDeployments | ontology_python_tools/kubernetes_functions.py:119-230 | on success, exactly one Deployment per distinct deployment name in first-appearance order; its namespace and replicas come from merging that name's pods |
| KubeCurrent.ResolveSource | ontology_python_tools/kubernetes_functions.py:183-188 | every resolved mount names the volume of some mount request whose prefix is in the table |
| KubeCurrent.ClaimsOfCover | ontology_python_tools/kubernetes_functions.py:201-209 | every resolvable prefix gets its claim volume |
| KubeCurrent.MountsHaveClaims | ontology_python_tools/kubernetes_functions.py:181-269 | every `volumeMounts[].name` of a Deployment is a template volume of that Deployment, claiming name + "c", and a PVC of that name is emitted |
| KubeCurrent.SynthesizedCorrected | ontology_python_tools/kubernetes_functions.py:175-271 | the corrected pass 2: one Deployment per config with the config's name; as many PVs and PVCs as table entries; no failure |
| KubeCurrent.CorrectedExtendsAsWritten | ontology_python_tools/kubernetes_functions.py:175-271 | wherever the generator as written succeeds, the corrected one returns the same documents |
| KubeCurrent.NoNamespaceCrashes | ontology_python_tools/kubernetes_functions.py:237-249 | with a volume entry and no non-default namespace asserted by a named pod, the generator as written fails |
| KubeCurrent.VolumesKept | ontology_python_tools/kubernetes_functions.py:108 | corollary of `VolumeTable`: a volume entry leaves the volume table non-empty |
| KubeCurrent.ScenarioSelected | ontology_python_tools/kubernetes_functions.py:11-31 | `find_kubernetes_instances` keeps the scenario's pod (class "Pod") and volume (named "p1_Kubernetes_Volume"), in order |
| KubeCurrent.ScenarioPass1 | ontology_python_tools/kubernetes_functions.py:86-171 | pass 1 over the scenario's pod and volume yields namespace "default", volume "data" on "/srv" under key "p1", and deployment "web" with 3 replicas, container "c1"/"nginx" and a mount request "p1" at "/app/data" |
| KubeCurrent.ScenarioFacts | ontology_python_tools/kubernetes_functions.py:181-240 | after pass 1 on the p1_pod/volume scenario: no non-default namespace, a named first container, the mount resolving to "data", and claim "datac" |
| KubeCurrent.ScenarioMounts | ontology_python_tools/kubernetes_functions.py:181-212 | after pass 1 on the scenario, the mount resolves to "data" at "/app/data", with one claim volume "data"/"datac" |
| KubeCurrent.ScenarioAsWritten | ontology_python_tools/kubernetes_functions.py:236-249 | the generator as written, on the selected scenario individuals, fails with `NoNamespaceForVolumes` |
| KubeCurrent.ScenarioCorrected | ontology_python_tools/kubernetes_functions.py:175-271 | corrected, the selected scenario individuals yield no Namespace, Deployment "web" (3 replicas, container "c1"/"nginx" mounting "data" at "/app/data", claim volume "datac"), PV "data" and PVC "datac", all in "default" |
| KubeCurrent.UnnamedContainerScenario | ontology_python_tools/kubernetes_functions.py:215 | a deployment whose only container has just an image fails as written; corrected, its app label is the deployment name |
| KubeEarlier.ScanProperties | kubernetes_functions.py:104-127 | the property loop equals the `ScanData` fold over the instance's first values |
| KubeEarlier.ScanFields | kubernetes_functions.py:100-127 | each field is the first value of its property; namespace defaults to "default"; replicas default to 1, and a value `int()` rejects resets them to 1; env is every `env_` entry in order without de-duplication; the namespace set gets only an asserted namespace |
| KubeEarlier.ScanContainerFields | kubernetes_functions.py:110-115 | deployment name, container name and image are the first values of their properties |
| KubeEarlier.ScanNamespace | kubernetes_functions.py:101-118 | namespace: the asserted one, else "default"; only an asserted one is added to the set |
| KubeEarlier.ScanReplicas | kubernetes_functions.py:102-124 | replicas: the parsed value, 1 if it does not parse, 1 if absent |
| KubeEarlier.ScanEnv | kubernetes_functions.py:125-127 | one env entry per `env_` property, in property order, key = name without "env_", upper-cased |
| KubeEarlier.BindingOf | kubernetes_functions.py:133-141 | bound volume i is used only if it has a volume name, a host path and `i < len(mount_paths)`, and then its mount path is `mount_paths[i]` |
| KubeEarlier.BindingPositions | kubernetes_functions.py:133-146 | the used bindings are exactly the accepted bind positions, in order, each paired with the mount path at its own bind index |
| KubeEarlier.MountsOf | kubernetes_functions.py:144 | one `volumeMounts` entry per used binding |
| KubeEarlier.HostVolumesOf | kubernetes_functions.py:146 | one pod host-path volume per used binding (its pairing with the mounts is `MountsMatchVolumes`) |
| KubeEarlier.MountsMatchVolumes | kubernetes_functions.py:133-153 | `volumeMounts`, pod `volumes` and the table assignments have one entry per used binding; at each position the mount and the pod volume name the same volume, the mount has its binding's mount path, and the pod volume and the table entry its host path |
| KubeEarlier.EntriesOf | kubernetes_functions.py:149-153 | one volume-table assignment per used binding |
| KubeEarlier.BindingAppended | kubernetes_functions.py:144-153 | corollary of the definitions, used by `BindVolumes`: one more binding adds one mount, one pod volume and one table entry at the end |
| KubeEarlier.BindVolumes | kubernetes_functions.py:133-153 | the binding loop builds exactly those mounts, pod volumes and table assignments |
| KubeEarlier.CollectInstance | kubernetes_functions.py:94-193 | one iteration: a Deployment only with a truthy deployment name; `env` is present only when non-empty; app label = container name or deployment name |
| KubeEarlier.CollectAll | kubernetes_functions.py:93-193 | the instance loop equals the fold `Collected` |
| KubeEarlier.PodDeploymentFields | kubernetes_functions.py:156-193 | a Deployment exists iff the deployment name is truthy; its name, namespace (default "default"), replicas, app label, container and pod volumes come from the instance; the container's `volumeMounts` and the pod `volumes` have equal length and equal names position by position |
| KubeEarlier.CollectedDeploymentsSomes | kubernetes_functions.py:193 | the Deployments are the present optional ones, in order |
| KubeEarlier.CollectedDeployments | kubernetes_functions.py:156-193 | one Deployment per instance with a deployment name, in input order, with no merging of equal names |
| KubeEarlier.DeploymentsGrow | kubernetes_functions.py:193 | corollary of the definition of `Collected`: each instance appends at most its own Deployment |
| KubeEarlier.PutAllAppend | kubernetes_functions.py:149 | assignments in two batches equal the assignments in one |
| KubeEarlier.CollectedVolumes | kubernetes_functions.py:149-156 | the volume table is keyed by volume name, one key per distinct name in first-binding order, last binding wins; it includes instances without a deployment name |
| KubeEarlier.NamespacesFoldCollected | kubernetes_functions.py:116-118 | the namespace set is the union of each instance's additions |
| KubeEarlier.NamespacesFoldMember | kubernetes_functions.py:118 | a namespace is collected iff some instance adds it |
| KubeEarlier.InstanceNamespacesAsserted | kubernetes_functions.py:116-118 | an instance adds exactly the namespace it asserts |
| KubeEarlier.CollectedNamespaces | kubernetes_functions.py:116-118 | the namespace set holds exactly the asserted `related_namespace` values, even of instances without a deployment name |
| KubeEarlier.BuildPersistentVolumes | kubernetes_functions.py:218-231 | the PV loop builds exactly those documents |
| KubeEarlier.PersistentVolumesOfEntries | kubernetes_functions.py:149-231 | the PVs of a volume table built from assignments: one per key, named by the key, names distinct and exactly the assigned volume names, no namespace, host path and storage of the last assignment |
| KubeEarlier.GeneratedPersistentVolumes | kubernetes_functions.py:149-231 | the generator emits exactly one PV per distinct volume name of all accepted bindings, with the host path and storage of the last binding of that name |
| KubeEarlier.GenerateKubernetesYamlFiles | kubernetes_functions.py:77-233 | the generator returns the smallest non-default Namespace (or none), the collected Deployments and one PV per distinct volume name |
| Compose.ServiceScalars | ontology_python_tools/docker_functions.py:54-69 | `image`, `container_name` and `restart` hold the first value of their property when it has values, and are absent otherwise |
| Compose.ServiceLists | ontology_python_tools/docker_functions.py:60-66 | `volumes` and `networks` hold the whole value list when non-empty, and are absent otherwise |
| Compose.ServiceEnvironment | ontology_python_tools/docker_functions.py:71-74 | `environment` exists iff some `env_` property has a value; it maps each key (name without "env_", upper-cased) to its last value, in first-insertion order |
| Compose.StepKeys | ontology_python_tools/docker_functions.py:54-74 | one branch of the chain adds exactly the service key its property writes, and removes none |
| Compose.KeyOrderPresent | ontology_python_tools/docker_functions.py:36-74 | the current copy's key order lists each key of the service once, and only keys the service has |
| Compose.KeywordsAreNotEnv | ontology_python_tools/docker_functions.py:54-71 | no earlier branch of the chain shadows an `env_` name |
| Compose.ServiceEntries | ontology_python_tools/docker_functions.py:34-76 | one (service name, service) pair per container instance, position by position |
| Compose.ServicesByName | ontology_python_tools/docker_functions.py:35-76 | `services` has one key per distinct derived name, in first-occurrence order; a name holds the service of the last instance bearing it |
| Compose.ServicesFromInstances | ontology_python_tools/docker_functions.py:76 | every kept service is the service of some instance of that name |
| Compose.VolumeNamesMember | ontology_python_tools/docker_functions.py:92-95 | a volume name is collected iff it is the text before the first ":" of some entry |
| Compose.NetworksListed | ontology_python_tools/docker_functions.py:84-88 | a network is collected iff some service of the dictionary lists it |
| Compose.VolumesListed | ontology_python_tools/docker_functions.py:84-95 | a volume name is collected iff some service's volume entry yields it |
| Compose.KeptListsNonEmpty | ontology_python_tools/docker_functions.py:45-46 | a list present in a kept service is never empty |
| Compose.ComposeNetworks | ontology_python_tools/docker_functions.py:81-99 | top-level `networks` is the union of all kept services' networks, each declared once |
| Compose.ComposeOmitsNetworks | ontology_python_tools/docker_functions.py:98-99 | top-level `networks` is absent iff no kept service has networks |
| Compose.ComposeOmitsVolumes | ontology_python_tools/docker_functions.py:101-102 | top-level `volumes` is absent iff no kept service has volumes |
| Compose.SharedVolumeDeclaredOnce | ontology_python_tools/docker_functions.py:90-102 | "cache:/tmp" in several services declares the single volume "cache" |
| Compose.CollectNetworksAndVolumes | ontology_python_tools/docker_functions.py:81-95 | the collection loop yields exactly the union of the networks and of the volume names |
| Compose.AssembleCompose | ontology_python_tools/docker_functions.py:97-104 | version "3.9", the services, and `networks`/`volumes` only when non-empty |
| ComposeCurrent.BuildService | ontology_python_tools/docker_functions.py:36-74 | the property loop, with `setdefault` for `environment`, builds `ServiceOf` |
| ComposeCurrent.GenerateDockerCompose | ontology_python_tools/docker_functions.py:28-104 | the generator returns `ComposeOf` the container instances |
| ComposeEarlier.ScanMatchesCurrent | docker_functions.py:39-66 | the earlier scan is the current service with `environment` held apart in `env_vars`, which is empty exactly when the current one is absent |
| ComposeEarlier.EarlierServiceIsCurrent | docker_functions.py:64-69 | attaching `env_vars` only when non-empty gives the current copy's service |
| ComposeEarlier.BuildService | docker_functions.py:35-69 | the earlier property loop builds the same service as the current copy |
| ComposeEarlier.GenerateDockerCompose | docker_functions.py:27-98 | the earlier generator returns the current copy's Compose file as a value; key order inside a service is the subject of `EnvironmentMovesLast` |
| ComposeEarlier.LoopKeyOrderWithout | docker_functions.py:39-66 | the keys the earlier property loop writes, in order, are the current key order with `environment` removed |
| ComposeEarlier.EnvironmentMovesLast | docker_functions.py:64-69 | the earlier copy orders a service's keys as the current copy does, except that `environment` comes last instead of at its first `env_` property |
| ComposeEarlier.EnvironmentPlacementDiffers | docker_functions.py:64-69 | with `env_a` declared before `related_image`, the current copy writes `environment` before `image`, the earlier copy after it |

## Left out

- Printing, YAML dumping, argument parsing, ontology loading and file
  writes: I/O only.
- `find_kubernetes_data_assertions` and `find_docker_data_assertions`: they
  only print.
- `validator.py` is not part of this model. It calls the OWL reasoner and
  the owlready2 library.
- The owlready2 lookups are not modelled. These include `getattr` with
  `python_name` vs `name`, `prop[inst]` and `"#binds"`. An instance carries
  its values keyed by lower-cased property name and its bound instances.
- Property names assumed distinct after lower-casing: two data properties
  whose names differ only by case are assumed not to occur.
- Literal coercion is not modelled. Every value is held in its `str()`
  form; typed literals, floats and booleans are not distinguished.
- `int()` is modelled as decimal digits with an optional sign and
  surrounding ASCII blanks. Underscores and non-ASCII digits are not
  modelled.
- `lower()` and `upper()` are modelled on ASCII letters only.
- Python sets (the namespace set, the Compose `networks` and `volumes`) are
  Dafny sets. Their iteration order is not modelled.
- The key order inside a Kubernetes document is not modelled. Document
  keys are datatype fields. The key order inside a Compose service is
  modelled apart from the `Service` value, by `Compose.KeyOrder` and
  `ComposeEarlier.EarlierKeyOrder`.
- ComposeEarlier.GenerateDockerCompose: its `ensures` equates the earlier
  and current Compose files as values, which do not order a service's keys.
  The written files differ in where `environment` sits inside a service
  (`EnvironmentMovesLast`, `EnvironmentPlacementDiffers`). The methods do
  not compute the key order themselves.
- In-place updates of nested dictionaries are modelled on values. This
  covers `config` inside `deployment_configs`, `service` inside
  `compose["services"]` and `setdefault("environment", {})`. Aliasing
  between them is not modelled.
- The `apiVersion` and `kind` constants of each document are implied by its
  datatype rather than stored.
- KubeCurrent.Synthesize: the two exceptions are modelled as `Err` values.
  Which exception type is raised, and the partial output before it, are
  not modelled.

## Findings

| source | as written | input that shows it | evidently intended | confidence | as-written member | corrected member |
|---|---|---|---|---|---|---|
| ontology_python_tools/kubernetes_functions.py:237-262 | PV and PVC namespaces read `namespaces[0]` of the non-default namespace list, which is empty when every pod uses the default namespace | a pod "p1_pod" of deployment "web" with container "c1", image "nginx" and mount "/app/data", and a volume "data" on "/srv", no namespace asserted; `find_kubernetes_instances` keeps a volume only if its name holds "Kubernetes_Volume" (or a class name holds "Pod"), so through the converter the volume must be named like "p1_Kubernetes_Volume" | the documents are produced, in namespace "default" when no other is known: Deployment "web" with 3 replicas mounting volume "data" (claim "datac") at "/app/data", PV "data" on "/srv", PVC "datac" | not executed | KubeCurrent.ScenarioAsWritten, KubeCurrent.NoNamespaceCrashes | KubeCurrent.ScenarioCorrected, KubeCurrent.SynthesizedCorrected, KubeCurrent.CorrectedExtendsAsWritten |
| ontology_python_tools/kubernetes_functions.py:215 | the app label reads `config["containers"][0]["name"]`, but a container is kept when it has only an image | a pod with `deployment_name` "web" and `related_image` "nginx" but no `container_name` | the app label falls back to the deployment name, as it does when there are no containers | not executed | KubeCurrent.UnnamedContainerScenario | KubeCurrent.SynthesizedCorrected |
