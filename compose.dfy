/** The Docker Compose file both copies of `generate_docker_compose` build:
    one service per container instance, keyed by a name derived from the
    instance name, and the top-level `networks` and `volumes` declarations
    collected from the services. The two copies differ only in how they fill
    a service's `environment`; `ServiceOf` is the current copy's, and the
    earlier copy is proved to agree with it except for where `environment`
    sits among the service's keys. */
module Compose {
  import opened Wrappers
  import opened Text
  import opened OrderedMaps
  import opened Ontology

  const COMPOSE_VERSION := "3.9"

  /** One entry of `services`. `None` stands for a key the service dictionary
      does not have. The order of the keys is not held here; `KeyOrder`
      gives it. */
  datatype Service = Service(
    image: Option<string>,
    containerName: Option<string>,
    volumes: Option<seq<string>>,
    networks: Option<seq<string>>,
    restart: Option<string>,
    environment: Option<seq<(string, string)>>)

  const EMPTY_SERVICE := Service(None, None, None, None, None, None)

  /** The whole file. `networks` and `volumes` are the names declared at the
      top level (each with an empty body), `None` when the key is absent. */
  datatype ComposeFile = ComposeFile(
    version: string,
    services: seq<(string, Service)>,
    networks: Option<set<string>>,
    volumes: Option<set<string>>)

  /** `inst.name.lower().replace("2024.", "").replace("_docker_container", "")`. */
  function ServiceName(name: string): string {
    ReplaceAll(ReplaceAll(ToLower(name), "2024.", ""), "_docker_container", "")
  }

  // ---------------------------------------------------------------
  // One service
  // ---------------------------------------------------------------

  /** The `if/elif` chain for one data property with a non-empty value list:
      a recognised name sets its key (lists keep every value, the others the
      first), an `env_` name sets a variable of `environment`, creating the
      dictionary at the first one, and any other name is ignored. */
  function ServiceStep(s: Service, p: string, values: seq<string>): Service
    requires values != []
  {
    if p == "related_image" then s.(image := Some(values[0]))
    else if p == "container_name" then s.(containerName := Some(values[0]))
    else if p == "volumes" then s.(volumes := Some(values))
    else if p == "networks" then s.(networks := Some(values))
    else if p == "restart_policy" then s.(restart := Some(values[0]))
    else if StartsWith(p, ENV_PREFIX) then
      s.(environment := Some(Put(s.environment.GetOr([]), EnvKey(p), values[0])))
    else s
  }

  /** The service built for `inst` by the loop over the data properties of
      the ontology, in registry order; properties without values are skipped. */
  function ServiceOf(inst: Instance, registry: seq<string>): Service {
    if registry == [] then EMPTY_SERVICE
    else
      var p := registry[|registry| - 1];
      var prev := ServiceOf(inst, registry[..|registry| - 1]);
      if Values(inst, p) == [] then prev else ServiceStep(prev, p, Values(inst, p))
  }

  /** Property `p` is declared and `inst` has values for it. */
  predicate Given(inst: Instance, registry: seq<string>, p: string) {
    p in registry && Values(inst, p) != []
  }

  /** The first value of a given single-valued property. */
  function FirstOf(inst: Instance, registry: seq<string>, p: string): Option<string> {
    if Given(inst, registry, p) then Some(Values(inst, p)[0]) else None
  }

  /** All the values of a given list-valued property. */
  function AllOf(inst: Instance, registry: seq<string>, p: string): Option<seq<string>> {
    if Given(inst, registry, p) then Some(Values(inst, p)) else None
  }

  /** The environment a service should carry: `None` when the instance has no
      `env_` value, else a dictionary of each variable's value, variables in
      the order of their first property. */
  function EnvironmentOf(inst: Instance, registry: seq<string>): Option<seq<(string, string)>> {
    var pairs := EnvPairs(FirstValues(inst, registry));
    if pairs == [] then None else Some(PutAll([], pairs))
  }

  lemma KeywordsAreNotEnv(p: string)
    requires p in {"related_image", "container_name", "volumes", "networks", "restart_policy"}
    ensures !StartsWith(p, ENV_PREFIX)
  {
    NotStartsWith(p, ENV_PREFIX);
  }

  /** The single-valued keys of a service hold the first value of their
      property when the instance has one, and are absent otherwise. */
  lemma {:induction false} ServiceScalars(inst: Instance, registry: seq<string>)
    ensures ServiceOf(inst, registry).image == FirstOf(inst, registry, "related_image")
    ensures ServiceOf(inst, registry).containerName == FirstOf(inst, registry, "container_name")
    ensures ServiceOf(inst, registry).restart == FirstOf(inst, registry, "restart_policy")
  {
    if registry != [] {
      var n := |registry| - 1;
      ServiceScalars(inst, registry[..n]);
      assert registry == registry[..n] + [registry[n]];
    }
  }

  /** `volumes` and `networks` hold every value of their property when the
      instance has some, and are absent otherwise. */
  lemma {:induction false} ServiceLists(inst: Instance, registry: seq<string>)
    ensures ServiceOf(inst, registry).volumes == AllOf(inst, registry, "volumes")
    ensures ServiceOf(inst, registry).networks == AllOf(inst, registry, "networks")
  {
    if registry != [] {
      var n := |registry| - 1;
      ServiceLists(inst, registry[..n]);
      assert registry == registry[..n] + [registry[n]];
    }
  }

  /** `environment` is absent iff the instance has no `env_` value, and
      otherwise holds the variables of its `env_` properties. */
  lemma {:induction false} ServiceEnvironment(inst: Instance, registry: seq<string>)
    ensures ServiceOf(inst, registry).environment == EnvironmentOf(inst, registry)
  {
    if registry != [] {
      var n := |registry| - 1;
      var init := registry[..n];
      var p := registry[n];
      ServiceEnvironment(inst, init);
      var data := FirstValues(inst, init);
      if Values(inst, p) != [] {
        var entry := (p, Values(inst, p)[0]);
        var data' := data + [entry];
        assert FirstValues(inst, registry) == data';
        assert data'[..|data'| - 1] == data;
        if p in {"related_image", "container_name", "volumes", "networks", "restart_policy"} {
          KeywordsAreNotEnv(p);
          assert EnvPairs(data') == EnvPairs(data);
        } else if StartsWith(p, ENV_PREFIX) {
          var pairs := EnvPairs(data);
          var pairs' := pairs + [(EnvKey(p), entry.1)];
          assert EnvPairs(data') == pairs';
          assert pairs'[..|pairs'| - 1] == pairs;
          assert PutAll([], pairs') == Put(PutAll([], pairs), EnvKey(p), entry.1);
        } else {
          assert EnvPairs(data') == EnvPairs(data);
        }
      } else {
        assert FirstValues(inst, registry) == data;
      }
    }
  }

  // ---------------------------------------------------------------
  // Key order inside a service
  // ---------------------------------------------------------------

  const ENVIRONMENT_KEY := "environment"

  /** The service key a data property writes, if any. */
  function KeyOf(p: string): Option<string> {
    if p == "related_image" then Some("image")
    else if p == "container_name" then Some("container_name")
    else if p == "volumes" then Some("volumes")
    else if p == "networks" then Some("networks")
    else if p == "restart_policy" then Some("restart")
    else if StartsWith(p, ENV_PREFIX) then Some(ENVIRONMENT_KEY)
    else None
  }

  /** The service dictionary has key `k`. */
  predicate HasKey(s: Service, k: string) {
    || (k == "image" && s.image.Some?)
    || (k == "container_name" && s.containerName.Some?)
    || (k == "volumes" && s.volumes.Some?)
    || (k == "networks" && s.networks.Some?)
    || (k == "restart" && s.restart.Some?)
    || (k == ENVIRONMENT_KEY && s.environment.Some?)
  }

  /** The order of the keys of the current copy's service dictionary, which
      the file keeps (`sort_keys=False`): a key takes its place at its first
      assignment (`setdefault` for `environment`), and later assignments
      leave it there. */
  function KeyOrder(inst: Instance, registry: seq<string>): seq<string> {
    if registry == [] then []
    else
      var p := registry[|registry| - 1];
      var prev := KeyOrder(inst, registry[..|registry| - 1]);
      if Values(inst, p) != [] && KeyOf(p).Some? && KeyOf(p).value !in prev then prev + [KeyOf(p).value]
      else prev
  }

  /** One branch of the chain adds exactly the key its property writes. */
  lemma StepKeys(s: Service, p: string, values: seq<string>, k: string)
    requires values != []
    ensures HasKey(ServiceStep(s, p, values), k) <==> HasKey(s, k) || KeyOf(p) == Some(k)
  {
    if p in {"related_image", "container_name", "volumes", "networks", "restart_policy"} {
      KeywordsAreNotEnv(p);
    }
  }

  /** The key order lists each key of the service once, and nothing else. */
  lemma {:induction false} KeyOrderPresent(inst: Instance, registry: seq<string>)
    ensures Distinct(KeyOrder(inst, registry))
    ensures forall k :: k in KeyOrder(inst, registry) <==> HasKey(ServiceOf(inst, registry), k)
  {
    if registry != [] {
      var n := |registry| - 1;
      var p := registry[n];
      KeyOrderPresent(inst, registry[..n]);
      if Values(inst, p) != [] {
        forall k
          ensures k in KeyOrder(inst, registry) <==> HasKey(ServiceOf(inst, registry), k)
        {
          StepKeys(ServiceOf(inst, registry[..n]), p, Values(inst, p), k);
        }
      }
    }
  }

  // ---------------------------------------------------------------
  // The services dictionary
  // ---------------------------------------------------------------

  /** `(service_name, service)` for each container instance, in order. */
  function ServiceEntries(insts: seq<Instance>, registry: seq<string>): (entries: seq<(string, Service)>)
    ensures |entries| == |insts|
    ensures forall i :: 0 <= i < |insts| ==>
              entries[i] == (ServiceName(insts[i].name), ServiceOf(insts[i], registry))
  {
    if insts == [] then []
    else
      var last := insts[|insts| - 1];
      ServiceEntries(insts[..|insts| - 1], registry) + [(ServiceName(last.name), ServiceOf(last, registry))]
  }

  /** `compose["services"]`: each entry assigned in turn, so a later instance
      with the same service name replaces an earlier one in place. */
  function Services(insts: seq<Instance>, registry: seq<string>): seq<(string, Service)> {
    PutAll([], ServiceEntries(insts, registry))
  }

  /** The service names of the instances, in order. */
  function ServiceNames(insts: seq<Instance>): seq<string> {
    seq(|insts|, i requires 0 <= i < |insts| => ServiceName(insts[i].name))
  }

  /** The services dictionary has one key per distinct service name, in order
      of first occurrence; a name present holds the service of the LAST
      instance bearing it. */
  lemma ServicesByName(insts: seq<Instance>, registry: seq<string>)
    ensures Keys(Services(insts, registry)) == Dedup(ServiceNames(insts))
    ensures Distinct(Keys(Services(insts, registry)))
    ensures forall i :: 0 <= i < |insts|
              && (forall j :: i < j < |insts| ==> ServiceName(insts[j].name) != ServiceName(insts[i].name))
              ==> Get(Services(insts, registry), ServiceName(insts[i].name)) == Some(ServiceOf(insts[i], registry))
  {
    var entries := ServiceEntries(insts, registry);
    DictFromPairs(entries);
    assert Keys(entries) == ServiceNames(insts);
    forall i | 0 <= i < |insts|
        && (forall j :: i < j < |insts| ==> ServiceName(insts[j].name) != ServiceName(insts[i].name))
      ensures Get(Services(insts, registry), ServiceName(insts[i].name)) == Some(ServiceOf(insts[i], registry))
    {
      LastValueAt(entries, i);
    }
  }

  /** Every service kept in the dictionary is the service of some instance
      of that name. */
  lemma ServicesFromInstances(insts: seq<Instance>, registry: seq<string>)
    ensures forall k :: 0 <= k < |Services(insts, registry)| ==>
              exists i :: 0 <= i < |insts| && Services(insts, registry)[k]
                == (ServiceName(insts[i].name), ServiceOf(insts[i], registry))
  {
    var entries := ServiceEntries(insts, registry);
    PutAllEntries([], entries);
    forall k | 0 <= k < |Services(insts, registry)|
      ensures exists i :: 0 <= i < |insts| && Services(insts, registry)[k]
                == (ServiceName(insts[i].name), ServiceOf(insts[i], registry))
    {
      var e := Services(insts, registry)[k];
      assert e in entries;
      var i :| 0 <= i < |entries| && entries[i] == e;
      assert e == (ServiceName(insts[i].name), ServiceOf(insts[i], registry));
    }
  }

  // ---------------------------------------------------------------
  // Top-level networks and volumes
  // ---------------------------------------------------------------

  /** The elements of an optional list (a missing key contributes nothing). */
  function Listed(o: Option<seq<string>>): set<string> {
    if o.Some? then set x | x in o.value else {}
  }

  /** `vol.split(":")[0]` for each volume entry, in order. */
  function VolumeNames(vols: seq<string>): set<string> {
    if vols == [] then {}
    else VolumeNames(vols[..|vols| - 1]) + {BeforeFirst(vols[|vols| - 1], ':')}
  }

  lemma {:induction false} VolumeNamesMember(vols: seq<string>, name: string)
    ensures name in VolumeNames(vols) <==>
      exists j :: 0 <= j < |vols| && BeforeFirst(vols[j], ':') == name
  {
    if vols != [] {
      var n := |vols| - 1;
      VolumeNamesMember(vols[..n], name);
      if j :| 0 <= j < |vols| && BeforeFirst(vols[j], ':') == name {
        if j < n {
          assert vols[..n][j] == vols[j];
        }
      }
      if name in VolumeNames(vols[..n]) {
        var j :| 0 <= j < n && BeforeFirst(vols[..n][j], ':') == name;
        assert vols[j] == vols[..n][j];
      }
    }
  }

  /** The networks named by the services, visited in dictionary order. */
  function NetworksOf(services: seq<(string, Service)>): set<string> {
    if services == [] then {}
    else NetworksOf(services[..|services| - 1]) + Listed(services[|services| - 1].1.networks)
  }

  /** The volume names of the services' volume entries. */
  function VolumesOf(services: seq<(string, Service)>): set<string> {
    if services == [] then {}
    else VolumesOf(services[..|services| - 1]) + VolumeNames(services[|services| - 1].1.volumes.GetOr([]))
  }

  /** The file written around a services dictionary. */
  function ComposeWith(services: seq<(string, Service)>): ComposeFile {
    var networks := NetworksOf(services);
    var volumes := VolumesOf(services);
    ComposeFile(COMPOSE_VERSION, services,
      if networks == {} then None else Some(networks),
      if volumes == {} then None else Some(volumes))
  }

  /** What `generate_docker_compose` returns for the container instances. */
  function ComposeOf(insts: seq<Instance>, registry: seq<string>): ComposeFile {
    ComposeWith(Services(insts, registry))
  }

  /** A network is declared iff some service of the dictionary lists it. */
  lemma {:induction false} NetworksListed(services: seq<(string, Service)>, net: string)
    ensures net in NetworksOf(services) <==>
      exists k :: 0 <= k < |services| && services[k].1.networks.Some? && net in services[k].1.networks.value
  {
    if services != [] {
      var n := |services| - 1;
      NetworksListed(services[..n], net);
      if net in NetworksOf(services[..n]) {
        var k :| 0 <= k < n && services[..n][k].1.networks.Some? && net in services[..n][k].1.networks.value;
        assert services[k] == services[..n][k];
      }
      if k :| 0 <= k < |services| && services[k].1.networks.Some? && net in services[k].1.networks.value {
        if k < n {
          assert services[..n][k] == services[k];
        }
      }
    }
  }

  /** A volume name is declared iff it is the part before the first `:` of
      some volume entry of some service of the dictionary. */
  lemma {:induction false} VolumesListed(services: seq<(string, Service)>, name: string)
    ensures name in VolumesOf(services) <==>
      exists k :: 0 <= k < |services| && services[k].1.volumes.Some?
        && name in VolumeNames(services[k].1.volumes.value)
  {
    if services != [] {
      var n := |services| - 1;
      VolumesListed(services[..n], name);
      if name in VolumesOf(services[..n]) {
        var k :| 0 <= k < n && services[..n][k].1.volumes.Some?
          && name in VolumeNames(services[..n][k].1.volumes.value);
        assert services[k] == services[..n][k];
      }
      if k :| (0 <= k < |services| && services[k].1.volumes.Some?
               && name in VolumeNames(services[k].1.volumes.value)) {
        if k < n {
          assert services[..n][k] == services[k];
        }
      }
    }
  }

  /** A list present in a kept service is never empty: a property without
      values sets no key. */
  lemma KeptListsNonEmpty(insts: seq<Instance>, registry: seq<string>, k: nat)
    requires k < |Services(insts, registry)|
    ensures var svc := Services(insts, registry)[k].1;
      && (svc.networks.Some? ==> svc.networks.value != [])
      && (svc.volumes.Some? ==> svc.volumes.value != [])
  {
    ServicesFromInstances(insts, registry);
    var i :| 0 <= i < |insts| && Services(insts, registry)[k] == (ServiceName(insts[i].name), ServiceOf(insts[i], registry));
    ServiceLists(insts[i], registry);
  }

  /** A network is declared iff some kept service lists it; it is declared
      once however many services list it. */
  lemma ComposeNetworks(insts: seq<Instance>, registry: seq<string>, net: string)
    ensures var c := ComposeOf(insts, registry);
      (c.networks.Some? && net in c.networks.value) <==>
        exists k :: 0 <= k < |c.services| && c.services[k].1.networks.Some?
          && net in c.services[k].1.networks.value
  {
    NetworksListed(Services(insts, registry), net);
  }

  /** A list that is present in a service is never empty, so the top-level
      `networks` key is absent iff no kept service has a `networks` key. */
  lemma ComposeOmitsNetworks(insts: seq<Instance>, registry: seq<string>)
    ensures var c := ComposeOf(insts, registry);
      c.networks.None? <==> forall k :: 0 <= k < |c.services| ==> c.services[k].1.networks.None?
  {
    var services := Services(insts, registry);
    if k :| 0 <= k < |services| && services[k].1.networks.Some? {
      KeptListsNonEmpty(insts, registry, k);
      NetworksListed(services, services[k].1.networks.value[0]);
    }
    if NetworksOf(services) != {} {
      var net :| net in NetworksOf(services);
      NetworksListed(services, net);
    }
  }

  /** Likewise the top-level `volumes` key is absent iff no kept service has
      a `volumes` key. */
  lemma ComposeOmitsVolumes(insts: seq<Instance>, registry: seq<string>)
    ensures var c := ComposeOf(insts, registry);
      c.volumes.None? <==> forall k :: 0 <= k < |c.services| ==> c.services[k].1.volumes.None?
  {
    var services := Services(insts, registry);
    if k :| 0 <= k < |services| && services[k].1.volumes.Some? {
      KeptListsNonEmpty(insts, registry, k);
      var vols := services[k].1.volumes.value;
      VolumeNamesMember(vols, BeforeFirst(vols[0], ':'));
      VolumesListed(services, BeforeFirst(vols[0], ':'));
    }
    if VolumesOf(services) != {} {
      var name :| name in VolumesOf(services);
      VolumesListed(services, name);
    }
  }

  /** Two services mounting the same named volume: the volume is declared
      once, by the part of the entry before the `:`. */
  lemma SharedVolumeDeclaredOnce(services: seq<(string, Service)>, k: nat)
    requires k < |services| && services[k].1.volumes == Some(["cache:/tmp"])
    requires forall j :: 0 <= j < |services| && services[j].1.volumes.Some? ==>
               services[j].1.volumes.value == ["cache:/tmp"]
    ensures ComposeWith(services).volumes == Some({"cache"})
  {
    BeforeFirstAt("cache:/tmp", ':', 5);
    assert "cache:/tmp"[..5] == "cache";
    assert VolumeNames(["cache:/tmp"]) == {"cache"} by {
      assert ["cache:/tmp"][..0] == [];
    }
    forall name ensures name in VolumesOf(services) <==> name in {"cache"} {
      VolumesListed(services, name);
    }
    assert VolumesOf(services) == {"cache"};
  }

  // ---------------------------------------------------------------
  // The collection loop
  // ---------------------------------------------------------------

  /** The loop over `compose["services"].items()` that fills the `networks`
      and `volumes` sets. */
  method CollectNetworksAndVolumes(services: seq<(string, Service)>) returns (networks: set<string>, volumes: set<string>)
    ensures networks == NetworksOf(services)
    ensures volumes == VolumesOf(services)
  {
    networks, volumes := {}, {};
    for i := 0 to |services|
      invariant networks == NetworksOf(services[..i])
      invariant volumes == VolumesOf(services[..i])
    {
      assert services[..i + 1][..i] == services[..i];
      var svc := services[i].1;
      if svc.networks.Some? {
        var nets := svc.networks.value;
        for j := 0 to |nets|
          invariant networks == NetworksOf(services[..i]) + set x | x in nets[..j]
        {
          assert nets[..j + 1] == nets[..j] + [nets[j]];
          networks := networks + {nets[j]};
        }
        assert nets[..|nets|] == nets;
      }
      if svc.volumes.Some? {
        var vols := svc.volumes.value;
        for j := 0 to |vols|
          invariant volumes == VolumesOf(services[..i]) + VolumeNames(vols[..j])
        {
          assert vols[..j + 1][..j] == vols[..j];
          volumes := volumes + {BeforeFirst(vols[j], ':')};
        }
        assert vols[..|vols|] == vols;
      }
    }
    assert services[..|services|] == services;
  }

  /** The tail of `generate_docker_compose`: the `networks` and `volumes`
      keys are added only when their sets are non-empty. */
  method AssembleCompose(services: seq<(string, Service)>) returns (compose: ComposeFile)
    ensures compose == ComposeWith(services)
  {
    var networks, volumes := CollectNetworksAndVolumes(services);
    compose := ComposeFile(COMPOSE_VERSION, services, None, None);
    if networks != {} {
      compose := compose.(networks := Some(networks));
    }
    if volumes != {} {
      compose := compose.(volumes := Some(volumes));
    }
  }
}
