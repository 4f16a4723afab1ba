/** The earlier `docker_functions.py`: the same Compose file, except that the
    environment variables of a service are gathered in a separate dictionary
    that is attached only when it is non-empty. The generator is proved to
    produce the current one's file up to where `environment` sits among a
    service's keys (`EnvironmentMovesLast`). */
module ComposeEarlier {
  import opened Wrappers
  import opened Text
  import opened OrderedMaps
  import opened Ontology
  import opened Selection
  import opened Compose
  import ComposeCurrent

  /** `find_docker_instances`: this copy's text is the current copy's. */
  method FindDockerInstances(all: seq<Instance>) returns (containerList: seq<Instance>)
    ensures containerList == Select(all, NameOrClass(ComposeCurrent.CONTAINER_KEYWORD))
  {
    containerList := ComposeCurrent.FindDockerInstances(all);
  }

  /** The `if/elif` chain of this copy: `env_` values go to `envVars`. */
  function ScanStep(service: Service, envVars: Env, p: string, values: seq<string>): (Service, Env)
    requires values != []
  {
    if p == "related_image" then (service.(image := Some(values[0])), envVars)
    else if p == "container_name" then (service.(containerName := Some(values[0])), envVars)
    else if p == "volumes" then (service.(volumes := Some(values)), envVars)
    else if p == "networks" then (service.(networks := Some(values)), envVars)
    else if p == "restart_policy" then (service.(restart := Some(values[0])), envVars)
    else if StartsWith(p, ENV_PREFIX) then (service, Put(envVars, EnvKey(p), values[0]))
    else (service, envVars)
  }

  type Env = seq<(string, string)>

  /** The service and the `env_vars` dictionary after the property loop. */
  function Scan(inst: Instance, registry: seq<string>): (Service, Env) {
    if registry == [] then (EMPTY_SERVICE, [])
    else
      var p := registry[|registry| - 1];
      var prev := Scan(inst, registry[..|registry| - 1]);
      if Values(inst, p) == [] then prev else ScanStep(prev.0, prev.1, p, Values(inst, p))
  }

  /** The scan of this copy is the current copy's service with the
      environment held apart: the service part never has an `environment`,
      and the dictionary is the current environment, empty when absent. */
  lemma {:induction false} ScanMatchesCurrent(inst: Instance, registry: seq<string>)
    ensures Scan(inst, registry).0 == ServiceOf(inst, registry).(environment := None)
    ensures Scan(inst, registry).1 == ServiceOf(inst, registry).environment.GetOr([])
    ensures ServiceOf(inst, registry).environment.Some? ==> ServiceOf(inst, registry).environment.value != []
  {
    if registry != [] {
      var n := |registry| - 1;
      ScanMatchesCurrent(inst, registry[..n]);
    }
  }

  /** `if env_vars: service["environment"] = env_vars`: both copies build the
      same service for every instance. */
  lemma EarlierServiceIsCurrent(inst: Instance, registry: seq<string>)
    ensures var (service, envVars) := Scan(inst, registry);
      (if envVars == [] then service else service.(environment := Some(envVars))) == ServiceOf(inst, registry)
  {
    ScanMatchesCurrent(inst, registry);
  }

  /** `xs` without the occurrences of `x`. */
  function Without(xs: seq<string>, x: string): seq<string> {
    if xs == [] then []
    else Without(xs[..|xs| - 1], x) + (if xs[|xs| - 1] == x then [] else [xs[|xs| - 1]])
  }

  lemma {:induction false} WithoutMember(xs: seq<string>, x: string, y: string)
    ensures y in Without(xs, x) <==> y in xs && y != x
  {
    if xs != [] {
      WithoutMember(xs[..|xs| - 1], x, y);
      assert xs == xs[..|xs| - 1] + [xs[|xs| - 1]];
    }
  }

  /** The keys the property loop of this copy writes into the service, in
      order of first assignment; `environment` is not among them. */
  function LoopKeyOrder(inst: Instance, registry: seq<string>): seq<string> {
    if registry == [] then []
    else
      var p := registry[|registry| - 1];
      var prev := LoopKeyOrder(inst, registry[..|registry| - 1]);
      if Values(inst, p) != [] && KeyOf(p).Some? && KeyOf(p).value != ENVIRONMENT_KEY && KeyOf(p).value !in prev
      then prev + [KeyOf(p).value]
      else prev
  }

  /** The key order of this copy's service: `environment`, attached after
      the loop when `env_vars` is non-empty, comes after every other key. */
  function EarlierKeyOrder(inst: Instance, registry: seq<string>): seq<string> {
    LoopKeyOrder(inst, registry) + (if Scan(inst, registry).1 != [] then [ENVIRONMENT_KEY] else [])
  }

  lemma {:induction false} LoopKeyOrderWithout(inst: Instance, registry: seq<string>)
    ensures LoopKeyOrder(inst, registry) == Without(KeyOrder(inst, registry), ENVIRONMENT_KEY)
  {
    if registry != [] {
      var n := |registry| - 1;
      var p := registry[n];
      LoopKeyOrderWithout(inst, registry[..n]);
      var prev := KeyOrder(inst, registry[..n]);
      if Values(inst, p) != [] && KeyOf(p).Some? {
        WithoutMember(prev, ENVIRONMENT_KEY, KeyOf(p).value);
        if KeyOf(p).value !in prev {
          assert (prev + [KeyOf(p).value])[..|prev|] == prev;
        }
      }
    }
  }

  /** The two copies order a service's keys alike except for
      `environment`: the current copy puts it where its first `env_`
      property comes, this copy puts it last. */
  lemma EnvironmentMovesLast(inst: Instance, registry: seq<string>)
    ensures EarlierKeyOrder(inst, registry)
         == Without(KeyOrder(inst, registry), ENVIRONMENT_KEY)
            + (if ENVIRONMENT_KEY in KeyOrder(inst, registry) then [ENVIRONMENT_KEY] else [])
  {
    LoopKeyOrderWithout(inst, registry);
    ScanMatchesCurrent(inst, registry);
    KeyOrderPresent(inst, registry);
  }

  /** A container whose `env_a` property is declared before `related_image`. */
  const ENV_FIRST := Instance("web_Docker_Container", [], map["env_a" := ["1"], "related_image" := ["nginx"]], [])
  const ENV_FIRST_REGISTRY := ["env_a", "related_image"]

  /** The current copy writes `environment` first, then `image`. */
  lemma EnvFirstCurrentOrder()
    ensures KeyOrder(ENV_FIRST, ENV_FIRST_REGISTRY) == [ENVIRONMENT_KEY, "image"]
  {
    assert StartsWith("env_a", ENV_PREFIX);
    NotStartsWith("related_image", ENV_PREFIX);
    assert ENV_FIRST_REGISTRY[..1] == ["env_a"];
    assert ["env_a"][..0] == [];
    assert KeyOrder(ENV_FIRST, ["env_a"]) == [ENVIRONMENT_KEY];
  }

  /** For that container the current copy writes `environment` before
      `image`, this copy after it. */
  lemma EnvironmentPlacementDiffers()
    ensures KeyOrder(ENV_FIRST, ENV_FIRST_REGISTRY) == [ENVIRONMENT_KEY, "image"]
    ensures EarlierKeyOrder(ENV_FIRST, ENV_FIRST_REGISTRY) == ["image", ENVIRONMENT_KEY]
  {
    EnvFirstCurrentOrder();
    EnvironmentMovesLast(ENV_FIRST, ENV_FIRST_REGISTRY);
    var order: seq<string> := [ENVIRONMENT_KEY, "image"];
    assert order[..1] == [ENVIRONMENT_KEY];
    assert [ENVIRONMENT_KEY][..0] == [];
    assert Without([ENVIRONMENT_KEY], ENVIRONMENT_KEY) == [];
    assert "image"[0] != ENVIRONMENT_KEY[0];
    assert Without(order, ENVIRONMENT_KEY) == ["image"];
  }

  /** The loop over `onto.data_properties()` for one container instance. */
  method BuildService(inst: Instance, registry: seq<string>) returns (service: Service)
    ensures service == ServiceOf(inst, registry)
  {
    service := EMPTY_SERVICE;
    var envVars: Env := [];
    for i := 0 to |registry|
      invariant (service, envVars) == Scan(inst, registry[..i])
    {
      assert registry[..i + 1][..i] == registry[..i];
      var values := Values(inst, registry[i]);
      if values == [] {
        continue;
      }
      var propName := registry[i];
      if propName == "related_image" {
        service := service.(image := Some(values[0]));
      } else if propName == "container_name" {
        service := service.(containerName := Some(values[0]));
      } else if propName == "volumes" {
        service := service.(volumes := Some(values));
      } else if propName == "networks" {
        service := service.(networks := Some(values));
      } else if propName == "restart_policy" {
        service := service.(restart := Some(values[0]));
      } else if StartsWith(propName, ENV_PREFIX) {
        envVars := Put(envVars, EnvKey(propName), values[0]);
      }
    }
    assert registry[..|registry|] == registry;
    if envVars != [] {
      service := service.(environment := Some(envVars));
    }
    EarlierServiceIsCurrent(inst, registry);
  }

  /** `generate_docker_compose` of this copy: the current copy's file for
      every input, as `ComposeFile` values (which do not order a service's
      keys; see `EnvironmentMovesLast`). */
  method GenerateDockerCompose(containerList: seq<Instance>, registry: seq<string>) returns (compose: ComposeFile)
    ensures compose == ComposeOf(containerList, registry)
  {
    var services: seq<(string, Service)> := [];
    for i := 0 to |containerList|
      invariant services == PutAll([], ServiceEntries(containerList[..i], registry))
    {
      assert containerList[..i + 1][..i] == containerList[..i];
      var inst := containerList[i];
      var serviceName := ServiceName(inst.name);
      var service := BuildService(inst, registry);
      ghost var entries := ServiceEntries(containerList[..i + 1], registry);
      assert entries[..|entries| - 1] == ServiceEntries(containerList[..i], registry);
      services := Put(services, serviceName, service);
    }
    assert containerList[..|containerList|] == containerList;
    compose := AssembleCompose(services);
  }
}
