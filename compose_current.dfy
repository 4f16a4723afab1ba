/** The current `ontology_python_tools/docker_functions.py`: selecting the
    container instances and generating the Compose file. Each service's
    `environment` dictionary is created on its first `env_` property
    (`setdefault`) and filled in place. */
module ComposeCurrent {
  import opened Wrappers
  import opened Text
  import opened OrderedMaps
  import opened Ontology
  import opened Selection
  import opened Compose

  const CONTAINER_KEYWORD := "Docker_Container"

  /** `find_docker_instances`: the instances with "Docker_Container" in their
      name or in the name of one of their classes, in input order. */
  method FindDockerInstances(all: seq<Instance>) returns (containerList: seq<Instance>)
    ensures containerList == Select(all, NameOrClass(CONTAINER_KEYWORD))
    ensures forall x :: x in containerList <==> x in all && Matches(NameOrClass(CONTAINER_KEYWORD), x)
  {
    containerList := FindByKeyword(all, CONTAINER_KEYWORD);
    forall x ensures x in containerList <==> x in all && Matches(NameOrClass(CONTAINER_KEYWORD), x) {
      SelectMembers(all, NameOrClass(CONTAINER_KEYWORD), x);
    }
  }

  /** The loop over `onto.data_properties()` for one container instance. */
  method BuildService(inst: Instance, registry: seq<string>) returns (service: Service)
    ensures service == ServiceOf(inst, registry)
  {
    service := EMPTY_SERVICE;
    for i := 0 to |registry|
      invariant service == ServiceOf(inst, registry[..i])
    {
      assert registry[..i + 1][..i] == registry[..i];
      var values := Values(inst, registry[i]);
      if values == [] {
        continue;
      }
      var propName := registry[i];
      if propName == "related_image" {
        service := service.(image := Some(values[0]));
      } else if propName == "container_name" {
        service := service.(containerName := Some(values[0]));
      } else if propName == "volumes" {
        service := service.(volumes := Some(values));
      } else if propName == "networks" {
        service := service.(networks := Some(values));
      } else if propName == "restart_policy" {
        service := service.(restart := Some(values[0]));
      } else if StartsWith(propName, ENV_PREFIX) {
        var key := EnvKey(propName);
        var environment := if service.environment.Some? then service.environment.value else [];
        service := service.(environment := Some(Put(environment, key, values[0])));
      }
    }
    assert registry[..|registry|] == registry;
  }

  /** `generate_docker_compose`: a service per container instance, assigned
      under its service name in turn, then the networks and volumes the
      services use. */
  method GenerateDockerCompose(containerList: seq<Instance>, registry: seq<string>) returns (compose: ComposeFile)
    ensures compose == ComposeOf(containerList, registry)
  {
    var services: seq<(string, Service)> := [];
    for i := 0 to |containerList|
      invariant services == PutAll([], ServiceEntries(containerList[..i], registry))
    {
      assert containerList[..i + 1][..i] == containerList[..i];
      var inst := containerList[i];
      var serviceName := ServiceName(inst.name);
      var service := BuildService(inst, registry);
      ghost var entries := ServiceEntries(containerList[..i + 1], registry);
      assert entries[..|entries| - 1] == ServiceEntries(containerList[..i], registry);
      services := Put(services, serviceName, service);
    }
    assert containerList[..|containerList|] == containerList;
    compose := AssembleCompose(services);
  }
}
