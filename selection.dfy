/** Picking the individuals a generator works on, by substring matches on
    their names and on the names of their classes. */
module Selection {
  import opened Text
  import opened Ontology

  /** The rules the selectors apply. */
  datatype Rule =
      /** the keyword occurs in the instance name or in one of its class names */
    | NameOrClass(keyword: string)
      /** "Pod" or "Kubernetes_Volume" occurs in the instance name, or "Pod"
          in one of its class names */
    | PodOrKubernetesVolume

  predicate SomeClassContains(classNames: seq<string>, keyword: string) {
    exists i :: 0 <= i < |classNames| && Contains(classNames[i], keyword)
  }

  predicate Matches(rule: Rule, inst: Instance) {
    match rule
    case NameOrClass(k) =>
      Contains(inst.name, k) || SomeClassContains(inst.classNames, k)
    case PodOrKubernetesVolume =>
      Contains(inst.name, "Pod") || Contains(inst.name, "Kubernetes_Volume")
      || SomeClassContains(inst.classNames, "Pod")
  }

  /** The instances of `all` that match `rule`, in input order. */
  function Select(all: seq<Instance>, rule: Rule): seq<Instance> {
    if all == [] then []
    else
      var last := all[|all| - 1];
      Select(all[..|all| - 1], rule) + (if Matches(rule, last) then [last] else [])
  }

  /** The selection holds exactly the matching positions of the input, each
      once and in input order: `idx` maps each selected element to the
      position it came from. */
  lemma {:induction false} SelectPositions(all: seq<Instance>, rule: Rule) returns (idx: seq<nat>)
    ensures |idx| == |Select(all, rule)|
    ensures forall j :: 0 <= j < |idx| ==> idx[j] < |all| && Select(all, rule)[j] == all[idx[j]]
    ensures forall j, k :: 0 <= j < k < |idx| ==> idx[j] < idx[k]
    ensures forall i :: 0 <= i < |all| ==> (i in idx <==> Matches(rule, all[i]))
  {
    if all == [] {
      idx := [];
    } else {
      var n := |all| - 1;
      var init := SelectPositions(all[..n], rule);
      if Matches(rule, all[n]) {
        idx := init + [n];
      } else {
        idx := init;
      }
    }
  }

  /** Membership: an instance is selected iff it is in the input and matches. */
  lemma {:induction false} SelectMembers(all: seq<Instance>, rule: Rule, x: Instance)
    ensures x in Select(all, rule) <==> x in all && Matches(rule, x)
  {
    if all != [] {
      var n := |all| - 1;
      SelectMembers(all[..n], rule, x);
      assert all == all[..n] + [all[n]];
    }
  }

  /** The loop shared by `find_docker_instances` (both copies) and the earlier
      `find_kubernetes_instances`: a name match appends and moves on, else the
      class names are tried in order and the first match appends. */
  method FindByKeyword(all: seq<Instance>, keyword: string) returns (selected: seq<Instance>)
    ensures selected == Select(all, NameOrClass(keyword))
  {
    selected := [];
    for i := 0 to |all|
      invariant selected == Select(all[..i], NameOrClass(keyword))
    {
      var inst := all[i];
      assert all[..i + 1][..i] == all[..i];
      if Contains(inst.name, keyword) {
        selected := selected + [inst];
        continue;
      }
      var j := 0;
      while j < |inst.classNames|
        invariant 0 <= j <= |inst.classNames|
        invariant forall k :: 0 <= k < j ==> !Contains(inst.classNames[k], keyword)
      {
        if Contains(inst.classNames[j], keyword) {
          selected := selected + [inst];
          break;
        }
        j := j + 1;
      }
    }
    assert all[..|all|] == all;
  }
}
