/** `find_platform_type`: which deployment plans the ontology asks for. The
    two copies of the converter script hold the same function. */
module Platform {

  const KUBERNETES_IDENTIFIER := "2024.Kubernetes"

  const DOCKER_IDENTIFIERS: set<string> :=
    {"2024.Docker_Compose", "2024.Docker_Swarm", "2024.Docker_Engine", "2024.Docker"}

  /** The flags a scan of every instanceStr would leave, with no early exit:
      (Kubernetes requested, Docker requested). */
  function FullScan(labels: seq<string>): (bool, bool) {
    if labels == [] then (false, false)
    else
      var flags := FullScan(labels[..|labels| - 1]);
      var instanceStr := labels[|labels| - 1];
      (flags.0 || instanceStr == KUBERNETES_IDENTIFIER, flags.1 || instanceStr in DOCKER_IDENTIFIERS)
  }

  /** A full scan raises the Kubernetes flag iff some instanceStr is exactly
      "2024.Kubernetes" and the Docker flag iff some instanceStr is one of the four
      Docker identifiers; no instanceStr leaves both false. */
  lemma {:induction false} FullScanFlags(labels: seq<string>)
    ensures FullScan(labels).0 <==> KUBERNETES_IDENTIFIER in labels
    ensures FullScan(labels).1 <==> exists i :: 0 <= i < |labels| && labels[i] in DOCKER_IDENTIFIERS
  {
    if labels != [] {
      var n := |labels| - 1;
      FullScanFlags(labels[..n]);
      assert labels == labels[..n] + [labels[n]];
      if labels[n] in DOCKER_IDENTIFIERS {
        assert labels[n] in DOCKER_IDENTIFIERS;
      }
      if exists i :: 0 <= i < |labels| && labels[i] in DOCKER_IDENTIFIERS {
        var i :| 0 <= i < |labels| && labels[i] in DOCKER_IDENTIFIERS;
        if i < n {
          assert labels[..n][i] == labels[i];
        }
      }
    }
  }

  /** `str(instance)` for every individual, in order, is `labels`. The loop
      stops as soon as both flags are set; the result is that of a full scan,
      returned as (kubernetes, docker). */
  method FindPlatformType(labels: seq<string>) returns (kubernetes: bool, docker: bool)
    ensures (kubernetes, docker) == FullScan(labels)
    ensures kubernetes <==> KUBERNETES_IDENTIFIER in labels
    ensures docker <==> exists i :: 0 <= i < |labels| && labels[i] in DOCKER_IDENTIFIERS
  {
    kubernetes, docker := false, false;
    for i := 0 to |labels|
      invariant (kubernetes, docker) == FullScan(labels[..i])
    {
      assert labels[..i + 1][..i] == labels[..i];
      var instanceStr := labels[i];
      if instanceStr in DOCKER_IDENTIFIERS {
        docker := true;
      }
      if instanceStr == KUBERNETES_IDENTIFIER {
        kubernetes := true;
      }
      if docker && kubernetes {
        FullScanFlags(labels[..i + 1]);
        FullScanFlags(labels);
        var j :| 0 <= j < i + 1 && labels[..i + 1][j] in DOCKER_IDENTIFIERS;
        assert labels[j] in DOCKER_IDENTIFIERS;
        assert (kubernetes, docker) == FullScan(labels);
        break;
      }
    }
    assert labels[..|labels|] == labels;
    FullScanFlags(labels);
  }
}
