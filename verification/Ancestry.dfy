/** What a pod inherits down the chain GameType, Fleet, Server, Pod. */
module Ancestry {
  import opened Api
  import opened Admission
  import opened PodSpecs
  import opened Machine

  /**
   What one container of a pod is, given the container it is made from: its own fields and
   environment, then the operator's variables, which win over the container's own of that name.
   Without a label, FLEET_NAME and GAME_NAME stay what the container says.
   */
  ghost predicate MadeOf(c: Container, own: Container, labels: map<string, string>, k: Name) {
    && c.name == own.name && c.image == own.image && c.rest == own.rest && own.env <= c.env
    && Lookup(c.env, "CONTAINER_IMAGE") == Some(Text(own.image))
    && Lookup(c.env, "SERVER_NAME") == Some(Text(k))
    && Lookup(c.env, "FLEET_NAME") ==
         (if "fleet" in labels then Some(Text(labels["fleet"])) else Lookup(own.env, "FLEET_NAME"))
    && Lookup(c.env, "GAME_NAME") ==
         (if "type" in labels then Some(Text(labels["type"])) else Lookup(own.env, "GAME_NAME"))
    && Lookup(c.env, "POD_IP") == Some(FieldRef("status.podIP", ""))
    && Lookup(c.env, "NODE_NAME") == Some(FieldRef("spec.nodeName", "v1"))
    && forall name :: !OperatorVariable(name) ==> Lookup(c.env, name) == Lookup(own.env, name)
  }

  lemma InjectMakes(own: Container, labels: map<string, string>, k: Name)
    ensures MadeOf(Inject(own, k, labels), own, labels, k)
  {
    var added := InjectedEnv(own.image, k, labels);
    InjectedLookup(own.image, k, labels);
    forall name ensures Lookup(own.env + added, name) ==
      if Lookup(added, name).Some? then Lookup(added, name) else Lookup(own.env, name)
    {
      LookupConcat(own.env, added, name);
    }
  }

  /** The sidecar that the operator adds, before the environment. */
  predicate IsSidecar(c: Container, config: Config) {
    && c.name == "loputoo-sidecar"
    && (config.sidecarImage != "" ==> c.image == config.sidecarImage)
    && (config.sidecarImage == "" ==> c.image == "ghcr.io/unfamousthomas/sidecar:latest")
    && c.env == [] && c.rest == SIDECAR_REST
  }

  /** `pod` is what the pod of server `k` with these labels and this template has to be. */
  ghost predicate PodMadeFrom(pod: PodSpec, config: Config, k: Name, labels: map<string, string>, template: PodSpec) {
    && |pod.containers| == |template.containers| + 1
    && (forall i :: 0 <= i < |template.containers| ==>
          MadeOf(pod.containers[i], template.containers[i], labels, k))
    && (exists sidecar ::
          IsSidecar(sidecar, config) && MadeOf(pod.containers[|template.containers|], sidecar, labels, k))
    && pod.pullSecrets == template.pullSecrets + [config.pullSecret]
    && pod.rest == template.rest
  }

  lemma BuildMakes(config: Config, k: Name, labels: map<string, string>, template: PodSpec)
    ensures PodMadeFrom(BuildSpec(config, k, labels, template), config, k, labels, template)
  {
    var all := template.containers + [SidecarContainer(config)];
    var pod := BuildSpec(config, k, labels, template);
    forall i | 0 <= i < |all| ensures MadeOf(pod.containers[i], all[i], labels, k) {
      InjectMakes(all[i], labels, k);
    }
    assert IsSidecar(all[|template.containers|], config);
  }

  /** The pod of server `k`, created for fleet `f`, which was created for game type `g`. */
  function Descend(w: World, g: Name, f: Name, k: Name): (w': World)
    requires g in w.games
    ensures f in w'.fleets && k in w'.servers && k in w'.pods
  {
    var w1 := CreateFleet(w, g, w.games[g], f);
    var w2 := CreateServer(w1, f, w1.fleets[f], k);
    CreatePod(w2, k, w2.servers[k])
  }

  /**
   For every chain and every template: the pod has the template's containers in order, then one
   sidecar; each has its own environment as a prefix and still sees its own image, its pod's address
   and node, and the true server, fleet and game names, whatever the template defined; everything
   else is the template's; and the pod's labels are the game type's, overridden by type, fleet and
   server.
   */
  lemma PodKnowsItsAncestry(w: World, g: Name, f: Name, k: Name)
    requires g in w.games
    ensures var pod := Descend(w, g, f, k).pods[k];
      && (exists labels ::
            && "type" in labels && labels["type"] == g && "fleet" in labels && labels["fleet"] == f
            && PodMadeFrom(pod.body.spec, w.config, k, labels, w.games[g].body.spec.server.pod))
      && pod.labels == w.games[g].labels["type" := g]["fleet" := f]["server" := k]
      && pod.body.phase == Pending
  {
    var labels := w.games[g].labels["type" := g]["fleet" := f];
    BuildMakes(w.config, k, labels, w.games[g].body.spec.server.pod);
  }
}
