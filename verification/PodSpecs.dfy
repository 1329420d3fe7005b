/**
 How objects are built from their owners: the labels a fleet, a server and a pod inherit, and
 the pod template a server's pod gets (sidecar container and injected environment).
 */
module PodSpecs {
  import opened Api

  const DEFAULT_SIDECAR_IMAGE := "ghcr.io/unfamousthomas/sidecar:latest"

  /** Stands for the sidecar's port and pull policy. */
  const SIDECAR_REST: int := 8080

  function SidecarImage(config: Config): string {
    if config.sidecarImage == "" then DEFAULT_SIDECAR_IMAGE else config.sidecarImage
  }

  function SidecarContainer(config: Config): Container {
    Container("loputoo-sidecar", SidecarImage(config), [], SIDECAR_REST)
  }

  function LabelEnv(labels: map<string, string>, key: string, variable: string): seq<EnvVar> {
    if key in labels then [EnvVar(variable, Text(labels[key]))] else []
  }

  /** What the operator appends to the environment of a container. */
  function InjectedEnv(image: string, server: Name, labels: map<string, string>): seq<EnvVar> {
    [EnvVar("CONTAINER_IMAGE", Text(image)), EnvVar("SERVER_NAME", Text(server))]
    + LabelEnv(labels, "fleet", "FLEET_NAME")
    + LabelEnv(labels, "type", "GAME_NAME")
    + [EnvVar("POD_IP", FieldRef("status.podIP", "")), EnvVar("NODE_NAME", FieldRef("spec.nodeName", "v1"))]
  }

  function Inject(c: Container, server: Name, labels: map<string, string>): Container {
    c.(env := c.env + InjectedEnv(c.image, server, labels))
  }

  function BuildSpec(config: Config, server: Name, labels: map<string, string>, pod: PodSpec): PodSpec {
    var all := pod.containers + [SidecarContainer(config)];
    pod.(containers := seq(|all|, i requires 0 <= i < |all| => Inject(all[i], server, labels)),
         pullSecrets := pod.pullSecrets + [config.pullSecret])
  }

  // ---------------------------------------------------------------- building it in place

  method InjectAll(containers: array<Container>, server: Name, labels: map<string, string>)
    modifies containers
    ensures forall i :: 0 <= i < containers.Length ==> containers[i] == Inject(old(containers[i]), server, labels)
  {
    for i := 0 to containers.Length
      invariant forall j :: 0 <= j < i ==> containers[j] == Inject(old(containers[j]), server, labels)
      invariant forall j :: i <= j < containers.Length ==> containers[j] == old(containers[j])
    {
      var c := containers[i];
      var env := c.env + [EnvVar("CONTAINER_IMAGE", Text(c.image)), EnvVar("SERVER_NAME", Text(server))];
      if "fleet" in labels {
        env := env + [EnvVar("FLEET_NAME", Text(labels["fleet"]))];
      }
      if "type" in labels {
        env := env + [EnvVar("GAME_NAME", Text(labels["type"]))];
      }
      env := env + [EnvVar("POD_IP", FieldRef("status.podIP", "")), EnvVar("NODE_NAME", FieldRef("spec.nodeName", "v1"))];
      containers[i] := c.(env := env);
      assert env == c.env + InjectedEnv(c.image, server, labels);
    }
  }

  method GetPodSpec(config: Config, server: Name, labels: map<string, string>, pod: PodSpec)
    returns (spec: PodSpec, defaultImage: bool)
    ensures spec == BuildSpec(config, server, labels, pod)
    ensures defaultImage == (config.sidecarImage == "")
  {
    defaultImage := config.sidecarImage == "";
    var all := pod.containers + [SidecarContainer(config)];
    var containers := new Container[|all|](i requires 0 <= i < |all| => all[i]);
    InjectAll(containers, server, labels);
    spec := pod.(containers := containers[..], pullSecrets := pod.pullSecrets + [config.pullSecret]);
    assert spec.containers == BuildSpec(config, server, labels, pod).containers;
  }

  /** A Go map of labels: shared by everybody who holds it. */
  class LabelMap {
    var entries: map<string, string>

    constructor (entries: map<string, string>)
      ensures this.entries == entries
    {
      this.entries := entries;
    }
  }

  /**
   Passing labels on: the owner's own map gets the new entry and becomes the child's map; an
   owner without labels is left alone and the child gets a new map.
   */
  method InheritLabels(labels: LabelMap?, key: string, value: string) returns (child: LabelMap)
    modifies labels
    ensures labels != null ==> child == labels && child.entries == old(labels.entries)[key := value]
    ensures labels == null ==> fresh(child) && child.entries == map[key := value]
  {
    if labels == null {
      child := new LabelMap(map[]);
    } else {
      child := labels;
    }
    child.entries := child.entries[key := value];
  }

  // ---------------------------------------------------------------- what a container sees

  /** The value a variable ends up with: of several definitions the last one counts. */
  function Lookup(env: seq<EnvVar>, name: string): Option<EnvValue> {
    if env == [] then None
    else if env[|env| - 1].name == name then Some(env[|env| - 1].value)
    else Lookup(env[..|env| - 1], name)
  }

  lemma {:induction false} LookupConcat(a: seq<EnvVar>, b: seq<EnvVar>, name: string)
    ensures Lookup(a + b, name) == if Lookup(b, name).Some? then Lookup(b, name) else Lookup(a, name)
  {
    if b == [] {
      assert a + b == a;
    } else {
      assert (a + b)[..|a + b| - 1] == a + b[..|b| - 1];
      LookupConcat(a, b[..|b| - 1], name);
    }
  }

  lemma LookupLast(a: seq<EnvVar>, v: EnvVar, name: string)
    ensures Lookup(a + [v], name) == if v.name == name then Some(v.value) else Lookup(a, name)
  {
    assert (a + [v])[..|a|] == a;
  }

  /** What the injected variables resolve to, and that there are no others. */
  lemma InjectedLookup(image: string, server: Name, labels: map<string, string>)
    ensures Lookup(InjectedEnv(image, server, labels), "CONTAINER_IMAGE") == Some(Text(image))
    ensures Lookup(InjectedEnv(image, server, labels), "SERVER_NAME") == Some(Text(server))
    ensures Lookup(InjectedEnv(image, server, labels), "FLEET_NAME") == LabelValue(labels, "fleet")
    ensures Lookup(InjectedEnv(image, server, labels), "GAME_NAME") == LabelValue(labels, "type")
    ensures Lookup(InjectedEnv(image, server, labels), "POD_IP") == Some(FieldRef("status.podIP", ""))
    ensures Lookup(InjectedEnv(image, server, labels), "NODE_NAME") == Some(FieldRef("spec.nodeName", "v1"))
    ensures forall name :: !OperatorVariable(name) ==> Lookup(InjectedEnv(image, server, labels), name) == None
  {
    InjectedLookupOne(image, server, labels, "POD_IP");
    InjectedLookupOne(image, server, labels, "NODE_NAME");
    forall name | !OperatorVariable(name) ensures Lookup(InjectedEnv(image, server, labels), name) == None {
      InjectedLookupOne(image, server, labels, name);
    }
    InjectedLookupOne(image, server, labels, "CONTAINER_IMAGE");
    InjectedLookupOne(image, server, labels, "SERVER_NAME");
    InjectedLookupOne(image, server, labels, "FLEET_NAME");
    InjectedLookupOne(image, server, labels, "GAME_NAME");
  }

  /** The names the operator defines. */
  predicate OperatorVariable(name: string) {
    || name == "CONTAINER_IMAGE" || name == "SERVER_NAME" || name == "FLEET_NAME" || name == "GAME_NAME"
    || name == "POD_IP" || name == "NODE_NAME"
  }

  function LabelValue(labels: map<string, string>, key: string): Option<EnvValue> {
    if key in labels then Some(Text(labels[key])) else None
  }

  lemma LabelLookup(a: seq<EnvVar>, labels: map<string, string>, key: string, variable: string, name: string)
    ensures Lookup(a + LabelEnv(labels, key, variable), name) ==
            if variable == name && key in labels then LabelValue(labels, key) else Lookup(a, name)
  {
    if key in labels {
      LookupLast(a, EnvVar(variable, Text(labels[key])), name);
    } else {
      assert a + [] == a;
    }
  }

  lemma InjectedLookupOne(image: string, server: Name, labels: map<string, string>, name: string)
    ensures Lookup(InjectedEnv(image, server, labels), name) ==
      if name == "POD_IP" then Some(FieldRef("status.podIP", ""))
      else if name == "NODE_NAME" then Some(FieldRef("spec.nodeName", "v1"))
      else if name == "GAME_NAME" then LabelValue(labels, "type")
      else if name == "FLEET_NAME" then LabelValue(labels, "fleet")
      else if name == "SERVER_NAME" then Some(Text(server))
      else if name == "CONTAINER_IMAGE" then Some(Text(image))
      else None
  {
    var image := EnvVar("CONTAINER_IMAGE", Text(image));
    var own := EnvVar("SERVER_NAME", Text(server));
    var ip, node := EnvVar("POD_IP", FieldRef("status.podIP", "")), EnvVar("NODE_NAME", FieldRef("spec.nodeName", "v1"));
    var e2 := [image, own];
    var e3 := e2 + LabelEnv(labels, "fleet", "FLEET_NAME");
    var e4 := e3 + LabelEnv(labels, "type", "GAME_NAME");
    assert e4 + [ip] + [node] == e4 + [ip, node];
    LookupLast([], image, name);
    assert [] + [image] == [image] && [image] + [own] == e2;
    LookupLast([image], own, name);
    LabelLookup(e2, labels, "fleet", "FLEET_NAME", name);
    LabelLookup(e3, labels, "type", "GAME_NAME", name);
    LookupLast(e4, ip, name);
    LookupLast(e4 + [ip], node, name);
  }
}
