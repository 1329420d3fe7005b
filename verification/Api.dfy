/**
 The objects the operator manages (GameType, Fleet, Server, Pod), the sidecar flags of a
 running pod, and the rules of the Kubernetes object store that the controllers rely on.

 All four kinds share one shape, `Obj<B>`: metadata, labels and a kind-specific body. A store
 is a map from names to objects. Namespaces are not modelled: a name identifies one object of
 its kind, and a pod is stored under the name of its server (the pod "<name>-pod").
 */
module Api {

  type Name = string

  datatype Option<+T> = None | Some(value: T)

  // ---------------------------------------------------------------- pod templates

  /** The value of an environment variable: literal text, or a reference to a pod field. */
  datatype EnvValue = Text(text: string) | FieldRef(path: string, apiVersion: string)

  datatype EnvVar = EnvVar(name: string, value: EnvValue)

  /** `rest` stands for every container field the operator never looks at. */
  datatype Container = Container(name: string, image: string, env: seq<EnvVar>, rest: int)

  datatype PodSpec = PodSpec(containers: seq<Container>, pullSecrets: seq<string>, rest: int)

  // ---------------------------------------------------------------- bodies

  /** Durations and times are nanoseconds. */
  datatype ServerSpec = ServerSpec(pod: PodSpec, timeout: Option<int>, force: bool)

  datatype FleetSpec = FleetSpec(
    server: ServerSpec, replicas: int, prioritizeAllowed: bool, agePriority: string)

  /** A fleet's spec, and `status.current_replicas`. */
  datatype FleetBody = FleetBody(spec: FleetSpec, current: int)

  /** A game type's spec, and `status.fleetName` and `status.fleetReplicas`. */
  datatype GameBody = GameBody(spec: FleetSpec, fleetName: Name, fleetReplicas: int)

  datatype Phase = Pending | Running | Succeeded | Failed | Unknown

  datatype PodBody = PodBody(spec: PodSpec, phase: Phase)

  // ---------------------------------------------------------------- objects

  datatype Meta = Meta(uid: nat, created: int, deleted: Option<int>, finalizers: set<string>)

  datatype Obj<+B> = Obj(meta: Meta, labels: map<string, string>, body: B)

  type Game = Obj<GameBody>
  type Fleet = Obj<FleetBody>
  type Server = Obj<ServerSpec>
  type Pod = Obj<PodBody>

  const SERVER_FINALIZER := "servers.unfamousthomas.me/finalizer"
  const FLEET_FINALIZER := "fleets.unfamousthomas.me/finalizer"
  const TYPE_FINALIZER := "gametype.unfamousthomas.me/finalizer"

  predicate Deleting<B>(o: Obj<B>) {
    o.meta.deleted.Some?
  }

  /** The object `k` is present and carries the finalizer `fin`. */
  predicate Held<B>(m: map<Name, Obj<B>>, k: Name, fin: string) {
    k in m && fin in m[k].meta.finalizers
  }

  function WithFinalizer<B>(o: Obj<B>, fin: string): Obj<B> {
    o.(meta := o.meta.(finalizers := o.meta.finalizers + {fin}))
  }

  function WithoutFinalizer<B>(o: Obj<B>, fin: string): Obj<B> {
    o.(meta := o.meta.(finalizers := o.meta.finalizers - {fin}))
  }

  predicate HasLabel<B>(o: Obj<B>, key: string, value: string) {
    key in o.labels && o.labels[key] == value
  }

  // ---------------------------------------------------------------- integer width

  const TWO_31: int := 0x8000_0000
  const TWO_32: int := 0x1_0000_0000

  /** The conversion of a Go int to int32. */
  function ToInt32(n: int): (r: int)
    ensures -TWO_31 <= r < TWO_31
    ensures r == n <==> -TWO_31 <= n < TWO_31
    ensures (r - n) % TWO_32 == 0
  {
    var m := n % TWO_32;
    if m < TWO_31 then m else m - TWO_32
  }

  // ---------------------------------------------------------------- store rules

  /** Delete: an object without finalizers goes at once, any other is only marked, once. */
  function Delete<B>(m: map<Name, Obj<B>>, k: Name, now: int): map<Name, Obj<B>>
    requires k in m
  {
    if m[k].meta.finalizers == {} then m - {k} else Mark(m, k, now)
  }

  /** Sets the deletion time unless it is already set. */
  function Mark<B>(m: map<Name, Obj<B>>, k: Name, now: int): map<Name, Obj<B>>
    requires k in m
  {
    if Deleting(m[k]) then m else m[k := m[k].(meta := m[k].meta.(deleted := Some(now)))]
  }

  /**
   Whether an update of `k` from `copy` to `o` is accepted: the stored object is still
   the copy that was read (otherwise the API server answers with a conflict), identity and
   times are not touched, and no finalizer is added to a deleting object.
   */
  predicate CanUpdate<B(==)>(m: map<Name, Obj<B>>, k: Name, copy: Obj<B>, o: Obj<B>) {
    && k in m && m[k] == copy
    && o.meta.uid == copy.meta.uid
    && o.meta.created == copy.meta.created
    && o.meta.deleted == copy.meta.deleted
    && (Deleting(copy) ==> o.meta.finalizers <= copy.meta.finalizers)
  }

  /** Storing `o`: a deleting object that lost its last finalizer goes. */
  function Put<B>(m: map<Name, Obj<B>>, k: Name, o: Obj<B>): map<Name, Obj<B>> {
    if Deleting(o) && o.meta.finalizers == {} then m - {k} else m[k := o]
  }

  /** A freshly created object. */
  function NewObj<B>(uid: nat, now: int, labels: map<string, string>, body: B): Obj<B> {
    Obj(Meta(uid, now, None, {}), labels, body)
  }

  // ---------------------------------------------------------------- the cluster

  /** The two flags a sidecar keeps. */
  datatype Sidecar = Sidecar(deleteAllowed: bool, shutdownRequested: bool)

  /** The operator's own environment: SIDECAR_IMAGE and IMAGE_PULL_SECRET_NAME. */
  datatype Config = Config(sidecarImage: string, pullSecret: string)

  datatype World = World(
    games: map<Name, Game>,
    fleets: map<Name, Fleet>,
    servers: map<Name, Server>,
    pods: map<Name, Pod>,
    sidecars: map<nat, Sidecar>,
    clock: int,
    nextUid: nat,
    config: Config)

  /** The sidecar of the pod with this uid; both flags start out false. */
  function SidecarOf(w: World, uid: nat): Sidecar {
    if uid in w.sidecars then w.sidecars[uid] else Sidecar(false, false)
  }

  function ServersOf(w: World, f: Name): set<Name> {
    set k | k in w.servers && HasLabel(w.servers[k], "fleet", f)
  }

  function FleetsOf(w: World, g: Name): set<Name> {
    set f | f in w.fleets && HasLabel(w.fleets[f], "type", g)
  }

  /** A list answer: the named objects, each once, in any order. */
  predicate IsListing(order: seq<Name>, names: set<Name>) {
    && (forall n :: n in order ==> n in names)
    && (forall n :: n in names ==> n in order)
    && forall i, j :: 0 <= i < j < |order| ==> order[i] != order[j]
  }

  lemma {:induction false} ListingSize(order: seq<Name>, names: set<Name>)
    requires IsListing(order, names)
    ensures |order| == |names|
  {
    if order != [] {
      var last := order[|order| - 1];
      var rest := order[..|order| - 1];
      assert order == rest + [last];
      assert forall n :: n in rest ==> n in order;
      forall n | n in names - {last} ensures n in rest {
        assert n in order;
      }
      ListingSize(rest, names - {last});
    }
  }
}
