/** Creating a sandbox: the labelled container first, its dependencies behind it, and every
    failure after that abandoned. */
module DockerCreate {
  import opened Bytes
  import opened DockerWorld
  import opened DockerLifecycle
  import opened DockerSandboxes

  /** All of `w0` is still there, and beside it only the new sandbox and its sidecars; no network
      but the sandbox's own differs. */
  ghost predicate Kept(w0: World, w: World, id: nat, net: Option<string>) {
    && (forall c :: c in w0.containers ==> c in w.containers && w.containers[c] == w0.containers[c])
    && (forall c :: c in w.containers && c !in w0.containers ==> c == id || (net.Some? && Is(w, c, Sidecar(net.value))))
    && (forall m :: net != Some(m) ==> (m in w.networks <==> m in w0.networks))
    && (forall m :: net != Some(m) && m in w.networks ==> w.networks[m] == w0.networks[m])
  }

  lemma KeptGrown(w0: World, w1: World, w2: World, id: nat, n: string)
    requires Kept(w0, w1, id, Some(n)) && Grown(w1, w2, n)
    ensures Kept(w0, w2, id, Some(n))
  {
    forall c | c in w2.containers && c !in w0.containers
      ensures c == id || Is(w2, c, Sidecar(n))
    {
      assert c in w1.containers && c != id ==> Is(w1, c, Sidecar(n));
    }
  }

  /** Nothing the abandoned sandbox owns was there before it. */
  lemma KeptAbandoned(w0: World, w2: World, w3: World, id: nat, net: Option<string>)
    requires Tidy(w0) && id !in w0.containers && Kept(w0, w2, id, net) && Spared(w2, w3, id, net)
    requires net.Some? ==> forall c :: !Is(w0, c, Sidecar(net.value))
    ensures Kept(w0, w3, id, net)
  {
    forall c | c in w0.containers
      ensures c in w3.containers
    {
      NotOwned(w0, w2, c, id, net);
    }
    forall m | net != Some(m) && m in w3.networks
      ensures w3.networks[m] == w0.networks[m]
    {
      assert m in w2.networks && w2.networks[m] == w0.networks[m];
      assert forall c :: c in w3.networks[m].attached <==> c in w2.networks[m].attached && c in w3.containers;
      SameAttached(w0, w3, m);
    }
    forall c | c in w3.containers && c !in w0.containers
      ensures c == id || (net.Some? && Is(w3, c, Sidecar(net.value)))
    {
      assert c != id && net.Some? ==> Is(w2, c, Sidecar(net.value));
    }
  }

  lemma NotOwned(w0: World, w: World, c: nat, id: nat, net: Option<string>)
    requires Tidy(w0) && id !in w0.containers && c in w0.containers && c in w.containers && w.containers[c] == w0.containers[c]
    requires net.Some? ==> forall x :: !Is(w0, x, Sidecar(net.value))
    ensures !Owned(w, c, id, net)
  {
    assert forall role :: Is(w, c, role) <==> Is(w0, c, role);
  }

  lemma SameAttached(w0: World, w: World, m: string)
    requires m in w0.networks && m in w.networks && w.networks[m].managed == w0.networks[m].managed
    requires AttachedExist(w0) && forall c :: c in w0.containers ==> c in w.containers
    requires forall c :: c in w.networks[m].attached <==> c in w0.networks[m].attached && c in w.containers
    ensures w.networks[m] == w0.networks[m]
  {
    assert w.networks[m].attached == w0.networks[m].attached;
  }

  /** Clearing a sandbox restores the whole world, but for a network that had its name before. */
  lemma ClearedRestores(w0: World, w: World, id: nat, net: Option<string>)
    requires Kept(w0, w, id, net) && Cleared(w, id, net)
    ensures w == if net.Some? then WithoutNetwork(w0, net.value) else w0
    ensures net.Some? && net.value !in w0.networks ==> w == w0
  {
    forall c
      ensures c in w.containers <==> c in w0.containers
    {
    }
    assert w.containers == w0.containers;
    var v := if net.Some? then WithoutNetwork(w0, net.value) else w0;
    forall m
      ensures m in w.networks <==> m in v.networks
    {
    }
    assert w.networks == v.networks;
    assert net.Some? && net.value !in w0.networks ==> v.networks == w0.networks;
  }

  // The calls of a create, behind those already made.

  function ConnectPlan(asks: seq<Ask>, id: nat, n: string, services: seq<Service>): (plan: seq<Ask>)
    ensures |plan| >= |asks|
  {
    RealizePlan(asks, n, services) + [LeaveIsolation(id)] + [Join(n, id)]
  }

  function BringUpPlan(asks: seq<Ask>, id: nat, net: Option<string>, services: seq<Service>): (plan: seq<Ask>)
    ensures |plan| >= |asks|
  {
    (if net.Some? then ConnectPlan(asks, id, net.value, services) else asks) + [StartSandbox(id)] + [SeeSandbox(id)]
  }

  /** The image and the container; its sidecars, and the move onto their network; its start, and the
      look at whether it runs. */
  function CreatePlan(asks: seq<Ask>, id: nat, name: Option<string>, services: seq<Service>): (plan: seq<Ask>)
    ensures |plan| >= |asks|
  {
    BringUpPlan(asks + [HaveImage] + [AddContainer(name)], id, Label(name, services), services)
  }

  /** Every sidecar is started and seen healthy before the sandbox leaves its isolated network for
      theirs, and only then is it started itself and looked at. */
  lemma EverythingSeen(asks: seq<Ask>, id: nat, name: Option<string>, services: seq<Service>, i: nat)
    ensures var plan := CreatePlan(asks, id, name, services);
      |plan| >= |asks| + 4 && plan[|plan| - 2..] == [StartSandbox(id), SeeSandbox(id)]
    ensures i < |services| && name.Some? ==>
      var plan, n := CreatePlan(asks, id, name, services), NetworkName(name.value);
      && |plan| > |asks| + 4 && plan[|plan| - 4..|plan| - 2] == [LeaveIsolation(id), Join(n, id)]
      && Among(plan, |asks|, |plan| - 4, StartContainer(SidecarName(n, services[i])))
      && (services[i].health.Some? ==> Among(plan, |asks|, |plan| - 4, SeeHealth(SidecarName(n, services[i]))))
  {
    var more := asks + [HaveImage] + [AddContainer(name)];
    var plan := CreatePlan(asks, id, name, services);
    if i < |services| && name.Some? {
      var n := NetworkName(name.value);
      var up := RealizePlan(more, n, services);
      var started := EverySidecarSeen(more, n, services, i);
      assert plan == up + [LeaveIsolation(id)] + [Join(n, id)] + [StartSandbox(id)] + [SeeSandbox(id)];
      AmongWider(up, plan, |more|, started, |asks|, |up|, StartContainer(SidecarName(n, services[i])));
      if services[i].health.Some? {
        AmongWider(up, plan, started, |up|, |asks|, |up|, SeeHealth(SidecarName(n, services[i])));
      }
    }
  }

  lemma AmongWider(plan: seq<Ask>, longer: seq<Ask>, from: nat, to: nat, low: nat, high: nat, ask: Ask)
    requires Among(plan, from, to, ask) && plan <= longer && low <= from && to <= high <= |longer|
    ensures Among(longer, low, high, ask)
  {
    var k :| from <= k < to <= |plan| && plan[k] == ask;
    assert longer[k] == ask;
  }

  lemma CreateFine(d: Daemon, asks: seq<Ask>, id: nat, name: Option<string>, services: seq<Service>)
    ensures var more := asks + [HaveImage] + [AddContainer(name)];
      d.Fine(|asks|, |CreatePlan(asks, id, name, services)|)
      <==> d.fates(|asks|) == d.fates(|asks| + 1) == Works && d.Fine(|more|, |BringUpPlan(more, id, Label(name, services), services)|)
  {
  }

  /** The sidecars, then off the isolated network and onto theirs. */
  method ConnectSidecars(d: Daemon, id: nat, n: string, services: seq<Service>) returns (ok: bool)
    requires d.Valid() && Is(d.world, id, Primary(Some(n))) && forall c :: !Is(d.world, c, Sidecar(n))
    modifies d
    ensures d.Valid() && d.Later() && Grown(old(d.world), d.world, n)
    ensures n !in old(d.world).networks ==> Sweepable(d.world, n, Some(id))
    ensures ok ==> n in d.world.networks && d.world.networks[n].managed && id in d.world.networks[n].attached
    ensures ok ==> AllServe(d.world, n, services)
    ensures n in old(d.world).networks ==> !ok && d.world == old(d.world)
    ensures ok ==> d.asked == ConnectPlan(old(d.asked), id, n, services)
    ensures ok <==> Realizable(old(d.world), n, services) && d.Fine(old(d.calls), |ConnectPlan(old(d.asked), id, n, services)|)
    ensures old(d.Working()) ==> d.Working()
  {
    ghost var w0, from := d.world, d.calls;
    ghost var undoing;
    ok, undoing := Realize(d, n, services);
    assert Is(d.world, id, Primary(Some(n)));
    if !ok {
      return;
    }
    ok := SwitchNetwork(d, id, n, services, w0, from);
  }

  /** Off the isolated network and onto the sidecars'. */
  method SwitchNetwork(d: Daemon, id: nat, n: string, services: seq<Service>, ghost w0: World, ghost from: nat) returns (ok: bool)
    requires d.Valid() && Is(d.world, id, Primary(Some(n))) && Grown(w0, d.world, n) && from <= d.calls && d.Fine(from, d.calls)
    requires n in d.world.networks && d.world.networks[n].managed && AllServe(d.world, n, services)
    modifies d
    ensures d.Valid() && d.Later() && Grown(w0, d.world, n)
    ensures Sweepable(old(d.world), n, None) ==> Sweepable(d.world, n, Some(id))
    ensures ok ==> n in d.world.networks && d.world.networks[n].managed && id in d.world.networks[n].attached
    ensures ok ==> AllServe(d.world, n, services)
    ensures ok ==> d.asked == old(d.asked) + [LeaveIsolation(id)] + [Join(n, id)]
    ensures ok <==> d.Fine(from, old(d.calls) + 2)
    ensures old(d.Working()) ==> d.Working()
  {
    FineTwo(d, from, d.calls);
    ok := d.Probe(LeaveIsolation(id));
    if !ok {
      return;
    }
    ghost var w := d.world;
    var reply := d.Connect(n, id);
    GrownAttach(w0, w, n, id);
    AttachServes(w, n, id, services);
    ok := reply == Success;
  }

  lemma GrownAttach(w0: World, w: World, n: string, id: nat)
    requires Grown(w0, w, n)
    ensures Grown(w0, Attach(w, n, id), n)
    ensures Sweepable(w, n, None) ==> Sweepable(Attach(w, n, id), n, Some(id))
  {
    var v := Attach(w, n, id);
    assert forall c, role :: Is(v, c, role) <==> Is(w, c, role);
  }

  lemma AttachServes(w: World, n: string, id: nat, services: seq<Service>)
    requires AllServe(w, n, services)
    ensures AllServe(Attach(w, n, id), n, services)
  {
    forall i | 0 <= i < |services|
      ensures Serves(Attach(w, n, id), n, services[i])
    {
      assert Serves(w, n, services[i]);
      var c :| Is(w, c, Sidecar(n)) && Named(w, c, SidecarName(n, services[i]));
      assert Is(Attach(w, n, id), c, Sidecar(n)) && Named(Attach(w, n, id), c, SidecarName(n, services[i]));
    }
  }

  /** The container exists under its label, on its network, beside all of its sidecars. */
  ghost predicate Ready(w: World, id: nat, net: Option<string>, services: seq<Service>) {
    && Is(w, id, Primary(net))
    && (net.Some? ==> net.value in w.networks && w.networks[net.value].managed && id in w.networks[net.value].attached && AllServe(w, net.value, services))
  }

  /** Connects, starts and verifies; `runs` is whether the container is found running. */
  method BringUp(d: Daemon, id: nat, net: Option<string>, services: seq<Service>, runs: bool) returns (ok: bool)
    requires d.Valid() && Is(d.world, id, Primary(net)) && (net.Some? ==> forall c :: !Is(d.world, c, Sidecar(net.value)))
    modifies d
    ensures d.Valid() && d.Later()
    ensures Risen(old(d.world), d.world, id, net)
    ensures net.Some? && net.value in old(d.world).networks ==> !ok
    ensures ok ==> runs && Ready(d.world, id, net, services)
    ensures ok ==> d.asked == BringUpPlan(old(d.asked), id, net, services)
    ensures ok <==> runs && (net.Some? ==> Realizable(old(d.world), net.value, services)) && d.Fine(old(d.calls), |BringUpPlan(old(d.asked), id, net, services)|)
    ensures old(d.Working()) ==> d.Working()
  {
    ghost var from := d.calls;
    ok := true;
    if net.Some? {
      ok := ConnectSidecars(d, id, net.value, services);
    }
    if ok {
      ok := StartAndSee(d, id, runs, from);
    }
  }

  /** The sandbox's own start, and the inspection that has to find it running. */
  method StartAndSee(d: Daemon, id: nat, runs: bool, ghost from: nat) returns (ok: bool)
    requires d.Valid() && from <= d.calls && d.Fine(from, d.calls)
    modifies d
    ensures d.Valid() && d.Later() && d.world == old(d.world)
    ensures ok ==> d.asked == old(d.asked) + [StartSandbox(id)] + [SeeSandbox(id)]
    ensures ok <==> runs && d.Fine(from, old(d.calls) + 2)
    ensures old(d.Working()) ==> d.Working()
  {
    FineTwo(d, from, d.calls);
    ok := d.Probe(StartSandbox(id));
    if ok {
      ok := d.Probe(SeeSandbox(id));
      ok := ok && runs;
    }
  }

  /** The world with the new sandbox's container and nothing else of it. */
  function Alone(w: World, id: nat, name: Option<string>, services: seq<Service>): World {
    WithContainer(w, id, Container(name, Primary(Label(name, services))))
  }

  /** What a create may leave behind it, `r` being what it returned. */
  ghost predicate Left(w0: World, w: World, id: nat, name: Option<string>, services: seq<Service>, r: Option<nat>) {
    var net := Label(name, services);
    && Kept(w0, w, id, net)
    && (r.Some? ==> r.value == id && Ready(w, id, net, services))
    && (id in w.containers ==> Is(w, id, Primary(net)))
    && (!NetworkTaken(w0, name, services) ==> Deletable(w, id, net))
    && (NetworkTaken(w0, name, services) ==> r.None?)
    && (NetworkTaken(w0, name, services) && w0.networks[net.value].attached != {} ==> w.networks == w0.networks)
  }

  /** The names a create needs are free, and its sidecars become healthy. */
  predicate Creatable(w: World, name: Option<string>, services: seq<Service>) {
    && NameFree(w, name) && AllHeal(services) && !NetworkTaken(w, name, services)
    && (services != [] ==> name.Some? && ServicesFree(w, NetworkName(name.value), services))
  }

  /** What a create with a taken network comes to on a working daemon. */
  function AfterTaken(w: World, id: nat, name: Option<string>, services: seq<Service>): World
    requires NetworkTaken(w, name, services)
  {
    var n := Label(name, services).value;
    if w.networks[n].attached == {} then WithoutNetwork(w, n) else Alone(w, id, name, services)
  }

  /** Creates a sandbox; a sandbox with sidecars must be named. `abandoned` is the call at which
      cleanup began, if it did: after the container was created, and without success.
      - Success: everything the sandbox needs is there, and it runs. A create succeeds if and only
        if its names are free, its sidecars are found healthy and its container running, and every call of its plan is carried
        out and answered: each sidecar's start and health, the move onto their network, the sandbox's
        own start and inspection.
      - Always: what was there before is kept, apart from an empty network that already had the
        sandbox's network name; and what is left of the sandbox, at the end and between any two
        calls, is its labelled container with nobody else on its network, so that a delete can finish.
      - Failure on a working daemon, or with a cleanup that works: the world is as it was.
      - A network that already has the name makes the create fail. On a working daemon it survives
        if and only if somebody is on it, and then the new container stays behind. */
  method Create(d: Daemon, name: Option<string>, services: seq<Service>, idOk: bool, runs: bool)
      returns (r: Option<nat>, ghost abandoned: Option<nat>)
    requires d.Valid()
    modifies d
    ensures d.Valid() && d.Later()
    ensures Left(old(d.world), d.world, old(d.next), name, services, r) && (r.Some? ==> idOk && runs)
    ensures Joinless(d.guests, Label(name, services)) ==> Recoverable(d.history, old(d.next), Label(name, services))
    ensures abandoned.Some? <==> r.None? && Admitted(old(d.world), d.fates, old(d.calls), name, services)
    ensures abandoned.Some? ==> old(d.calls) + 2 <= abandoned.value <= d.calls
    ensures abandoned.Some? && d.AllWork(abandoned.value) && !NetworkTaken(old(d.world), name, services) ==> d.world == old(d.world)
    ensures old(d.Working()) && r.None? && !NetworkTaken(old(d.world), name, services) ==> d.world == old(d.world)
    ensures r.Some? ==> d.asked == CreatePlan(old(d.asked), old(d.next), name, services)
    ensures r.Some?
      <==> idOk && runs && Creatable(old(d.world), name, services) && d.Fine(old(d.calls), |CreatePlan(old(d.asked), old(d.next), name, services)|)
    ensures old(d.Working()) && NameFree(old(d.world), name) && NetworkTaken(old(d.world), name, services)
      ==> d.world == AfterTaken(old(d.world), old(d.next), name, services)
  {
    ghost var w0 := d.world;
    CreateFine(d, d.asked, d.next, name, services);
    var created, id := Admit(d, name, services);
    r, abandoned := None, None;
    if created {
      r, abandoned := Complete(d, w0, id, name, services, idOk, runs);
    }
    CreateHistory(d, id, Label(name, services));
  }

  /** The image and then the container, which nothing depends on yet. */
  method Admit(d: Daemon, name: Option<string>, services: seq<Service>) returns (created: bool, id: nat)
    requires d.Valid()
    modifies d
    ensures d.Valid() && d.Later() && id == old(d.next)
    ensures created <==> Admitted(old(d.world), d.fates, old(d.calls), name, services)
    ensures created ==> d.world == Alone(old(d.world), id, name, services) && d.calls == old(d.calls) + 2
    ensures created ==> d.asked == old(d.asked) + [HaveImage] + [AddContainer(name)]
    ensures !created ==> Left(old(d.world), d.world, id, name, services, None)
    ensures id in d.roles ==> d.roles[id] == Primary(Label(name, services))
    ensures old(d.Working()) ==> d.Working() && (!created ==> d.world == old(d.world))
  {
    id := d.next;
    AloneLeft(d.world, id, name, services);
    if services != [] && name.None? {
      return false, id;
    }
    created := d.Probe(HaveImage);
    if created {
      var reply, _ := d.CreateContainer(Container(name, Primary(Label(name, services))), None);
      created := reply == Success;
    }
  }

  /** The container gets created: the spec is sound, its name is free and the first two calls are
      carried out and answered. */
  predicate Admitted(w: World, fates: nat -> Fate, calls: nat, name: Option<string>, services: seq<Service>) {
    (services == [] || name.Some?) && NameFree(w, name) && fates(calls) == fates(calls + 1) == Works
  }

  lemma CreateHistory(d: Daemon, id: nat, net: Option<string>)
    requires d.Valid() && (id in d.roles ==> d.roles[id] == Primary(net))
    ensures Joinless(d.guests, net) ==> Recoverable(d.history, id, net)
  {
    if Joinless(d.guests, net) {
      HistoryRecoverable(d, id, net);
    }
  }

  /** The rest of a create, once its container exists: handed out, or given up. */
  method Complete(d: Daemon, ghost w0: World, id: nat, name: Option<string>, services: seq<Service>, idOk: bool, runs: bool)
      returns (r: Option<nat>, ghost abandoned: Option<nat>)
    requires d.Valid() && Tidy(w0) && id !in w0.containers && NameFree(w0, name) && d.world == Alone(w0, id, name, services)
    requires services != [] ==> name.Some?
    modifies d
    ensures d.Valid() && d.Later() && Left(w0, d.world, id, name, services, r) && (r.Some? ==> idOk && runs)
    ensures abandoned.Some? <==> r.None?
    ensures abandoned.Some? ==> old(d.calls) <= abandoned.value <= d.calls
    ensures abandoned.Some? && d.AllWork(abandoned.value) && !NetworkTaken(w0, name, services) ==> d.world == w0
    ensures old(d.Working()) && r.None? && !NetworkTaken(w0, name, services) ==> d.world == w0
    ensures r.Some? ==> d.asked == BringUpPlan(old(d.asked), id, Label(name, services), services)
    ensures r.Some?
      <==> idOk && runs && Creatable(w0, name, services) && d.Fine(old(d.calls), |BringUpPlan(old(d.asked), id, Label(name, services), services)|)
    ensures old(d.Working()) && NetworkTaken(w0, name, services) ==> d.world == AfterTaken(w0, id, name, services)
  {
    abandoned := None;
    var net := Label(name, services);
    ghost var w1 := d.world;
    NoSidecars(w0, name, services);
    assert forall c, n :: Is(w1, c, Sidecar(n)) ==> Is(w0, c, Sidecar(n));
    FreeBeside(w0, id, name, services);
    var ok := idOk;
    if ok {
      ok := BringUp(d, id, net, services, runs);
    }
    BroughtUp(w0, w1, d.world, id, name, services);
    if ok {
      return Some(id), None;
    }
    abandoned := Some(d.calls);
    r := None;
    GiveUp(d, w0, id, name, services);
  }

  /** The new container takes none of its sidecars' names. */
  lemma FreeBeside(w: World, id: nat, name: Option<string>, services: seq<Service>)
    requires id !in w.containers
    ensures services != [] && name.Some? ==>
      (ServicesFree(w, NetworkName(name.value), services) <==> ServicesFree(Alone(w, id, name, services), NetworkName(name.value), services))
  {
    if services != [] && name.Some? && ServicesFree(Alone(w, id, name, services), NetworkName(name.value), services) {
      forall s: string | NameFree(Alone(w, id, name, services), Some(s)) ensures NameFree(w, Some(s)) {
        forall c | c in w.containers ensures w.containers[c].name != Some(s) {
          assert Alone(w, id, name, services).containers[c] == w.containers[c];
        }
      }
      ServicesFreeAlike(Alone(w, id, name, services), w, NetworkName(name.value), services);
    }
    if services != [] && name.Some? && ServicesFree(w, NetworkName(name.value), services) {
      var v, n := Alone(w, id, name, services), NetworkName(name.value);
      forall i | 0 <= i < |services| && NameFree(w, Some(SidecarName(n, services[i])))
        ensures NameFree(v, Some(SidecarName(n, services[i])))
      {
        assert |SidecarName(n, services[i])| > |name.value|;
      }
      ServicesFreeAlike(w, v, n, services);
    }
  }

  /** A container alone, or none at all, is a fair thing to leave. */
  lemma AloneLeft(w0: World, id: nat, name: Option<string>, services: seq<Service>)
    requires Tidy(w0) && id !in w0.containers
    ensures Left(w0, w0, id, name, services, None)
    ensures NameFree(w0, name) ==> Left(w0, Alone(w0, id, name, services), id, name, services, None)
  {
    if NameFree(w0, name) {
      CreatedAlone(w0, id, Container(name, Primary(Label(name, services))), Label(name, services));
    }
  }

  /** What bringing up adds to the container alone. */
  ghost predicate Risen(w1: World, w2: World, id: nat, net: Option<string>) {
    match net
    case None => w2 == w1
    case Some(n) => Grown(w1, w2, n) && (if n in w1.networks then w2 == w1 else Sweepable(w2, n, Some(id)))
  }

  lemma BroughtUp(w0: World, w1: World, w2: World, id: nat, name: Option<string>, services: seq<Service>)
    requires Tidy(w0) && id !in w0.containers && NameFree(w0, name) && w1 == Alone(w0, id, name, services)
    requires Risen(w1, w2, id, Label(name, services))
    ensures Left(w0, w2, id, name, services, None) && Is(w2, id, Primary(Label(name, services)))
    ensures NetworkTaken(w0, name, services) ==> w2 == w1
  {
    AloneLeft(w0, id, name, services);
    if Label(name, services).Some? {
      KeptGrown(w0, w1, w2, id, Label(name, services).value);
    }
  }

  /** The abandonment of a create that started from `w0`. */
  method GiveUp(d: Daemon, ghost w0: World, id: nat, name: Option<string>, services: seq<Service>)
    requires d.Valid() && Tidy(w0) && id !in w0.containers && NameFree(w0, name)
    requires Left(w0, d.world, id, name, services, None) && Is(d.world, id, Primary(Label(name, services)))
    requires NetworkTaken(w0, name, services) ==> d.world == Alone(w0, id, name, services)
    modifies d
    ensures d.Valid() && d.Later() && Left(w0, d.world, id, name, services, None)
    ensures old(d.Working()) && !NetworkTaken(w0, name, services) ==> d.world == w0
    ensures old(d.Working()) && NetworkTaken(w0, name, services) ==> d.world == AfterTaken(w0, id, name, services)
  {
    var net := Label(name, services);
    ghost var w2 := d.world;
    NoOneShots(w0, w2, id, net);
    NoSidecars(w0, name, services);
    TakenAlone(w0, id, name, services);
    Abandon(d, id, net);
    KeptAbandoned(w0, w2, d.world, id, net);
    if Cleared(d.world, id, net) {
      ClearedRestores(w0, d.world, id, net);
    }
  }

  lemma NoSidecars(w0: World, name: Option<string>, services: seq<Service>)
    requires Tidy(w0) && NameFree(w0, name)
    ensures Label(name, services).Some? ==> forall c :: !Is(w0, c, Sidecar(Label(name, services).value))
  {
    if Label(name, services).Some? {
      FreeNameHasNoSidecars(w0, name.value);
    }
  }

  /** A taken network has others on it or nobody. */
  lemma TakenAlone(w0: World, id: nat, name: Option<string>, services: seq<Service>)
    requires Tidy(w0) && id !in w0.containers && NameFree(w0, name)
    ensures var w, net := Alone(w0, id, name, services), Label(name, services);
      NetworkTaken(w0, name, services) ==>
        && (Deletable(w, id, net) <== w0.networks[net.value].attached == {})
        && (Occupied(w, net.value, Some(id)) <==> w0.networks[net.value].attached != {})
        && (forall c :: !Is(w, c, Sidecar(net.value)))
  {
    NoSidecars(w0, name, services);
    var w := Alone(w0, id, name, services);
    assert forall c, n :: Is(w, c, Sidecar(n)) ==> Is(w0, c, Sidecar(n));
  }

  /** A create under any failures, its driver dying after any call, and then a delete with a
      working daemon: everything the create has left behind goes, and nothing else does. */
  method RetryCreate(d: Daemon, name: Option<string>, services: seq<Service>, idOk: bool, runs: bool, crash: nat)
      returns (r: Option<nat>, again: bool, after: World)
    requires d.Valid() && Joinless(d.guests, Label(name, services))
    modifies d
    ensures d.Valid() && d.Later() && Left(old(d.world), d.world, old(d.next), name, services, r)
    ensures r.Some?
      <==> idOk && runs && Creatable(old(d.world), name, services) && d.Fine(old(d.calls), |CreatePlan(old(d.asked), old(d.next), name, services)|)
    ensures var net := Label(name, services);
      && Recoverable(d.history, old(d.next), net)
      && (crash < |d.history| && old(d.next) in d.history[crash].containers
          ==> again && Cleared(after, old(d.next), net) && Tidy(after) && Spared(d.history[crash], after, old(d.next), net))
  {
    var id, net := d.next, Label(name, services);
    ghost var abandoned;
    r, abandoned := Create(d, name, services, idOk, runs);
    again, after := false, d.world;
    if crash < |d.history| {
      again, after := RecoverFromCrash(d, id, net, crash);
    }
  }

  /** A network somebody made by the sandbox's network name, with nobody on it, is lost to a create
      that fails for it. */
  method EmptyNetworkLost(name: string, service: Service) returns (before: World, r: Option<nat>, after: World)
    ensures before.networks == map[NetworkName(name) := Network(false, {})]
    ensures r.None? && after.networks == map[]
  {
    var n := NetworkName(name);
    before := World(map[], map[n := Network(false, {})]);
    var d := new Daemon(before, 0, _ => Works);
    ghost var abandoned;
    r, abandoned := Create(d, Some(name), [service], true, true);
    after := d.world;
    assert before.networks - {n} == map[];
  }

  /** With somebody on it the network stays, and so does the container of the failed create. */
  method OccupiedNetworkStays(name: string, service: Service) returns (before: World, r: Option<nat>, after: World)
    ensures before == World(map[0 := Container(None, Foreign)], map[NetworkName(name) := Network(false, {0})])
    ensures r.None? && after.networks == before.networks && Is(after, 1, Primary(Some(NetworkName(name))))
  {
    before := World(map[0 := Container(None, Foreign)], map[NetworkName(name) := Network(false, {0})]);
    var d := new Daemon(before, 1, _ => Works);
    ghost var abandoned;
    r, abandoned := Create(d, Some(name), [service], true, true);
    after := d.world;
  }

  /** A container that was never handed out has no one-shot containers. */
  lemma NoOneShots(w0: World, w: World, id: nat, net: Option<string>)
    requires Tidy(w0) && id !in w0.containers && Kept(w0, w, id, net) && Is(w, id, Primary(net))
    ensures forall c :: !Is(w, c, OneShot(id))
  {
    forall c
      ensures !Is(w, c, OneShot(id))
    {
      assert c in w0.containers && Is(w, c, OneShot(id)) ==> Is(w0, c, OneShot(id));
    }
  }

  lemma CreatedAlone(w0: World, id: nat, c: Container, net: Option<string>)
    requires Tidy(w0) && id !in w0.containers && NameFree(w0, c.name) && c.role == Primary(net)
    requires net.Some? ==> c.name.Some? && net.value == NetworkName(c.name.value)
    ensures Kept(w0, WithContainer(w0, id, c), id, net)
    ensures net.Some? ==> (forall x :: !Is(w0, x, Sidecar(net.value))) && (forall x :: !Is(WithContainer(w0, id, c), x, Sidecar(net.value)))
  {
    if net.Some? {
      FreeNameHasNoSidecars(w0, c.name.value);
      assert forall x :: Is(WithContainer(w0, id, c), x, Sidecar(net.value)) ==> Is(w0, x, Sidecar(net.value));
    }
  }

  /** The label a created sandbox carries. */
  function Label(name: Option<string>, services: seq<Service>): Option<string> {
    if services == [] || name.None? then None else Some(NetworkName(name.value))
  }

  predicate NetworkTaken(w: World, name: Option<string>, services: seq<Service>) {
    Label(name, services).Some? && Label(name, services).value in w.networks
  }
}
