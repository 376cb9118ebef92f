/** Creating, abandoning and deleting a sandbox as sequences of daemon calls, any of which may be
    refused, carried out with its answer lost, or found already done. `history` holds the world
    between every two calls, so a driver that dies anywhere leaves one of its members behind. */
module DockerLifecycle {
  import opened Bytes
  import opened DockerWorld

  /** Carried out; not carried out; carried out with an error for an answer; done by another
      party just before. */
  datatype Fate = Works | Refused | Lost | Raced

  /** What the daemon is asked, of whom. */
  datatype Ask =
    | HaveImage | SeeImage(of: string) | PullImage(of: string)
    | AddContainer(named: Option<string>) | AddNetwork(network: string)
    | StartContainer(name: string) | StartSandbox(id: nat) | SeeHealth(name: string) | SeeSandbox(id: nat)
    | LeaveIsolation(id: nat) | Join(network: string, id: nat) | Part(network: string, id: nat)
    | ListContainers(role: Role) | RemoveIt(id: nat) | SeeNetwork(network: string) | DropNetwork(network: string)

  datatype Reply = Success | NotFound | Failed

  /** What the inspections of a sidecar with a health check find, one after the other: it is healthy,
      it is not, it has exited, the wait's deadline has passed, or nothing of these yet. */
  datatype Health = Healthy | Unhealthy | Exited | TooLate | NotYet(later: Health)

  predicate Heals(h: Health) {
    if h.NotYet? then Heals(h.later) else h.Healthy?
  }

  /** A sidecar to run: whether its image is already there, and what becomes of its health check if
      it has one. */
  datatype Service = Service(name: string, present: bool, health: Option<Health>)

  predicate AllHeal(services: seq<Service>) {
    forall i :: 0 <= i < |services| && services[i].health.Some? ==> Heals(services[i].health.value)
  }

  function SidecarName(n: string, service: Service): string {
    n + "-" + service.name
  }

  /** The network a managed container's labels or network mode name. */
  function NetworkOf(role: Role): Option<string> {
    match role
    case Primary(tag) => tag
    case Sidecar(n) => Some(n)
    case OneShot(_) => None
    case Foreign => None
  }

  // ------------------------------------------------------- what a call sequence may change

  /** `w` is `w0` without the sidecars `gone` of `n`, and with `n` itself whole, reduced or gone. */
  ghost predicate Swept(w0: World, w: World, n: string, gone: set<nat>) {
    && (forall id :: id in gone ==> Is(w0, id, Sidecar(n)))
    && w.containers == w0.containers - gone
    && (forall m :: m != n ==> (m in w.networks <==> m in w0.networks))
    && (forall m :: m != n && m in w.networks ==> w.networks[m].managed == w0.networks[m].managed && w.networks[m].attached == w0.networks[m].attached - gone)
    && (n in w.networks ==> n in w0.networks && w.networks[n].managed == w0.networks[n].managed && w.networks[n].attached <= w0.networks[n].attached)
  }

  /** `w` holds all of `w0`, and beside it only sidecars of `n` and possibly `n`. */
  ghost predicate Grown(w0: World, w: World, n: string) {
    && (forall id :: id in w0.containers ==> id in w.containers && w.containers[id] == w0.containers[id])
    && (forall id :: id in w.containers && id !in w0.containers ==> Is(w, id, Sidecar(n)))
    && (forall m :: m != n ==> (m in w.networks <==> m in w0.networks))
    && (forall m :: m != n && m in w.networks ==> w.networks[m] == w0.networks[m])
  }

  /** Nobody but the network's own sidecars and the sandbox is on it. */
  ghost predicate Sweepable(w: World, n: string, sandbox: Option<nat>) {
    n in w.networks ==> forall id :: id in w.networks[n].attached ==> Is(w, id, Sidecar(n)) || sandbox == Some(id)
  }

  lemma WithoutNothing(w: World)
    ensures Without(w, {}) == w
  {
    assert w.containers - {} == w.containers;
    var v := Without(w, {});
    assert forall n :: n in w.networks ==> v.networks[n] == w.networks[n];
    assert v.networks == w.networks;
  }

  lemma AllRemoved(w: World, ids: seq<nat>, gone: set<nat>, role: Role)
    requires (forall id :: Is(w, id, role) ==> id in ids) && forall j :: 0 <= j < |ids| ==> ids[j] in gone
    ensures forall id :: !Is(Without(w, gone), id, role)
  {
    forall id
      ensures !Is(Without(w, gone), id, role)
    {
      if Is(w, id, role) {
        assert id in ids;
      }
    }
  }

  lemma NothingGone(w: World, gone: set<nat>, role: Role)
    requires forall id :: id in gone ==> Is(w, id, role)
    ensures (forall id :: !Is(w, id, role)) ==> Without(w, gone) == w
  {
    if forall id :: !Is(w, id, role) {
      assert gone == {};
      WithoutNothing(w);
    }
  }

  /** Taking back what was added leaves what was there. */
  lemma SweptGrown(w0: World, v: World, w: World, n: string, gone: set<nat>)
    requires AttachedExist(w0) && Grown(w0, v, n) && Swept(v, w, n, gone)
    requires forall id :: !Is(w0, id, Sidecar(n))
    ensures Grown(w0, w, n)
  {
    forall id | id in gone
      ensures id !in w0.containers
    {
      assert Is(v, id, Sidecar(n));
      assert id in w0.containers ==> Is(w0, id, Sidecar(n));
    }
    forall m | m != n && m in w.networks
      ensures w.networks[m] == w0.networks[m]
    {
      assert w0.networks[m].attached - gone == w0.networks[m].attached;
    }
    forall id | id in w.containers && id !in w0.containers
      ensures Is(w, id, Sidecar(n))
    {
      assert Is(v, id, Sidecar(n));
    }
  }

  class Daemon {
    var world: World
    /** Ids from here on are unused. */
    var next: nat
    var calls: nat
    /** Every call so far; the answer to the k-th is the k-th of the fates. */
    var asked: seq<Ask>
    const fates: nat -> Fate
    var history: seq<World>
    /** The networks that others had joined when the driver came; nobody joins one meanwhile. */
    ghost const guests: set<string>
    /** The role of every container there ever was. */
    ghost var roles: map<nat, Role>

    ghost predicate Valid() reads this {
      && Fit(world, guests, roles)
      && (forall id :: id in roles ==> id < next)
      && |asked| == calls
      && |history| > 0 && history[|history| - 1] == world
      && (forall i :: 0 <= i < |history| ==> Fit(history[i], guests, roles))
    }

    /** Every call from here on is carried out and answered. */
    ghost predicate Working() reads this {
      AllWork(calls)
    }

    /** Every call from `from` on is carried out and answered. */
    ghost predicate AllWork(from: nat) {
      forall k :: k >= from ==> fates(k) == Works
    }

    twostate predicate Later() reads this {
      && old(history) <= history && old(asked) <= asked && old(calls) <= calls && old(next) <= next
      && (forall id :: id in old(roles) ==> id in roles && roles[id] == old(roles)[id])
    }

    /** The calls from `from` up to `to` were or will be carried out and answered. */
    predicate Fine(from: nat, to: nat) {
      forall k :: from <= k < to ==> fates(k) == Works
    }

    /** No container was added. */
    twostate predicate Steady() reads this {
      next == old(next) && roles == old(roles)
    }

    /** A daemon as a restarted driver finds it. */
    constructor (w: World, unused: nat, fates: nat -> Fate)
      requires Tidy(w) && forall id :: id in w.containers ==> id < unused
      ensures Valid() && world == w && next == unused && this.fates == fates && calls == 0 && history == [w]
      ensures forall n :: n in guests <==> n in w.networks && !PrivateOn(w, n)
      ensures forall id :: id in roles <==> id in w.containers
    {
      this.world, this.next, this.fates, this.calls := w, unused, fates, 0;
      this.history, this.asked := [w], [];
      this.guests := set n | n in w.networks && !PrivateOn(w, n);
      this.roles := map id | id in w.containers :: w.containers[id].role;
    }

    // ----------------------------------------------------- single calls

    method Become(w: World, ask: Ask)
      requires Valid() && Fit(w, guests, roles)
      modifies this`world, this`calls, this`asked, this`history
      ensures Valid() && world == w && calls == old(calls) + 1 && asked == old(asked) + [ask] && history == old(history) + [w]
    {
      world, calls, asked := w, calls + 1, asked + [ask];
      history := history + [w];
    }

    /** A call that reads, or whose effect is outside this model. */
    method Probe(ask: Ask) returns (ok: bool)
      requires Valid()
      modifies this`world, this`calls, this`asked, this`history
      ensures Valid() && Later() && world == old(world) && calls == old(calls) + 1 && asked == old(asked) + [ask]
      ensures ok <==> fates(old(calls)) == Works
      ensures old(Working()) ==> ok && Working()
    {
      ok := fates(calls) == Works;
      Become(world, ask);
    }

    /** A call the daemon's own rules refuse. */
    method Refuse(ask: Ask) returns (reply: Reply)
      requires Valid()
      modifies this`world, this`calls, this`asked, this`history
      ensures Valid() && Later() && world == old(world) && reply == Failed && calls == old(calls) + 1 && asked == old(asked) + [ask]
      ensures old(Working()) ==> Working()
    {
      reply := Failed;
      Become(world, ask);
    }

    method Change(target: World, ask: Ask) returns (reply: Reply)
      requires Valid() && Fit(target, guests, roles)
      modifies this`world, this`calls, this`asked, this`history
      ensures Valid() && Later() && calls == old(calls) + 1 && asked == old(asked) + [ask]
      ensures world == old(world) || world == target
      ensures reply != Failed ==> world == target
      ensures reply == Success <==> fates(old(calls)) == Works
      ensures old(Working()) ==> reply == Success && Working()
    {
      var fate := fates(calls);
      reply := match fate case Works => Success case Raced => NotFound case Lost => Failed case Refused => Failed;
      Become(if fate == Refused then world else target, ask);
    }

    method CreateContainer(c: Container, net: Option<string>) returns (reply: Reply, id: nat)
      requires Valid()
      requires c.role.Primary? || (c.role.Sidecar? && HasPrimary(world, c.role.network))
      requires c.role.Primary? && c.role.tag.Some? ==> c.name.Some? && c.role.tag.value == NetworkName(c.name.value)
      requires net.Some? ==> c.role == Sidecar(net.value)
      modifies this
      ensures Valid() && Later() && id == old(next) && calls == old(calls) + 1 && asked == old(asked) + [AddContainer(c.name)]
      ensures world == old(world) || (NameFree(old(world), c.name) && world == Joined(old(world), id, c, net))
      ensures reply == Success ==> world == Joined(old(world), id, c, net) && NameFree(old(world), c.name)
      ensures reply == Success && net.Some? ==> net.value in world.networks
      ensures old(Working()) ==> Working()
      ensures reply == Success <==> fates(old(calls)) == Works && NameFree(old(world), c.name) && (net.Some? ==> net.value in old(world).networks)
      ensures id in roles ==> roles[id] == c.role
    {
      id := next;
      if !NameFree(world, c.name) || (net.Some? && net.value !in world.networks) {
        reply := Refuse(AddContainer(c.name));
      } else {
        JoinedFit(world, id, c, net, guests, roles);
        next := next + 1;
        roles := roles[id := c.role];
        reply := Change(Joined(world, id, c, net), AddContainer(c.name));
      }
    }

    method CreateNetwork(n: string) returns (reply: Reply)
      requires Valid() && HasPrimary(world, n)
      modifies this
      ensures Valid() && Later() && Steady() && asked == old(asked) + [AddNetwork(n)]
      ensures world == old(world) || (n !in old(world).networks && world == WithNetwork(old(world), n, Network(true, {})))
      ensures reply == Success ==> n !in old(world).networks && world == WithNetwork(old(world), n, Network(true, {}))
      ensures reply == Success <==> fates(old(calls)) == Works && n !in old(world).networks
      ensures old(Working()) ==> Working()
    {
      if n in world.networks {
        reply := Refuse(AddNetwork(n));
      } else {
        WithNetworkFit(world, n, guests, roles);
        reply := Change(WithNetwork(world, n, Network(true, {})), AddNetwork(n));
      }
    }

    /** Forced removal; a container already gone is an answer of its own. */
    method RemoveContainer(id: nat) returns (reply: Reply)
      requires Valid() && (id in world.containers ==> Fit(Without(world, {id}), guests, roles))
      modifies this
      ensures Valid() && Later() && Steady()
      ensures world == old(world) || (id in old(world).containers && world == Without(old(world), {id}))
      ensures reply != Failed ==> id !in world.containers
      ensures old(Working()) ==> Working() && reply != Failed
    {
      if id in world.containers {
        reply := Change(Without(world, {id}), RemoveIt(id));
      } else {
        var ok := Probe(RemoveIt(id));
        reply := if ok then NotFound else Failed;
      }
    }

    /** The daemon refuses to remove a network with containers on it. */
    method RemoveNetwork(n: string) returns (reply: Reply)
      requires Valid()
      modifies this
      ensures Valid() && Later() && Steady()
      ensures world == old(world) || world == WithoutNetwork(old(world), n)
      ensures reply != Failed ==> n !in world.networks
      ensures n in old(world).networks && old(world).networks[n].attached != {} ==> reply == Failed && world == old(world)
      ensures old(Working()) ==> Working() && (reply != Failed <==> (n in old(world).networks ==> old(world).networks[n].attached == {}))
    {
      if n !in world.networks {
        var ok := Probe(DropNetwork(n));
        reply := if ok then NotFound else Failed;
      } else if world.networks[n].attached != {} {
        reply := Refuse(DropNetwork(n));
      } else {
        WithoutNetworkFit(world, n, guests, roles);
        reply := Change(WithoutNetwork(world, n), DropNetwork(n));
      }
    }

    method Disconnect(n: string, id: nat) returns (reply: Reply)
      requires Valid()
      modifies this
      ensures Valid() && Later() && Steady()
      ensures world == old(world) || world == Detach(old(world), n, id)
      ensures old(Working()) ==> Working() && reply != Failed && world == Detach(old(world), n, id)
    {
      DetachFit(world, n, id, guests, roles);
      reply := Change(Detach(world, n, id), Part(n, id));
    }

    method Connect(n: string, id: nat) returns (reply: Reply)
      requires Valid() && Is(world, id, Primary(Some(n)))
      modifies this
      ensures Valid() && Later() && Steady() && asked == old(asked) + [Join(n, id)]
      ensures world == old(world) || world == Attach(old(world), n, id)
      ensures reply == Success <==> fates(old(calls)) == Works && n in old(world).networks
      ensures reply == Success ==> n in world.networks && world == Attach(old(world), n, id)
      ensures old(Working()) ==> Working()
    {
      if n !in world.networks {
        reply := Refuse(Join(n, id));
      } else {
        AttachFit(world, n, id, guests, roles);
        reply := Change(Attach(world, n, id), Join(n, id));
      }
    }

    /** Every container with the label, running or not. */
    method List(role: Role) returns (ok: bool, ids: seq<nat>)
      requires Valid()
      modifies this
      ensures Valid() && Later() && Steady() && world == old(world)
      ensures forall id :: id in ids <==> Is(world, id, role)
      ensures old(Working()) ==> ok && Working()
    {
      ok := Probe(ListContainers(role));
      ids := [];
      var rest := world.containers.Keys;
      while rest != {}
        invariant rest <= world.containers.Keys
        invariant forall id :: id in ids <==> Is(world, id, role) && id !in rest
        decreases rest
      {
        var id :| id in rest;
        if world.containers[id].role == role {
          ids := ids + [id];
        }
        rest := rest - {id};
      }
    }

    // ----------------------------------------------------- sweeping

    /** Removes one listed container; `gone` are those already removed from `w0`. */
    method RemoveListed(id: nat, role: Role, ghost w0: World, ghost gone: set<nat>) returns (ok: bool, ghost more: set<nat>)
      requires Valid() && !role.Primary? && world == Without(w0, gone) && Is(w0, id, role)
      modifies this
      ensures Valid() && Later() && Steady()
      ensures world == Without(w0, more) && gone <= more <= gone + {id} && (ok ==> id in more)
      ensures old(Working()) ==> ok && Working()
    {
      ghost var before := world;
      WithoutDependentsFit(before, {id}, guests, roles);
      WithoutTwice(w0, gone, {id});
      var reply := RemoveContainer(id);
      more := if world == before then gone else gone + {id};
      ok := reply != Failed;
    }

    /** Removes every container with the label; stops at the first failure. */
    method RemoveAll(role: Role) returns (ok: bool, ghost gone: set<nat>)
      requires Valid() && !role.Primary?
      modifies this
      ensures Valid() && Later() && Steady()
      ensures forall id :: id in gone ==> Is(old(world), id, role)
      ensures world == Without(old(world), gone)
      ensures ok ==> forall id :: !Is(world, id, role)
      ensures old(Working()) ==> ok && Working()
    {
      gone := {};
      WithoutNothing(world);
      var listed, ids := List(role);
      if !listed {
        return false, {};
      }
      ok, gone := RemoveIds(ids, role);
    }

    method RemoveIds(ids: seq<nat>, role: Role) returns (ok: bool, ghost gone: set<nat>)
      requires Valid() && !role.Primary? && forall id :: id in ids <==> Is(world, id, role)
      modifies this
      ensures Valid() && Later() && Steady()
      ensures forall id :: id in gone ==> Is(old(world), id, role)
      ensures world == Without(old(world), gone)
      ensures ok ==> forall id :: !Is(world, id, role)
      ensures old(Working()) ==> ok && Working()
    {
      gone := {};
      WithoutNothing(world);
      ghost var w0 := world;
      var i := 0;
      while i < |ids|
        invariant 0 <= i <= |ids|
        invariant Valid() && Later() && Steady()
        invariant world == Without(w0, gone)
        invariant forall id :: id in gone ==> Is(w0, id, role)
        invariant forall j :: 0 <= j < i ==> ids[j] in gone
        invariant old(Working()) ==> Working()
      {
        ok, gone := RemoveListed(ids[i], role, w0, gone);
        if !ok {
          return;
        }
        i := i + 1;
      }
      ok := true;
      AllRemoved(w0, ids, gone, role);
    }

    /** Takes the sandbox off the network if it is on it; the network may be gone already. */
    method Leave(n: string, sandbox: nat) returns (ok: bool)
      requires Valid()
      modifies this
      ensures Valid() && Later() && Steady()
      ensures world == old(world) || world == Detach(old(world), n, sandbox)
      ensures n in old(world).networks && sandbox !in old(world).networks[n].attached ==> world == old(world)
      ensures old(Working()) ==> ok && Working() && (n in world.networks ==> sandbox !in world.networks[n].attached)
    {
      ok := Probe(SeeNetwork(n));
      if ok && n in world.networks && sandbox in world.networks[n].attached {
        var reply := Disconnect(n, sandbox);
        ok := reply != Failed;
      }
    }

    /** Takes the sandbox off the network, then removes the network. */
    method Dissolve(n: string, sandbox: Option<nat>) returns (ok: bool)
      requires Valid()
      modifies this
      ensures Valid() && Later() && Steady()
      ensures Dissolving(old(world), world, n)
      ensures ok ==> n !in world.networks
      ensures !Empties(old(world), n, sandbox) ==> !ok && n in world.networks
      ensures Occupied(old(world), n, sandbox) ==> world == old(world)
      ensures old(Working()) ==> Working() && (ok <==> Empties(old(world), n, sandbox))
    {
      if sandbox.Some? {
        ok := Leave(n, sandbox.value);
        if !ok || n !in world.networks {
          return;
        }
      }
      EmptiesLeft(old(world), world, n, sandbox);
      var reply := RemoveNetwork(n);
      ok := reply != Failed;
    }

    /** Removes the sidecars, takes the sandbox off the network, then removes the network. */
    method Sweep(n: string, sandbox: Option<nat>) returns (ok: bool, ghost gone: set<nat>)
      requires Valid()
      modifies this
      ensures Valid() && Later() && Steady()
      ensures Swept(old(world), world, n, gone)
      ensures ok ==> NoDependents(world, n)
      ensures !Sweepable(old(world), n, sandbox) ==> !ok && n in world.networks
      ensures Occupied(old(world), n, sandbox) && (forall id :: !Is(old(world), id, Sidecar(n))) ==> world == old(world)
      ensures old(Working()) ==> Working() && (ok <==> Sweepable(old(world), n, sandbox))
    {
      ok, gone := RemoveAll(Sidecar(n));
      SweptWithout(old(world), n, gone);
      NothingGone(old(world), gone, Sidecar(n));
      if !ok {
        return;
      }
      ghost var bare := world;
      SweepableBare(old(world), n, gone, sandbox);
      ok := Dissolve(n, sandbox);
      SweptDissolving(old(world), bare, world, n, gone);
      assert forall id :: Is(world, id, Sidecar(n)) ==> Is(bare, id, Sidecar(n));
    }
  }

  /** Only the network `n` may have changed, by losing containers or altogether. */
  ghost predicate Dissolving(w0: World, w: World, n: string) {
    && w.containers == w0.containers
    && (forall m :: m != n ==> (m in w.networks <==> m in w0.networks))
    && (forall m :: m != n && m in w.networks ==> w.networks[m] == w0.networks[m])
    && (n in w.networks ==> n in w0.networks && w.networks[n].managed == w0.networks[n].managed && w.networks[n].attached <= w0.networks[n].attached)
  }

  ghost predicate Empties(w: World, n: string, sandbox: Option<nat>) {
    n in w.networks ==> forall id :: id in w.networks[n].attached ==> sandbox == Some(id)
  }

  /** Others are on the network and the sandbox is not. */
  ghost predicate Occupied(w: World, n: string, sandbox: Option<nat>) {
    n in w.networks && w.networks[n].attached != {} && (sandbox.Some? ==> sandbox.value !in w.networks[n].attached)
  }

  lemma EmptiesLeft(w0: World, w: World, n: string, sandbox: Option<nat>)
    requires w == w0 || (sandbox.Some? && w == Detach(w0, n, sandbox.value))
    ensures n in w.networks && (sandbox.Some? ==> sandbox.value !in w.networks[n].attached)
      ==> (Empties(w0, n, sandbox) <==> w.networks[n].attached == {})
    ensures n !in w.networks ==> Empties(w0, n, sandbox)
  {
    if n in w.networks && w.networks[n].attached == {} {
      assert sandbox.Some? ==> w0.networks[n].attached <= {sandbox.value};
    }
  }

  lemma SweptDissolving(w0: World, bare: World, w: World, n: string, gone: set<nat>)
    requires Swept(w0, bare, n, gone) && Dissolving(bare, w, n)
    ensures Swept(w0, w, n, gone)
  {
  }

  lemma SweepableBare(w0: World, n: string, gone: set<nat>, sandbox: Option<nat>)
    requires forall id :: id in gone ==> Is(w0, id, Sidecar(n))
    requires forall id :: !Is(Without(w0, gone), id, Sidecar(n))
    ensures Empties(Without(w0, gone), n, sandbox) <==> Sweepable(w0, n, sandbox)
  {
    var w := Without(w0, gone);
    forall id | Is(w0, id, Sidecar(n))
      ensures id in gone
    {
      assert !Is(w, id, Sidecar(n));
    }
  }

  lemma SweptWithout(w0: World, n: string, gone: set<nat>)
    requires forall id :: id in gone ==> Is(w0, id, Sidecar(n))
    ensures Swept(w0, Without(w0, gone), n, gone)
  {
  }

  /** A container as it is created: on the network it was configured with. */
  function Joined(w: World, id: nat, c: Container, net: Option<string>): World {
    if net.Some? then Attach(WithContainer(w, id, c), net.value, id) else WithContainer(w, id, c)
  }

  lemma JoinedFit(w: World, id: nat, c: Container, net: Option<string>, guests: set<string>, roles: map<nat, Role>)
    requires Fit(w, guests, roles) && id !in w.containers && id !in roles && NameFree(w, c.name)
    requires c.role.Primary? || (c.role.Sidecar? && HasPrimary(w, c.role.network))
    requires c.role.Primary? && c.role.tag.Some? ==> c.name.Some? && c.role.tag.value == NetworkName(c.name.value)
    requires net.Some? ==> c.role == Sidecar(net.value)
    ensures Fit(Joined(w, id, c, net), guests, roles[id := c.role])
    ensures forall v :: Fit(v, guests, roles) ==> Fit(v, guests, roles[id := c.role])
  {
    WithContainerTidy(w, id, c);
    WithContainerFit(w, id, c, guests, roles);
    if net.Some? {
      assert Is(WithContainer(w, id, c), id, Sidecar(net.value));
      AttachFit(WithContainer(w, id, c), net.value, id, guests, roles[id := c.role]);
    }
  }
}
