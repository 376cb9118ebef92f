/** The provider's operations on whole sandboxes, as orderings of daemon calls. */
module DockerSandboxes {
  import opened Bytes
  import opened DockerWorld
  import opened DockerLifecycle

  // ------------------------------------------------------- what deletion may touch

  ghost predicate Owned(w: World, c: nat, id: nat, net: Option<string>) {
    c == id || Is(w, c, OneShot(id)) || (net.Some? && Is(w, c, Sidecar(net.value)))
  }

  /** Nothing was added, and only what the sandbox owns was taken away. */
  ghost predicate Spared(w0: World, w: World, id: nat, net: Option<string>) {
    && (forall c :: c in w.containers ==> c in w0.containers && w.containers[c] == w0.containers[c])
    && (forall c :: c in w0.containers && c !in w.containers ==> Owned(w0, c, id, net))
    && (forall m :: net != Some(m) ==> (m in w.networks <==> m in w0.networks))
    && (forall m :: net != Some(m) && m in w.networks ==> w.networks[m].managed == w0.networks[m].managed)
    && (forall m, c :: net != Some(m) && m in w.networks ==> (c in w.networks[m].attached <==> c in w0.networks[m].attached && c in w.containers))
  }

  lemma SparedItself(w: World, id: nat, net: Option<string>)
    requires AttachedExist(w)
    ensures Spared(w, w, id, net)
  {
  }

  lemma SparedThen(a: World, b: World, c: World, id: nat, net: Option<string>)
    requires Spared(a, b, id, net) && Spared(b, c, id, net)
    ensures Spared(a, c, id, net)
  {
    forall x | x in a.containers && x !in c.containers
      ensures Owned(a, x, id, net)
    {
      assert x in b.containers ==> Owned(b, x, id, net);
    }
    forall m, x | net != Some(m) && m in c.networks
      ensures x in c.networks[m].attached <==> x in a.networks[m].attached && x in c.containers
    {
      assert m in b.networks && m in a.networks;
      assert x in c.networks[m].attached <==> x in b.networks[m].attached && x in c.containers;
      assert x in b.networks[m].attached <==> x in a.networks[m].attached && x in b.containers;
    }
  }

  lemma SparedWithout(w: World, gone: set<nat>, id: nat, net: Option<string>)
    requires AttachedExist(w) && forall c :: c in gone ==> Owned(w, c, id, net)
    ensures Spared(w, Without(w, gone), id, net)
  {
  }

  lemma SparedSwept(w0: World, w: World, id: nat, n: string, gone: set<nat>)
    requires AttachedExist(w0) && Swept(w0, w, n, gone)
    ensures Spared(w0, w, id, Some(n))
  {
  }

  /** Nothing of the sandbox is left. */
  ghost predicate Cleared(w: World, id: nat, net: Option<string>) {
    && id !in w.containers
    && (forall c :: !Is(w, c, OneShot(id)))
    && (net.Some? ==> NoDependents(w, net.value))
  }

  /** Everything but the container itself is gone. */
  ghost predicate Bare(w: World, id: nat, net: Option<string>) {
    && (forall c :: !Is(w, c, OneShot(id)))
    && (net.Some? ==> NoDependents(w, net.value))
  }

  lemma ClearedWithout(w: World, id: nat, net: Option<string>)
    requires Bare(w, id, net)
    ensures Cleared(Without(w, {id}), id, net)
  {
    var v := Without(w, {id});
    assert forall c, role :: Is(v, c, role) ==> Is(w, c, role);
  }

  lemma BareUnneeded(w: World, id: nat, net: Option<string>)
    requires Bare(w, id, net) && (id in w.containers && w.containers[id].role.Primary? ==> net == w.containers[id].role.tag)
    ensures Unneeded(w, id)
  {
  }

  /** Only the sandbox's own containers are on its network. */
  ghost predicate Deletable(w: World, id: nat, net: Option<string>) {
    net.Some? && net.value in w.networks ==> forall c :: c in w.networks[net.value].attached ==> Owned(w, c, id, net)
  }

  /** A network that only lost containers is as deletable as before. */
  lemma DeletableStays(w0: World, w: World, id: nat, net: Option<string>)
    requires Deletable(w0, id, net) && Spared(w0, w, id, net) && AttachedExist(w)
    requires net.Some? && net.value in w.networks ==> net.value in w0.networks && w.networks[net.value].attached <= w0.networks[net.value].attached
    ensures Deletable(w, id, net)
  {
    if net.Some? && net.value in w.networks {
      forall c | c in w.networks[net.value].attached
        ensures Owned(w, c, id, net)
      {
        assert Owned(w0, c, id, net) && c in w.containers;
      }
    }
  }

  /** Whose network nobody else joined, that sandbox can be deleted, and only then. */
  lemma PrivateIsDeletable(w: World, id: nat, n: string)
    requires Tidy(w) && Is(w, id, Primary(Some(n)))
    ensures PrivateOn(w, n) <==> Deletable(w, id, Some(n))
  {
    if n in w.networks {
      forall c
        ensures Belongs(w, c, n) <==> Owned(w, c, id, Some(n))
      {
        if Is(w, c, Primary(Some(n))) {
          OnePrimary(w, c, id, n);
        }
        if c in w.containers && w.containers[c].role.OneShot? && Is(w, w.containers[c].role.sandbox, Primary(Some(n))) {
          OnePrimary(w, w.containers[c].role.sandbox, id, n);
        }
      }
    }
  }

  lemma DeletableAfterOneShots(w: World, gone: set<nat>, id: nat, n: string)
    requires forall c :: c in gone ==> Is(w, c, OneShot(id))
    requires forall c :: !Is(Without(w, gone), c, OneShot(id))
    ensures Sweepable(Without(w, gone), n, Some(id)) <==> Deletable(w, id, Some(n))
  {
    var v := Without(w, gone);
    forall c | Is(w, c, OneShot(id))
      ensures c in gone
    {
      assert !Is(v, c, OneShot(id));
    }
    assert forall c :: Is(v, c, Sidecar(n)) <==> Is(w, c, Sidecar(n));
  }

  // ------------------------------------------------------- deletion

  /** One-shot containers, then the sidecars and their network, then the container itself; the
      first failure keeps the rest for a retry. */
  method RemoveSandbox(d: Daemon, id: nat, net: Option<string>) returns (ok: bool)
    requires d.Valid()
    requires id in d.world.containers && d.world.containers[id].role.Primary? ==> net == d.world.containers[id].role.tag
    modifies d
    ensures d.Valid() && d.Later()
    ensures Spared(old(d.world), d.world, id, net)
    ensures ok ==> Cleared(d.world, id, net) && Deletable(old(d.world), id, net)
    ensures Deletable(old(d.world), id, net) ==> Deletable(d.world, id, net)
    ensures old(d.Working()) ==> (ok <==> Deletable(old(d.world), id, net))
  {
    ok := RemoveDependents(d, id, net);
    if ok {
      ok := RemoveLast(d, id, net, old(d.world));
    }
  }

  method RemoveDependents(d: Daemon, id: nat, net: Option<string>) returns (ok: bool)
    requires d.Valid()
    modifies d
    ensures d.Valid() && d.Later()
    ensures Spared(old(d.world), d.world, id, net)
    ensures ok ==> Bare(d.world, id, net) && Deletable(old(d.world), id, net)
    ensures Deletable(old(d.world), id, net) ==> Deletable(d.world, id, net)
    ensures old(d.Working()) ==> d.Working() && (ok <==> Deletable(old(d.world), id, net))
  {
    ghost var gone;
    ok, gone := d.RemoveAll(OneShot(id));
    SparedWithout(old(d.world), gone, id, net);
    if Deletable(old(d.world), id, net) {
      DeletableStays(old(d.world), d.world, id, net);
    }
    if !ok {
      return;
    }
    if net.Some? {
      DeletableAfterOneShots(old(d.world), gone, id, net.value);
      ok := SweepFor(d, id, net.value, old(d.world));
    }
  }

  method SweepFor(d: Daemon, id: nat, n: string, ghost w0: World) returns (ok: bool)
    requires d.Valid() && Spared(w0, d.world, id, Some(n))
    modifies d
    ensures d.Valid() && d.Later()
    ensures Spared(w0, d.world, id, Some(n))
    ensures forall c, o :: Is(d.world, c, OneShot(o)) ==> Is(old(d.world), c, OneShot(o))
    ensures ok ==> NoDependents(d.world, n) && Sweepable(old(d.world), n, Some(id))
    ensures Deletable(old(d.world), id, Some(n)) ==> Deletable(d.world, id, Some(n))
    ensures Occupied(old(d.world), n, Some(id)) && (forall c :: !Is(old(d.world), c, Sidecar(n))) ==> !ok && d.world == old(d.world)
    ensures old(d.Working()) ==> d.Working() && (ok <==> Sweepable(old(d.world), n, Some(id)))
  {
    ghost var w1 := d.world;
    ghost var gone;
    ok, gone := d.Sweep(n, Some(id));
    SparedSwept(w1, d.world, id, n, gone);
    SparedThen(w0, w1, d.world, id, Some(n));
    if Deletable(w1, id, Some(n)) {
      DeletableStays(w1, d.world, id, Some(n));
    }
  }

  method RemoveLast(d: Daemon, id: nat, net: Option<string>, ghost w0: World) returns (ok: bool)
    requires d.Valid() && Spared(w0, d.world, id, net)
    requires Bare(d.world, id, net)
    requires id in d.world.containers && d.world.containers[id].role.Primary? ==> net == d.world.containers[id].role.tag
    modifies d
    ensures d.Valid() && d.Later()
    ensures Spared(w0, d.world, id, net)
    ensures ok ==> Cleared(d.world, id, net)
    ensures Deletable(d.world, id, net)
    ensures old(d.Working()) ==> ok
  {
    ghost var w := d.world;
    BareUnneeded(w, id, net);
    ClearedWithout(w, id, net);
    WithoutUnneededFit(w, id, d.guests, d.roles);
    SparedWithout(w, {id}, id, net);
    SparedThen(w0, w, Without(w, {id}), id, net);
    var reply := d.RemoveContainer(id);
    ok := reply != Failed;
  }

  /** Deletes by what the daemon holds. Success means nothing of the sandbox is left; whatever
      happens, nothing else is touched. With a stranger on the sandbox's network it never succeeds;
      without one it succeeds on a working daemon, and a failure keeps it so for the next try. */
  method Delete(d: Daemon, id: nat) returns (ok: bool)
    requires d.Valid()
    modifies d
    ensures d.Valid() && d.Later()
    ensures old(d.asked) + [SeeSandbox(id)] <= d.asked
    ensures d.fates(old(d.calls)) != Works ==> !ok && d.world == old(d.world)
    ensures id !in old(d.world).containers || old(d.world).containers[id].role.Foreign?
      ==> d.world == old(d.world) && (ok <==> d.fates(old(d.calls)) == Works)
    ensures id in old(d.world).containers && !old(d.world).containers[id].role.Foreign?
      ==> var net := NetworkOf(old(d.world).containers[id].role);
          && Spared(old(d.world), d.world, id, net)
          && (ok ==> Cleared(d.world, id, net) && Deletable(old(d.world), id, net))
          && (Deletable(old(d.world), id, net) ==> Deletable(d.world, id, net))
          && (old(d.Working()) ==> (ok <==> Deletable(old(d.world), id, net)))
    ensures ok && id !in old(d.world).containers ==> Cleared(d.world, id, None)
    ensures id in old(d.world).containers && old(d.world).containers[id].role.Primary? && Joinless(d.guests, old(d.world).containers[id].role.tag)
      ==> Recoverable(d.history, id, old(d.world).containers[id].role.tag)
  {
    DeleteHistory(d, id);
    ok := d.Probe(SeeSandbox(id));
    if !ok || id !in d.world.containers || d.world.containers[id].role.Foreign? {
      if id in d.world.containers {
        SparedItself(d.world, id, NetworkOf(d.world.containers[id].role));
      }
    } else {
      ok := RemoveSandbox(d, id, NetworkOf(d.world.containers[id].role));
    }
    DeleteHistory(d, id);
  }

  /** Nobody else had joined the network when the driver came. */
  predicate Joinless(guests: set<string>, tag: Option<string>) {
    tag.Some? ==> tag.value !in guests
  }

  /** Wherever the container is found between any two calls, it is the labelled primary and can be
      deleted. */
  ghost predicate Recoverable(history: seq<World>, id: nat, tag: Option<string>) {
    forall i :: 0 <= i < |history| && id in history[i].containers ==> Is(history[i], id, Primary(tag)) && Deletable(history[i], id, tag)
  }

  lemma HistoryRecoverable(d: Daemon, id: nat, tag: Option<string>)
    requires d.Valid() && Joinless(d.guests, tag) && (id in d.roles ==> d.roles[id] == Primary(tag))
    ensures Recoverable(d.history, id, tag)
  {
    forall i | 0 <= i < |d.history| && id in d.history[i].containers
      ensures Is(d.history[i], id, Primary(tag)) && Deletable(d.history[i], id, tag)
    {
      assert Fit(d.history[i], d.guests, d.roles);
      if tag.Some? {
        PrivateIsDeletable(d.history[i], id, tag.value);
      }
    }
  }

  lemma DeleteHistory(d: Daemon, id: nat)
    requires d.Valid()
    ensures id in d.roles && d.roles[id].Primary? && Joinless(d.guests, d.roles[id].tag) ==> Recoverable(d.history, id, d.roles[id].tag)
    ensures id in d.world.containers ==> id in d.roles && d.roles[id] == d.world.containers[id].role
  {
    if id in d.roles && d.roles[id].Primary? && Joinless(d.guests, d.roles[id].tag) {
      HistoryRecoverable(d, id, d.roles[id].tag);
    }
  }

  /** The case is real: a sandbox whose network another container has joined cannot be deleted. */
  lemma StrangerBlocks(w: World, name: string)
    requires w.containers == map[0 := Container(Some(name), Primary(Some(NetworkName(name)))), 1 := Container(None, Foreign)]
    requires w.networks == map[NetworkName(name) := Network(true, {0, 1})]
    ensures Tidy(w) && Is(w, 0, Primary(Some(NetworkName(name)))) && !Deletable(w, 0, Some(NetworkName(name)))
  {
    assert Named(w, 0, name) && Is(w, 0, Primary(Some(NetworkName(name))));
    assert 1 in w.networks[NetworkName(name)].attached && !Owned(w, 1, 0, Some(NetworkName(name)));
  }

  /** A driver that died anywhere leaves a tidy world; deleting from that world with a working
      daemon removes everything the sandbox owns, unless somebody else is on its network, and
      nothing that others own. */
  method Recover(left: World, unused: nat, id: nat, tag: Option<string>) returns (ok: bool, after: World)
    requires Tidy(left) && (forall c :: c in left.containers ==> c < unused) && Is(left, id, Primary(tag))
    ensures ok <==> Deletable(left, id, tag)
    ensures ok ==> Cleared(after, id, tag)
    ensures Tidy(after) && Spared(left, after, id, tag)
  {
    var d := new Daemon(left, unused, _ => Works);
    ok := Delete(d, id);
    after := d.world;
  }

  /** A driver dies after any call, `crash`, whatever it was doing; a delete from the world it left,
      with a working daemon, removes everything of a sandbox that was recoverable all along. */
  method RecoverFromCrash(d: Daemon, id: nat, tag: Option<string>, crash: nat) returns (ok: bool, after: World)
    requires d.Valid() && crash < |d.history| && Recoverable(d.history, id, tag)
    ensures id in d.history[crash].containers ==> ok && Cleared(after, id, tag) && Tidy(after) && Spared(d.history[crash], after, id, tag)
    ensures id !in d.history[crash].containers ==> after == d.history[crash]
  {
    var left := d.history[crash];
    assert Fit(left, d.guests, d.roles);
    if id !in left.containers {
      return true, left;
    }
    ok, after := Recover(left, d.next, id, tag);
  }

  /** A delete under any failures, its driver dying after any call, and then another delete with a
      working daemon: everything the sandbox has left goes. */
  method RetryDelete(d: Daemon, id: nat, tag: Option<string>, crash: nat) returns (first: bool, again: bool, after: World)
    requires d.Valid() && Is(d.world, id, Primary(tag)) && Joinless(d.guests, tag)
    modifies d
    ensures d.Valid() && d.Later() && Spared(old(d.world), d.world, id, tag)
    ensures (first ==> Cleared(d.world, id, tag)) && (old(d.Working()) ==> first)
    ensures Recoverable(d.history, id, tag)
    ensures crash < |d.history| && id in d.history[crash].containers
      ==> again && Cleared(after, id, tag) && Tidy(after) && Spared(d.history[crash], after, id, tag)
  {
    DeleteHistory(d, id);
    assert Deletable(d.world, id, tag) by {
      assert d.history[|d.history| - 1] == d.world;
    }
    first := Delete(d, id);
    again, after := first, d.world;
    if crash < |d.history| {
      again, after := RecoverFromCrash(d, id, tag, crash);
    }
  }

  // ------------------------------------------------------- creation

  /** Gives up on a container that was created and never handed out. */
  method Abandon(d: Daemon, id: nat, net: Option<string>)
    requires d.Valid() && Is(d.world, id, Primary(net)) && forall c :: !Is(d.world, c, OneShot(id))
    modifies d
    ensures d.Valid() && d.Later()
    ensures Spared(old(d.world), d.world, id, net)
    ensures old(d.Working()) && Deletable(old(d.world), id, net) ==> Cleared(d.world, id, net)
    ensures Deletable(old(d.world), id, net) ==> Deletable(d.world, id, net)
    ensures net.Some? && Occupied(old(d.world), net.value, Some(id)) && (forall c :: !Is(old(d.world), c, Sidecar(net.value))) ==> d.world == old(d.world)
  {
    ghost var w0 := d.world;
    SparedItself(w0, id, net);
    if net.Some? {
      var ok := SweepFor(d, id, net.value, w0);
      if !ok {
        return;
      }
    }
    var _ := RemoveLast(d, id, net, w0);
  }

  /** The service has its own labelled container. */
  ghost predicate Serves(w: World, n: string, service: Service) {
    exists id :: Is(w, id, Sidecar(n)) && Named(w, id, SidecarName(n, service))
  }

  ghost predicate AllServe(w: World, n: string, services: seq<Service>) {
    ServeTo(w, n, services, |services|)
  }

  /** The first `k` services have. */
  ghost predicate ServeTo(w: World, n: string, services: seq<Service>, k: nat)
    requires k <= |services|
  {
    forall i :: 0 <= i < k ==> Serves(w, n, services[i])
  }

  lemma GrownItself(w: World, n: string)
    ensures Grown(w, w, n)
  {
  }

  lemma GrownPrimary(w0: World, w: World, n: string, m: string)
    requires Grown(w0, w, n) && HasPrimary(w0, m)
    ensures HasPrimary(w, m)
  {
    var id :| Is(w0, id, Primary(Some(m)));
    assert Is(w, id, Primary(Some(m)));
  }

  lemma GrownJoined(w0: World, w: World, n: string, id: nat, c: Container)
    requires Grown(w0, w, n) && id !in w.containers && c.role == Sidecar(n)
    ensures Grown(w0, Joined(w, id, c, Some(n)), n)
  {
    var v := Joined(w, id, c, Some(n));
    forall x | x in v.containers && x !in w0.containers
      ensures Is(v, x, Sidecar(n))
    {
      assert x != id ==> Is(w, x, Sidecar(n));
    }
  }

  lemma SweepableJoined(w: World, n: string, id: nat, c: Container)
    requires Sweepable(w, n, None) && id !in w.containers && c.role == Sidecar(n)
    ensures Sweepable(Joined(w, id, c, Some(n)), n, None)
  {
    var v := Joined(w, id, c, Some(n));
    if n in v.networks {
      forall x | x in v.networks[n].attached
        ensures Is(v, x, Sidecar(n))
      {
        assert x != id ==> Is(w, x, Sidecar(n));
      }
    }
  }

  lemma ServesJoined(w: World, n: string, id: nat, c: Container, service: Service)
    requires id !in w.containers && c.role == Sidecar(n)
    requires Serves(w, n, service) || c.name == Some(SidecarName(n, service))
    ensures Serves(Joined(w, id, c, Some(n)), n, service)
  {
    var v := Joined(w, id, c, Some(n));
    if Serves(w, n, service) {
      var x :| Is(w, x, Sidecar(n)) && Named(w, x, SidecarName(n, service));
      assert Is(v, x, Sidecar(n)) && Named(v, x, SidecarName(n, service));
    } else {
      assert Is(v, id, Sidecar(n)) && Named(v, id, SidecarName(n, service));
    }
  }

  /** Sidecars of `n` were added, on `n`; nothing was taken away. */
  ghost predicate More(w0: World, w: World, n: string) {
    && Grown(w0, w, n)
    && (n in w.networks <==> n in w0.networks)
    && (n in w.networks ==> w.networks[n].managed == w0.networks[n].managed)
    && (Sweepable(w0, n, None) ==> Sweepable(w, n, None))
    && (forall service :: Serves(w0, n, service) ==> Serves(w, n, service))
  }

  lemma MoreJoined(w: World, n: string, id: nat, c: Container)
    requires id !in w.containers && c.role == Sidecar(n)
    ensures More(w, Joined(w, id, c, Some(n)), n)
  {
    GrownItself(w, n);
    GrownJoined(w, w, n, id, c);
    if Sweepable(w, n, None) {
      SweepableJoined(w, n, id, c);
    }
    forall service | Serves(w, n, service)
      ensures Serves(Joined(w, id, c, Some(n)), n, service)
    {
      ServesJoined(w, n, id, c, service);
    }
  }

  lemma MoreThen(a: World, b: World, c: World, n: string)
    requires More(a, b, n) && More(b, c, n)
    ensures More(a, c, n)
  {
    GrownThen(a, b, c, n);
  }

  // The calls that put up sidecars, behind those already made.

  /** The image is looked for, and pulled when it is not there; the container is made, and started. */
  function StartPlan(asks: seq<Ask>, n: string, service: Service): (plan: seq<Ask>)
    ensures |plan| >= |asks|
  {
    FetchPlan(asks, service) + [AddContainer(Some(SidecarName(n, service)))] + [StartContainer(SidecarName(n, service))]
  }

  function FetchPlan(asks: seq<Ask>, service: Service): (plan: seq<Ask>)
    ensures |plan| >= |asks|
  {
    var seen := asks + [SeeImage(service.name)];
    if service.present then seen else seen + [PullImage(service.name)]
  }

  /** The first `k` sidecars. */
  function StartsPlan(asks: seq<Ask>, n: string, services: seq<Service>, k: nat): (plan: seq<Ask>)
    requires k <= |services|
    ensures |plan| >= |asks|
  {
    if k == 0 then asks else StartPlan(StartsPlan(asks, n, services, k - 1), n, services[k - 1])
  }

  /** The health of those among the first `k` that have a check. */
  function HealthPlan(asks: seq<Ask>, n: string, services: seq<Service>, k: nat): (plan: seq<Ask>)
    requires k <= |services|
    ensures |plan| >= |asks|
  {
    if k == 0 then asks
    else
      var before := HealthPlan(asks, n, services, k - 1);
      if services[k - 1].health.Some? then LookPlan(before, SidecarName(n, services[k - 1]), services[k - 1].health.value) else before
  }

  /** Inspections until one decides. */
  function LookPlan(asks: seq<Ask>, name: string, h: Health): (plan: seq<Ask>)
    ensures |plan| > |asks|
    decreases h
  {
    var looked := asks + [SeeHealth(name)];
    if h.NotYet? then LookPlan(looked, name, h.later) else looked
  }

  lemma {:induction false} LooksCover(asks: seq<Ask>, name: string, h: Health)
    ensures var plan := LookPlan(asks, name, h);
      asks <= plan && plan[|plan| - 1] == SeeHealth(name) && forall j :: |asks| <= j < |plan| ==> plan[j].SeeHealth?
    decreases h
  {
    if h.NotYet? {
      LooksCover(asks + [SeeHealth(name)], name, h.later);
    }
  }

  function StartAllPlan(asks: seq<Ask>, n: string, services: seq<Service>): (plan: seq<Ask>)
    ensures |plan| >= |asks|
  {
    HealthPlan(StartsPlan(asks, n, services, |services|), n, services, |services|)
  }

  /** The network, every sidecar in order, and then the health of each that has a check. */
  function RealizePlan(asks: seq<Ask>, n: string, services: seq<Service>): (plan: seq<Ask>)
    ensures |plan| >= |asks|
  {
    StartAllPlan(asks + [AddNetwork(n)], n, services)
  }

  lemma {:induction false} StartsPlanGrows(asks: seq<Ask>, n: string, services: seq<Service>, i: nat, k: nat)
    requires i <= k <= |services|
    ensures |StartsPlan(asks, n, services, i)| <= |StartsPlan(asks, n, services, k)|
    decreases k
  {
    if i < k {
      StartsPlanGrows(asks, n, services, i, k - 1);
    }
  }

  lemma {:induction false} HealthPlanGrows(asks: seq<Ask>, n: string, services: seq<Service>, i: nat, k: nat)
    requires i <= k <= |services|
    ensures |HealthPlan(asks, n, services, i)| <= |HealthPlan(asks, n, services, k)|
    decreases k
  {
    if i < k {
      HealthPlanGrows(asks, n, services, i, k - 1);
    }
  }

  /** `ask` is among the calls from `from` up to `to`. */
  ghost predicate Among(plan: seq<Ask>, from: nat, to: nat, ask: Ask) {
    exists k :: from <= k < to <= |plan| && plan[k] == ask
  }

  lemma AmongLonger(plan: seq<Ask>, longer: seq<Ask>, from: nat, to: nat, ask: Ask)
    requires Among(plan, from, to, ask) && plan <= longer
    ensures Among(longer, from, to, ask) && Among(longer, from, |longer|, ask)
  {
    var k :| from <= k < to <= |plan| && plan[k] == ask;
    assert longer[k] == ask;
  }

  lemma {:induction false} StartsCover(asks: seq<Ask>, n: string, services: seq<Service>, i: nat, k: nat)
    requires k <= |services|
    ensures asks <= StartsPlan(asks, n, services, k)
    ensures i < k ==> Among(StartsPlan(asks, n, services, k), |asks|, |StartsPlan(asks, n, services, k)|, StartContainer(SidecarName(n, services[i])))
    decreases k
  {
    if k > 0 {
      var plan, before := StartsPlan(asks, n, services, k), StartsPlan(asks, n, services, k - 1);
      StartsCover(asks, n, services, i, k - 1);
      assert before <= plan;
      if i < k - 1 {
        AmongLonger(before, plan, |asks|, |before|, StartContainer(SidecarName(n, services[i])));
      } else if i == k - 1 {
        assert plan[|plan| - 1] == StartContainer(SidecarName(n, services[i]));
      }
    }
  }

  lemma {:induction false} HealthCovers(asks: seq<Ask>, n: string, services: seq<Service>, i: nat, k: nat)
    requires k <= |services|
    ensures asks <= HealthPlan(asks, n, services, k)
    ensures i < k && services[i].health.Some? ==>
      Among(HealthPlan(asks, n, services, k), |asks|, |HealthPlan(asks, n, services, k)|, SeeHealth(SidecarName(n, services[i])))
    decreases k
  {
    if k > 0 {
      var plan, before := HealthPlan(asks, n, services, k), HealthPlan(asks, n, services, k - 1);
      HealthCovers(asks, n, services, i, k - 1);
      if services[k - 1].health.Some? {
        LooksCover(before, SidecarName(n, services[k - 1]), services[k - 1].health.value);
      }
      assert before <= plan;
      if i < k - 1 && services[i].health.Some? {
        AmongLonger(before, plan, |asks|, |before|, SeeHealth(SidecarName(n, services[i])));
      } else if i == k - 1 && services[i].health.Some? {
        assert plan[|plan| - 1] == SeeHealth(SidecarName(n, services[i]));
      }
    }
  }

  /** Every sidecar is started, and after the last start the health of each that has a check is seen:
      a check may depend on another sidecar. */
  lemma EverySidecarSeen(asks: seq<Ask>, n: string, services: seq<Service>, i: nat) returns (started: nat)
    requires i < |services|
    ensures var plan := RealizePlan(asks, n, services);
      && |asks| < started <= |plan|
      && Among(plan, |asks|, started, StartContainer(SidecarName(n, services[i])))
      && (services[i].health.Some? ==> Among(plan, started, |plan|, SeeHealth(SidecarName(n, services[i]))))
      && (forall k :: started <= k < |plan| ==> !plan[k].StartContainer?)
  {
    var base := asks + [AddNetwork(n)];
    var starts := StartsPlan(base, n, services, |services|);
    started := |starts|;
    StartsCover(base, n, services, i, |services|);
    HealthCovers(starts, n, services, i, |services|);
    OnlyHealth(starts, n, services, |services|);
    var name := StartContainer(SidecarName(n, services[i]));
    assert Among(starts, |base|, |starts|, name);
    AmongLonger(starts, RealizePlan(asks, n, services), |base|, |starts|, name);
  }

  lemma {:induction false} OnlyHealth(asks: seq<Ask>, n: string, services: seq<Service>, k: nat)
    requires k <= |services|
    ensures forall j :: |asks| <= j < |HealthPlan(asks, n, services, k)| ==> HealthPlan(asks, n, services, k)[j].SeeHealth?
    decreases k
  {
    if k > 0 {
      OnlyHealth(asks, n, services, k - 1);
      if services[k - 1].health.Some? {
        LooksCover(HealthPlan(asks, n, services, k - 1), SidecarName(n, services[k - 1]), services[k - 1].health.value);
      }
    }
  }

  /** The image of a sidecar, pulled when it is not there. */
  method Fetch(d: Daemon, service: Service, ghost from: nat) returns (ok: bool)
    requires d.Valid() && from <= d.calls && d.Fine(from, d.calls)
    modifies d
    ensures d.Valid() && d.Later() && d.world == old(d.world)
    ensures ok <==> d.Fine(from, |FetchPlan(old(d.asked), service)|)
    ensures ok ==> d.asked == FetchPlan(old(d.asked), service)
    ensures old(d.Working()) ==> d.Working()
  {
    ok := d.Probe(SeeImage(service.name));
    if ok && !service.present {
      ok := d.Probe(PullImage(service.name));
    }
  }

  // Names that are free for the sidecars still to come.

  /** Every name but `x` that was free still is. */
  ghost predicate FreeBut(w0: World, w: World, x: string) {
    forall name: string :: NameFree(w0, Some(name)) && name != x ==> NameFree(w, Some(name))
  }

  /** The containers of these services have names of their own that are free. */
  predicate ServicesFree(w: World, n: string, services: seq<Service>) {
    FreeAmong(w, n, services, 0, |services|)
  }

  /** Those of the services from `i` up to `k` do. */
  predicate FreeAmong(w: World, n: string, services: seq<Service>, i: nat, k: nat)
    requires k <= |services|
  {
    && (forall j :: i <= j < k ==> NameFree(w, Some(SidecarName(n, services[j]))))
    && (forall a, b :: i <= a < b < k ==> services[a].name != services[b].name)
  }

  lemma SidecarNamesDiffer(n: string, a: Service, b: Service)
    requires a.name != b.name
    ensures SidecarName(n, a) != SidecarName(n, b)
  {
    var front := n + "-";
    assert SidecarName(n, a) == front + a.name && SidecarName(n, b) == front + b.name;
    assert SidecarName(n, a)[|front|..] == a.name && SidecarName(n, b)[|front|..] == b.name;
  }

  lemma ServicesFreeAlike(w: World, v: World, n: string, services: seq<Service>)
    requires ServicesFree(w, n, services)
    requires forall i :: 0 <= i < |services| && NameFree(w, Some(SidecarName(n, services[i]))) ==> NameFree(v, Some(SidecarName(n, services[i])))
    ensures ServicesFree(v, n, services)
  {
  }

  lemma FreeButJoined(w: World, id: nat, c: Container, n: string)
    requires id !in w.containers && c.name.Some?
    ensures FreeBut(w, Joined(w, id, c, Some(n)), c.name.value)
  {
  }

  /** The sidecar's name is free and its network is there. */
  predicate Placed(w: World, n: string, service: Service) {
    NameFree(w, Some(SidecarName(n, service))) && n in w.networks
  }

  /** The container of a sidecar, on its network from the start. */
  method Place(d: Daemon, n: string, service: Service) returns (ok: bool)
    requires d.Valid() && HasPrimary(d.world, n)
    modifies d
    ensures d.Valid() && d.Later() && More(old(d.world), d.world, n)
    ensures ok ==> Serves(d.world, n, service)
    ensures FreeBut(old(d.world), d.world, SidecarName(n, service)) && d.asked == old(d.asked) + [AddContainer(Some(SidecarName(n, service)))]
    ensures ok <==> d.fates(old(d.calls)) == Works && Placed(old(d.world), n, service)
    ensures old(d.Working()) ==> d.Working()
  {
    ghost var w := d.world;
    var c := Container(Some(SidecarName(n, service)), Sidecar(n));
    var reply, id := d.CreateContainer(c, Some(n));
    MoreJoined(w, n, id, c);
    ServesJoined(w, n, id, c, service);
    FreeButJoined(w, id, c, n);
    ok := reply == Success;
  }

  lemma FineTwo(d: Daemon, from: nat, to: nat)
    requires from <= to
    ensures d.Fine(from, to + 2) <==> d.Fine(from, to) && d.fates(to) == d.fates(to + 1) == Works
  {
  }

  /** One sidecar: its image, its container, its start. */
  method StartOne(d: Daemon, n: string, service: Service, ghost from: nat) returns (ok: bool)
    requires d.Valid() && HasPrimary(d.world, n) && from <= d.calls && d.Fine(from, d.calls)
    modifies d
    ensures d.Valid() && d.Later() && More(old(d.world), d.world, n)
    ensures ok ==> Serves(d.world, n, service)
    ensures FreeBut(old(d.world), d.world, SidecarName(n, service))
    ensures ok <==> d.Fine(from, |StartPlan(old(d.asked), n, service)|) && Placed(old(d.world), n, service)
    ensures ok ==> d.asked == StartPlan(old(d.asked), n, service)
    ensures old(d.Working()) ==> d.Working()
  {
    ok := Fetch(d, service, from);
    if ok {
      ok := PlaceAndStart(d, n, service, from);
    }
  }

  method PlaceAndStart(d: Daemon, n: string, service: Service, ghost from: nat) returns (ok: bool)
    requires d.Valid() && HasPrimary(d.world, n) && from <= d.calls && d.Fine(from, d.calls)
    modifies d
    ensures d.Valid() && d.Later() && More(old(d.world), d.world, n)
    ensures ok ==> Serves(d.world, n, service)
    ensures FreeBut(old(d.world), d.world, SidecarName(n, service))
    ensures ok <==> d.Fine(from, old(d.calls) + 2) && Placed(old(d.world), n, service)
    ensures ok ==> d.asked == old(d.asked) + [AddContainer(Some(SidecarName(n, service)))] + [StartContainer(SidecarName(n, service))]
    ensures old(d.Working()) ==> d.Working()
  {
    FineTwo(d, from, d.calls);
    ok := Place(d, n, service);
    if ok {
      ok := StartIt(d, SidecarName(n, service));
    }
  }

  method StartIt(d: Daemon, name: string) returns (ok: bool)
    requires d.Valid()
    modifies d
    ensures d.Valid() && d.Later() && d.world == old(d.world) && d.asked == old(d.asked) + [StartContainer(name)]
    ensures ok <==> d.fates(old(d.calls)) == Works
    ensures old(d.Working()) ==> d.Working()
  {
    ok := d.Probe(StartContainer(name));
  }

  /** The first `i` sidecars are up, their names were free in `w0`, and their calls were all answered. */
  ghost predicate Started(d: Daemon, n: string, services: seq<Service>, i: nat, w0: World, asks: seq<Ask>)
    requires i <= |services|
    reads d
  {
    && ServeTo(d.world, n, services, i) && FreeAmong(w0, n, services, 0, i)
    && d.asked == StartsPlan(asks, n, services, i) && d.Fine(|asks|, d.calls)
  }

  /** The next sidecar, after those already up since `w0`. */
  method StartNext(d: Daemon, n: string, services: seq<Service>, i: nat, ghost w0: World, ghost asks: seq<Ask>) returns (ok: bool)
    requires d.Valid() && HasPrimary(w0, n) && i < |services|
    requires More(w0, d.world, n) && Started(d, n, services, i, w0, asks)
    modifies d
    ensures d.Valid() && d.Later() && More(w0, d.world, n)
    ensures ok ==> Started(d, n, services, i + 1, w0, asks)
    ensures old(d.Working()) ==> d.Working()
    ensures Placeable(old(d.world), n, services, i)
      ==> Placeable(d.world, n, services, i + 1) && (ok || !d.Fine(|asks|, |StartsPlan(asks, n, services, |services|)|))
  {
    ghost var w := d.world;
    GrownPrimary(w0, w, n, n);
    StartsPlanGrows(asks, n, services, i + 1, |services|);
    ok := StartOne(d, n, services[i], |asks|);
    MoreThen(w0, w, d.world, n);
    PlaceableNext(w0, w, d.world, n, services, i);
    if ok {
      FreeNext(w0, w, n, services, i);
      ServeNext(w, d.world, n, services, i);
    }
  }

  /** The sidecars from the `i`-th on, still to come, have a network and free names. */
  predicate Placeable(w: World, n: string, services: seq<Service>, i: nat) {
    n in w.networks && FreeAmong(w, n, services, i, |services|)
  }

  lemma PlaceableNext(w0: World, w: World, v: World, n: string, services: seq<Service>, i: nat)
    requires i < |services| && More(w0, w, n) && More(w0, v, n) && FreeBut(w, v, SidecarName(n, services[i]))
    ensures Placeable(w, n, services, i) ==> NameFree(w, Some(SidecarName(n, services[i]))) && Placeable(v, n, services, i + 1)
  {
    if Placeable(w, n, services, i) {
      forall j | i < j < |services| ensures NameFree(v, Some(SidecarName(n, services[j]))) {
        SidecarNamesDiffer(n, services[i], services[j]);
      }
    }
  }

  lemma ServeNext(w: World, v: World, n: string, services: seq<Service>, i: nat)
    requires i < |services| && More(w, v, n) && ServeTo(w, n, services, i) && Serves(v, n, services[i])
    ensures ServeTo(v, n, services, i + 1)
  {
  }

  /** The names free so far, and one that is free behind those that took them. */
  lemma FreeNext(w0: World, w: World, n: string, services: seq<Service>, i: nat)
    requires i < |services| && More(w0, w, n) && ServeTo(w, n, services, i) && Placed(w, n, services[i])
    requires FreeAmong(w0, n, services, 0, i)
    ensures FreeAmong(w0, n, services, 0, i + 1)
  {
    forall j | 0 <= j < i ensures services[j].name != services[i].name {
      assert Serves(w, n, services[j]);
    }
  }

  method StartEach(d: Daemon, n: string, services: seq<Service>) returns (ok: bool)
    requires d.Valid() && HasPrimary(d.world, n)
    modifies d
    ensures d.Valid() && d.Later() && More(old(d.world), d.world, n)
    ensures ok ==> AllServe(d.world, n, services) && ServicesFree(old(d.world), n, services)
    ensures ok ==> d.asked == StartsPlan(old(d.asked), n, services, |services|) && d.Fine(old(d.calls), d.calls)
    ensures Placeable(old(d.world), n, services, 0) && d.Fine(old(d.calls), |StartsPlan(old(d.asked), n, services, |services|)|) ==> ok
    ensures old(d.Working()) ==> d.Working()
  {
    ghost var w0, asks := d.world, d.asked;
    NoneStarted(d, n, services);
    var i := 0;
    while i < |services|
      invariant 0 <= i <= |services|
      invariant d.Valid() && d.Later() && More(w0, d.world, n)
      invariant Started(d, n, services, i, w0, asks)
      invariant Placeable(w0, n, services, 0) ==> Placeable(d.world, n, services, i)
    {
      ok := StartNext(d, n, services, i, w0, asks);
      if !ok {
        return;
      }
      i := i + 1;
    }
    ok := true;
  }

  lemma NoneStarted(d: Daemon, n: string, services: seq<Service>)
    requires |d.asked| == d.calls
    ensures More(d.world, d.world, n) && Started(d, n, services, 0, d.world, d.asked)
  {
    GrownItself(d.world, n);
  }

  /** Every sidecar in order, then a health wait for those that have a check. */
  method StartAll(d: Daemon, n: string, services: seq<Service>) returns (ok: bool)
    requires d.Valid() && HasPrimary(d.world, n)
    modifies d
    ensures d.Valid() && d.Later() && More(old(d.world), d.world, n)
    ensures ok ==> AllServe(d.world, n, services) && ServicesFree(old(d.world), n, services) && AllHeal(services)
    ensures ok ==> d.asked == StartAllPlan(old(d.asked), n, services) && d.Fine(old(d.calls), d.calls)
    ensures Placeable(old(d.world), n, services, 0) && AllHeal(services) && d.Fine(old(d.calls), |StartAllPlan(old(d.asked), n, services)|) ==> ok
    ensures old(d.Working()) ==> d.Working()
  {
    ok := StartEach(d, n, services);
    if ok {
      ok := AwaitAll(d, n, services);
    }
  }

  /** Inspects until the sidecar is healthy or will not be. */
  method AwaitHealth(d: Daemon, name: string, health: Health, ghost from: nat) returns (ok: bool)
    requires d.Valid() && from <= d.calls && d.Fine(from, d.calls)
    modifies d
    ensures d.Valid() && d.Later() && d.world == old(d.world)
    ensures ok <==> Heals(health) && d.Fine(from, |LookPlan(old(d.asked), name, health)|)
    ensures ok ==> d.asked == LookPlan(old(d.asked), name, health)
    ensures old(d.Working()) ==> d.Working()
  {
    var h := health;
    ghost var before := d.asked;
    ok := d.Probe(SeeHealth(name));
    while ok && h.NotYet?
      invariant d.Valid() && d.Later() && d.world == old(d.world) && from < d.calls
      invariant (Heals(h) <==> Heals(health)) && LookPlan(before, name, h) == LookPlan(old(d.asked), name, health)
      invariant d.asked == before + [SeeHealth(name)]
      invariant if ok then d.Fine(from, d.calls) else d.fates(d.calls - 1) != Works
      invariant old(d.Working()) ==> d.Working()
      decreases h
    {
      h, before := h.later, d.asked;
      ok := d.Probe(SeeHealth(name));
    }
    ok := ok && h.Healthy?;
  }

  /** The health of every sidecar that has a check, in order; the first that is not healthy ends it. */
  method AwaitAll(d: Daemon, n: string, services: seq<Service>) returns (ok: bool)
    requires d.Valid()
    modifies d
    ensures d.Valid() && d.Later() && d.world == old(d.world)
    ensures ok <==> AllHeal(services) && d.Fine(old(d.calls), |HealthPlan(old(d.asked), n, services, |services|)|)
    ensures ok ==> d.asked == HealthPlan(old(d.asked), n, services, |services|)
    ensures old(d.Working()) ==> d.Working()
  {
    ghost var asks := d.asked;
    var i := 0;
    while i < |services|
      invariant 0 <= i <= |services|
      invariant d.Valid() && d.Later() && d.world == old(d.world)
      invariant d.asked == HealthPlan(asks, n, services, i) && d.Fine(|asks|, d.calls)
      invariant forall j :: 0 <= j < i && services[j].health.Some? ==> Heals(services[j].health.value)
      invariant old(d.Working()) ==> d.Working()
    {
      HealthPlanGrows(asks, n, services, i + 1, |services|);
      if services[i].health.Some? {
        ok := AwaitHealth(d, SidecarName(n, services[i]), services[i].health.value, |asks|);
        if !ok {
          return;
        }
      }
      i := i + 1;
    }
    ok := true;
  }

  /** The network, then its sidecars; a sidecar that fails takes all of it down again. It succeeds if
      and only if the names are free, every sidecar with a check is found healthy, and every call of
      the plan is carried out and answered. Where the calls from `undoing` on work, a failure leaves
      the world as it was. */
  method Realize(d: Daemon, n: string, services: seq<Service>) returns (ok: bool, ghost undoing: nat)
    requires d.Valid() && HasPrimary(d.world, n) && forall id :: !Is(d.world, id, Sidecar(n))
    modifies d
    ensures d.Valid() && d.Later() && Grown(old(d.world), d.world, n)
    ensures n !in old(d.world).networks ==> Sweepable(d.world, n, None)
    ensures ok ==> n in d.world.networks && d.world.networks[n].managed && AllServe(d.world, n, services)
    ensures n in old(d.world).networks ==> !ok && d.world == old(d.world)
    ensures !ok && d.fates(old(d.calls)) == Works ==> old(d.calls) < undoing <= d.calls && (d.AllWork(undoing) ==> d.world == old(d.world))
    ensures ok ==> d.asked == RealizePlan(old(d.asked), n, services)
    ensures ok <==> Realizable(old(d.world), n, services) && d.Fine(old(d.calls), |RealizePlan(old(d.asked), n, services)|)
    ensures old(d.Working()) ==> d.Working()
  {
    ghost var w0 := d.world;
    RealizeFine(d, d.asked, n, services);
    var made := MakeNetwork(d, n);
    undoing := d.calls;
    if !made {
      return false, undoing;
    }
    SameFree(w0, d.world, n, services);
    ok, undoing := StartOrTakeDown(d, n, services, w0);
    if NoDependents(d.world, n) {
      GrownBare(w0, d.world, n);
    }
  }

  /** Nothing that was put up is left. */
  lemma GrownBare(w0: World, w: World, n: string)
    requires Grown(w0, w, n) && NoDependents(w, n) && n !in w0.networks
    ensures w == w0
  {
    assert w.containers == w0.containers && w.networks == w0.networks;
  }

  lemma RealizeFine(d: Daemon, asks: seq<Ask>, n: string, services: seq<Service>)
    ensures d.Fine(|asks|, |RealizePlan(asks, n, services)|)
      <==> d.fates(|asks|) == Works && d.Fine(|asks| + 1, |StartAllPlan(asks + [AddNetwork(n)], n, services)|)
  {
  }

  /** The network is not there yet, the names of its sidecars are free, and they become healthy. */
  predicate Realizable(w: World, n: string, services: seq<Service>) {
    n !in w.networks && ServicesFree(w, n, services) && AllHeal(services)
  }

  lemma SameFree(w: World, v: World, n: string, services: seq<Service>)
    requires v.containers == w.containers
    ensures ServicesFree(w, n, services) <==> ServicesFree(v, n, services)
  {
    if ServicesFree(w, n, services) {
      ServicesFreeAlike(w, v, n, services);
    }
    if ServicesFree(v, n, services) {
      ServicesFreeAlike(v, w, n, services);
    }
  }

  method StartOrTakeDown(d: Daemon, n: string, services: seq<Service>, ghost w0: World) returns (ok: bool, ghost undoing: nat)
    requires d.Valid() && HasPrimary(d.world, n) && n in d.world.networks && d.world.networks[n].managed
    requires AttachedExist(w0) && Grown(w0, d.world, n) && Sweepable(d.world, n, None) && forall id :: !Is(w0, id, Sidecar(n))
    modifies d
    ensures d.Valid() && d.Later() && Grown(w0, d.world, n) && Sweepable(d.world, n, None)
    ensures ok ==> n in d.world.networks && d.world.networks[n].managed && AllServe(d.world, n, services)
    ensures old(d.calls) <= undoing <= d.calls && (!ok && d.AllWork(undoing) ==> NoDependents(d.world, n))
    ensures ok ==> d.asked == StartAllPlan(old(d.asked), n, services)
    ensures ok <==> ServicesFree(old(d.world), n, services) && AllHeal(services) && d.Fine(old(d.calls), |StartAllPlan(old(d.asked), n, services)|)
    ensures old(d.Working()) ==> d.Working()
  {
    ghost var w1 := d.world;
    ok := StartAll(d, n, services);
    GrownThen(w0, w1, d.world, n);
    undoing := d.calls;
    if !ok {
      TakeDown(d, n, w0);
    }
  }

  /** The network of a sandbox, which the daemon refuses to make twice. */
  method MakeNetwork(d: Daemon, n: string) returns (ok: bool)
    requires d.Valid() && HasPrimary(d.world, n)
    modifies d
    ensures d.Valid() && d.Later() && Grown(old(d.world), d.world, n) && HasPrimary(d.world, n)
    ensures n !in old(d.world).networks ==> Sweepable(d.world, n, None)
    ensures ok ==> n !in old(d.world).networks && n in d.world.networks && d.world.networks[n].managed
    ensures n in old(d.world).networks ==> !ok && d.world == old(d.world)
    ensures d.world.containers == old(d.world).containers && d.asked == old(d.asked) + [AddNetwork(n)]
    ensures ok <==> d.fates(old(d.calls)) == Works && n !in old(d.world).networks
    ensures old(d.Working()) ==> d.Working()
  {
    ghost var w0 := d.world;
    GrownItself(w0, n);
    var reply := d.CreateNetwork(n);
    GrownPrimary(w0, d.world, n, n);
    ok := reply == Success;
  }

  /** Takes down what was put up since `w0`; a failure to do so changes nothing for the caller. */
  method TakeDown(d: Daemon, n: string, ghost w0: World)
    requires d.Valid() && AttachedExist(w0) && Grown(w0, d.world, n) && Sweepable(d.world, n, None)
    requires forall id :: !Is(w0, id, Sidecar(n))
    modifies d
    ensures d.Valid() && d.Later() && Grown(w0, d.world, n) && Sweepable(d.world, n, None)
    ensures old(d.Working()) ==> d.Working() && NoDependents(d.world, n)
  {
    ghost var w := d.world;
    var _, gone := d.Sweep(n, None);
    SweptGrown(w0, w, d.world, n, gone);
    SweptSweepable(w, d.world, n, gone);
  }

  lemma GrownThen(a: World, b: World, c: World, n: string)
    requires Grown(a, b, n) && Grown(b, c, n)
    ensures Grown(a, c, n)
  {
    forall x | x in c.containers && x !in a.containers
      ensures Is(c, x, Sidecar(n))
    {
      assert x in b.containers ==> Is(b, x, Sidecar(n));
    }
  }

  lemma SweptSweepable(w0: World, w: World, n: string, gone: set<nat>)
    requires Swept(w0, w, n, gone) && Sweepable(w0, n, None) && AttachedExist(w)
    ensures Sweepable(w, n, None)
  {
    if n in w.networks {
      forall x | x in w.networks[n].attached
        ensures Is(w, x, Sidecar(n))
      {
        assert Is(w0, x, Sidecar(n)) && x in w.containers;
      }
    }
  }
}
