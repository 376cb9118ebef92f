/** What a Docker daemon holds for this provider, and what must be true of it between any two
    calls: everything that depends on a sandbox can be found from the sandbox's own labelled
    container. */
module DockerWorld {
  import opened Bytes

  /** A sandbox's own container with the sidecar network its label names, a sidecar labelled with
      its network, a one-shot container labelled with its sandbox, or anything else. */
  datatype Role = Primary(tag: Option<string>) | Sidecar(network: string) | OneShot(sandbox: nat) | Foreign

  datatype Container = Container(name: Option<string>, role: Role)

  datatype Network = Network(managed: bool, attached: set<nat>)

  datatype World = World(containers: map<nat, Container>, networks: map<string, Network>)

  function NetworkName(sandbox: string): string {
    sandbox + "-net"
  }

  lemma NetworkNameInjective(a: string, b: string)
    requires NetworkName(a) == NetworkName(b)
    ensures a == b
  {
    assert NetworkName(a)[..|a|] == a && NetworkName(b)[..|b|] == b;
    assert |NetworkName(a)| == |a| + 4 && |NetworkName(b)| == |b| + 4;
  }

  predicate Is(w: World, id: nat, role: Role) {
    id in w.containers && w.containers[id].role == role
  }

  ghost predicate HasPrimary(w: World, n: string) {
    exists id :: Is(w, id, Primary(Some(n)))
  }

  predicate Named(w: World, id: nat, name: string) {
    id in w.containers && w.containers[id].name == Some(name)
  }

  /** The daemon gives no name twice. */
  ghost predicate NamesUnique(w: World) {
    forall i, j, name :: Named(w, i, name) && Named(w, j, name) ==> i == j
  }

  /** A sandbox's label is derived from its name. */
  ghost predicate LabelsNamed(w: World) {
    forall id, n :: Is(w, id, Primary(Some(n))) ==> exists name :: Named(w, id, name) && n == NetworkName(name)
  }

  /** Every sidecar and every sidecar network is named by the label of an existing sandbox, and
      every one-shot container by the id of one. */
  ghost predicate NoOrphans(w: World) {
    && (forall id, n :: Is(w, id, Sidecar(n)) ==> HasPrimary(w, n))
    && (forall n :: n in w.networks && w.networks[n].managed ==> HasPrimary(w, n))
    && (forall id, p :: Is(w, id, OneShot(p)) ==> p in w.containers && w.containers[p].role.Primary?)
  }

  ghost predicate AttachedExist(w: World) {
    forall n, id :: n in w.networks && id in w.networks[n].attached ==> id in w.containers
  }

  ghost predicate Tidy(w: World) {
    NamesUnique(w) && LabelsNamed(w) && NoOrphans(w) && AttachedExist(w)
  }

  predicate NameFree(w: World, name: Option<string>) {
    name.None? || forall id :: id in w.containers ==> w.containers[id].name != name
  }

  // ------------------------------------------------------- effects of the daemon's calls

  /** Removing containers also takes them off their networks. */
  function Without(w: World, ids: set<nat>): World {
    World(w.containers - ids, map n | n in w.networks :: Network(w.networks[n].managed, w.networks[n].attached - ids))
  }

  function WithContainer(w: World, id: nat, c: Container): World {
    w.(containers := w.containers[id := c])
  }

  function WithNetwork(w: World, n: string, net: Network): World {
    w.(networks := w.networks[n := net])
  }

  function WithoutNetwork(w: World, n: string): World {
    w.(networks := w.networks - {n})
  }

  function Attach(w: World, n: string, id: nat): World {
    if n !in w.networks then w
    else WithNetwork(w, n, Network(w.networks[n].managed, w.networks[n].attached + {id}))
  }

  function Detach(w: World, n: string, id: nat): World {
    if n !in w.networks then w
    else WithNetwork(w, n, Network(w.networks[n].managed, w.networks[n].attached - {id}))
  }

  // ------------------------------------------------------- each effect keeps the world tidy

  predicate NoPrimaryIn(w: World, ids: set<nat>) {
    forall id :: id in ids && id in w.containers ==> !w.containers[id].role.Primary?
  }

  lemma WithoutKeepsPrimaries(w: World, ids: set<nat>, n: string)
    requires HasPrimary(w, n) && forall id :: id in ids ==> !Is(w, id, Primary(Some(n)))
    ensures HasPrimary(Without(w, ids), n)
  {
    var id :| Is(w, id, Primary(Some(n)));
    assert Is(Without(w, ids), id, Primary(Some(n)));
  }

  lemma WithoutNames(w: World, ids: set<nat>)
    requires NamesUnique(w) && LabelsNamed(w) && AttachedExist(w)
    ensures NamesUnique(Without(w, ids)) && LabelsNamed(Without(w, ids)) && AttachedExist(Without(w, ids))
  {
    var v := Without(w, ids);
    forall i, j, name | Named(v, i, name) && Named(v, j, name)
      ensures i == j
    {
      assert Named(w, i, name) && Named(w, j, name);
    }
    forall id, n | Is(v, id, Primary(Some(n)))
      ensures exists name :: Named(v, id, name) && n == NetworkName(name)
    {
      assert Is(w, id, Primary(Some(n)));
      var name :| Named(w, id, name) && n == NetworkName(name);
      assert Named(v, id, name);
    }
  }

  /** Containers that are not a sandbox's own may go at any time. */
  lemma WithoutTidy(w: World, ids: set<nat>)
    requires Tidy(w) && NoPrimaryIn(w, ids)
    ensures Tidy(Without(w, ids))
  {
    WithoutNames(w, ids);
    var v := Without(w, ids);
    forall id, n | Is(v, id, Sidecar(n))
      ensures HasPrimary(v, n)
    {
      assert Is(w, id, Sidecar(n));
      WithoutKeepsPrimaries(w, ids, n);
    }
    forall n | n in v.networks && v.networks[n].managed
      ensures HasPrimary(v, n)
    {
      WithoutKeepsPrimaries(w, ids, n);
    }
    forall id, p | Is(v, id, OneShot(p))
      ensures p in v.containers && v.containers[p].role.Primary?
    {
      assert Is(w, id, OneShot(p));
    }
  }

  /** Nothing is left that only this network's label finds. */
  ghost predicate NoDependents(w: World, n: string) {
    n !in w.networks && forall id :: !Is(w, id, Sidecar(n))
  }

  ghost predicate Unneeded(w: World, id: nat) {
    && (forall o :: !Is(w, o, OneShot(id)))
    && (forall n :: Is(w, id, Primary(Some(n))) ==> NoDependents(w, n))
  }

  /** A sandbox's own container may go once nothing depends on it. */
  lemma WithoutPrimaryTidy(w: World, id: nat)
    requires Tidy(w) && Unneeded(w, id)
    ensures Tidy(Without(w, {id}))
  {
    WithoutNames(w, {id});
    var v := Without(w, {id});
    forall s, n | Is(v, s, Sidecar(n))
      ensures HasPrimary(v, n)
    {
      assert Is(w, s, Sidecar(n));
      WithoutKeepsPrimaries(w, {id}, n);
    }
    forall n | n in v.networks && v.networks[n].managed
      ensures HasPrimary(v, n)
    {
      WithoutKeepsPrimaries(w, {id}, n);
    }
    forall o, p | Is(v, o, OneShot(p))
      ensures p in v.containers && v.containers[p].role.Primary?
    {
      assert Is(w, o, OneShot(p));
    }
  }

  /** Containers added beside the others. */
  lemma WithContainerNames(w: World, id: nat, c: Container)
    requires NamesUnique(w) && id !in w.containers && NameFree(w, c.name)
    ensures NamesUnique(WithContainer(w, id, c))
  {
    var v := WithContainer(w, id, c);
    forall i, j, name | Named(v, i, name) && Named(v, j, name)
      ensures i == j
    {
      if i != id && j != id {
        assert Named(w, i, name) && Named(w, j, name);
      }
    }
  }

  lemma WithContainerLabels(w: World, id: nat, c: Container)
    requires LabelsNamed(w) && id !in w.containers
    requires c.role.Primary? && c.role.tag.Some? ==> c.name.Some? && c.role.tag.value == NetworkName(c.name.value)
    ensures LabelsNamed(WithContainer(w, id, c))
  {
    var v := WithContainer(w, id, c);
    forall i, n | Is(v, i, Primary(Some(n)))
      ensures exists name :: Named(v, i, name) && n == NetworkName(name)
    {
      if i == id {
        assert Named(v, id, c.name.value);
      } else {
        assert Is(w, i, Primary(Some(n)));
        var name :| Named(w, i, name) && n == NetworkName(name);
        assert Named(v, i, name);
      }
    }
  }

  lemma WithContainerKeepsPrimaries(w: World, id: nat, c: Container, n: string)
    requires HasPrimary(w, n) && id !in w.containers
    ensures HasPrimary(WithContainer(w, id, c), n)
  {
    var p :| Is(w, p, Primary(Some(n)));
    assert Is(WithContainer(w, id, c), p, Primary(Some(n)));
  }

  /** A sandbox's own container may be added at any time, a sidecar when its sandbox exists. */
  lemma WithContainerTidy(w: World, id: nat, c: Container)
    requires Tidy(w) && id !in w.containers && NameFree(w, c.name)
    requires c.role.Primary? || (c.role.Sidecar? && HasPrimary(w, c.role.network))
    requires c.role.Primary? && c.role.tag.Some? ==> c.name.Some? && c.role.tag.value == NetworkName(c.name.value)
    ensures Tidy(WithContainer(w, id, c))
  {
    WithContainerNames(w, id, c);
    WithContainerLabels(w, id, c);
    var v := WithContainer(w, id, c);
    forall s, n | Is(v, s, Sidecar(n))
      ensures HasPrimary(v, n)
    {
      assert s != id ==> Is(w, s, Sidecar(n));
      WithContainerKeepsPrimaries(w, id, c, n);
    }
    forall n | n in v.networks && v.networks[n].managed
      ensures HasPrimary(v, n)
    {
      WithContainerKeepsPrimaries(w, id, c, n);
    }
    forall o, p | Is(v, o, OneShot(p))
      ensures p in v.containers && v.containers[p].role.Primary?
    {
      assert Is(w, o, OneShot(p));
    }
  }

  /** Networks say nothing about containers. */
  lemma SameContainers(w: World, v: World)
    requires w.containers == v.containers && NamesUnique(w) && LabelsNamed(w)
    ensures NamesUnique(v) && LabelsNamed(v)
  {
    forall i, j, name | Named(v, i, name) && Named(v, j, name)
      ensures i == j
    {
      assert Named(w, i, name) && Named(w, j, name);
    }
    forall id, n | Is(v, id, Primary(Some(n)))
      ensures exists name :: Named(v, id, name) && n == NetworkName(name)
    {
      assert Is(w, id, Primary(Some(n)));
      var name :| Named(w, id, name) && n == NetworkName(name);
      assert Named(v, id, name);
    }
  }

  lemma SamePrimaries(w: World, v: World, n: string)
    requires w.containers == v.containers && HasPrimary(w, n)
    ensures HasPrimary(v, n)
  {
    var id :| Is(w, id, Primary(Some(n)));
    assert Is(v, id, Primary(Some(n)));
  }

  /** A world that differs in its networks only, each of them old or with a sandbox to name it. */
  lemma NetworksTidy(w: World, v: World)
    requires Tidy(w) && w.containers == v.containers && AttachedExist(v)
    requires forall n :: n in v.networks && v.networks[n].managed ==> HasPrimary(w, n)
    ensures Tidy(v)
  {
    SameContainers(w, v);
    forall id, n | Is(v, id, Sidecar(n))
      ensures HasPrimary(v, n)
    {
      assert Is(w, id, Sidecar(n));
      SamePrimaries(w, v, n);
    }
    forall n | n in v.networks && v.networks[n].managed
      ensures HasPrimary(v, n)
    {
      SamePrimaries(w, v, n);
    }
    forall id, p | Is(v, id, OneShot(p))
      ensures p in v.containers && v.containers[p].role.Primary?
    {
      assert Is(w, id, OneShot(p));
    }
  }

  lemma WithNetworkTidy(w: World, n: string)
    requires Tidy(w) && HasPrimary(w, n)
    ensures Tidy(WithNetwork(w, n, Network(true, {})))
  {
    NetworksTidy(w, WithNetwork(w, n, Network(true, {})));
  }

  lemma WithoutNetworkTidy(w: World, n: string)
    requires Tidy(w)
    ensures Tidy(WithoutNetwork(w, n))
  {
    NetworksTidy(w, WithoutNetwork(w, n));
  }

  lemma AttachTidy(w: World, n: string, id: nat)
    requires Tidy(w) && id in w.containers
    ensures Tidy(Attach(w, n, id))
  {
    NetworksTidy(w, Attach(w, n, id));
  }

  lemma DetachTidy(w: World, n: string, id: nat)
    requires Tidy(w)
    ensures Tidy(Detach(w, n, id))
  {
    NetworksTidy(w, Detach(w, n, id));
  }

  lemma WithoutTwice(w: World, a: set<nat>, b: set<nat>)
    ensures Without(Without(w, a), b) == Without(w, a + b)
  {
    var l, r := Without(Without(w, a), b), Without(w, a + b);
    assert l.containers == r.containers;
    assert l.networks.Keys == r.networks.Keys;
    forall n | n in l.networks
      ensures l.networks[n] == r.networks[n]
    {
      assert w.networks[n].attached - a - b == w.networks[n].attached - (a + b);
    }
    assert l.networks == r.networks;
  }

  /** A name that is free has no dependents in a tidy world, so a create meets nobody else's. */
  lemma FreeNameHasNoSidecars(w: World, name: string)
    requires Tidy(w) && NameFree(w, Some(name))
    ensures !HasPrimary(w, NetworkName(name))
    ensures forall id :: !Is(w, id, Sidecar(NetworkName(name)))
  {
    if HasPrimary(w, NetworkName(name)) {
      var id :| Is(w, id, Primary(Some(NetworkName(name))));
      var other :| Named(w, id, other) && NetworkName(name) == NetworkName(other);
      NetworkNameInjective(name, other);
    }
  }

  // ------------------------------------------------------- networks nobody else has joined

  /** A container that belongs on the sidecar network `n`: a sidecar of it, its sandbox, or a
      one-shot container of that sandbox. */
  predicate Belongs(w: World, c: nat, n: string) {
    || Is(w, c, Sidecar(n))
    || Is(w, c, Primary(Some(n)))
    || (c in w.containers && w.containers[c].role.OneShot? && Is(w, w.containers[c].role.sandbox, Primary(Some(n))))
  }

  predicate PrivateOn(w: World, n: string) {
    n in w.networks ==> forall c :: c in w.networks[n].attached ==> Belongs(w, c, n)
  }

  /** Only the networks in `guests` have somebody else on them. */
  ghost predicate Private(w: World, guests: set<string>) {
    forall n :: n !in guests ==> PrivateOn(w, n)
  }

  /** Every container has the role its id was first given. */
  ghost predicate Roled(w: World, roles: map<nat, Role>) {
    forall id :: id in w.containers ==> id in roles && roles[id] == w.containers[id].role
  }

  /** What holds of the world between any two calls of one driver. */
  ghost predicate Fit(w: World, guests: set<string>, roles: map<nat, Role>) {
    Tidy(w) && Private(w, guests) && Roled(w, roles)
  }

  lemma WithoutPrivateOn(w: World, ids: set<nat>, n: string)
    requires PrivateOn(w, n) && forall o, id :: id in ids ==> !Is(w, o, OneShot(id))
    ensures PrivateOn(Without(w, ids), n)
  {
    var v := Without(w, ids);
    if n in v.networks {
      forall c | c in v.networks[n].attached
        ensures Belongs(v, c, n)
      {
        assert Belongs(w, c, n) && c !in ids;
        if c in w.containers && w.containers[c].role.OneShot? {
          assert Is(w, c, OneShot(w.containers[c].role.sandbox));
        }
      }
    }
  }

  lemma WithoutFit(w: World, ids: set<nat>, guests: set<string>, roles: map<nat, Role>)
    requires Fit(w, guests, roles) && Tidy(Without(w, ids))
    requires forall o, id :: id in ids ==> !Is(w, o, OneShot(id))
    ensures Fit(Without(w, ids), guests, roles)
  {
    forall n | n !in guests
      ensures PrivateOn(Without(w, ids), n)
    {
      WithoutPrivateOn(w, ids, n);
    }
  }

  /** Dependents may go at any time. */
  lemma WithoutDependentsFit(w: World, ids: set<nat>, guests: set<string>, roles: map<nat, Role>)
    requires Fit(w, guests, roles) && NoPrimaryIn(w, ids)
    ensures Fit(Without(w, ids), guests, roles)
  {
    WithoutTidy(w, ids);
    forall o, id | id in ids
      ensures !Is(w, o, OneShot(id))
    {
      assert id !in w.containers || !w.containers[id].role.Primary?;
    }
    WithoutFit(w, ids, guests, roles);
  }

  /** The sandbox's container may go last. */
  lemma WithoutUnneededFit(w: World, id: nat, guests: set<string>, roles: map<nat, Role>)
    requires Fit(w, guests, roles) && Unneeded(w, id)
    ensures Fit(Without(w, {id}), guests, roles)
  {
    WithoutPrimaryTidy(w, id);
    WithoutFit(w, {id}, guests, roles);
  }

  /** More containers, or the same: whoever belongs still does. */
  lemma BelongsStays(w: World, v: World, c: nat, n: string)
    requires Belongs(w, c, n) && forall id :: id in w.containers ==> id in v.containers && v.containers[id] == w.containers[id]
    ensures Belongs(v, c, n)
  {
  }

  lemma PrivateGrows(w: World, v: World, n: string)
    requires PrivateOn(w, n) && forall id :: id in w.containers ==> id in v.containers && v.containers[id] == w.containers[id]
    requires n in v.networks ==> forall c :: c in v.networks[n].attached ==> (n in w.networks && c in w.networks[n].attached) || Belongs(v, c, n)
    ensures PrivateOn(v, n)
  {
    if n in v.networks {
      forall c | c in v.networks[n].attached
        ensures Belongs(v, c, n)
      {
        if n in w.networks && c in w.networks[n].attached {
          BelongsStays(w, v, c, n);
        }
      }
    }
  }

  lemma WithContainerFit(w: World, id: nat, c: Container, guests: set<string>, roles: map<nat, Role>)
    requires Fit(w, guests, roles) && id !in w.containers && id !in roles && Tidy(WithContainer(w, id, c))
    ensures Fit(WithContainer(w, id, c), guests, roles[id := c.role])
  {
    forall n | n !in guests
      ensures PrivateOn(WithContainer(w, id, c), n)
    {
      PrivateGrows(w, WithContainer(w, id, c), n);
    }
  }

  /** A world that differs in one network only, and there by containers that belong. */
  lemma NetworkFit(w: World, v: World, m: string, guests: set<string>, roles: map<nat, Role>)
    requires Fit(w, guests, roles) && Tidy(v) && v.containers == w.containers
    requires forall n :: n in v.networks && n != m ==> n in w.networks && v.networks[n] == w.networks[n]
    requires m in v.networks ==> forall c :: c in v.networks[m].attached ==> (m in w.networks && c in w.networks[m].attached) || Belongs(v, c, m)
    ensures Fit(v, guests, roles)
  {
    forall n | n !in guests
      ensures PrivateOn(v, n)
    {
      PrivateGrows(w, v, n);
    }
  }

  lemma AttachFit(w: World, n: string, id: nat, guests: set<string>, roles: map<nat, Role>)
    requires Fit(w, guests, roles) && Belongs(w, id, n)
    ensures Fit(Attach(w, n, id), guests, roles)
  {
    AttachTidy(w, n, id);
    BelongsStays(w, Attach(w, n, id), id, n);
    NetworkFit(w, Attach(w, n, id), n, guests, roles);
  }

  lemma DetachFit(w: World, n: string, id: nat, guests: set<string>, roles: map<nat, Role>)
    requires Fit(w, guests, roles)
    ensures Fit(Detach(w, n, id), guests, roles)
  {
    DetachTidy(w, n, id);
    NetworkFit(w, Detach(w, n, id), n, guests, roles);
  }

  lemma WithNetworkFit(w: World, n: string, guests: set<string>, roles: map<nat, Role>)
    requires Fit(w, guests, roles) && HasPrimary(w, n)
    ensures Fit(WithNetwork(w, n, Network(true, {})), guests, roles)
  {
    WithNetworkTidy(w, n);
    NetworkFit(w, WithNetwork(w, n, Network(true, {})), n, guests, roles);
  }

  lemma WithoutNetworkFit(w: World, n: string, guests: set<string>, roles: map<nat, Role>)
    requires Fit(w, guests, roles)
    ensures Fit(WithoutNetwork(w, n), guests, roles)
  {
    WithoutNetworkTidy(w, n);
    NetworkFit(w, WithoutNetwork(w, n), n, guests, roles);
  }

  /** A label names at most one sandbox. */
  lemma OnePrimary(w: World, a: nat, b: nat, n: string)
    requires Tidy(w) && Is(w, a, Primary(Some(n))) && Is(w, b, Primary(Some(n)))
    ensures a == b
  {
    var x :| Named(w, a, x) && n == NetworkName(x);
    var y :| Named(w, b, y) && n == NetworkName(y);
    NetworkNameInjective(x, y);
  }
}
