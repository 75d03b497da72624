/**
 * The extension registry: which packages are installed, which contribution each of them has put into the
 * runtime, and the update that replaces one package by another or puts everything back.
 *
 * A module that was loaded is known by a number. `prepared` is what loading and validating a package gave:
 * `None` is a package that did not load, `Some(None)` one that contributes nothing.
 */
module ExtensionRegistry {
  import opened Wrappers

  datatype Kind = Capability | Connector(connectorId: string, transports: nat)

  datatype Manifest = Manifest(id: string, kind: Kind)

  datatype Module = Module(id: string, capability: bool, code: nat)

  datatype Driver = Driver(id: string, code: nat)

  datatype Hooks = Hooks(capabilityModule: Option<Module>, factory: Option<nat>, driver: Option<Driver>)

  datatype Origin = Bundled | User | LocalLink

  datatype Record = Record(manifest: Manifest, origin: Origin, digest: Option<string>, installedAt: int, source: string)

  datatype Builtin = Builtin(manifest: Manifest, hooks: Hooks)

  datatype Key = CapabilityKey(id: string) | ConnectorKey(connectorId: string)

  /** The driver registry. Each registration of a factory gets a new epoch. */
  datatype Drivers = Drivers(
    drivers: map<string, Driver>,
    factories: map<string, nat>,
    owners: map<string, string>,
    epochs: map<string, nat>,
    nextEpoch: nat)

  datatype Registry = Registry(
    builtins: map<string, Builtin>,
    installed: map<string, Record>,
    file: map<string, Record>,
    active: map<string, Option<Hooks>>,
    owners: map<Key, string>,
    catalog: map<string, Module>,
    drivers: Drivers,
    digests: map<string, string>,
    activeLocal: set<string>)

  function KeyOf(m: Manifest): Key {
    match m.kind
    case Capability => CapabilityKey(m.id)
    case Connector(connectorId, _) => ConnectorKey(connectorId)
  }

  // ---- the driver registry ----

  function Register(d: Drivers, driver: Driver, owner: string): Drivers {
    d.(drivers := d.drivers[driver.id := driver], owners := d.owners[driver.id := owner])
  }

  function RegisterFactory(d: Drivers, connectorId: string, factory: nat, owner: string): Drivers {
    d.(factories := d.factories[connectorId := factory], owners := d.owners[connectorId := owner],
       epochs := d.epochs[connectorId := d.nextEpoch], nextEpoch := d.nextEpoch + 1)
  }

  function Unregister(d: Drivers, id: string): Drivers {
    d.(factories := d.factories - {id}, epochs := d.epochs - {id}, owners := d.owners - {id}, drivers := d.drivers - {id})
  }

  /** A driver made by a factory remembers where it comes from. */
  datatype Instance = Instance(connectorId: string, owner: string, epoch: nat)

  /** The instance was made by the factory that is registered now. */
  predicate IsCurrent(d: Drivers, factory: nat, i: Instance) {
    && i.connectorId in d.factories && d.factories[i.connectorId] == factory
    && i.connectorId in d.owners && d.owners[i.connectorId] == i.owner
    && i.connectorId in d.epochs && d.epochs[i.connectorId] == i.epoch
  }

  datatype DriverOp =
    | DoRegister(driver: Driver, owner: string)
    | DoRegisterFactory(connectorId: string, factory: nat, owner: string)
    | DoUnregister(id: string)

  function ApplyDriverOp(d: Drivers, op: DriverOp): Drivers {
    match op
    case DoRegister(driver, owner) => Register(d, driver, owner)
    case DoRegisterFactory(connectorId, factory, owner) => RegisterFactory(d, connectorId, factory, owner)
    case DoUnregister(id) => Unregister(d, id)
  }

  function RunDriverOps(d: Drivers, ops: seq<DriverOp>): Drivers
    decreases |ops|
  {
    if ops == [] then d else RunDriverOps(ApplyDriverOp(d, ops[0]), ops[1..])
  }

  /** The epoch is of the past: it is not the connector's now, and it is not drawn again. */
  predicate Outdated(d: Drivers, i: Instance) {
    i.epoch < d.nextEpoch && (i.connectorId in d.epochs ==> d.epochs[i.connectorId] != i.epoch)
  }

  lemma {:induction false} OutdatedStays(d: Drivers, ops: seq<DriverOp>, i: Instance)
    requires Outdated(d, i)
    ensures Outdated(RunDriverOps(d, ops), i)
    decreases |ops|
  {
    if ops != [] {
      OutdatedStays(ApplyDriverOp(d, ops[0]), ops[1..], i);
    }
  }

  /** A new registration of a factory, even of the same one, or its removal, ends every instance made before,
      for good: whatever is registered later, none of them is current again. */
  lemma ReplacementEndsInstances(d: Drivers, op: DriverOp, later: seq<DriverOp>, factory: nat, i: Instance)
    requires i.epoch < d.nextEpoch
    requires (op.DoRegisterFactory? && op.connectorId == i.connectorId) || (op.DoUnregister? && op.id == i.connectorId)
    ensures !IsCurrent(RunDriverOps(ApplyDriverOp(d, op), later), factory, i)
  {
    OutdatedStays(ApplyDriverOp(d, op), later, i);
  }

  // ---- contributions ----

  predicate ValidHooks(m: Manifest, h: Hooks) {
    match m.kind
    case Capability => h.capabilityModule.Some? && h.capabilityModule.value.id == m.id
    case Connector(connectorId, transports) =>
      && (h.factory.Some? || h.driver.Some?)
      && (transports > 1 ==> h.factory.Some?)
      && (h.driver.Some? ==> h.driver.value.id == connectorId)
  }

  /** Hooks the runtime takes: valid for the manifest, and a module that the catalog lists. */
  predicate Loadable(m: Manifest, h: Hooks) {
    ValidHooks(m, h) && (m.kind.Capability? ==> h.capabilityModule.value.capability)
  }

  /** The package can be activated: its hooks fit, and nobody holds its contribution. */
  predicate Fits(r: Registry, m: Manifest, h: Hooks) {
    Loadable(m, h) && KeyOf(m) !in r.owners
  }

  function Contribute(r: Registry, m: Manifest, h: Hooks): (r'': Registry)
    requires ValidHooks(m, h)
    ensures r'' == r.(catalog := r''.catalog, drivers := r''.drivers, owners := r.owners[KeyOf(m) := m.id])
  {
    var r' := match m.kind
      case Capability => r.(catalog := r.catalog[m.id := h.capabilityModule.value])
      case Connector(connectorId, _) =>
        r.(drivers := if h.factory.Some? then RegisterFactory(r.drivers, connectorId, h.factory.value, m.id)
                      else Register(r.drivers, h.driver.value, m.id));
    r'.(owners := r.owners[KeyOf(m) := m.id])
  }

  predicate Activates(r: Registry, m: Manifest, hooks: Option<Hooks>) {
    hooks.Some? ==> Fits(r, m, hooks.value)
  }

  function ActivatePrepared(r: Registry, record: Record, hooks: Option<Hooks>): Registry
    requires Activates(r, record.manifest, hooks)
  {
    var m := record.manifest;
    var r' := if hooks.Some? then Contribute(r, m, hooks.value) else r;
    r'.(active := r.active[m.id := hooks],
        digests := if record.origin.Bundled? && record.digest.Some? then r.digests[m.id := record.digest.value] else r.digests - {m.id})
  }

  predicate Owns(r: Registry, m: Manifest) {
    KeyOf(m) in r.owners && r.owners[KeyOf(m)] == m.id
  }

  function Deactivate(r: Registry, m: Manifest): (r'': Registry)
    ensures Owns(r, m) ==> r'' == r.(catalog := r''.catalog, drivers := r''.drivers, digests := r.digests - {m.id}, owners := r.owners - {KeyOf(m)})
    ensures !Owns(r, m) ==> r'' == r
  {
    if !Owns(r, m) then r
    else
      var r' := match m.kind
        case Capability => r.(catalog := r.catalog - {m.id})
        case Connector(connectorId, _) => r.(drivers := Unregister(r.drivers, connectorId));
      r'.(digests := r.digests - {m.id}, owners := r.owners - {KeyOf(m)})
  }

  // ---- the update ----

  datatype Update = Replaced | NotPrepared | RolledBack | RollbackFailed

  function Rollback(r: Registry, existing: Record, candidate: Record, hadHooks: bool, oldHooks: Option<Hooks>, wasLocal: bool): (Registry, Update) {
    var r' := PutBack(Deactivate(r, candidate.manifest), existing, wasLocal);
    if !hadHooks then (r', RolledBack)
    else if Activates(r', existing.manifest, oldHooks) then (ActivatePrepared(r', existing, oldHooks), RolledBack)
    else (r', RollbackFailed)
  }

  /** The old record and its local flag. */
  function PutBack(r: Registry, existing: Record, wasLocal: bool): Registry {
    var id := existing.manifest.id;
    r.(installed := r.installed[id := existing], activeLocal := if wasLocal then r.activeLocal + {id} else r.activeLocal - {id})
  }

  function ReplaceInstalled(r: Registry, candidate: Record, prepared: Option<Option<Hooks>>, writes: bool): (Registry, Update)
    requires candidate.manifest.id in r.installed
  {
    var id := candidate.manifest.id;
    var existing := r.installed[id];
    if prepared.None? then (r, NotPrepared)
    else
      var oldHooks := if id in r.active then r.active[id] else None;
      var r1 := Deactivate(r, existing.manifest);
      if !Activates(r1, candidate.manifest, prepared.value) then
        Rollback(r1, existing, candidate, id in r.active, oldHooks, id in r.activeLocal)
      else
        var r2 := ActivatePrepared(r1, candidate, prepared.value);
        var r3 := r2.(installed := r2.installed[id := candidate.(installedAt := existing.installedAt)],
                      activeLocal := if existing.origin.LocalLink? then r2.activeLocal + {id} else r2.activeLocal);
        if writes then (r3.(file := r3.installed), Replaced)
        else Rollback(r3, existing, candidate, id in r.active, oldHooks, id in r.activeLocal)
  }

  // ---- the other operations ----

  /** A package that code provides; one that cannot be activated is only listed. */
  function RegisterBuiltin(r: Registry, m: Manifest, h: Hooks): Registry {
    var r' := r.(builtins := r.builtins[m.id := Builtin(m, h)]);
    if Fits(r', m, h) then Contribute(r', m, h) else r'
  }

  /** What startup does with one stored record; `prepared` is `None` when it is not to be activated. */
  function Load(r: Registry, record: Record, prepared: Option<Option<Hooks>>): Registry {
    var r' := r.(installed := r.installed[record.manifest.id := record]);
    if prepared.Some? && Activates(r', record.manifest, prepared.value) then
      var r'' := ActivatePrepared(r', record, prepared.value);
      if record.origin.LocalLink? then r''.(activeLocal := r''.activeLocal + {record.manifest.id}) else r''
    else r'
  }

  function InstallNew(r: Registry, record: Record, prepared: Option<Option<Hooks>>, writes: bool): Registry {
    var id := record.manifest.id;
    if id in r.builtins || id in r.installed || prepared.None? || !Activates(r, record.manifest, prepared.value) then r
    else
      var r1 := ActivatePrepared(r, record, prepared.value);
      if writes then
        var r2 := r1.(installed := r1.installed[id := record], activeLocal := if record.origin.LocalLink? then r1.activeLocal + {id} else r1.activeLocal);
        r2.(file := r2.installed)
      else if record.origin.User? then Deactivate(r1, record.manifest)
      else r1.(installed := r1.installed[id := record], activeLocal := if record.origin.LocalLink? then r1.activeLocal + {id} else r1.activeLocal)
  }

  function Uninstall(r: Registry, id: string, writes: bool): Registry {
    if id in r.builtins || id !in r.installed || r.installed[id].origin.Bundled? then r
    else
      var r1 := Deactivate(r, r.installed[id].manifest);
      var r2 := r1.(active := r1.active - {id}, activeLocal := r1.activeLocal - {id}, installed := r1.installed - {id});
      if writes then r2.(file := r2.installed) else r2
  }

  /** One record when developer mode is switched off, or on. */
  function Suspend(r: Registry, id: string): Registry {
    if id !in r.installed || r.installed[id].origin.Bundled? then r
    else
      var r1 := Deactivate(r, r.installed[id].manifest);
      r1.(active := r1.active - {id}, activeLocal := r1.activeLocal - {id})
  }

  function Resume(r: Registry, id: string, prepared: Option<Option<Hooks>>): Registry {
    if id !in r.installed || r.installed[id].origin.Bundled? || prepared.None? || !Activates(r, r.installed[id].manifest, prepared.value) then r
    else
      var r1 := ActivatePrepared(r, r.installed[id], prepared.value);
      if r.installed[id].origin.LocalLink? then r1.(activeLocal := r1.activeLocal + {id}) else r1
  }

  // ---- consistency ----

  /** The hooks a package runs with. */
  function Running(r: Registry, id: string): Option<(Manifest, Hooks)> {
    if id in r.builtins then Some((r.builtins[id].manifest, r.builtins[id].hooks))
    else if id in r.installed && id in r.active && r.active[id].Some? then Some((r.installed[id].manifest, r.active[id].value))
    else None
  }

  /** What the runtime registries hold under one contribution key. */
  datatype Held = Held(capabilityModule: Option<Module>, driver: Option<Driver>, factory: Option<nat>, owner: Option<string>, epoch: bool)

  const Nothing := Held(None, None, None, None, false)

  function Lookup<K, V>(m: map<K, V>, k: K): Option<V> {
    if k in m then Some(m[k]) else None
  }

  function HeldAt(r: Registry, key: Key): Held {
    match key
    case CapabilityKey(id) => Nothing.(capabilityModule := Lookup(r.catalog, id))
    case ConnectorKey(c) =>
      Held(None, Lookup(r.drivers.drivers, c), Lookup(r.drivers.factories, c), Lookup(r.drivers.owners, c), c in r.drivers.epochs)
  }

  /** What the hooks of a package should put there: a factory takes precedence over a single driver. */
  function Offered(m: Manifest, h: Hooks): Held {
    match m.kind
    case Capability => Nothing.(capabilityModule := h.capabilityModule)
    case Connector(_, _) =>
      if h.factory.Some? then Held(None, None, h.factory, Some(m.id), true)
      else Held(None, h.driver, None, Some(m.id), false)
  }

  /** A key has one owner, a package that runs, and what is registered is that package's; a key without an
      owner has nothing registered. */
  ghost predicate KeyOk(r: Registry, key: Key) {
    if key in r.owners then
      var run := Running(r, r.owners[key]);
      run.Some? && KeyOf(run.value.0) == key && Loadable(run.value.0, run.value.1) && HeldAt(r, key) == Offered(run.value.0, run.value.1)
    else HeldAt(r, key) == Nothing
  }

  ghost predicate KeysOk(r: Registry) {
    forall key {:trigger HeldAt(r, key)} :: KeyOk(r, key)
  }

  ghost predicate NamesMatch(r: Registry) {
    && (forall id :: id in r.installed ==> r.installed[id].manifest.id == id && id !in r.builtins)
    && (forall id :: id in r.builtins ==> r.builtins[id].manifest.id == id)
  }

  predicate DigestMatches(r: Registry, id: string)
    requires id in r.installed
  {
    if id in r.active && r.installed[id].origin.Bundled? && r.installed[id].digest.Some? then Lookup(r.digests, id) == r.installed[id].digest
    else id !in r.digests
  }

  /** An installed package that has hooks holds its contribution, and its digest is the recorded one. */
  ghost predicate ActiveOk(r: Registry, id: string) {
    if id in r.installed then
      && DigestMatches(r, id)
      && (id in r.active && r.active[id].Some? ==> Owns(r, r.installed[id].manifest))
    else id !in r.digests
  }

  ghost predicate EpochsBelow(d: Drivers) {
    forall c :: c in d.epochs ==> d.epochs[c] < d.nextEpoch
  }

  /** What every run keeps: names, and registrations that match their owners. */
  ghost predicate Sound(r: Registry) {
    NamesMatch(r) && KeysOk(r)
  }

  /** What a run keeps as long as no update leaves stale hooks behind. */
  ghost predicate Consistent(r: Registry) {
    Sound(r) && (forall id {:trigger ActiveOk(r, id)} :: ActiveOk(r, id)) && EpochsBelow(r.drivers)
  }

  /** No contribution belongs to the package. */
  ghost predicate Idle(r: Registry, id: string) {
    forall key :: key in r.owners ==> r.owners[key] != id
  }

  // ---- what activation and deactivation do to the registries ----

  lemma ContributeHolds(r: Registry, m: Manifest, h: Hooks, key: Key)
    requires Fits(r, m, h) && HeldAt(r, KeyOf(m)) == Nothing
    ensures HeldAt(Contribute(r, m, h), key) == if key == KeyOf(m) then Offered(m, h) else HeldAt(r, key)
  {
  }

  lemma DeactivateHolds(r: Registry, m: Manifest, key: Key)
    requires Owns(r, m)
    ensures HeldAt(Deactivate(r, m), key) == if key == KeyOf(m) then Nothing else HeldAt(r, key)
  {
    match m.kind
    case Capability =>
      assert key.CapabilityKey? ==> Lookup(r.catalog - {m.id}, key.id) == if key.id == m.id then None else Lookup(r.catalog, key.id);
    case Connector(c, _) =>
  }

  lemma KeyOkAt(r: Registry, key: Key)
    requires KeysOk(r)
    ensures KeyOk(r, key)
  {
    assert HeldAt(r, key) == HeldAt(r, key);
  }

  /** The registries are what is held under the keys. */
  lemma SameHeld(r: Registry, r': Registry)
    requires forall key {:trigger HeldAt(r, key)} :: HeldAt(r, key) == HeldAt(r', key)
    ensures r.catalog == r'.catalog && r.drivers.drivers == r'.drivers.drivers
    ensures r.drivers.factories == r'.drivers.factories && r.drivers.owners == r'.drivers.owners
  {
    forall id
      ensures Lookup(r.catalog, id) == Lookup(r'.catalog, id)
    {
      assert HeldAt(r, CapabilityKey(id)) == HeldAt(r', CapabilityKey(id));
    }
    LookupsAgree(r.catalog, r'.catalog);
    forall c
      ensures Lookup(r.drivers.drivers, c) == Lookup(r'.drivers.drivers, c)
      ensures Lookup(r.drivers.factories, c) == Lookup(r'.drivers.factories, c)
      ensures Lookup(r.drivers.owners, c) == Lookup(r'.drivers.owners, c)
    {
      assert HeldAt(r, ConnectorKey(c)) == HeldAt(r', ConnectorKey(c));
    }
    LookupsAgree(r.drivers.drivers, r'.drivers.drivers);
    LookupsAgree(r.drivers.factories, r'.drivers.factories);
    LookupsAgree(r.drivers.owners, r'.drivers.owners);
  }

  lemma LookupsAgree<K, V>(m: map<K, V>, m': map<K, V>)
    requires forall k :: Lookup(m, k) == Lookup(m', k)
    ensures m == m'
  {
    forall k
      ensures k in m <==> k in m'
      ensures k in m && k in m' ==> m[k] == m'[k]
    {
      assert Lookup(m, k) == Lookup(m', k);
    }
  }

  /** An installed package owns at most the key of its manifest. */
  lemma OwnKeyOnly(r: Registry, m: Manifest, key: Key)
    requires KeyOk(r, key) && key in r.owners && r.owners[key] == m.id
    requires m.id in r.installed && m.id !in r.builtins && r.installed[m.id].manifest == m
    ensures key == KeyOf(m) && Owns(r, m)
  {
  }

  lemma DeactivateFrame(r: Registry, m: Manifest)
    ensures var r' := Deactivate(r, m);
            && r'.builtins == r.builtins && r'.installed == r.installed && r'.active == r.active
            && r'.file == r.file && r'.activeLocal == r.activeLocal
            && r'.owners == (if Owns(r, m) then r.owners - {KeyOf(m)} else r.owners)
            && r'.digests == (if Owns(r, m) then r.digests - {m.id} else r.digests)
            && (!Owns(r, m) ==> r' == r)
  {
  }

  lemma EpochsStayBelow(r: Registry, record: Record, hooks: Option<Hooks>)
    requires EpochsBelow(r.drivers)
    ensures EpochsBelow(Deactivate(r, record.manifest).drivers)
    ensures Activates(r, record.manifest, hooks) ==> EpochsBelow(ActivatePrepared(r, record, hooks).drivers)
  {
    if hooks.Some? && Fits(r, record.manifest, hooks.value) {
      ContributedEpochs(r, record.manifest, hooks.value);
    }
  }

  lemma ContributedEpochs(r: Registry, m: Manifest, h: Hooks)
    requires EpochsBelow(r.drivers) && Fits(r, m, h)
    ensures EpochsBelow(Contribute(r, m, h).drivers)
  {
  }

  lemma DeactivatedKeyOk(r: Registry, m: Manifest, key: Key)
    requires KeyOk(r, key)
    ensures KeyOk(Deactivate(r, m), key)
  {
    DeactivateFrame(r, m);
    if Owns(r, m) {
      DeactivateHolds(r, m, key);
    }
  }

  /** Deactivating an installed package leaves it without contributions, and the others as they were. */
  lemma DeactivateIdles(r: Registry, m: Manifest)
    requires NamesMatch(r) && KeysOk(r)
    requires m.id in r.installed && m.id !in r.builtins && (r.installed[m.id].manifest == m || Idle(r, m.id))
    ensures var r' := Deactivate(r, m); KeysOk(r') && Idle(r', m.id) && NamesMatch(r')
  {
    DeactivateFrame(r, m);
    forall key | key in r.owners && r.owners[key] == m.id
      ensures key == KeyOf(m) && Owns(r, m)
    {
      KeyOkAt(r, key);
      OwnKeyOnly(r, m, key);
    }
    forall key
      ensures KeyOk(Deactivate(r, m), key)
    {
      KeyOkAt(r, key);
      DeactivatedKeyOk(r, m, key);
    }
  }

  /** What is recorded of a package without contributions can change. */
  lemma IdleChanges(r: Registry, r': Registry, id: string)
    requires KeysOk(r) && Idle(r, id) && id !in r.builtins
    requires r'.builtins == r.builtins && r'.owners == r.owners && r'.catalog == r.catalog && r'.drivers == r.drivers
    requires r'.installed - {id} == r.installed - {id} && r'.active - {id} == r.active - {id}
    ensures KeysOk(r') && Idle(r', id)
  {
    forall key
      ensures KeyOk(r', key)
    {
      assert KeyOk(r, key) by { assert HeldAt(r, key) == HeldAt(r, key); }
      assert HeldAt(r', key) == HeldAt(r, key);
      if key in r.owners {
        RunningElsewhere(r, r', id, r.owners[key]);
      }
    }
  }

  lemma KeptElsewhere<V>(m: map<string, V>, m': map<string, V>, id: string, other: string)
    requires m' - {id} == m - {id} && other != id
    ensures Lookup(m, other) == Lookup(m', other)
  {
    assert Lookup(m - {id}, other) == Lookup(m' - {id}, other);
  }

  lemma ActivateFrame(r: Registry, record: Record, hooks: Option<Hooks>)
    requires Activates(r, record.manifest, hooks)
    ensures var r' := ActivatePrepared(r, record, hooks);
            && r'.builtins == r.builtins && r'.installed == r.installed && r'.active == r.active[record.manifest.id := hooks]
            && r'.file == r.file && r'.activeLocal == r.activeLocal
            && r'.owners == (if hooks.Some? then r.owners[KeyOf(record.manifest) := record.manifest.id] else r.owners)
            && r'.digests == (if record.origin.Bundled? && record.digest.Some? then r.digests[record.manifest.id := record.digest.value]
                              else r.digests - {record.manifest.id})
            && (hooks.None? ==> r'.catalog == r.catalog && r'.drivers == r.drivers)
  {
  }

  lemma ActivateHolds(r: Registry, record: Record, hooks: Option<Hooks>, key: Key)
    requires Activates(r, record.manifest, hooks) && (hooks.None? || HeldAt(r, KeyOf(record.manifest)) == Nothing)
    ensures HeldAt(ActivatePrepared(r, record, hooks), key)
         == if hooks.Some? && key == KeyOf(record.manifest) then Offered(record.manifest, hooks.value) else HeldAt(r, key)
  {
    if hooks.Some? {
      ContributeHolds(r, record.manifest, hooks.value, key);
    }
  }

  lemma ActivatedKeyOk(r: Registry, record: Record, hooks: Option<Hooks>, key: Key)
    requires KeyOk(r, key) && KeyOk(r, KeyOf(record.manifest)) && Idle(r, record.manifest.id)
    requires record.manifest.id in r.installed && r.installed[record.manifest.id].manifest == record.manifest && record.manifest.id !in r.builtins
    requires Activates(r, record.manifest, hooks)
    ensures KeyOk(ActivatePrepared(r, record, hooks), key)
  {
    ActivateFrame(r, record, hooks);
    ActivateHolds(r, record, hooks, key);
    if key in r.owners {
      RunningElsewhere(r, ActivatePrepared(r, record, hooks), record.manifest.id, r.owners[key]);
    }
  }

  lemma RunningElsewhere(r: Registry, r': Registry, id: string, other: string)
    requires r'.builtins == r.builtins && r'.installed - {id} == r.installed - {id} && r'.active - {id} == r.active - {id}
    requires other != id
    ensures Running(r', other) == Running(r, other)
  {
    KeptElsewhere(r.installed, r'.installed, id, other);
    KeptElsewhere(r.active, r'.active, id, other);
  }

  lemma ActivateKeepsKeys(r: Registry, record: Record, hooks: Option<Hooks>)
    requires NamesMatch(r) && KeysOk(r) && Idle(r, record.manifest.id)
    requires record.manifest.id in r.installed && r.installed[record.manifest.id].manifest == record.manifest
    requires Activates(r, record.manifest, hooks)
    ensures var r' := ActivatePrepared(r, record, hooks);
            KeysOk(r') && NamesMatch(r') && if hooks.Some? then Owns(r', record.manifest) else Idle(r', record.manifest.id)
  {
    ActivateFrame(r, record, hooks);
    KeyOkAt(r, KeyOf(record.manifest));
    forall key
      ensures KeyOk(ActivatePrepared(r, record, hooks), key)
    {
      KeyOkAt(r, key);
      ActivatedKeyOk(r, record, hooks, key);
    }
  }

  // ---- an update, or nothing ----

  /** Everything is as before, save the epochs of the factories. */
  predicate Restored(r: Registry, r': Registry) {
    r'.(drivers := r'.drivers.(epochs := r.drivers.epochs, nextEpoch := r.drivers.nextEpoch)) == r
  }

  /** `u` differs from `r` at most in what it records of the package. */
  ghost predicate SameButRecords(r: Registry, u: Registry, id: string) {
    && u.builtins == r.builtins && u.owners == r.owners && u.file == r.file
    && (forall key {:trigger HeldAt(u, key)} :: HeldAt(u, key) == HeldAt(r, key))
    && u.installed - {id} == r.installed - {id} && u.active - {id} == r.active - {id}
    && u.digests - {id} == r.digests - {id} && u.activeLocal - {id} == r.activeLocal - {id}
    && (EpochsBelow(r.drivers) ==> EpochsBelow(u.drivers)) && r.drivers.nextEpoch <= u.drivers.nextEpoch
  }

  lemma UndoneHolds(r: Registry, record: Record, hooks: Option<Hooks>, a: Registry, key: Key)
    requires KeysOk(r) && Idle(r, record.manifest.id) && Activates(r, record.manifest, hooks)
    requires a == ActivatePrepared(r, record, hooks).(installed := a.installed, activeLocal := a.activeLocal)
    ensures HeldAt(Deactivate(a, record.manifest), key) == HeldAt(r, key)
    ensures Owns(a, record.manifest) <==> hooks.Some?
  {
    var m := record.manifest;
    ActivateFrame(r, record, hooks);
    KeyOkAt(r, KeyOf(m));
    assert Owns(a, m) <==> hooks.Some?;
    ActivateHolds(r, record, hooks, key);
    assert HeldAt(a, key) == HeldAt(ActivatePrepared(r, record, hooks), key);
    if hooks.Some? {
      DeactivateHolds(a, m, key);
    }
  }

  /** Activating a candidate and deactivating it again leaves the registries alone. */
  lemma UndoActivation(r: Registry, record: Record, hooks: Option<Hooks>, a: Registry)
    requires KeysOk(r) && Idle(r, record.manifest.id) && Activates(r, record.manifest, hooks)
    requires a == ActivatePrepared(r, record, hooks).(installed := a.installed, activeLocal := a.activeLocal)
    requires a.installed - {record.manifest.id} == r.installed - {record.manifest.id}
    requires a.activeLocal - {record.manifest.id} == r.activeLocal - {record.manifest.id}
    ensures var u := Deactivate(a, record.manifest);
            && SameButRecords(r, u, record.manifest.id) && u.active == r.active[record.manifest.id := hooks]
            && u.installed == a.installed && u.activeLocal == a.activeLocal
  {
    var m := record.manifest;
    UndoneRecords(r, record, hooks, a);
    forall key
      ensures HeldAt(Deactivate(a, m), key) == HeldAt(r, key)
    {
      UndoneHolds(r, record, hooks, a, key);
    }
    if EpochsBelow(r.drivers) {
      EpochsStayBelow(r, record, hooks);
      EpochsStayBelow(a, record, None);
    }
    EpochsAdvance(r, record, hooks);
    EpochsAdvance(a, record, None);
  }

  lemma UndoneRecords(r: Registry, record: Record, hooks: Option<Hooks>, a: Registry)
    requires KeysOk(r) && Idle(r, record.manifest.id) && Activates(r, record.manifest, hooks)
    requires a == ActivatePrepared(r, record, hooks).(installed := a.installed, activeLocal := a.activeLocal)
    ensures var u := Deactivate(a, record.manifest);
            && u.builtins == r.builtins && u.owners == r.owners && u.file == r.file
            && u.active == r.active[record.manifest.id := hooks] && u.installed == a.installed && u.activeLocal == a.activeLocal
            && u.digests - {record.manifest.id} == r.digests - {record.manifest.id}
  {
    var m := record.manifest;
    ActivateFrame(r, record, hooks);
    UndoneHolds(r, record, hooks, a, KeyOf(m));
    assert Deactivate(a, m).owners == r.owners;
  }

  lemma EpochsAdvance(r: Registry, record: Record, hooks: Option<Hooks>)
    ensures Deactivate(r, record.manifest).drivers.nextEpoch == r.drivers.nextEpoch
    ensures Activates(r, record.manifest, hooks) ==> r.drivers.nextEpoch <= ActivatePrepared(r, record, hooks).drivers.nextEpoch
  {
  }

  /** The same recorded state with the same things held is consistent too. */
  lemma RestoredIsConsistent(r: Registry, r': Registry)
    requires Consistent(r) && Restored(r, r') && EpochsBelow(r'.drivers)
    requires forall key {:trigger HeldAt(r', key)} :: HeldAt(r', key) == HeldAt(r, key)
    ensures Consistent(r')
  {
    forall key
      ensures KeyOk(r', key)
    {
      KeyOkAt(r, key);
      assert HeldAt(r', key) == HeldAt(r, key);
    }
    forall id
      ensures ActiveOk(r', id)
    {
      assert ActiveOk(r, id);
    }
  }

  /** The end of a rollback: the old package, deactivated and activated again, is back in its place. */
  lemma Reactivation(r: Registry, u: Registry, id: string)
    requires Consistent(r) && id in r.installed && id in r.active
    requires SameButRecords(Deactivate(r, r.installed[id].manifest), u, id)
    requires u.installed == r.installed && u.activeLocal == r.activeLocal
    ensures var existing := r.installed[id];
            && Activates(u, existing.manifest, r.active[id])
            && Restored(r, ActivatePrepared(u, existing, r.active[id])) && Consistent(ActivatePrepared(u, existing, r.active[id]))
  {
    var existing, oldHooks := r.installed[id], r.active[id];
    assert ActiveOk(r, id);
    KeyOkAt(r, KeyOf(existing.manifest));
    var r' := ActivatePrepared(u, existing, oldHooks);
    ActivateFrame(u, existing, oldHooks);
    ReactivatedHolds(r, u, id);
    SameHeld(r', r);
    MapPutBack(r.active, u.active, id);
    ReactivatedDigests(r, u, id);
    if EpochsBelow(u.drivers) {
      EpochsStayBelow(u, existing, oldHooks);
    }
    if oldHooks.Some? {
      assert (r.owners - {KeyOf(existing.manifest)})[KeyOf(existing.manifest) := id] == r.owners;
    }
    if EpochsBelow(r.drivers) {
      EpochsStayBelow(r, existing, None);
    }
    RestoredIsConsistent(r, r');
  }

  lemma MapPutBack<V>(m: map<string, V>, m': map<string, V>, id: string)
    requires id in m && m' - {id} == m - {id}
    ensures m'[id := m[id]] == m
  {
    forall k | k != id
      ensures Lookup(m', k) == Lookup(m, k)
    {
      KeptElsewhere(m, m', id, k);
    }
    LookupsAgree(m'[id := m[id]], m);
  }

  lemma ReactivatedHolds(r: Registry, u: Registry, id: string)
    requires Consistent(r) && id in r.installed && id in r.active
    requires SameButRecords(Deactivate(r, r.installed[id].manifest), u, id)
    ensures var existing := r.installed[id];
            && Activates(u, existing.manifest, r.active[id])
            && forall key {:trigger HeldAt(ActivatePrepared(u, existing, r.active[id]), key)} ::
                 HeldAt(ActivatePrepared(u, existing, r.active[id]), key) == HeldAt(r, key)
  {
    var existing, oldHooks := r.installed[id], r.active[id];
    var m := existing.manifest;
    var d := Deactivate(r, m);
    assert ActiveOk(r, id);
    KeyOkAt(r, KeyOf(m));
    assert Owns(r, m) <==> oldHooks.Some?;
    forall key
      ensures HeldAt(ActivatePrepared(u, existing, oldHooks), key) == HeldAt(r, key)
    {
      if oldHooks.Some? {
        DeactivateHolds(r, m, key);
        DeactivateHolds(r, m, KeyOf(m));
        assert HeldAt(u, KeyOf(m)) == HeldAt(d, KeyOf(m));
      }
      ActivateHolds(u, existing, oldHooks, key);
      assert HeldAt(u, key) == HeldAt(d, key);
    }
  }

  lemma ReactivatedDigests(r: Registry, u: Registry, id: string)
    requires Consistent(r) && id in r.installed && id in r.active
    requires u.digests - {id} == Deactivate(r, r.installed[id].manifest).digests - {id}
    requires Activates(u, r.installed[id].manifest, r.active[id])
    ensures ActivatePrepared(u, r.installed[id], r.active[id]).digests == r.digests
  {
    var existing := r.installed[id];
    assert ActiveOk(r, id);
    var d := Deactivate(r, existing.manifest).digests;
    assert d - {id} == r.digests - {id};
    if existing.origin.Bundled? && existing.digest.Some? {
      MapPutBack(r.digests, u.digests, id);
    } else {
      assert r.digests - {id} == r.digests;
    }
  }

  /** A package without hooks owns nothing. */
  lemma InactiveIsIdle(r: Registry, id: string)
    requires Sound(r) && id in r.installed && id !in r.active
    ensures Idle(r, id) && Deactivate(r, r.installed[id].manifest) == r
  {
    forall key | key in r.owners
      ensures r.owners[key] != id
    {
      KeyOkAt(r, key);
    }
  }

  /** The state in which an update of an installed package is undone. */
  function BeforeRollback(r: Registry, candidate: Record, hooks: Option<Hooks>): Registry
    requires candidate.manifest.id in r.installed
  {
    var id := candidate.manifest.id;
    var r1 := Deactivate(r, r.installed[id].manifest);
    if !Activates(r1, candidate.manifest, hooks) then r1
    else
      var r2 := ActivatePrepared(r1, candidate, hooks);
      r2.(installed := r2.installed[id := candidate.(installedAt := r.installed[id].installedAt)],
          activeLocal := if r.installed[id].origin.LocalLink? then r2.activeLocal + {id} else r2.activeLocal)
  }

  lemma CandidateUndone(r: Registry, candidate: Record, hooks: Option<Hooks>)
    requires Sound(r) && candidate.manifest.id in r.installed
    ensures var id := candidate.manifest.id;
            var u := Deactivate(BeforeRollback(r, candidate, hooks), candidate.manifest);
            SameButRecords(Deactivate(r, r.installed[id].manifest), u, id)
  {
    var id := candidate.manifest.id;
    var r1 := Deactivate(r, r.installed[id].manifest);
    DeactivateIdles(r, r.installed[id].manifest);
    assert !Owns(r1, candidate.manifest);
    if Activates(r1, candidate.manifest, hooks) {
      CandidateRecords(r, candidate, hooks);
      UndoActivation(r1, candidate, hooks, BeforeRollback(r, candidate, hooks));
    }
  }

  /** An activated candidate differs from the deactivated registry by its activation and its own records. */
  lemma CandidateRecords(r: Registry, candidate: Record, hooks: Option<Hooks>)
    requires candidate.manifest.id in r.installed
    requires Activates(Deactivate(r, r.installed[candidate.manifest.id].manifest), candidate.manifest, hooks)
    ensures var id := candidate.manifest.id;
            var r1 := Deactivate(r, r.installed[id].manifest);
            var x := BeforeRollback(r, candidate, hooks);
            && x == ActivatePrepared(r1, candidate, hooks).(installed := x.installed, activeLocal := x.activeLocal)
            && x.installed - {id} == r1.installed - {id} && x.activeLocal - {id} == r1.activeLocal - {id}
  {
  }

  lemma RollbackOfActive(r: Registry, x: Registry, candidate: Record)
    requires Consistent(r) && candidate.manifest.id in r.installed && candidate.manifest.id in r.active
    requires SameButRecords(Deactivate(r, r.installed[candidate.manifest.id].manifest), Deactivate(x, candidate.manifest), candidate.manifest.id)
    ensures var id := candidate.manifest.id;
            var (r', u) := Rollback(x, r.installed[id], candidate, true, r.active[id], id in r.activeLocal);
            u == RolledBack && Restored(r, r') && Consistent(r')
  {
    var id := candidate.manifest.id;
    var d := Deactivate(x, candidate.manifest);
    var u := d.(installed := d.installed[id := r.installed[id]],
                activeLocal := if id in r.activeLocal then d.activeLocal + {id} else d.activeLocal - {id});
    MapPutBack(r.installed, d.installed, id);
    SetPutBack(r.activeLocal, d.activeLocal, id);
    forall key
      ensures HeldAt(u, key) == HeldAt(d, key)
    {
    }
    Reactivation(r, u, id);
  }

  lemma SetPutBack(s: set<string>, s': set<string>, id: string)
    requires s' - {id} == s - {id}
    ensures (if id in s then s' + {id} else s' - {id}) == s
  {
    forall x | x != id
      ensures x in s' <==> x in s
    {
      assert x in s' - {id} <==> x in s - {id};
    }
  }

  lemma RollbackOfInactive(r: Registry, candidate: Record, hooks: Option<Hooks>)
    requires Consistent(r) && candidate.manifest.id in r.installed && candidate.manifest.id !in r.active
    ensures var id := candidate.manifest.id;
            var (r', u) := Rollback(BeforeRollback(r, candidate, hooks), r.installed[id], candidate, false, None, id in r.activeLocal);
            u == RolledBack && if Activates(r, candidate.manifest, hooks) then id in r'.active else r' == r
  {
    var id := candidate.manifest.id;
    InactiveIsIdle(r, id);
    assert !Owns(r, candidate.manifest);
    if Activates(r, candidate.manifest, hooks) {
      ActivateFrame(r, candidate, hooks);
    } else {
      assert r.installed[id := r.installed[id]] == r.installed;
      assert (if id in r.activeLocal then r.activeLocal + {id} else r.activeLocal - {id}) == r.activeLocal;
    }
  }

  /** The guard that decides whether a candidate replaces the running package. */
  predicate CandidateActivates(r: Registry, candidate: Record, prepared: Option<Option<Hooks>>)
    requires candidate.manifest.id in r.installed
  {
    prepared.Some? && Activates(Deactivate(r, r.installed[candidate.manifest.id].manifest), candidate.manifest, prepared.value)
  }

  /** An update that is not carried through is a rollback. */
  lemma UpdateIsRollback(r: Registry, candidate: Record, prepared: Option<Option<Hooks>>, writes: bool)
    requires candidate.manifest.id in r.installed && prepared.Some? && !(CandidateActivates(r, candidate, prepared) && writes)
    ensures var id := candidate.manifest.id;
            ReplaceInstalled(r, candidate, prepared, writes)
            == Rollback(BeforeRollback(r, candidate, prepared.value), r.installed[id], candidate,
                        id in r.active, if id in r.active then r.active[id] else None, id in r.activeLocal)
  {
  }

  lemma FailedUpdateOfActive(r: Registry, candidate: Record, prepared: Option<Option<Hooks>>, writes: bool)
    requires Consistent(r) && candidate.manifest.id in r.installed && candidate.manifest.id in r.active
    ensures var (r', u) := ReplaceInstalled(r, candidate, prepared, writes);
            u != RollbackFailed && (u != Replaced ==> Restored(r, r') && Consistent(r'))
  {
    if prepared.Some? && !(CandidateActivates(r, candidate, prepared) && writes) {
      UpdateIsRollback(r, candidate, prepared, writes);
      CandidateUndone(r, candidate, prepared.value);
      RollbackOfActive(r, BeforeRollback(r, candidate, prepared.value), candidate);
    }
  }

  lemma FailedUpdateOfInactive(r: Registry, candidate: Record, prepared: Option<Option<Hooks>>, writes: bool)
    requires Consistent(r) && candidate.manifest.id in r.installed && candidate.manifest.id !in r.active
    ensures var (r', u) := ReplaceInstalled(r, candidate, prepared, writes);
            && u != RollbackFailed
            && (u != Replaced ==> if CandidateActivates(r, candidate, prepared) then candidate.manifest.id in r'.active else r' == r)
  {
    if prepared.Some? {
      InactiveIsIdle(r, candidate.manifest.id);
      RollbackOfInactive(r, candidate, prepared.value);
    }
  }

  /** An update that fails, at whichever step, puts back the record, the stored file, the hooks, the owners,
      the registrations, the digest and the local flag, exactly when the package had hooks before or the
      failure came before the candidate was activated. */
  lemma FailedUpdateRestoresExactly(r: Registry, candidate: Record, prepared: Option<Option<Hooks>>, writes: bool)
    requires Consistent(r) && candidate.manifest.id in r.installed
    ensures var id := candidate.manifest.id;
            var (r', u) := ReplaceInstalled(r, candidate, prepared, writes);
            && u != RollbackFailed
            && (u != Replaced ==> (Restored(r, r') <==> id in r.active || !CandidateActivates(r, candidate, prepared)))
            && (u != Replaced && Restored(r, r') ==> Consistent(r'))
  {
    if candidate.manifest.id in r.active {
      FailedUpdateOfActive(r, candidate, prepared, writes);
    } else {
      FailedUpdateOfInactive(r, candidate, prepared, writes);
    }
  }

  lemma InstalledKeys(r: Registry, record: Record, stored: Record, hooks: Option<Hooks>, activeLocal: set<string>)
    requires NamesMatch(r) && KeysOk(r) && Idle(r, record.manifest.id) && record.manifest.id !in r.builtins
    requires Activates(r, record.manifest, hooks) && stored.manifest == record.manifest
    ensures var t := ActivatePrepared(r, record, hooks).(installed := r.installed[record.manifest.id := stored], activeLocal := activeLocal);
            KeysOk(t) && NamesMatch(t) && (hooks.Some? ==> Owns(t, stored.manifest))
  {
    var id := record.manifest.id;
    var s := r.(installed := r.installed[id := stored]);
    assert s.installed - {id} == r.installed - {id};
    IdleChanges(r, s, id);
    ActivateKeepsKeys(s, record, hooks);
    SameActivation(r, s, record, hooks);
    ActivateFrame(s, record, hooks);
    SameKeys(ActivatePrepared(s, record, hooks), activeLocal, s.file);
  }

  lemma SameKeys(r: Registry, activeLocal: set<string>, file: map<string, Record>)
    requires KeysOk(r)
    ensures KeysOk(r.(activeLocal := activeLocal, file := file))
  {
    var t := r.(activeLocal := activeLocal, file := file);
    forall key
      ensures KeyOk(t, key)
    {
      KeyOkAt(r, key);
      assert HeldAt(t, key) == HeldAt(r, key);
    }
  }

  /** A package with the same name can take the place of one without contributions. */
  lemma InstalledActivation(r: Registry, record: Record, stored: Record, hooks: Option<Hooks>, activeLocal: set<string>)
    requires NamesMatch(r) && KeysOk(r) && Idle(r, record.manifest.id) && record.manifest.id !in r.builtins
    requires EpochsBelow(r.drivers) && Activates(r, record.manifest, hooks)
    requires stored.manifest == record.manifest && stored.origin == record.origin && stored.digest == record.digest
    requires forall id {:trigger ActiveOk(r, id)} :: id != record.manifest.id ==> ActiveOk(r, id)
    ensures var t := ActivatePrepared(r, record, hooks).(installed := r.installed[record.manifest.id := stored], activeLocal := activeLocal);
            Consistent(t)
  {
    var id := record.manifest.id;
    var t := ActivatePrepared(r, record, hooks).(installed := r.installed[id := stored], activeLocal := activeLocal);
    InstalledKeys(r, record, stored, hooks, activeLocal);
    forall other
      ensures ActiveOk(t, other)
    {
      ActivatedOthers(r, record, stored, hooks, activeLocal, other);
    }
    EpochsStayBelow(r, record, hooks);
  }

  lemma ActivatedOthers(r: Registry, record: Record, stored: Record, hooks: Option<Hooks>, activeLocal: set<string>, other: string)
    requires NamesMatch(r) && Activates(r, record.manifest, hooks)
    requires stored.manifest == record.manifest && stored.origin == record.origin && stored.digest == record.digest
    requires other != record.manifest.id ==> ActiveOk(r, other)
    ensures ActiveOk(ActivatePrepared(r, record, hooks).(installed := r.installed[record.manifest.id := stored], activeLocal := activeLocal), other)
  {
    var id := record.manifest.id;
    var t := ActivatePrepared(r, record, hooks).(installed := r.installed[id := stored], activeLocal := activeLocal);
    ActivateFrame(r, record, hooks);
    if other != id {
      assert t.digests - {id} == r.digests - {id} && t.active - {id} == r.active - {id} && t.installed - {id} == r.installed - {id};
      StaysActive(r, t, id, other, KeyOf(record.manifest));
    }
  }

  lemma SameActivation(r: Registry, s: Registry, record: Record, hooks: Option<Hooks>)
    requires s == r.(installed := s.installed) && Activates(r, record.manifest, hooks)
    ensures ActivatePrepared(s, record, hooks) == ActivatePrepared(r, record, hooks).(installed := s.installed)
  {
    if hooks.Some? {
      SameContribution(r, s, record.manifest, hooks.value);
    }
  }

  lemma SameContribution(r: Registry, s: Registry, m: Manifest, h: Hooks)
    requires s == r.(installed := s.installed) && ValidHooks(m, h)
    ensures Contribute(s, m, h) == Contribute(r, m, h).(installed := s.installed)
  {
  }

  lemma StaysActive(r: Registry, t: Registry, id: string, other: string, key: Key)
    requires ActiveOk(r, other) && other != id && NamesMatch(r)
    requires t.installed - {id} == r.installed - {id} && t.active - {id} == r.active - {id} && t.digests - {id} == r.digests - {id}
    requires t.owners == r.owners || (t.owners - {key} == r.owners - {key} && (key in r.owners ==> r.owners[key] == id))
    ensures ActiveOk(t, other)
  {
    KeptElsewhere(r.installed, t.installed, id, other);
    KeptElsewhere(r.active, t.active, id, other);
    KeptElsewhere(r.digests, t.digests, id, other);
    if t.owners != r.owners && other in r.installed && Owns(r, r.installed[other].manifest) {
      assert KeyOf(r.installed[other].manifest) != key;
      assert KeyOf(r.installed[other].manifest) in r.owners - {key};
    }
  }

  /** Without its contributions, the rest of the registry is as consistent as before. */
  lemma OthersStayActive(r: Registry, m: Manifest, other: string)
    requires Consistent(r) && m.id in r.installed && r.installed[m.id].manifest == m && other != m.id
    ensures ActiveOk(Deactivate(r, m), other)
  {
    DeactivateFrame(r, m);
    assert ActiveOk(r, other);
    if Owns(r, m) {
      StaysActive(r, Deactivate(r, m), m.id, other, KeyOf(m));
    }
  }

  lemma CandidateInstalled(r: Registry, candidate: Record, hooks: Option<Hooks>)
    requires Consistent(r) && candidate.manifest.id in r.installed && CandidateActivates(r, candidate, Some(hooks))
    ensures Consistent(BeforeRollback(r, candidate, hooks))
  {
    var id := candidate.manifest.id;
    var existing := r.installed[id];
    var r1 := Deactivate(r, existing.manifest);
    DeactivateIdles(r, existing.manifest);
    forall other | other != id
      ensures ActiveOk(r1, other)
    {
      OthersStayActive(r, existing.manifest, other);
    }
    EpochsStayBelow(r, existing, None);
    ActivateFrame(r1, candidate, hooks);
    InstalledActivation(r1, candidate, candidate.(installedAt := existing.installedAt), hooks,
                        if existing.origin.LocalLink? then r1.activeLocal + {id} else r1.activeLocal);
  }

  /** An update that succeeds keeps the registry consistent and records the candidate. */
  lemma UpdateKeepsConsistent(r: Registry, candidate: Record, prepared: Option<Option<Hooks>>, writes: bool)
    requires Consistent(r) && candidate.manifest.id in r.installed
    ensures var id := candidate.manifest.id;
            var (r', u) := ReplaceInstalled(r, candidate, prepared, writes);
            u == Replaced ==>
              && Consistent(r')
              && r'.installed == r.installed[id := candidate.(installedAt := r.installed[id].installedAt)]
              && r'.file == r'.installed && r'.active == r.active[id := prepared.value]
  {
    if CandidateActivates(r, candidate, prepared) && writes {
      ActivateFrame(Deactivate(r, r.installed[candidate.manifest.id].manifest), candidate, prepared.value);
      CandidateInstalled(r, candidate, prepared.value);
      FileIsApart(BeforeRollback(r, candidate, prepared.value));
    }
  }

  lemma FileIsApart(r: Registry)
    requires Consistent(r)
    ensures Consistent(r.(file := r.installed))
  {
    var r' := r.(file := r.installed);
    forall key
      ensures KeyOk(r', key)
    {
      KeyOkAt(r, key);
      assert HeldAt(r', key) == HeldAt(r, key);
    }
    forall id
      ensures ActiveOk(r', id)
    {
      assert ActiveOk(r, id);
    }
  }

  // ---- every run ----

  lemma IdleKeysChange(r: Registry, u: Registry, id: string)
    requires KeysOk(r) && Idle(r, id) && id !in r.builtins && SameButRecords(r, u, id)
    ensures KeysOk(u) && Idle(u, id)
  {
    forall key
      ensures KeyOk(u, key)
    {
      KeyOkAt(r, key);
      assert HeldAt(u, key) == HeldAt(r, key);
      if key in r.owners {
        RunningElsewhere(r, u, id, r.owners[key]);
      }
    }
  }

  /** What is recorded of a package without contributions can change, as long as it stays coherent itself. */
  lemma IdleRecordsChange(r: Registry, u: Registry, id: string)
    requires NamesMatch(r) && KeysOk(r) && EpochsBelow(r.drivers) && Idle(r, id) && id !in r.builtins
    requires forall other {:trigger ActiveOk(r, other)} :: other != id ==> ActiveOk(r, other)
    requires SameButRecords(r, u, id) && NamesMatch(u) && ActiveOk(u, id)
    ensures Consistent(u)
  {
    IdleKeysChange(r, u, id);
    forall other
      ensures ActiveOk(u, other)
    {
      if other != id {
        assert ActiveOk(r, other);
        StaysActive(r, u, id, other, CapabilityKey(id));
      }
    }
  }

  lemma NewIsIdle(r: Registry, id: string)
    requires Sound(r) && id !in r.installed && id !in r.builtins
    ensures Idle(r, id)
  {
    forall key | key in r.owners
      ensures r.owners[key] != id
    {
      KeyOkAt(r, key);
    }
  }

  lemma RegisterBuiltinKeepsSound(r: Registry, m: Manifest, h: Hooks)
    requires Sound(r) && m.id !in r.builtins && m.id !in r.installed
    ensures Sound(RegisterBuiltin(r, m, h))
  {
    NewIsIdle(r, m.id);
    forall key
      ensures KeyOk(RegisterBuiltin(r, m, h), key)
    {
      BuiltinKeyOk(r, m, h, key);
    }
  }

  lemma RegisterBuiltinKeepsConsistent(r: Registry, m: Manifest, h: Hooks)
    requires Consistent(r) && m.id !in r.builtins && m.id !in r.installed
    ensures Consistent(RegisterBuiltin(r, m, h))
  {
    var b := r.(builtins := r.builtins[m.id := Builtin(m, h)]);
    var r' := RegisterBuiltin(r, m, h);
    RegisterBuiltinKeepsSound(r, m, h);
    forall id
      ensures ActiveOk(r', id)
    {
      assert ActiveOk(r, id);
      BuiltinActiveOk(r, m, h, id);
    }
    if Fits(b, m, h) {
      ContributedEpochs(b, m, h);
    }
  }

  lemma BuiltinKeyOk(r: Registry, m: Manifest, h: Hooks, key: Key)
    requires KeysOk(r) && Idle(r, m.id)
    ensures KeyOk(RegisterBuiltin(r, m, h), key)
  {
    var b := r.(builtins := r.builtins[m.id := Builtin(m, h)]);
    ListedKeyOk(r, m, h, key);
    if Fits(b, m, h) {
      ListedKeyOk(r, m, h, KeyOf(m));
      ContributeHolds(b, m, h, key);
    }
  }

  lemma ListedKeyOk(r: Registry, m: Manifest, h: Hooks, key: Key)
    requires KeysOk(r) && Idle(r, m.id)
    ensures KeyOk(r.(builtins := r.builtins[m.id := Builtin(m, h)]), key)
  {
    KeyOkAt(r, key);
    assert HeldAt(r.(builtins := r.builtins[m.id := Builtin(m, h)]), key) == HeldAt(r, key);
  }

  lemma BuiltinActiveOk(r: Registry, m: Manifest, h: Hooks, id: string)
    requires ActiveOk(r, id)
    ensures ActiveOk(RegisterBuiltin(r, m, h), id)
  {
    if id in r.installed && Owns(r, r.installed[id].manifest) {
      assert KeyOf(r.installed[id].manifest) in r.owners;
    }
  }

  lemma LoadKeepsConsistent(r: Registry, record: Record, prepared: Option<Option<Hooks>>)
    requires Consistent(r)
    requires record.manifest.id !in r.builtins && record.manifest.id !in r.installed && record.manifest.id !in r.active
    ensures Consistent(Load(r, record, prepared))
  {
    var id := record.manifest.id;
    NewIsIdle(r, id);
    assert ActiveOk(r, id);
    var s := r.(installed := r.installed[id := record]);
    if prepared.Some? && Activates(s, record.manifest, prepared.value) {
      SameActivation(r, s, record, prepared.value);
      ActivateFrame(r, record, prepared.value);
      InstalledActivation(r, record, record, prepared.value,
                          if record.origin.LocalLink? then r.activeLocal + {id} else r.activeLocal);
    } else {
      assert s.installed - {id} == r.installed - {id};
      forall key ensures HeldAt(s, key) == HeldAt(r, key) {}
      IdleRecordsChange(r, s, id);
    }
  }

  lemma InstallKeepsConsistent(r: Registry, record: Record, prepared: Option<Option<Hooks>>, writes: bool)
    requires Consistent(r)
    ensures Consistent(InstallNew(r, record, prepared, writes))
  {
    var id := record.manifest.id;
    if id !in r.builtins && id !in r.installed && prepared.Some? && Activates(r, record.manifest, prepared.value) {
      NewIsIdle(r, id);
      var a := ActivatePrepared(r, record, prepared.value);
      ActivateFrame(r, record, prepared.value);
      if !writes && record.origin.User? {
        UndoActivation(r, record, prepared.value, a);
        InstallUndone(r, record, prepared.value);
      } else {
        var local := if record.origin.LocalLink? then r.activeLocal + {id} else r.activeLocal;
        InstalledActivation(r, record, record, prepared.value, local);
        FileIsApart(a.(installed := r.installed[id := record], activeLocal := local));
      }
    }
  }

  lemma InstallUndone(r: Registry, record: Record, hooks: Option<Hooks>)
    requires Consistent(r) && record.manifest.id !in r.builtins && record.manifest.id !in r.installed && record.origin.User?
    requires Activates(r, record.manifest, hooks)
    requires SameButRecords(r, Deactivate(ActivatePrepared(r, record, hooks), record.manifest), record.manifest.id)
    ensures Consistent(Deactivate(ActivatePrepared(r, record, hooks), record.manifest))
  {
    var a := ActivatePrepared(r, record, hooks);
    NewIsIdle(r, record.manifest.id);
    ActivateFrame(r, record, hooks);
    DeactivateFrame(a, record.manifest);
    IdleRecordsChange(r, Deactivate(a, record.manifest), record.manifest.id);
  }

  /** A package that is not part of a release can be taken out of the runtime, and out of the registry. */
  lemma RemovalKeepsConsistent(r: Registry, id: string, u: Registry)
    requires Consistent(r) && id in r.installed && !r.installed[id].origin.Bundled?
    requires var d := Deactivate(r, r.installed[id].manifest);
             && u == d.(active := d.active - {id}, activeLocal := d.activeLocal - {id}, installed := u.installed)
             && u.installed in {d.installed, d.installed - {id}}
    ensures Consistent(u)
  {
    var m := r.installed[id].manifest;
    var d := Deactivate(r, m);
    DeactivateIdles(r, m);
    DeactivateFrame(r, m);
    forall other | other != id
      ensures ActiveOk(d, other)
    {
      OthersStayActive(r, m, other);
    }
    assert ActiveOk(r, id);
    EpochsStayBelow(r, r.installed[id], None);
    forall key ensures HeldAt(u, key) == HeldAt(d, key) {}
    IdleRecordsChange(d, u, id);
  }

  lemma ResumeKeepsConsistent(r: Registry, id: string, prepared: Option<Option<Hooks>>)
    requires Consistent(r) && (id !in r.active || prepared != Some(None))
    ensures Consistent(Resume(r, id, prepared))
  {
    if id in r.installed && prepared.Some? && Activates(r, r.installed[id].manifest, prepared.value) {
      var record := r.installed[id];
      ResumedIsIdle(r, id, prepared.value);
      ActivateFrame(r, record, prepared.value);
      assert r.installed[id := record] == r.installed;
      InstalledActivation(r, record, record, prepared.value,
                          if record.origin.LocalLink? then r.activeLocal + {id} else r.activeLocal);
    }
  }

  lemma LoadKeepsSound(r: Registry, record: Record, prepared: Option<Option<Hooks>>)
    requires Sound(r)
    requires record.manifest.id !in r.builtins && record.manifest.id !in r.installed && record.manifest.id !in r.active
    ensures Sound(Load(r, record, prepared))
  {
    var id := record.manifest.id;
    NewIsIdle(r, id);
    var s := r.(installed := r.installed[id := record]);
    if prepared.Some? && Activates(s, record.manifest, prepared.value) {
      SameActivation(r, s, record, prepared.value);
      ActivateFrame(r, record, prepared.value);
      InstalledKeys(r, record, record, prepared.value, if record.origin.LocalLink? then r.activeLocal + {id} else r.activeLocal);
    } else {
      assert s.installed - {id} == r.installed - {id};
      IdleChanges(r, s, id);
    }
  }

  lemma InstallKeepsSound(r: Registry, record: Record, prepared: Option<Option<Hooks>>, writes: bool)
    requires Sound(r)
    ensures Sound(InstallNew(r, record, prepared, writes))
  {
    var id := record.manifest.id;
    if id !in r.builtins && id !in r.installed && prepared.Some? && Activates(r, record.manifest, prepared.value) {
      NewIsIdle(r, id);
      var a := ActivatePrepared(r, record, prepared.value);
      ActivateFrame(r, record, prepared.value);
      if !writes && record.origin.User? {
        UndoActivation(r, record, prepared.value, a);
        IdleKeysChange(r, Deactivate(a, record.manifest), id);
      } else {
        var local := if record.origin.LocalLink? then r.activeLocal + {id} else r.activeLocal;
        InstalledKeys(r, record, record, prepared.value, local);
        var installed := r.installed[id := record];
        SameKeys(a.(installed := installed, activeLocal := local), local, installed);
      }
    }
  }

  lemma RemovalKeepsSound(r: Registry, id: string, u: Registry)
    requires Sound(r) && id in r.installed
    requires var d := Deactivate(r, r.installed[id].manifest);
             && u == d.(active := d.active - {id}, activeLocal := d.activeLocal - {id}, installed := u.installed, file := u.file)
             && u.installed in {d.installed, d.installed - {id}}
    ensures Sound(u)
  {
    var m := r.installed[id].manifest;
    DeactivateIdles(r, m);
    DeactivateFrame(r, m);
    IdleChanges(Deactivate(r, m), u, id);
  }

  /** A package that can be activated with hooks does not hold its contribution, whatever hooks are left of it. */
  lemma ResumedIsIdle(r: Registry, id: string, hooks: Option<Hooks>)
    requires Sound(r) && id in r.installed && Activates(r, r.installed[id].manifest, hooks)
    requires id !in r.active || hooks.Some?
    ensures Idle(r, id)
  {
    forall key | key in r.owners
      ensures r.owners[key] != id
    {
      KeyOkAt(r, key);
    }
  }

  lemma ResumeKeepsSound(r: Registry, id: string, prepared: Option<Option<Hooks>>)
    requires Sound(r) && (id !in r.active || prepared != Some(None))
    ensures Sound(Resume(r, id, prepared))
  {
    if id in r.installed && prepared.Some? && Activates(r, r.installed[id].manifest, prepared.value) {
      var record := r.installed[id];
      ResumedIsIdle(r, id, prepared.value);
      ActivateFrame(r, record, prepared.value);
      assert r.installed[id := record] == r.installed;
      InstalledKeys(r, record, record, prepared.value, if record.origin.LocalLink? then r.activeLocal + {id} else r.activeLocal);
    }
  }

  /** A rollback keeps the registrations matched with their owners, whatever hooks it finds. */
  lemma RollbackKeepsSound(d: Registry, x: Registry, existing: Record, candidate: Record, hadHooks: bool, oldHooks: Option<Hooks>, wasLocal: bool)
    requires Sound(d) && Idle(d, existing.manifest.id) && existing.manifest.id !in d.builtins && candidate.manifest.id == existing.manifest.id
    requires SameButRecords(d, Deactivate(x, candidate.manifest), existing.manifest.id)
    ensures Sound(Rollback(x, existing, candidate, hadHooks, oldHooks, wasLocal).0)
  {
    var id := existing.manifest.id;
    var e := Deactivate(x, candidate.manifest);
    var u := PutBack(e, existing, wasLocal);
    IdleKeysChange(d, e, id);
    assert u.installed - {id} == e.installed - {id};
    IdleChanges(e, u, id);
    PutBackNames(d, e, existing, wasLocal);
    if hadHooks && Activates(u, existing.manifest, oldHooks) {
      ActivateKeepsKeys(u, existing, oldHooks);
    }
  }

  lemma PutBackNames(d: Registry, e: Registry, existing: Record, wasLocal: bool)
    requires NamesMatch(d) && existing.manifest.id !in d.builtins && e.builtins == d.builtins
    requires e.installed - {existing.manifest.id} == d.installed - {existing.manifest.id}
    ensures NamesMatch(PutBack(e, existing, wasLocal))
  {
    forall id | id in e.installed && id != existing.manifest.id
      ensures id in d.installed && e.installed[id] == d.installed[id]
    {
      KeptElsewhere(d.installed, e.installed, existing.manifest.id, id);
    }
  }

  lemma UpdateKeepsSound(r: Registry, candidate: Record, prepared: Option<Option<Hooks>>, writes: bool)
    requires Sound(r) && candidate.manifest.id in r.installed
    ensures Sound(ReplaceInstalled(r, candidate, prepared, writes).0)
  {
    var id := candidate.manifest.id;
    var existing := r.installed[id];
    var r1 := Deactivate(r, existing.manifest);
    DeactivateIdles(r, existing.manifest);
    DeactivateFrame(r, existing.manifest);
    if prepared.Some? {
      if CandidateActivates(r, candidate, prepared) && writes {
        ReplacementKeepsSound(r1, candidate, existing, prepared.value);
      } else {
        UpdateIsRollback(r, candidate, prepared, writes);
        CandidateUndone(r, candidate, prepared.value);
        RollbackKeepsSound(r1, BeforeRollback(r, candidate, prepared.value), existing, candidate,
                           id in r.active, if id in r.active then r.active[id] else None, id in r.activeLocal);
      }
    }
  }

  lemma ReplacementKeepsSound(r: Registry, candidate: Record, existing: Record, hooks: Option<Hooks>)
    requires Sound(r) && Idle(r, candidate.manifest.id) && candidate.manifest.id !in r.builtins
    requires Activates(r, candidate.manifest, hooks)
    ensures var id := candidate.manifest.id;
            var r2 := ActivatePrepared(r, candidate, hooks);
            var r3 := r2.(installed := r2.installed[id := candidate.(installedAt := existing.installedAt)],
                          activeLocal := if existing.origin.LocalLink? then r2.activeLocal + {id} else r2.activeLocal);
            Sound(r3.(file := r3.installed))
  {
    var id := candidate.manifest.id;
    var stored := candidate.(installedAt := existing.installedAt);
    var local := if existing.origin.LocalLink? then r.activeLocal + {id} else r.activeLocal;
    ActivateFrame(r, candidate, hooks);
    InstalledKeys(r, candidate, stored, hooks, local);
    var r3 := ActivatePrepared(r, candidate, hooks).(installed := r.installed[id := stored], activeLocal := local);
    SameKeys(r3, local, r3.installed);
  }

  datatype Op =
    | DoAddBuiltin(m: Manifest, h: Hooks)
    | DoLoad(record: Record, prepared: Option<Option<Hooks>>)
    | DoInstall(record: Record, prepared: Option<Option<Hooks>>, writes: bool)
    | DoUpdate(record: Record, prepared: Option<Option<Hooks>>, writes: bool)
    | DoUninstall(id: string, writes: bool)
    | DoSuspend(id: string)
    | DoResume(id: string, prepared: Option<Option<Hooks>>)

  function Apply(r: Registry, op: Op): Registry {
    match op
    case DoAddBuiltin(m, h) => RegisterBuiltin(r, m, h)
    case DoLoad(record, prepared) => Load(r, record, prepared)
    case DoInstall(record, prepared, writes) => InstallNew(r, record, prepared, writes)
    case DoUpdate(record, prepared, writes) =>
      if record.manifest.id in r.installed then ReplaceInstalled(r, record, prepared, writes).0 else r
    case DoUninstall(id, writes) => Uninstall(r, id, writes)
    case DoSuspend(id) => Suspend(r, id)
    case DoResume(id, prepared) => Resume(r, id, prepared)
  }

  /** Startup adds each builtin and each stored record once. What developer mode resumes is a link, which no
      update touches while it is suspended, or a package with an entry module, which has hooks. */
  predicate Allowed(r: Registry, op: Op) {
    match op
    case DoAddBuiltin(m, _) => m.id !in r.builtins && m.id !in r.installed
    case DoLoad(record, _) => record.manifest.id !in r.builtins && record.manifest.id !in r.installed && record.manifest.id !in r.active
    case DoResume(id, prepared) => id !in r.active || prepared != Some(None)
    case _ => true
  }

  /** No update of a package without hooks fails after its candidate was activated. */
  predicate LeavesNoHooks(r: Registry, op: Op) {
    op.DoUpdate? && op.record.manifest.id in r.installed ==>
      op.record.manifest.id in r.active || op.writes || !CandidateActivates(r, op.record, op.prepared)
  }

  ghost predicate AllAllowed(r: Registry, ops: seq<Op>)
    decreases |ops|
  {
    ops == [] || (Allowed(r, ops[0]) && AllAllowed(Apply(r, ops[0]), ops[1..]))
  }

  ghost predicate NoHooksLeft(r: Registry, ops: seq<Op>)
    decreases |ops|
  {
    ops == [] || (LeavesNoHooks(r, ops[0]) && NoHooksLeft(Apply(r, ops[0]), ops[1..]))
  }

  function Run(r: Registry, ops: seq<Op>): Registry
    decreases |ops|
  {
    if ops == [] then r else Run(Apply(r, ops[0]), ops[1..])
  }

  lemma StepKeepsSound(r: Registry, op: Op)
    requires Sound(r) && Allowed(r, op)
    ensures Sound(Apply(r, op))
  {
    match op
    case DoAddBuiltin(m, h) => RegisterBuiltinKeepsSound(r, m, h);
    case DoLoad(record, prepared) => LoadKeepsSound(r, record, prepared);
    case DoInstall(record, prepared, writes) => InstallKeepsSound(r, record, prepared, writes);
    case DoUpdate(record, prepared, writes) =>
      if record.manifest.id in r.installed {
        UpdateKeepsSound(r, record, prepared, writes);
      }
    case DoUninstall(id, writes) =>
      if id in r.installed && !r.installed[id].origin.Bundled? {
        RemovalKeepsSound(r, id, Uninstall(r, id, writes));
      }
    case DoSuspend(id) =>
      if id in r.installed && !r.installed[id].origin.Bundled? {
        RemovalKeepsSound(r, id, Suspend(r, id));
      }
    case DoResume(id, prepared) => ResumeKeepsSound(r, id, prepared);
  }

  lemma StepKeepsConsistent(r: Registry, op: Op)
    requires Consistent(r) && Allowed(r, op) && LeavesNoHooks(r, op)
    ensures Consistent(Apply(r, op))
  {
    match op
    case DoAddBuiltin(m, h) => RegisterBuiltinKeepsConsistent(r, m, h);
    case DoLoad(record, prepared) => LoadKeepsConsistent(r, record, prepared);
    case DoInstall(record, prepared, writes) => InstallKeepsConsistent(r, record, prepared, writes);
    case DoUpdate(record, prepared, writes) =>
      if record.manifest.id in r.installed {
        UpdateKeepsConsistent(r, record, prepared, writes);
        FailedUpdateRestoresExactly(r, record, prepared, writes);
      }
    case DoUninstall(id, writes) =>
      if id in r.installed && !r.installed[id].origin.Bundled? {
        UninstallKeepsConsistent(r, id, writes);
      }
    case DoSuspend(id) =>
      if id in r.installed && !r.installed[id].origin.Bundled? {
        RemovalKeepsConsistent(r, id, Suspend(r, id));
      }
    case DoResume(id, prepared) => ResumeKeepsConsistent(r, id, prepared);
  }

  lemma UninstallKeepsConsistent(r: Registry, id: string, writes: bool)
    requires Consistent(r) && id in r.installed && !r.installed[id].origin.Bundled?
    ensures Consistent(Uninstall(r, id, writes))
  {
    RemovalKeepsConsistent(r, id, Uninstall(r, id, false));
    FileIsApart(Uninstall(r, id, false));
  }

  const Unused := Registry(map[], map[], map[], map[], map[], map[], Drivers(map[], map[], map[], map[], 0), map[], {})

  lemma {:induction false} RunKeepsSound(r: Registry, ops: seq<Op>)
    requires Sound(r) && AllAllowed(r, ops)
    ensures Sound(Run(r, ops))
    decreases |ops|
  {
    if ops != [] {
      StepKeepsSound(r, ops[0]);
      RunKeepsSound(Apply(r, ops[0]), ops[1..]);
    }
  }

  lemma UnusedIsConsistent()
    ensures Consistent(Unused)
  {
    forall k ensures KeyOk(Unused, k) {}
    forall id ensures ActiveOk(Unused, id) {}
  }

  /** Over every run, with updates that fail anywhere, what the runtime has registered is exactly what the
      owners of the contribution keys offer, and every owner is a package that runs. */
  lemma RegistrationsMatchOwners(ops: seq<Op>, key: Key)
    requires AllAllowed(Unused, ops)
    ensures KeyOk(Run(Unused, ops), key)
  {
    UnusedIsConsistent();
    RunKeepsSound(Unused, ops);
    KeyOkAt(Run(Unused, ops), key);
  }

  lemma {:induction false} RunKeepsConsistent(r: Registry, ops: seq<Op>)
    requires Consistent(r) && AllAllowed(r, ops) && NoHooksLeft(r, ops)
    ensures Consistent(Run(r, ops))
    decreases |ops|
  {
    if ops != [] {
      StepKeepsConsistent(r, ops[0]);
      RunKeepsConsistent(Apply(r, ops[0]), ops[1..]);
    }
  }

  /** Over every run in which no failed update leaves hooks behind, an installed package that has hooks holds
      its contribution, under the digest of its own record. */
  lemma HooksMeanContribution(ops: seq<Op>, id: string)
    requires AllAllowed(Unused, ops) && NoHooksLeft(Unused, ops)
    ensures ActiveOk(Run(Unused, ops), id)
  {
    UnusedIsConsistent();
    RunKeepsConsistent(Unused, ops);
    assert ActiveOk(Run(Unused, ops), id);
  }

  // ---- what each operation leaves ----

  /** Nothing about the key has changed: what is held under it, and who owns it. */
  ghost predicate KeyStays(r: Registry, r': Registry, key: Key) {
    HeldAt(r', key) == HeldAt(r, key) && Lookup(r'.owners, key) == Lookup(r.owners, key)
  }

  /** The records, the hooks, the digests and the flags of other packages are as they were. */
  ghost predicate OtherRecordsStay(r: Registry, r': Registry, id: string) {
    && r'.builtins == r.builtins && r'.installed - {id} == r.installed - {id} && r'.active - {id} == r.active - {id}
    && r'.digests - {id} == r.digests - {id} && r'.activeLocal - {id} == r.activeLocal - {id}
  }

  /** Everything about other packages is as it was, and about every key but one. */
  ghost predicate OthersStay(r: Registry, r': Registry, m: Manifest) {
    OtherRecordsStay(r, r', m.id) && forall key {:trigger KeyStays(r, r', key)} :: key != KeyOf(m) ==> KeyStays(r, r', key)
  }

  /** The package runs with these hooks: they are its active ones, and what they offer is registered as its own. */
  ghost predicate RunsWith(r: Registry, m: Manifest, hooks: Option<Hooks>) {
    && m.id in r.active && r.active[m.id] == hooks
    && (hooks.Some? ==> Owns(r, m) && HeldAt(r, KeyOf(m)) == Offered(m, hooks.value))
  }

  /** One entry of a map is set, or taken out, or nothing happens. */
  ghost predicate OneChange<V>(a: map<string, V>, b: map<string, V>, id: string) {
    b == a || b == a - {id} || (id in b && b == a[id := b[id]])
  }

  lemma OneChangeStays<V>(a: map<string, V>, b: map<string, V>, id: string)
    requires OneChange(a, b, id)
    ensures b - {id} == a - {id}
  {
  }

  /** The registries and owners are the same; only the package's own records differ. */
  lemma OwnRecordsChange(r: Registry, a: Registry, b: Registry, m: Manifest)
    requires OthersStay(r, a, m) && b == a.(installed := b.installed, active := b.active, activeLocal := b.activeLocal, file := b.file)
    requires OneChange(a.installed, b.installed, m.id) && OneChange(a.active, b.active, m.id)
    requires b.activeLocal in {a.activeLocal, a.activeLocal + {m.id}, a.activeLocal - {m.id}}
    ensures OthersStay(r, b, m) && HeldAt(b, KeyOf(m)) == HeldAt(a, KeyOf(m)) && (Owns(b, m) <==> Owns(a, m))
  {
    OneChangeStays(a.installed, b.installed, m.id);
    OneChangeStays(a.active, b.active, m.id);
    forall key | key != KeyOf(m)
      ensures KeyStays(r, b, key)
    {
      assert KeyStays(r, a, key);
    }
  }

  lemma ActivationStays(r: Registry, record: Record, hooks: Option<Hooks>)
    requires KeysOk(r) && Activates(r, record.manifest, hooks)
    ensures OthersStay(r, ActivatePrepared(r, record, hooks), record.manifest)
  {
    KeyOkAt(r, KeyOf(record.manifest));
    ActivateFrame(r, record, hooks);
    var r' := ActivatePrepared(r, record, hooks);
    forall key | key != KeyOf(record.manifest)
      ensures KeyStays(r, r', key)
    {
      ActivateHolds(r, record, hooks, key);
    }
  }

  lemma ActivationRuns(r: Registry, record: Record, hooks: Option<Hooks>)
    requires KeysOk(r) && Activates(r, record.manifest, hooks)
    ensures RunsWith(ActivatePrepared(r, record, hooks), record.manifest, hooks)
  {
    KeyOkAt(r, KeyOf(record.manifest));
    ActivateFrame(r, record, hooks);
    ActivateHolds(r, record, hooks, KeyOf(record.manifest));
  }

  lemma DeactivationStays(r: Registry, m: Manifest)
    requires KeysOk(r)
    ensures OthersStay(r, Deactivate(r, m), m) && !Owns(Deactivate(r, m), m)
  {
    var r' := Deactivate(r, m);
    forall key | key != KeyOf(m)
      ensures KeyStays(r, r', key)
    {
      if Owns(r, m) {
        DeactivateHolds(r, m, key);
      }
    }
  }

  /** A package can be installed when its id is free, it loads and its contribution is free. */
  predicate Installable(r: Registry, record: Record, prepared: Option<Option<Hooks>>) {
    && record.manifest.id !in r.builtins && record.manifest.id !in r.installed
    && prepared.Some? && Activates(r, record.manifest, prepared.value)
  }

  /** What can be installed runs afterwards and is recorded, in the file too when that can be written; and what
      cannot changes nothing. */
  lemma InstalledExactly(r: Registry, record: Record, prepared: Option<Option<Hooks>>, writes: bool)
    requires Sound(r)
    ensures var r' := InstallNew(r, record, prepared, writes);
            && (!Installable(r, record, prepared) ==> r' == r)
            && (Installable(r, record, prepared) && (writes || !record.origin.User?) ==>
                  && RunsWith(r', record.manifest, prepared.value) && OthersStay(r, r', record.manifest)
                  && r'.installed == r.installed[record.manifest.id := record] && r'.file == (if writes then r'.installed else r.file)
                  && (record.origin.LocalLink? ==> record.manifest.id in r'.activeLocal))
  {
    if Installable(r, record, prepared) && (writes || !record.origin.User?) {
      ActivationStays(r, record, prepared.value);
      ActivationRuns(r, record, prepared.value);
      ActivateFrame(r, record, prepared.value);
      OwnRecordsChange(r, ActivatePrepared(r, record, prepared.value), InstallNew(r, record, prepared, writes), record.manifest);
    }
  }

  /** A user's package that cannot be recorded leaves neither record nor contribution. */
  lemma UnrecordedIsUndone(r: Registry, record: Record, prepared: Option<Option<Hooks>>)
    requires Sound(r) && Installable(r, record, prepared) && record.origin.User?
    ensures var r' := InstallNew(r, record, prepared, false);
            && OthersStay(r, r', record.manifest) && r'.installed == r.installed && r'.file == r.file && r'.owners == r.owners
            && HeldAt(r', KeyOf(record.manifest)) == HeldAt(r, KeyOf(record.manifest))
  {
    NewIsIdle(r, record.manifest.id);
    ActivateFrame(r, record, prepared.value);
    var r' := InstallNew(r, record, prepared, false);
    UndoActivation(r, record, prepared.value, ActivatePrepared(r, record, prepared.value));
    forall key
      ensures KeyStays(r, r', key)
    {
      assert HeldAt(r', key) == HeldAt(r, key);
    }
    assert KeyStays(r, r', KeyOf(record.manifest));
  }

  /** The package is taken out of the runtime: no hooks, no flag, no contribution. */
  ghost predicate Stopped(r: Registry, m: Manifest) {
    m.id !in r.active && m.id !in r.activeLocal && !Owns(r, m)
  }

  /** Uninstalling takes an installed package out of the runtime and out of the registry, and of the file when
      that can be written; one that is part of a release stays. Nothing else changes. */
  lemma UninstalledExactly(r: Registry, id: string, writes: bool)
    requires Sound(r)
    ensures var r' := Uninstall(r, id, writes);
            if id in r.installed && !r.installed[id].origin.Bundled? then
              && Stopped(r', r.installed[id].manifest) && OthersStay(r, r', r.installed[id].manifest)
              && r'.installed == r.installed - {id} && r'.file == (if writes then r'.installed else r.file)
            else r' == r
  {
    if id in r.installed && !r.installed[id].origin.Bundled? {
      var m := r.installed[id].manifest;
      DeactivationStays(r, m);
      OwnRecordsChange(r, Deactivate(r, m), Uninstall(r, id, writes), m);
    }
  }

  /** Without developer mode a package is out of the runtime but stays recorded. */
  lemma SuspendedExactly(r: Registry, id: string)
    requires Sound(r) && id in r.installed && !r.installed[id].origin.Bundled?
    ensures var m, s := r.installed[id].manifest, Suspend(r, id);
            Stopped(s, m) && OthersStay(r, s, m) && s.installed == r.installed && s.file == r.file
  {
    var m := r.installed[id].manifest;
    DeactivationStays(r, m);
    OwnRecordsChange(r, Deactivate(r, m), Suspend(r, id), m);
  }

  /** Resuming a package makes it run with what it loads now, if it loads and its contribution is free; otherwise
      nothing changes. */
  lemma ResumedExactly(r: Registry, id: string, prepared: Option<Option<Hooks>>)
    requires Sound(r) && id in r.installed && !r.installed[id].origin.Bundled?
    ensures var m, s := r.installed[id].manifest, Resume(r, id, prepared);
            if prepared.Some? && Activates(r, m, prepared.value) then
              && RunsWith(s, m, prepared.value) && OthersStay(r, s, m) && s.installed == r.installed && s.file == r.file
              && (r.installed[id].origin.LocalLink? ==> id in s.activeLocal)
            else s == r
  {
    var record := r.installed[id];
    if prepared.Some? && Activates(r, record.manifest, prepared.value) {
      ActivationStays(r, record, prepared.value);
      ActivationRuns(r, record, prepared.value);
      ActivateFrame(r, record, prepared.value);
      OwnRecordsChange(r, ActivatePrepared(r, record, prepared.value), Resume(r, id, prepared), record.manifest);
    }
  }

  /** At startup a stored record is always listed again; it runs if it is to run, loads, and its contribution is free. */
  lemma LoadedExactly(r: Registry, record: Record, prepared: Option<Option<Hooks>>)
    requires Sound(r)
    requires record.manifest.id !in r.builtins && record.manifest.id !in r.installed && record.manifest.id !in r.active
    ensures var m, s := record.manifest, Load(r, record, prepared);
            && s.installed == r.installed[m.id := record] && s.file == r.file && OthersStay(r, s, m)
            && if prepared.Some? && Activates(r, m, prepared.value)
               then RunsWith(s, m, prepared.value) && (record.origin.LocalLink? ==> m.id in s.activeLocal)
               else m.id !in s.active && s.owners == r.owners
  {
    if prepared.Some? && Activates(r, record.manifest, prepared.value) {
      LoadedRuns(r, record, prepared.value);
    } else {
      forall key ensures KeyStays(r, r, key) {}
      OwnRecordsChange(r, r, Load(r, record, prepared), record.manifest);
    }
  }

  lemma LoadedRuns(r: Registry, record: Record, hooks: Option<Hooks>)
    requires Sound(r) && Activates(r, record.manifest, hooks)
    requires record.manifest.id !in r.builtins && record.manifest.id !in r.installed && record.manifest.id !in r.active
    ensures var m, s := record.manifest, Load(r, record, Some(hooks));
            && s.installed == r.installed[m.id := record] && s.file == r.file && OthersStay(r, s, m)
            && RunsWith(s, m, hooks) && (record.origin.LocalLink? ==> m.id in s.activeLocal)
  {
    SameActivation(r, r.(installed := r.installed[record.manifest.id := record]), record, hooks);
    ActivationStays(r, record, hooks);
    ActivationRuns(r, record, hooks);
    ActivateFrame(r, record, hooks);
    OwnRecordsChange(r, ActivatePrepared(r, record, hooks), Load(r, record, Some(hooks)), record.manifest);
  }

  /** A builtin is always listed; it has its contribution if that is free and the runtime can take its hooks. */
  lemma BuiltinRegisteredExactly(r: Registry, m: Manifest, h: Hooks)
    requires KeysOk(r)
    ensures var r' := RegisterBuiltin(r, m, h);
            && r'.builtins == r.builtins[m.id := Builtin(m, h)] && r'.installed == r.installed && r'.active == r.active && r'.file == r.file
            && (forall key {:trigger KeyStays(r, r', key)} :: key != KeyOf(m) ==> KeyStays(r, r', key))
            && if Activates(r, m, Some(h)) then Owns(r', m) && HeldAt(r', KeyOf(m)) == Offered(m, h) else r'.owners == r.owners
  {
    var b := r.(builtins := r.builtins[m.id := Builtin(m, h)]);
    var r' := RegisterBuiltin(r, m, h);
    KeyOkAt(r, KeyOf(m));
    assert HeldAt(b, KeyOf(m)) == HeldAt(r, KeyOf(m));
    forall key | key != KeyOf(m)
      ensures KeyStays(r, r', key)
    {
      assert HeldAt(b, key) == HeldAt(r, key);
      if Fits(b, m, h) {
        ContributeHolds(b, m, h, key);
      }
    }
    if Fits(b, m, h) {
      ContributeHolds(b, m, h, KeyOf(m));
    }
  }

  /** Which package gets a contribution: the one whose hooks the runtime can take, when nobody has it. */
  lemma ActivatesExactly(r: Registry, m: Manifest, h: Hooks)
    ensures Activates(r, m, None)
    ensures Activates(r, m, Some(h)) <==>
              && KeyOf(m) !in r.owners
              && match m.kind
                 case Capability => h.capabilityModule.Some? && h.capabilityModule.value.id == m.id && h.capabilityModule.value.capability
                 case Connector(c, transports) =>
                   (h.factory.Some? || (h.driver.Some? && transports <= 1)) && (h.driver.Some? ==> h.driver.value.id == c)
  {
  }

  // ---- where an update is not undone ----

  /** Two failed updates of a package that did not run leave it running with the first candidate's code: the
      first one leaves its hooks behind, and the second one puts them back. */
  lemma StaleHooksRevive(r: Registry, first: Record, h: Hooks, second: Record, h2: Hooks)
    requires Consistent(r) && first.manifest.id in r.installed && first.manifest.id !in r.active
    requires first.manifest == r.installed[first.manifest.id].manifest && second.manifest == first.manifest
    requires Fits(r, first.manifest, h) && Fits(r, first.manifest, h2)
    ensures var m := first.manifest;
            var r1 := ReplaceInstalled(r, first, Some(Some(h)), false);
            var r2 := ReplaceInstalled(r1.0, second, Some(Some(h2)), false);
            && r1.1 == RolledBack && r2.1 == RolledBack && r2.0.installed == r.installed
            && !Owns(r, m) && Owns(r2.0, m) && HeldAt(r2.0, KeyOf(m)) == Offered(m, h)
  {
    var m := first.manifest;
    var r1 := ReplaceInstalled(r, first, Some(Some(h)), false).0;
    FailedInactive(r, first, h);
    IdleRevives(r1, second, h, h2);
  }

  /** What the failed update of a package that did not run leaves: its hooks, and nothing else. */
  ghost predicate OnlyHooksLeft(r: Registry, r': Registry, id: string, h: Hooks) {
    && KeysOk(r') && Idle(r', id) && NamesMatch(r')
    && r'.owners == r.owners && r'.installed == r.installed && r'.active == r.active[id := Some(h)]
  }

  lemma FailedInactive(r: Registry, candidate: Record, h: Hooks)
    requires Consistent(r) && candidate.manifest.id in r.installed && candidate.manifest.id !in r.active
    requires Fits(r, candidate.manifest, h)
    ensures var (r', u) := ReplaceInstalled(r, candidate, Some(Some(h)), false);
            u == RolledBack && OnlyHooksLeft(r, r', candidate.manifest.id, h)
  {
    var id := candidate.manifest.id;
    InactiveIsIdle(r, id);
    var x := BeforeRollback(r, candidate, Some(h));
    UndoActivation(r, candidate, Some(h), x);
    var d := Deactivate(x, candidate.manifest);
    MapPutBack(r.installed, d.installed, id);
    var r' := ReplaceInstalled(r, candidate, Some(Some(h)), false).0;
    assert r' == d.(installed := r.installed, activeLocal := r'.activeLocal);
    HooksLeftKeys(r, d, r', id);
  }

  lemma HooksLeftKeys(r: Registry, d: Registry, r': Registry, id: string)
    requires KeysOk(r) && Idle(r, id) && SameButRecords(r, d, id)
    requires r' == d.(installed := r.installed, activeLocal := r'.activeLocal)
    ensures KeysOk(r')
  {
    forall key
      ensures KeyOk(r', key)
    {
      KeyOkAt(r, key);
      assert HeldAt(r', key) == HeldAt(d, key) == HeldAt(r, key);
      if key in r.owners {
        RunningElsewhere(r, r', id, r.owners[key]);
      }
    }
  }

  lemma IdleRevives(r: Registry, candidate: Record, h: Hooks, h2: Hooks)
    requires NamesMatch(r) && KeysOk(r) && Idle(r, candidate.manifest.id)
    requires candidate.manifest.id in r.installed && r.installed[candidate.manifest.id].manifest == candidate.manifest
    requires candidate.manifest.id in r.active && r.active[candidate.manifest.id] == Some(h)
    requires Fits(r, candidate.manifest, h) && Fits(r, candidate.manifest, h2)
    ensures var m := candidate.manifest;
            var (r', u) := ReplaceInstalled(r, candidate, Some(Some(h2)), false);
            u == RolledBack && r'.installed == r.installed && Owns(r', m) && HeldAt(r', KeyOf(m)) == Offered(m, h)
  {
    assert Deactivate(r, candidate.manifest) == r;
    var x := BeforeRollback(r, candidate, Some(h2));
    UndoActivation(r, candidate, Some(h2), x);
    RollbackRevives(r, x, candidate, h);
  }

  lemma RollbackRevives(r: Registry, x: Registry, candidate: Record, h: Hooks)
    requires KeysOk(r) && candidate.manifest.id in r.installed && r.installed[candidate.manifest.id].manifest == candidate.manifest
    requires Fits(r, candidate.manifest, h) && SameButRecords(r, Deactivate(x, candidate.manifest), candidate.manifest.id)
    ensures var m := candidate.manifest;
            var (r', u) := Rollback(x, r.installed[m.id], candidate, true, Some(h), m.id in r.activeLocal);
            u == RolledBack && r'.installed == r.installed && Owns(r', m) && HeldAt(r', KeyOf(m)) == Offered(m, h)
  {
    var m := candidate.manifest;
    var d := Deactivate(x, m);
    MapPutBack(r.installed, d.installed, m.id);
    KeyOkAt(r, KeyOf(m));
    assert HeldAt(d, KeyOf(m)) == HeldAt(r, KeyOf(m));
    RevivedOwns(d, r.installed[m.id], m.id in r.activeLocal, h);
  }

  lemma RevivedOwns(d: Registry, existing: Record, wasLocal: bool, h: Hooks)
    requires Fits(d, existing.manifest, h) && HeldAt(d, KeyOf(existing.manifest)) == Nothing
    ensures var u := PutBack(d, existing, wasLocal);
            && Activates(u, existing.manifest, Some(h))
            && var r' := ActivatePrepared(u, existing, Some(h));
               && Owns(r', existing.manifest) && r'.installed == d.installed[existing.manifest.id := existing]
               && HeldAt(r', KeyOf(existing.manifest)) == Offered(existing.manifest, h)
  {
    var u := PutBack(d, existing, wasLocal);
    assert HeldAt(u, KeyOf(existing.manifest)) == HeldAt(d, KeyOf(existing.manifest));
    ActivatedOwns(u, existing, h);
  }

  lemma ActivatedOwns(r: Registry, record: Record, h: Hooks)
    requires Fits(r, record.manifest, h) && HeldAt(r, KeyOf(record.manifest)) == Nothing
    ensures var r' := ActivatePrepared(r, record, Some(h));
            && Owns(r', record.manifest) && r'.installed == r.installed
            && HeldAt(r', KeyOf(record.manifest)) == Offered(record.manifest, h)
  {
    ActivateHolds(r, record, Some(h), KeyOf(record.manifest));
    ActivateFrame(r, record, Some(h));
  }

  /** A rolled back update does invalidate the driver instances of the old factory: it is registered anew. */
  lemma RollbackRenewsEpoch(r: Registry, candidate: Record, prepared: Option<Option<Hooks>>)
    requires Consistent(r) && candidate.manifest.id in r.installed && candidate.manifest.id in r.active && prepared.Some?
    requires var id := candidate.manifest.id;
             r.installed[id].manifest.kind.Connector? && r.active[id].Some? && r.active[id].value.factory.Some?
    ensures var c := r.installed[candidate.manifest.id].manifest.kind.connectorId;
            var r' := ReplaceInstalled(r, candidate, prepared, false).0;
            c in r.drivers.epochs && c in r'.drivers.epochs && r.drivers.epochs[c] < r'.drivers.epochs[c]
  {
    var id := candidate.manifest.id;
    var existing, x := r.installed[id], BeforeRollback(r, candidate, prepared.value);
    assert ActiveOk(r, id);
    KeyOkAt(r, KeyOf(existing.manifest));
    CandidateUndone(r, candidate, prepared.value);
    RollbackOfActive(r, x, candidate);
    EpochsAdvance(r, existing, None);
    RollbackRegisters(x, existing, candidate, r.active[id].value, id in r.activeLocal);
  }

  lemma RollbackRegisters(x: Registry, existing: Record, candidate: Record, h: Hooks, wasLocal: bool)
    requires existing.manifest.kind.Connector? && h.factory.Some?
    ensures var (r', u) := Rollback(x, existing, candidate, true, Some(h), wasLocal);
            var c := existing.manifest.kind.connectorId;
            u == RolledBack ==> c in r'.drivers.epochs && r'.drivers.epochs[c] == Deactivate(x, candidate.manifest).drivers.nextEpoch
  {
  }

  // ---- the code, against the functions above ----

  class DriverRegistry {
    var drivers: map<string, Driver>
    var factories: map<string, nat>
    var owners: map<string, string>
    var factoryEpochs: map<string, nat>
    var nextEpoch: nat

    ghost function View(): Drivers
      reads this
    {
      Drivers(drivers, factories, owners, factoryEpochs, nextEpoch)
    }

    constructor ()
      ensures View() == Unused.drivers
    {
      drivers, factories, owners, factoryEpochs, nextEpoch := map[], map[], map[], map[], 0;
    }

    method RegisterDriver(driver: Driver, owner: string)
      modifies this
      ensures View() == Register(old(View()), driver, owner)
    {
      drivers := drivers[driver.id := driver];
      owners := owners[driver.id := owner];
    }

    /** Every registration draws a new symbol: here, the next number. */
    method RegisterDriverFactory(connectorId: string, factory: nat, owner: string)
      modifies this
      ensures View() == RegisterFactory(old(View()), connectorId, factory, owner)
    {
      factories := factories[connectorId := factory];
      owners := owners[connectorId := owner];
      factoryEpochs := factoryEpochs[connectorId := nextEpoch];
      nextEpoch := nextEpoch + 1;
    }

    method UnregisterDriver(id: string) returns (removed: bool)
      modifies this
      ensures View() == Unregister(old(View()), id) && removed == (id in old(drivers))
    {
      factories := factories - {id};
      factoryEpochs := factoryEpochs - {id};
      owners := owners - {id};
      removed := id in drivers;
      drivers := drivers - {id};
    }
  }

  class ExtensionRegistry {
    ghost var builtins: map<string, Builtin>
    var installed: map<string, Record>
    var file: map<string, Record>
    var activeHooks: map<string, Option<Hooks>>
    var contributionOwners: map<Key, string>
    var catalog: map<string, Module>
    const drivers: DriverRegistry
    var activePackageDigests: map<string, string>
    var activeLocal: set<string>

    ghost function View(): Registry
      reads this, drivers
    {
      Registry(builtins, installed, file, activeHooks, contributionOwners, catalog, drivers.View(), activePackageDigests, activeLocal)
    }

    constructor (drivers: DriverRegistry)
      requires drivers.View() == Unused.drivers
      ensures View() == Unused && this.drivers == drivers
    {
      builtins, installed, file, activeHooks := map[], map[], map[], map[];
      contributionOwners, catalog, activePackageDigests, activeLocal := map[], map[], map[], {};
      this.drivers := drivers;
    }

    /** Takes the package's contribution out of the runtime, if it holds it. */
    method DeactivateExtension(m: Manifest)
      modifies this, drivers
      ensures View() == Deactivate(old(View()), m)
    {
      var key := KeyOf(m);
      if key !in contributionOwners || contributionOwners[key] != m.id {
        return;
      }
      if m.kind.Capability? {
        catalog := catalog - {m.id};
      } else {
        var _ := drivers.UnregisterDriver(m.kind.connectorId);
      }
      activePackageDigests := activePackageDigests - {m.id};
      contributionOwners := contributionOwners - {key};
    }

    method ActivateHooks(m: Manifest, h: Hooks) returns (ok: bool)
      modifies this, drivers
      ensures ok == Fits(old(View()), m, h)
      ensures View() == if ok then Contribute(old(View()), m, h) else old(View())
    {
      if !ValidHooks(m, h) {
        return false;
      }
      var key := KeyOf(m);
      if key in contributionOwners {
        return false;
      }
      if m.kind.Capability? {
        if !h.capabilityModule.value.capability {
          return false;
        }
        catalog := catalog[m.id := h.capabilityModule.value];
      } else if h.factory.Some? {
        drivers.RegisterDriverFactory(m.kind.connectorId, h.factory.value, m.id);
      } else {
        drivers.RegisterDriver(h.driver.value, m.id);
      }
      contributionOwners := contributionOwners[key := m.id];
      return true;
    }

    method ActivateRecord(record: Record, hooks: Option<Hooks>) returns (ok: bool)
      modifies this, drivers
      ensures ok == Activates(old(View()), record.manifest, hooks)
      ensures View() == if ok then ActivatePrepared(old(View()), record, hooks) else old(View())
    {
      var id := record.manifest.id;
      if hooks.Some? {
        ok := ActivateHooks(record.manifest, hooks.value);
        if !ok {
          return;
        }
      }
      activeHooks := activeHooks[id := hooks];
      if record.origin.Bundled? && record.digest.Some? {
        activePackageDigests := activePackageDigests[id := record.digest.value];
      } else {
        activePackageDigests := activePackageDigests - {id};
      }
      return true;
    }

    method UndoUpdate(existing: Record, candidate: Record, hadHooks: bool, oldHooks: Option<Hooks>, wasLocal: bool) returns (u: Update)
      modifies this, drivers
      ensures (View(), u) == Rollback(old(View()), existing, candidate, hadHooks, oldHooks, wasLocal)
    {
      var id := existing.manifest.id;
      DeactivateExtension(candidate.manifest);
      installed := installed[id := existing];
      if wasLocal {
        activeLocal := activeLocal + {id};
      } else {
        activeLocal := activeLocal - {id};
      }
      if hadHooks {
        var ok := ActivateRecord(existing, oldHooks);
        return if ok then RolledBack else RollbackFailed;
      }
      return RolledBack;
    }

    /** Replaces an installed package by a prepared one, or puts the old one back. `writes` is whether the
        registry file can be written. */
    method ReplaceExtension(candidate: Record, prepared: Option<Option<Hooks>>, writes: bool) returns (u: Update)
      requires candidate.manifest.id in installed
      modifies this, drivers
      ensures (View(), u) == ReplaceInstalled(old(View()), candidate, prepared, writes)
    {
      var id := candidate.manifest.id;
      var existing := installed[id];
      if prepared.None? {
        return NotPrepared;
      }
      var hadHooks := id in activeHooks;
      var oldHooks := if hadHooks then activeHooks[id] else None;
      var wasLocal := id in activeLocal;
      DeactivateExtension(existing.manifest);
      var ok := ActivateRecord(candidate, prepared.value);
      if ok {
        installed := installed[id := candidate.(installedAt := existing.installedAt)];
        if existing.origin.LocalLink? {
          activeLocal := activeLocal + {id};
        }
        if writes {
          file := installed;
          return Replaced;
        }
      }
      u := UndoUpdate(existing, candidate, hadHooks, oldHooks, wasLocal);
    }
  }
}