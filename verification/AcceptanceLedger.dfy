/**
 * The acceptance ledger of a knowledge binding: which notes are on disk, under which identity, and how
 * observed files are matched with the notes already known.
 *
 * A table key is the note's identity: a declared id or a path (the source writes them as strings with two
 * different prefixes). Random ids come from a counter, so a fresh id differs from every id in use. The
 * order in which the store enumerates its tables is an input.
 *
 * The store keeps notes and reviewed control documents in two tables. Their keys cannot meet, because a
 * control document is keyed by its path alone, so the functions below speak of one table; the class at the
 * end keeps the two and is proved to split that table by `IsControl`.
 */
module AcceptanceLedger {
  import opened Wrappers

  /** A relative path, split at its separators. */
  type Path = seq<string>

  function Lower(s: string): string {
    if s == "" then ""
    else [if 'A' <= s[0] <= 'Z' then (s[0] as int + 32) as char else s[0]] + Lower(s[1..])
  }

  predicate Listed(name: string, names: seq<string>) {
    names != [] && (name == names[0] || Listed(name, names[1..]))
  }

  const ContractNames := ["agents.md", "claude.md"]
  const IndexNames := ["index.md", "log.md"]
  const WikiDirectory := "wiki"

  function Basename(p: Path): string {
    if p == [] then "" else Lower(p[|p| - 1])
  }

  predicate IsIndexOrLog(p: Path) {
    Listed(Basename(p), IndexNames)
  }

  /** Contract, index and log documents at the content root or directly under wiki/. */
  predicate IsControl(p: Path) {
    && p != [] && |p| <= 2 && (|p| == 2 ==> p[0] == WikiDirectory)
    && (Listed(Basename(p), ContractNames) || IsIndexOrLog(p))
  }

  lemma ListedHere(name: string, names: seq<string>)
    ensures Listed(name, names) <==> name in names
  {
    if names != [] {
      ListedHere(name, names[1..]);
    }
  }

  /** Which documents are control documents: contracts, index and log pages, whatever the case of their names, at
      the root or in the wiki directory itself. */
  lemma ControlDocumentsExactly(p: Path)
    ensures IsControl(p) <==>
              && (|p| == 1 || (|p| == 2 && p[0] == "wiki"))
              && Lower(p[|p| - 1]) in {"agents.md", "claude.md", "index.md", "log.md"}
  {
    if p != [] {
      ListedHere(Basename(p), ContractNames);
      ListedHere(Basename(p), IndexNames);
    }
  }

  datatype Identity = Declared(id: string) | AtPath(path: Path)

  datatype Availability = Current | ChangedOnDisk | Missing | Revoked

  datatype Entry = Entry(
    noteId: nat,
    identity: Identity,
    path: Path,
    title: Option<string>,
    hash: string,
    acceptedBy: string,
    acceptedAt: int,
    acceptanceId: nat,
    sources: seq<string>,
    availability: Availability,
    disk: Option<string>)

  datatype Item = Item(
    path: Path,
    declared: Option<string>,
    title: Option<string>,
    hash: string,
    acceptedBy: string,
    sources: Option<seq<string>>,
    disk: Option<string>)

  datatype Intent = Intent(operationId: nat, actor: string, hash: string)

  datatype Kind = Creation | Renaming | Updating | Deletion

  datatype Event = Event(
    id: nat,
    noteId: nat,
    path: Path,
    previous: Option<(Path, string)>,
    hash: string,
    actor: string,
    kind: Kind,
    operationId: nat)

  type Table = map<Identity, Entry>

  datatype Ledger = Ledger(
    table: Table,
    revision: nat,
    intents: map<Path, Intent>,
    outbox: seq<Event>,
    nextId: nat)

  function KeyOf(item: Item): Identity {
    if item.declared.Some? && !IsControl(item.path) then Declared(item.declared.value) else AtPath(item.path)
  }

  // ---- external observation ----

  datatype Observation = Observation(items: seq<Item>, present: set<Path>, guarded: set<Path>, unreadable: set<Path>)

  /** A ledger under construction. `origin` is a history variable: the earlier key each entry comes from. */
  datatype Draft = Draft(
    table: Table,
    claimed: set<nat>,
    origin: map<Identity, Identity>,
    intents: map<Path, Intent>,
    outbox: seq<Event>,
    changed: bool,
    nextId: nat)

  predicate Unclaimed(prior: Table, k: Identity, claimed: set<nat>) {
    k in prior && prior[k].acceptanceId !in claimed
  }

  /** A note that may have moved: its old path is gone and nothing speaks for it. */
  predicate Movable(prior: Table, k: Identity, claimed: set<nat>, o: Observation) {
    && Unclaimed(prior, k, claimed)
    && !IsControl(prior[k].path)
    && prior[k].path !in o.present && prior[k].path !in o.guarded && prior[k].path !in o.unreadable
  }

  predicate SameMark(e: Entry, item: Item) {
    || (item.declared.Some? && e.identity == Declared(item.declared.value))
    || (item.disk.Some? && e.disk == item.disk)
  }

  function ByPath(prior: Table, item: Item, claimed: set<nat>): set<Identity> {
    set k | k in prior && Unclaimed(prior, k, claimed) && prior[k].path == item.path
  }

  function ByMark(prior: Table, item: Item, claimed: set<nat>, o: Observation): set<Identity> {
    set k | k in prior && Movable(prior, k, claimed, o) && SameMark(prior[k], item)
  }

  function ByHash(prior: Table, item: Item, claimed: set<nat>, o: Observation): set<Identity> {
    set k | k in prior && Movable(prior, k, claimed, o) && prior[k].hash == item.hash
  }

  function SameHashItems(o: Observation, hash: string): set<int> {
    set i | 0 <= i < |o.items| && o.items[i].hash == hash
  }

  /** The earlier key an observed item continues: same path first, then a unique id or disk mark, then a
      hash that is unique on both sides. */
  ghost function Previous(prior: Table, item: Item, claimed: set<nat>, o: Observation): (r: Option<Identity>)
    ensures r.Some? ==> Unclaimed(prior, r.value, claimed)
    ensures r.Some? ==> prior[r.value].path == item.path || Movable(prior, r.value, claimed, o)
    ensures ByPath(prior, item, claimed) != {} ==> r.Some? && r.value in ByPath(prior, item, claimed)
  {
    var byPath := ByPath(prior, item, claimed);
    if byPath != {} then
      var k :| k in byPath;
      Some(k)
    else if IsControl(item.path) then None
    else
      var byMark := ByMark(prior, item, claimed, o);
      if |byMark| == 1 then
        var k :| k in byMark;
        Some(k)
      else
        var byHash := ByHash(prior, item, claimed, o);
        if |byHash| == 1 && |SameHashItems(o, item.hash)| == 1 then
          var k :| k in byHash;
          Some(k)
        else None
  }

  function Place(d: Draft, key: Identity, e: Entry, origin: Option<Identity>): Draft {
    var d' := if origin.Some? then d.(origin := d.origin[key := origin.value]) else d;
    d'.(table := d.table[key := e])
  }

  predicate Skipped(item: Item) {
    IsControl(item.path) && !IsIndexOrLog(item.path)
  }

  predicate Unchanged(e: Entry, item: Item) {
    e.availability == Current && e.hash == item.hash && e.path == item.path && e.identity == KeyOf(item)
  }

  ghost function ObserveItem(prior: Table, d: Draft, item: Item, o: Observation, now: int): (d': Draft)
    ensures d'.intents == d.intents - {item.path}
  {
    var intent := if item.path in d.intents then Some(d.intents[item.path]) else None;
    var d0 := d.(intents := d.intents - {item.path});
    if Skipped(item) then d0
    else
      var edit := if intent.Some? && intent.value.hash == item.hash then intent else None;
      Continue(prior, d0, item, Previous(prior, item, d.claimed, o), edit, now)
  }

  /** Claims the note the item continues and keeps it, or writes a new version. */
  function Continue(prior: Table, d: Draft, item: Item, prev: Option<Identity>, edit: Option<Intent>, now: int): (r: Draft)
    requires prev.Some? ==> prev.value in prior
    ensures r.intents == d.intents
  {
    var d' := if prev.Some? then d.(claimed := d.claimed + {prior[prev.value].acceptanceId}) else d;
    if prev.Some? && Unchanged(prior[prev.value], item) then
      Place(d', KeyOf(item), prior[prev.value].(disk := item.disk), prev)
    else
      Renewed(prior, d', item, prev, edit, now)
  }

  /** The entry written for a new version of a known note, or for a new note. */
  function RenewedEntry(prior: Table, nextId: nat, item: Item, prev: Option<Identity>, edit: Option<Intent>, now: int): Entry
    requires prev.Some? ==> prev.value in prior
  {
    Entry(if prev.Some? then prior[prev.value].noteId else nextId, KeyOf(item), item.path, item.title, item.hash,
          if edit.Some? then edit.value.actor else "platform-observer", now,
          if prev.Some? then nextId else nextId + 1,
          if item.sources.Some? then item.sources.value else [], Current, item.disk)
  }

  function RenewedEvent(prior: Table, e: Entry, prev: Option<Identity>, edit: Option<Intent>): Event
    requires prev.Some? ==> prev.value in prior
  {
    var kind := if prev.None? then Creation else if prior[prev.value].path != e.path then Renaming else Updating;
    Event(e.acceptanceId, e.noteId, e.path,
          if prev.Some? then Some((prior[prev.value].path, prior[prev.value].hash)) else None,
          e.hash, e.acceptedBy, kind, if edit.Some? then edit.value.operationId else e.acceptanceId)
  }

  function Renewed(prior: Table, d: Draft, item: Item, prev: Option<Identity>, edit: Option<Intent>, now: int): Draft
    requires prev.Some? ==> prev.value in prior
  {
    var e := RenewedEntry(prior, d.nextId, item, prev, edit, now);
    Place(d, KeyOf(item), e, prev).(
      changed := true,
      outbox := if IsControl(item.path) then d.outbox else d.outbox + [RenewedEvent(prior, e, prev, edit)],
      nextId := e.acceptanceId + 1)
  }

  ghost function ObserveItems(prior: Table, d: Draft, i: nat, o: Observation, now: int): Draft
    requires i <= |o.items|
  {
    if i == 0 then d
    else ObserveItem(prior, ObserveItems(prior, d, i - 1, o, now), o.items[i - 1], o, now)
  }

  /** An earlier note no item continues keeps its place: as it is, as changed, or as missing. */
  function RetainOne(prior: Table, d: Draft, k: Identity, o: Observation): Draft
    requires k in prior
  {
    var e := prior[k];
    if e.acceptanceId in d.claimed then d
    else if k in d.table && d.table[k].path != e.path then
      RetainUnder(d, k, AtPath(e.path), e.(identity := AtPath(e.path)), o)
    else RetainUnder(d, k, k, e, o)
  }

  /** Keeps `e`, which was under `k`, under `key`. */
  function RetainUnder(d: Draft, k: Identity, key: Identity, e: Entry, o: Observation): Draft {
    if e.path in o.guarded then Place(d, key, e, Some(k))
    else if e.path in o.unreadable then
      Place(d, key, e.(availability := ChangedOnDisk), Some(k)).(changed := d.changed || e.availability == Current)
    else if e.path !in o.present then
      var gone := Place(d, key, e.(availability := Missing), Some(k));
      if e.availability == Missing || e.availability == Revoked then gone
      else if IsControl(e.path) then gone.(changed := true)
      else gone.(changed := true, nextId := d.nextId + 1, outbox := d.outbox +
             [Event(d.nextId, e.noteId, e.path, Some((e.path, e.hash)), e.hash, "platform-observer", Deletion, d.nextId)])
    else d
  }

  function Retain(prior: Table, d: Draft, order: seq<Identity>, o: Observation): Draft
    requires forall k :: k in order ==> k in prior
  {
    if order == [] then d
    else RetainOne(prior, Retain(prior, d, order[..|order| - 1], o), order[|order| - 1], o)
  }

  function Blank(l: Ledger): Draft {
    Draft(map[], {}, map[], l.intents, l.outbox, false, l.nextId)
  }

  function Conclude(l: Ledger, d: Draft): Ledger {
    Ledger(d.table, if d.changed then l.revision + 1 else l.revision, d.intents, d.outbox, d.nextId)
  }

  /** `order` is one enumeration of both tables. */
  ghost predicate Enumerates(order: seq<Identity>, prior: Table) {
    && (forall i, j :: 0 <= i < j < |order| ==> order[i] != order[j])
    && (forall k :: k in order <==> k in prior)
  }

  ghost function Sync(l: Ledger, o: Observation, order: seq<Identity>, now: int): Ledger
    requires Enumerates(order, l.table)
  {
    Conclude(l, Retain(l.table, ObserveItems(l.table, Blank(l), |o.items|, o, now), order, o))
  }

  // ---- well-formedness ----

  predicate Apart(e: Entry, f: Entry) {
    e.path != f.path && e.noteId != f.noteId && e.acceptanceId != f.acceptanceId
  }

  ghost predicate Distinct(t: Table) {
    forall j, k :: j in t && k in t && j != k ==> Apart(t[j], t[k])
  }

  /** The key is the identity; a path identity names the entry's own path; a control document is an index
      or log keyed by its path. */
  predicate Fits(k: Identity, e: Entry) {
    && e.identity == k
    && (k.AtPath? ==> k.path == e.path)
    && (IsControl(e.path) ==> k.AtPath? && IsIndexOrLog(e.path))
  }

  ghost predicate AllFit(t: Table) {
    forall k :: k in t ==> Fits(k, t[k])
  }

  ghost predicate IdsBelow(t: Table, n: nat) {
    forall k :: k in t ==> t[k].noteId < n && t[k].acceptanceId < n
  }

  ghost predicate WellFormed(l: Ledger) {
    AllFit(l.table) && Distinct(l.table) && IdsBelow(l.table, l.nextId)
  }

  ghost predicate Observes(o: Observation) {
    forall i, j :: 0 <= i < j < |o.items| ==>
      o.items[i].path != o.items[j].path && KeyOf(o.items[i]) != KeyOf(o.items[j])
  }

  // ---- the invariant of a draft ----

  /** The ids of one entry come from its origin, or are fresh. */
  ghost predicate Derived(prior: Table, d: Draft, k: Identity, base: nat)
    requires k in d.table
  {
    var e := d.table[k];
    && e.noteId < d.nextId && e.acceptanceId < d.nextId
    && (if k in d.origin
        then d.origin[k] in prior && e.noteId == prior[d.origin[k]].noteId
             && (e.acceptanceId == prior[d.origin[k]].acceptanceId || base <= e.acceptanceId)
        else base <= e.noteId && base <= e.acceptanceId)
  }

  ghost predicate OriginsInjective(d: Draft) {
    && d.origin.Keys <= d.table.Keys
    && forall j, k :: j in d.origin && k in d.origin && j != k ==> d.origin[j] != d.origin[k]
  }

  ghost predicate Sound(prior: Table, d: Draft, base: nat) {
    && base <= d.nextId
    && AllFit(d.table)
    && Distinct(d.table)
    && (forall k :: k in d.table ==> Derived(prior, d, k, base))
    && OriginsInjective(d)
  }

  /** The ids `e` may carry when it is added to `d`. */
  ghost predicate Admissible(prior: Table, d: Draft, e: Entry, origin: Option<Identity>, nextId: nat) {
    && d.nextId <= nextId && e.noteId < nextId && e.acceptanceId < nextId
    && (if origin.Some?
        then && origin.value in prior && e.noteId == prior[origin.value].noteId
             && (e.acceptanceId == prior[origin.value].acceptanceId || d.nextId <= e.acceptanceId)
             && (forall k :: k in d.origin ==> d.origin[k] != origin.value)
        else d.nextId <= e.noteId && d.nextId <= e.acceptanceId)
  }

  lemma AdmissibleIsApart(prior: Table, d: Draft, base: nat, e: Entry, origin: Option<Identity>, nextId: nat, k: Identity)
    requires Distinct(prior) && IdsBelow(prior, base) && base <= d.nextId
    requires k in d.table && Derived(prior, d, k, base)
    requires Admissible(prior, d, e, origin, nextId) && d.table[k].path != e.path
    ensures Apart(d.table[k], e)
  {
    if origin.Some? && k in d.origin {
      assert Apart(prior[d.origin[k]], prior[origin.value]);
    }
  }

  lemma AddKeepsDistinct(t: Table, key: Identity, e: Entry)
    requires Distinct(t) && key !in t
    requires forall k :: k in t ==> Apart(t[k], e)
    ensures Distinct(t[key := e])
  {
    var t' := t[key := e];
    forall j, k | j in t' && k in t' && j != k
      ensures Apart(t'[j], t'[k])
    {
      assert j != key ==> Apart(t[j], e);
      assert k != key ==> Apart(t[k], e);
    }
  }

  /** Adding an entry whose path, ids and origin are new keeps a draft sound. */
  lemma PlaceKeepsSound(prior: Table, d: Draft, base: nat, key: Identity, e: Entry, origin: Option<Identity>, nextId: nat)
    requires Distinct(prior) && IdsBelow(prior, base)
    requires Sound(prior, d, base) && key !in d.table && Fits(key, e)
    requires Admissible(prior, d, e, origin, nextId)
    requires forall k :: k in d.table ==> d.table[k].path != e.path
    ensures Sound(prior, Place(d, key, e, origin).(nextId := nextId), base)
  {
    var d' := Place(d, key, e, origin).(nextId := nextId);
    forall k | k in d.table
      ensures Apart(d.table[k], e) && Derived(prior, d', k, base)
    {
      assert Derived(prior, d, k, base);
      AdmissibleIsApart(prior, d, base, e, origin, nextId, k);
    }
    AddKeepsDistinct(d.table, key, e);
    assert Derived(prior, d', key, base);
    PlaceKeepsInjective(prior, d, key, e, origin, nextId);
  }

  lemma PlaceKeepsInjective(prior: Table, d: Draft, key: Identity, e: Entry, origin: Option<Identity>, nextId: nat)
    requires OriginsInjective(d) && key !in d.table && Admissible(prior, d, e, origin, nextId)
    ensures OriginsInjective(Place(d, key, e, origin).(nextId := nextId))
  {
  }

  // ---- the item phase ----

  ghost predicate Claimed(prior: Table, d: Draft, q: Identity)
    requires q in prior
  {
    prior[q].acceptanceId in d.claimed
  }

  /** What the ledger says of an item once it has been observed. */
  predicate Lands(e: Entry, item: Item) {
    Unchanged(e, item) && e.disk == item.disk
  }

  ghost predicate FromItem(d: Draft, k: Identity, item: Item)
    requires k in d.table
  {
    !Skipped(item) && k == KeyOf(item) && Lands(d.table[k], item)
  }

  /** The entry comes from one of the items observed so far. */
  ghost predicate FromSome(d: Draft, k: Identity, i: nat, o: Observation)
    requires k in d.table && i <= |o.items|
  {
    exists j :: 0 <= j < i && FromItem(d, k, o.items[j])
  }

  ghost predicate AllFromItems(d: Draft, i: nat, o: Observation)
    requires i <= |o.items|
  {
    forall k {:trigger FromSome(d, k, i, o)} :: k in d.table ==> FromSome(d, k, i, o)
  }

  ghost function PathsBefore(o: Observation, i: nat): set<Path>
    requires i <= |o.items|
  {
    set j | 0 <= j < i :: o.items[j].path
  }

  ghost predicate ClaimsMatch(prior: Table, d: Draft) {
    forall q :: q in prior ==> (Claimed(prior, d, q) <==> q in d.origin.Values)
  }

  /** An unclaimed note's path has not been observed; a claimed one's path was observed or is gone. */
  ghost predicate ClaimsByPath(prior: Table, d: Draft, paths: set<Path>, o: Observation) {
    forall q :: q in prior ==>
      if Claimed(prior, d, q) then prior[q].path in paths || prior[q].path !in o.present
      else prior[q].path !in paths
  }

  ghost predicate ItemsInv(prior: Table, d: Draft, i: nat, o: Observation, base: nat) {
    && i <= |o.items|
    && Sound(prior, d, base)
    && ClaimsMatch(prior, d)
    && ClaimsByPath(prior, d, PathsBefore(o, i), o)
    && AllFromItems(d, i, o)
    && (forall j :: 0 <= j < i && !Skipped(o.items[j]) ==> KeyOf(o.items[j]) in d.table)
  }

  lemma PlacedInjection(d: Draft, key: Identity, e: Entry, origin: Option<Identity>)
    requires key !in d.origin
    ensures Place(d, key, e, origin).origin.Values == d.origin.Values + if origin.Some? then {origin.value} else {}
  {
    var d' := Place(d, key, e, origin);
    if origin.Some? {
      forall v | v in d.origin.Values + {origin.value}
        ensures v in d'.origin.Values
      {
        if v in d.origin.Values {
          var k :| k in d.origin && d.origin[k] == v;
          assert d'.origin[k] == v;
        } else {
          assert d'.origin[key] == v;
        }
      }
    }
  }

  lemma ClaimStep(prior: Table, d: Draft, d': Draft, item: Item, prev: Option<Identity>, i: nat, o: Observation)
    requires Distinct(prior) && i < |o.items| && item == o.items[i]
    requires ClaimsMatch(prior, d) && ClaimsByPath(prior, d, PathsBefore(o, i), o)
    requires prev.Some? ==> Unclaimed(prior, prev.value, d.claimed) && (prior[prev.value].path == item.path || prior[prev.value].path !in o.present)
    requires prev == None || prior[prev.value].path != item.path ==> ByPath(prior, item, d.claimed) == {}
    requires d'.claimed == d.claimed + if prev.Some? then {prior[prev.value].acceptanceId} else {}
    requires d'.origin.Values == d.origin.Values + if prev.Some? then {prev.value} else {}
    ensures ClaimsMatch(prior, d') && ClaimsByPath(prior, d', PathsBefore(o, i + 1), o)
  {
    assert PathsBefore(o, i + 1) == PathsBefore(o, i) + {item.path};
    forall q | q in prior
      ensures Claimed(prior, d', q) <==> Claimed(prior, d, q) || prev == Some(q)
    {
      if prev.Some? && q != prev.value {
        assert Apart(prior[q], prior[prev.value]);
      }
    }
    forall q | q in prior && !Claimed(prior, d', q)
      ensures prior[q].path != item.path
    {
      assert prior[q].path == item.path ==> q in ByPath(prior, item, d.claimed);
      if prev.Some? && q != prev.value {
        assert Apart(prior[q], prior[prev.value]);
      }
    }
  }

  /** What observing an item writes: an entry that continues `prev`, or a new one. */
  ghost predicate Writes(prior: Table, d: Draft, d': Draft, item: Item, prev: Option<Identity>, e: Entry) {
    && Lands(e, item) && Admissible(prior, d, e, prev, d'.nextId)
    && d'.table == d.table[KeyOf(item) := e]
    && d'.origin == (if prev.Some? then d.origin[KeyOf(item) := prev.value] else d.origin)
    && d'.claimed == d.claimed + if prev.Some? then {prior[prev.value].acceptanceId} else {}
  }

  lemma ContinueWrites(prior: Table, d: Draft, item: Item, prev: Option<Identity>, edit: Option<Intent>, now: int, base: nat)
    requires IdsBelow(prior, base) && base <= d.nextId
    requires prev.Some? ==> prev.value in prior && forall k :: k in d.origin ==> d.origin[k] != prev.value
    ensures var d' := Continue(prior, d, item, prev, edit, now);
            KeyOf(item) in d'.table && Writes(prior, d, d', item, prev, d'.table[KeyOf(item)])
  {
  }

  lemma ObserveWrites(prior: Table, d: Draft, item: Item, o: Observation, now: int, base: nat)
    requires Distinct(prior) && IdsBelow(prior, base) && base <= d.nextId && ClaimsMatch(prior, d)
    requires !Skipped(item)
    ensures var d' := ObserveItem(prior, d, item, o, now);
            KeyOf(item) in d'.table && Writes(prior, d, d', item, Previous(prior, item, d.claimed, o), d'.table[KeyOf(item)])
  {
    var prev := Previous(prior, item, d.claimed, o);
    if prev.Some? {
      assert !Claimed(prior, d, prev.value);
      assert forall k :: k in d.origin ==> d.origin[k] in d.origin.Values;
    }
    var intent := if item.path in d.intents then Some(d.intents[item.path]) else None;
    var edit := if intent.Some? && intent.value.hash == item.hash then intent else None;
    ContinueWrites(prior, d.(intents := d.intents - {item.path}), item, prev, edit, now, base);
  }

  lemma SkippedKeepsInv(prior: Table, d: Draft, i: nat, o: Observation, base: nat)
    requires AllFit(prior) && ItemsInv(prior, d, i, o, base) && i < |o.items| && Skipped(o.items[i])
    ensures ItemsInv(prior, d.(intents := d.intents - {o.items[i].path}), i + 1, o, base)
  {
    var item := o.items[i];
    var d' := d.(intents := d.intents - {item.path});
    SoundFrame(prior, d, d', base);
    assert PathsBefore(o, i + 1) == PathsBefore(o, i) + {item.path};
    forall q | q in prior
      ensures prior[q].path != item.path
    {
      assert Fits(q, prior[q]);
    }
    ItemEntriesShift(d, d', i, o);
  }

  lemma ItemEntriesShift(d: Draft, d': Draft, i: nat, o: Observation)
    requires i < |o.items| && AllFromItems(d, i, o)
    requires forall k :: k in d'.table && !(k in d.table && d'.table[k] == d.table[k]) ==> FromItem(d', k, o.items[i])
    ensures AllFromItems(d', i + 1, o)
  {
    forall k | k in d'.table
      ensures FromSome(d', k, i + 1, o)
    {
      if k in d.table && d'.table[k] == d.table[k] {
        assert FromSome(d, k, i, o);
        var j :| 0 <= j < i && FromItem(d, k, o.items[j]);
        assert FromItem(d', k, o.items[j]);
      } else {
        assert FromItem(d', k, o.items[i]);
      }
    }
  }

  lemma ItemKeepsInv(prior: Table, d: Draft, i: nat, o: Observation, now: int, base: nat)
    requires AllFit(prior) && Distinct(prior) && IdsBelow(prior, base) && Observes(o)
    requires ItemsInv(prior, d, i, o, base) && i < |o.items|
    ensures ItemsInv(prior, ObserveItem(prior, d, o.items[i], o, now), i + 1, o, base)
  {
    if Skipped(o.items[i]) {
      SkippedKeepsInv(prior, d, i, o, base);
    } else {
      ObserveWrites(prior, d, o.items[i], o, now, base);
      WrittenKeepsInv(prior, d, ObserveItem(prior, d, o.items[i], o, now), Previous(prior, o.items[i], d.claimed, o), i, o, base);
    }
  }

  lemma NewItemIsNew(prior: Table, d: Draft, i: nat, o: Observation, base: nat)
    requires Observes(o) && ItemsInv(prior, d, i, o, base) && i < |o.items|
    ensures KeyOf(o.items[i]) !in d.table
    ensures forall k :: k in d.table ==> d.table[k].path != o.items[i].path
  {
    forall k | k in d.table
      ensures k != KeyOf(o.items[i]) && d.table[k].path != o.items[i].path
    {
      assert FromSome(d, k, i, o);
      var j :| 0 <= j < i && FromItem(d, k, o.items[j]);
    }
  }

  lemma WrittenKeepsSound(prior: Table, d: Draft, d': Draft, prev: Option<Identity>, item: Item, e: Entry, base: nat)
    requires AllFit(prior) && Distinct(prior) && IdsBelow(prior, base) && Sound(prior, d, base) && !Skipped(item)
    requires Writes(prior, d, d', item, prev, e) && KeyOf(item) !in d.table
    requires forall k :: k in d.table ==> d.table[k].path != item.path
    ensures Sound(prior, d', base)
    ensures d'.origin.Values == d.origin.Values + if prev.Some? then {prev.value} else {}
  {
    var key := KeyOf(item);
    assert Fits(key, e);
    PlaceKeepsSound(prior, d, base, key, e, prev, d'.nextId);
    SoundFrame(prior, Place(d, key, e, prev).(nextId := d'.nextId), d', base);
    PlacedInjection(d, key, e, prev);
  }

  lemma WrittenKeepsInv(prior: Table, d: Draft, d': Draft, prev: Option<Identity>, i: nat, o: Observation, base: nat)
    requires AllFit(prior) && Distinct(prior) && IdsBelow(prior, base) && Observes(o)
    requires ItemsInv(prior, d, i, o, base) && i < |o.items| && !Skipped(o.items[i])
    requires prev == Previous(prior, o.items[i], d.claimed, o)
    requires KeyOf(o.items[i]) in d'.table && Writes(prior, d, d', o.items[i], prev, d'.table[KeyOf(o.items[i])])
    ensures ItemsInv(prior, d', i + 1, o, base)
  {
    NewItemIsNew(prior, d, i, o, base);
    WrittenKeepsSound(prior, d, d', prev, o.items[i], d'.table[KeyOf(o.items[i])], base);
    ClaimStep(prior, d, d', o.items[i], prev, i, o);
    ItemEntriesShift(d, d', i, o);
  }

  lemma SoundFrame(prior: Table, d: Draft, d': Draft, base: nat)
    requires Sound(prior, d, base) && d'.table == d.table && d'.origin == d.origin && d'.nextId == d.nextId
    ensures Sound(prior, d', base)
  {
    forall k | k in d'.table
      ensures Derived(prior, d', k, base)
    {
      assert Derived(prior, d, k, base);
    }
  }

  /** Induction over the items observed so far. */
  lemma {:induction false} ByCounting(holds: nat -> bool, m: nat, i: nat)
    requires m <= i && holds(m) && forall n: nat :: m <= n < i && holds(n) ==> holds(n + 1)
    ensures holds(i)
    decreases i - m
  {
    if m < i {
      ByCounting(holds, m + 1, i);
    }
  }

  lemma BlankInv(l: Ledger, o: Observation)
    requires WellFormed(l)
    ensures ItemsInv(l.table, Blank(l), 0, o, l.nextId)
  {
    assert Blank(l).origin.Values == {};
  }

  lemma NextItemKeepsInv(l: Ledger, i: nat, o: Observation, now: int)
    requires WellFormed(l) && Observes(o) && i < |o.items|
    requires ItemsInv(l.table, ObserveItems(l.table, Blank(l), i, o, now), i, o, l.nextId)
    ensures ItemsInv(l.table, ObserveItems(l.table, Blank(l), i + 1, o, now), i + 1, o, l.nextId)
  {
    ItemKeepsInv(l.table, ObserveItems(l.table, Blank(l), i, o, now), i, o, now, l.nextId);
  }

  lemma ItemsKeepInv(l: Ledger, i: nat, o: Observation, now: int)
    requires WellFormed(l) && Observes(o) && i <= |o.items|
    ensures ItemsInv(l.table, ObserveItems(l.table, Blank(l), i, o, now), i, o, l.nextId)
  {
    BlankInv(l, o);
    forall n: nat | n < i && ItemsInv(l.table, ObserveItems(l.table, Blank(l), n, o, now), n, o, l.nextId)
      ensures ItemsInv(l.table, ObserveItems(l.table, Blank(l), n + 1, o, now), n + 1, o, l.nextId)
    {
      NextItemKeepsInv(l, n, o, now);
    }
    ByCounting((n: nat) => n <= i && ItemsInv(l.table, ObserveItems(l.table, Blank(l), n, o, now), n, o, l.nextId), 0, i);
  }

  // ---- the retention phase ----

  /** An unclaimed note the observation lets the ledger keep. */
  predicate Kept(e: Entry, o: Observation) {
    e.path in o.guarded || e.path in o.unreadable || e.path !in o.present
  }

  /** The state in which an unobserved entry comes to rest. */
  predicate Rests(e: Entry, o: Observation) {
    if e.path in o.guarded then true
    else if e.path in o.unreadable then e.availability == ChangedOnDisk
    else e.path !in o.present && e.availability == Missing
  }

  ghost predicate FromRetained(prior: Table, items: Draft, d: Draft, k: Identity, done: seq<Identity>, o: Observation)
    requires k in d.table
  {
    && k in d.origin && d.origin[k] in done && d.origin[k] in prior
    && !Claimed(prior, items, d.origin[k])
    && d.table[k].path == prior[d.origin[k]].path && Rests(d.table[k], o)
  }

  ghost predicate OriginsRetained(prior: Table, items: Draft, d: Draft, done: seq<Identity>, o: Observation) {
    forall q :: q in prior ==> (q in d.origin.Values <==> Claimed(prior, items, q) || (q in done && Kept(prior[q], o)))
  }

  ghost predicate RetainInv(prior: Table, items: Draft, d: Draft, done: seq<Identity>, o: Observation, base: nat) {
    && Sound(prior, d, base)
    && d.claimed == items.claimed
    && OriginsRetained(prior, items, d, done, o)
    && (forall k :: k in items.table ==> k in d.table && d.table[k] == items.table[k])
    && (forall k :: k in d.table && k !in items.table ==> FromRetained(prior, items, d, k, done, o))
  }

  /** No entry of the draft sits on the path of a note still to be retained. */
  lemma RetainedPathIsFree(prior: Table, items: Draft, d: Draft, done: seq<Identity>, q: Identity, o: Observation, base: nat)
    requires Distinct(prior) && ItemsInv(prior, items, |o.items|, o, base) && RetainInv(prior, items, d, done, o, base)
    requires q in prior && q !in done && !Claimed(prior, items, q)
    ensures forall k :: k in d.table ==> d.table[k].path != prior[q].path
    ensures AtPath(prior[q].path) !in d.table
    ensures forall k :: k in d.origin ==> d.origin[k] != q
  {
    forall k | k in d.table
      ensures d.table[k].path != prior[q].path
    {
      if k in items.table {
        assert FromSome(items, k, |o.items|, o);
        var j :| 0 <= j < |o.items| && FromItem(items, k, o.items[j]);
        assert o.items[j].path in PathsBefore(o, |o.items|);
      } else {
        assert FromRetained(prior, items, d, k, done, o);
        assert Apart(prior[d.origin[k]], prior[q]);
      }
    }
    assert AtPath(prior[q].path) in d.table ==> Fits(AtPath(prior[q].path), d.table[AtPath(prior[q].path)]);
    assert forall k :: k in d.origin ==> d.origin[k] in d.origin.Values;
  }

  /** The key and entry under which `q` is retained. */
  function RetainedKey(d: Draft, q: Identity, e: Entry): Identity {
    if q in d.table && d.table[q].path != e.path then AtPath(e.path) else q
  }

  /** What retaining `q` writes. */
  ghost predicate Retains(prior: Table, d: Draft, d': Draft, q: Identity, key: Identity, e: Entry, o: Observation)
    requires q in prior
  {
    && key == RetainedKey(d, q, prior[q])
    && e.path == prior[q].path && e.noteId == prior[q].noteId && e.acceptanceId == prior[q].acceptanceId
    && (Fits(q, prior[q]) ==> Fits(key, e))
    && Rests(e, o)
    && d'.table == d.table[key := e] && d'.origin == d.origin[key := q] && d'.claimed == d.claimed
    && d.nextId <= d'.nextId
  }

  lemma UnderWrites(d: Draft, q: Identity, key: Identity, e: Entry, o: Observation)
    requires Kept(e, o)
    ensures var d' := RetainUnder(d, q, key, e, o);
            && key in d'.table
            && d'.table[key] == e.(availability := d'.table[key].availability) && Rests(d'.table[key], o)
            && d'.table == d.table[key := d'.table[key]] && d'.origin == d.origin[key := q] && d'.claimed == d.claimed
            && d.nextId <= d'.nextId
  {
  }

  lemma RetainWrites(prior: Table, d: Draft, q: Identity, o: Observation)
    requires q in prior && prior[q].acceptanceId !in d.claimed && Kept(prior[q], o)
    ensures var d' := RetainOne(prior, d, q, o);
            var key := RetainedKey(d, q, prior[q]);
            key in d'.table && Retains(prior, d, d', q, key, d'.table[key], o)
  {
    var e, key := prior[q], RetainedKey(d, q, prior[q]);
    UnderWrites(d, q, key, if key == q then e else e.(identity := key), o);
  }

  lemma RetainedKeepsSound(prior: Table, d: Draft, d': Draft, q: Identity, key: Identity, e: Entry, o: Observation, base: nat)
    requires AllFit(prior) && Distinct(prior) && IdsBelow(prior, base) && Sound(prior, d, base)
    requires q in prior && Retains(prior, d, d', q, key, e, o)
    requires forall k :: k in d.table ==> d.table[k].path != prior[q].path
    requires AtPath(prior[q].path) !in d.table
    requires forall k :: k in d.origin ==> d.origin[k] != q
    ensures key !in d.table && Sound(prior, d', base)
    ensures d'.origin.Values == d.origin.Values + {q}
  {
    assert Fits(q, prior[q]);
    PlaceKeepsSound(prior, d, base, key, e, Some(q), d'.nextId);
    SoundFrame(prior, Place(d, key, e, Some(q)).(nextId := d'.nextId), d', base);
    PlacedInjection(d, key, e, Some(q));
  }

  /** A claimed note, or one the observation contradicts, adds nothing. */
  lemma PassingKeepsInv(prior: Table, items: Draft, d: Draft, done: seq<Identity>, q: Identity, o: Observation, base: nat)
    requires RetainInv(prior, items, d, done, o, base)
    requires q in prior && (Claimed(prior, items, q) || !Kept(prior[q], o))
    ensures RetainOne(prior, d, q, o) == d && RetainInv(prior, items, d, done + [q], o, base)
  {
    RetainedShift(prior, items, d, d, done, q, o);
  }

  lemma RetainingKeepsInv(prior: Table, items: Draft, d: Draft, d': Draft, done: seq<Identity>, q: Identity, key: Identity, o: Observation, base: nat)
    requires RetainInv(prior, items, d, done, o, base)
    requires q in prior && !Claimed(prior, items, q) && Kept(prior[q], o)
    requires key in d'.table && Retains(prior, d, d', q, key, d'.table[key], o)
    requires key !in d.table && Sound(prior, d', base) && d'.origin.Values == d.origin.Values + {q}
    ensures RetainInv(prior, items, d', done + [q], o, base)
  {
    RetainedGrows(prior, d, d', q, key, o, base);
    RetainedShift(prior, items, d, d', done, q, o);
    RetainedOrigins(prior, items, d, d', done, q, o);
  }

  lemma RetainedGrows(prior: Table, d: Draft, d': Draft, q: Identity, key: Identity, o: Observation, base: nat)
    requires Sound(prior, d, base) && q in prior && key !in d.table
    requires key in d'.table && Retains(prior, d, d', q, key, d'.table[key], o)
    ensures forall k :: k in d.table ==> k in d'.table && d'.table[k] == d.table[k]
    ensures forall k :: k in d.origin ==> k in d'.origin && d'.origin[k] == d.origin[k]
    ensures forall k :: k in d'.table && k !in d.table ==>
              k in d'.origin && d'.origin[k] == q && d'.table[k].path == prior[q].path && Rests(d'.table[k], o)
  {
    assert key !in d.origin;
  }

  lemma RetainedOrigins(prior: Table, items: Draft, d: Draft, d': Draft, done: seq<Identity>, q: Identity, o: Observation)
    requires OriginsRetained(prior, items, d, done, o)
    requires q in prior && Kept(prior[q], o) && d'.origin.Values == d.origin.Values + {q}
    ensures OriginsRetained(prior, items, d', done + [q], o)
  {
  }

  lemma RetainKeepsInv(prior: Table, items: Draft, d: Draft, done: seq<Identity>, q: Identity, o: Observation, base: nat)
    requires AllFit(prior) && Distinct(prior) && IdsBelow(prior, base)
    requires ItemsInv(prior, items, |o.items|, o, base) && RetainInv(prior, items, d, done, o, base)
    requires q in prior && q !in done
    ensures RetainInv(prior, items, RetainOne(prior, d, q, o), done + [q], o, base)
  {
    if Claimed(prior, items, q) || !Kept(prior[q], o) {
      PassingKeepsInv(prior, items, d, done, q, o, base);
    } else {
      var d' := RetainOne(prior, d, q, o);
      var key := RetainedKey(d, q, prior[q]);
      RetainedPathIsFree(prior, items, d, done, q, o, base);
      RetainWrites(prior, d, q, o);
      RetainedKeepsSound(prior, d, d', q, key, d'.table[key], o, base);
      RetainingKeepsInv(prior, items, d, d', done, q, key, o, base);
    }
  }

  lemma RetainedShift(prior: Table, items: Draft, d: Draft, d': Draft, done: seq<Identity>, q: Identity, o: Observation)
    requires q in prior
    requires forall k :: k in d.table && k !in items.table ==> FromRetained(prior, items, d, k, done, o)
    requires forall k :: k in d.table ==> k in d'.table && d'.table[k] == d.table[k]
    requires forall k :: k in d.origin ==> k in d'.origin && d'.origin[k] == d.origin[k]
    requires forall k :: k in d'.table && k !in d.table ==>
               k in d'.origin && d'.origin[k] == q && !Claimed(prior, items, q) && d'.table[k].path == prior[q].path && Rests(d'.table[k], o)
    ensures forall k :: k in d'.table && k !in items.table ==> FromRetained(prior, items, d', k, done + [q], o)
  {
    forall k | k in d'.table && k !in items.table
      ensures FromRetained(prior, items, d', k, done + [q], o)
    {
      if k in d.table {
        assert FromRetained(prior, items, d, k, done, o);
      }
    }
  }

  lemma NextRetainKeepsInv(prior: Table, items: Draft, order: seq<Identity>, n: nat, o: Observation, base: nat)
    requires AllFit(prior) && Distinct(prior) && IdsBelow(prior, base) && ItemsInv(prior, items, |o.items|, o, base)
    requires (forall k :: k in order ==> k in prior) && n < |order| && order[n] !in order[..n]
    requires RetainInv(prior, items, Retain(prior, items, order[..n], o), order[..n], o, base)
    ensures RetainInv(prior, items, Retain(prior, items, order[..n + 1], o), order[..n + 1], o, base)
  {
    assert order[..n + 1][..n] == order[..n] && order[..n + 1] == order[..n] + [order[n]];
    RetainKeepsInv(prior, items, Retain(prior, items, order[..n], o), order[..n], order[n], o, base);
  }

  lemma RetainsKeepInv(prior: Table, items: Draft, order: seq<Identity>, o: Observation, base: nat)
    requires AllFit(prior) && Distinct(prior) && IdsBelow(prior, base)
    requires ItemsInv(prior, items, |o.items|, o, base)
    requires forall k :: k in order ==> k in prior
    requires forall i, j :: 0 <= i < j < |order| ==> order[i] != order[j]
    ensures RetainInv(prior, items, Retain(prior, items, order, o), order, o, base)
  {
    assert order[..0] == [] && order[..|order|] == order;
    forall n: nat | n < |order| && RetainInv(prior, items, Retain(prior, items, order[..n], o), order[..n], o, base)
      ensures RetainInv(prior, items, Retain(prior, items, order[..n + 1], o), order[..n + 1], o, base)
    {
      NextRetainKeepsInv(prior, items, order, n, o, base);
    }
    ByCounting((n: nat) => n <= |order| && RetainInv(prior, items, Retain(prior, items, order[..n], o), order[..n], o, base), 0, |order|);
  }

  // ---- what one external sync guarantees ----

  /** The two phases of one sync, with their invariants. */
  lemma SyncPhases(l: Ledger, o: Observation, order: seq<Identity>, now: int)
    requires WellFormed(l) && Observes(o) && Enumerates(order, l.table)
    ensures var items := ObserveItems(l.table, Blank(l), |o.items|, o, now);
            && ItemsInv(l.table, items, |o.items|, o, l.nextId)
            && RetainInv(l.table, items, Retain(l.table, items, order, o), order, o, l.nextId)
  {
    ItemsKeepInv(l, |o.items|, o, now);
    RetainsKeepInv(l.table, ObserveItems(l.table, Blank(l), |o.items|, o, now), order, o, l.nextId);
  }

  /** A sync keeps the ledger well formed. */
  lemma SyncKeepsWellFormed(l: Ledger, o: Observation, order: seq<Identity>, now: int)
    requires WellFormed(l) && Observes(o) && Enumerates(order, l.table)
    ensures WellFormed(Sync(l, o, order, now))
  {
    SyncPhases(l, o, order, now);
    var d := Retain(l.table, ObserveItems(l.table, Blank(l), |o.items|, o, now), order, o);
    forall k | k in d.table
      ensures d.table[k].noteId < d.nextId && d.table[k].acceptanceId < d.nextId
    {
      assert Derived(l.table, d, k, l.nextId);
    }
  }

  /** The observation speaks for every path it calls present. */
  ghost predicate Accounted(path: Path, o: Observation) {
    path in o.present ==> path in PathsBefore(o, |o.items|) || path in o.guarded || path in o.unreadable
  }

  ghost predicate HasNote(t: Table, noteId: nat) {
    exists k :: k in t && t[k].noteId == noteId
  }

  /** No note is lost: a sync keeps the id of an earlier note, on exactly one entry, exactly when the
      observation accounts for the note's path. */
  lemma SyncKeepsNoteExactly(l: Ledger, o: Observation, order: seq<Identity>, now: int, q: Identity)
    requires WellFormed(l) && Observes(o) && Enumerates(order, l.table) && q in l.table
    ensures HasNote(Sync(l, o, order, now).table, l.table[q].noteId) <==> Accounted(l.table[q].path, o)
    ensures var t := Sync(l, o, order, now).table;
            forall j, k :: j in t && k in t && t[j].noteId == l.table[q].noteId && t[k].noteId == l.table[q].noteId ==> j == k
  {
    SyncPhases(l, o, order, now);
    SyncKeepsWellFormed(l, o, order, now);
    var items := ObserveItems(l.table, Blank(l), |o.items|, o, now);
    var d := Retain(l.table, items, order, o);
    assert d.table == Sync(l, o, order, now).table;
    forall j, k | j in d.table && k in d.table && d.table[j].noteId == l.table[q].noteId && d.table[k].noteId == l.table[q].noteId
      ensures j == k
    {
      assert j != k ==> Apart(d.table[j], d.table[k]);
    }
    assert q in d.origin.Values <==> Accounted(l.table[q].path, o);
    NoteFollowsOrigin(l.table, d, l.nextId, q);
  }

  lemma NoteFollowsOrigin(prior: Table, d: Draft, base: nat, q: Identity)
    requires Distinct(prior) && IdsBelow(prior, base) && Sound(prior, d, base) && q in prior
    ensures HasNote(d.table, prior[q].noteId) <==> q in d.origin.Values
  {
    if q in d.origin.Values {
      var k :| k in d.origin && d.origin[k] == q;
      assert k in d.table && Derived(prior, d, k, base);
    }
    if HasNote(d.table, prior[q].noteId) {
      var k :| k in d.table && d.table[k].noteId == prior[q].noteId;
      assert Derived(prior, d, k, base);
      assert k in d.origin;
      assert d.origin[k] == q || Apart(prior[d.origin[k]], prior[q]);
    }
  }

  // ---- idempotence ----

  /** A ledger on which the observation has nothing left to do. */
  ghost predicate Settled(l: Ledger, o: Observation) {
    && (forall j :: 0 <= j < |o.items| && !Skipped(o.items[j]) ==>
          KeyOf(o.items[j]) in l.table && Lands(l.table[KeyOf(o.items[j])], o.items[j]))
    && (forall k :: k in l.table ==> k in ItemKeys(o, |o.items|) || Rests(l.table[k], o))
    && (forall j :: 0 <= j < |o.items| ==> o.items[j].path !in l.intents)
  }

  ghost function ItemKeys(o: Observation, i: nat): set<Identity>
    requires i <= |o.items|
  {
    set j | 0 <= j < i && !Skipped(o.items[j]) :: KeyOf(o.items[j])
  }

  lemma NextIntentConsumed(l: Ledger, i: nat, o: Observation, now: int)
    requires i < |o.items|
    requires ObserveItems(l.table, Blank(l), i, o, now).intents == l.intents - PathsBefore(o, i)
    ensures ObserveItems(l.table, Blank(l), i + 1, o, now).intents == l.intents - PathsBefore(o, i + 1)
  {
    IntentsLeft(l, i, o);
  }

  lemma IntentsConsumed(l: Ledger, i: nat, o: Observation, now: int)
    requires i <= |o.items|
    ensures ObserveItems(l.table, Blank(l), i, o, now).intents == l.intents - PathsBefore(o, i)
  {
    assert l.intents - PathsBefore(o, 0) == l.intents;
    forall n: nat | n < i && ObserveItems(l.table, Blank(l), n, o, now).intents == l.intents - PathsBefore(o, n)
      ensures ObserveItems(l.table, Blank(l), n + 1, o, now).intents == l.intents - PathsBefore(o, n + 1)
    {
      NextIntentConsumed(l, n, o, now);
    }
    ByCounting((n: nat) => n <= i && ObserveItems(l.table, Blank(l), n, o, now).intents == l.intents - PathsBefore(o, n), 0, i);
  }

  lemma IntentsLeft(l: Ledger, i: nat, o: Observation)
    requires i < |o.items|
    ensures l.intents - PathsBefore(o, i + 1) == (l.intents - PathsBefore(o, i)) - {o.items[i].path}
  {
    assert PathsBefore(o, i + 1) == PathsBefore(o, i) + {o.items[i].path};
  }

  lemma {:induction false} RetainKeepsIntents(prior: Table, d: Draft, order: seq<Identity>, o: Observation)
    requires forall k :: k in order ==> k in prior
    ensures Retain(prior, d, order, o).intents == d.intents
  {
    if order != [] {
      RetainKeepsIntents(prior, d, order[..|order| - 1], o);
    }
  }

  // ---- what becomes of an observed item ----

  /** Who a new version of an observed item is attributed to: the author of an intent for exactly this
      content, or nobody in particular. */
  function AuthorOf(intents: map<Path, Intent>, item: Item): string {
    if item.path in intents && intents[item.path].hash == item.hash then intents[item.path].actor else "platform-observer"
  }

  /** An entry written by this sync, and not only kept, has its author. */
  predicate Attributed(e: Entry, author: string, base: nat) {
    base <= e.acceptanceId ==> e.acceptedBy == author
  }

  /** The earlier notes that the items before item i continue, by acceptance id. */
  ghost function ClaimedBefore(l: Ledger, o: Observation, i: nat, now: int): set<nat>
    requires i <= |o.items|
  {
    ObserveItems(l.table, Blank(l), i, o, now).claimed
  }

  /** The history gains `e`; nothing in it is lost. */
  ghost predicate Gains(l: Ledger, t: Ledger, e: Event) {
    l.outbox <= t.outbox && e in t.outbox[|l.outbox|..]
  }

  /** History event for an entry, written when the entry was: its author, and the operation that announced it. */
  function EventFor(l: Ledger, e: Entry, kind: Kind, previous: Option<(Path, string)>): Event {
    var announced := e.path in l.intents && l.intents[e.path].hash == e.hash;
    Event(e.acceptanceId, e.noteId, e.path, previous, e.hash, if announced then l.intents[e.path].actor else "platform-observer", kind,
          if announced then l.intents[e.path].operationId else e.acceptanceId)
  }

  lemma ContinueGrows(prior: Table, d: Draft, item: Item, prev: Option<Identity>, edit: Option<Intent>, now: int)
    requires prev.Some? ==> prev.value in prior
    ensures var d' := Continue(prior, d, item, prev, edit, now);
            d.outbox <= d'.outbox && KeyOf(item) in d'.table && d'.table == d.table[KeyOf(item) := d'.table[KeyOf(item)]]
  {
  }

  lemma ItemStepGrows(prior: Table, d: Draft, item: Item, o: Observation, now: int)
    ensures var d' := ObserveItem(prior, d, item, o, now);
            && d.outbox <= d'.outbox
            && (Skipped(item) ==> d'.table == d.table && d'.outbox == d.outbox)
            && forall k :: k in d.table && k != KeyOf(item) ==> k in d'.table && d'.table[k] == d.table[k]
  {
    if !Skipped(item) {
      ContinueGrows(prior, d.(intents := d.intents - {item.path}), item, Previous(prior, item, d.claimed, o),
                    if item.path in d.intents && d.intents[item.path].hash == item.hash then Some(d.intents[item.path]) else None, now);
    }
  }

  lemma NextItemGrows(l: Ledger, o: Observation, n: nat, now: int)
    requires n < |o.items|
    ensures var d, d' := ObserveItems(l.table, Blank(l), n, o, now), ObserveItems(l.table, Blank(l), n + 1, o, now);
            && d.outbox <= d'.outbox
            && forall k :: k in d.table && k != KeyOf(o.items[n]) ==> k in d'.table && d'.table[k] == d.table[k]
  {
    ItemStepGrows(l.table, ObserveItems(l.table, Blank(l), n, o, now), o.items[n], o, now);
  }

  ghost predicate Keeps(d: Draft, d': Draft, k: Identity) {
    d.outbox <= d'.outbox && (k in d.table ==> k in d'.table && d'.table[k] == d.table[k])
  }

  lemma NextItemKeeps(l: Ledger, o: Observation, n: nat, now: int, d: Draft, k: Identity)
    requires n < |o.items| && k != KeyOf(o.items[n]) && Keeps(d, ObserveItems(l.table, Blank(l), n, o, now), k)
    ensures Keeps(d, ObserveItems(l.table, Blank(l), n + 1, o, now), k)
  {
    NextItemGrows(l, o, n, now);
  }

  /** What an item wrote stays while the later items are observed. */
  lemma ItemsGrow(l: Ledger, o: Observation, m: nat, now: int, d: Draft, k: Identity)
    requires m <= |o.items| && (forall n :: m <= n < |o.items| ==> KeyOf(o.items[n]) != k)
    requires Keeps(d, ObserveItems(l.table, Blank(l), m, o, now), k)
    ensures Keeps(d, ObserveItems(l.table, Blank(l), |o.items|, o, now), k)
  {
    forall n: nat | m <= n < |o.items| && Keeps(d, ObserveItems(l.table, Blank(l), n, o, now), k)
      ensures Keeps(d, ObserveItems(l.table, Blank(l), n + 1, o, now), k)
    {
      NextItemKeeps(l, o, n, now, d, k);
    }
    ByCounting((n: nat) => n <= |o.items| && Keeps(d, ObserveItems(l.table, Blank(l), n, o, now), k), m, |o.items|);
  }

  lemma HistoryGrows(l: Ledger, o: Observation, i: nat, now: int)
    requires i <= |o.items|
    ensures l.outbox <= ObserveItems(l.table, Blank(l), i, o, now).outbox
  {
    forall n: nat | n < i && l.outbox <= ObserveItems(l.table, Blank(l), n, o, now).outbox
      ensures l.outbox <= ObserveItems(l.table, Blank(l), n + 1, o, now).outbox
    {
      NextItemGrows(l, o, n, now);
    }
    ByCounting((n: nat) => n <= i && l.outbox <= ObserveItems(l.table, Blank(l), n, o, now).outbox, 0, i);
  }

  lemma {:induction false} RetainGrows(prior: Table, d: Draft, order: seq<Identity>, o: Observation)
    requires forall k :: k in order ==> k in prior
    ensures d.outbox <= Retain(prior, d, order, o).outbox
  {
    if order != [] {
      RetainGrows(prior, d, order[..|order| - 1], o);
    }
  }

  /** What a sync keeps of the step in which it observed item i. */
  lemma ItemOutcome(l: Ledger, o: Observation, order: seq<Identity>, i: nat, now: int)
    requires WellFormed(l) && Observes(o) && Enumerates(order, l.table) && i < |o.items| && !Skipped(o.items[i])
    ensures var d, t := ObserveItems(l.table, Blank(l), i + 1, o, now), Sync(l, o, order, now);
            && KeyOf(o.items[i]) in d.table && KeyOf(o.items[i]) in t.table
            && t.table[KeyOf(o.items[i])] == d.table[KeyOf(o.items[i])]
            && d.outbox <= t.outbox
  {
    ItemIsWritten(l, o, i, now);
    ItemsGrow(l, o, i + 1, now, ObserveItems(l.table, Blank(l), i + 1, o, now), KeyOf(o.items[i]));
    RetentionGrows(l, o, order, now);
    KeptToTheEnd(ObserveItems(l.table, Blank(l), i + 1, o, now), ObserveItems(l.table, Blank(l), |o.items|, o, now),
                 Sync(l, o, order, now), KeyOf(o.items[i]));
  }

  lemma KeptToTheEnd(d: Draft, e: Draft, t: Ledger, k: Identity)
    requires Keeps(d, e, k) && k in d.table && e.outbox <= t.outbox && forall j :: j in e.table ==> j in t.table && t.table[j] == e.table[j]
    ensures k in t.table && t.table[k] == d.table[k] && d.outbox <= t.outbox
  {
  }

  lemma ItemIsWritten(l: Ledger, o: Observation, i: nat, now: int)
    requires WellFormed(l) && Observes(o) && i < |o.items| && !Skipped(o.items[i])
    ensures KeyOf(o.items[i]) in ObserveItems(l.table, Blank(l), i + 1, o, now).table
  {
    ItemsKeepInv(l, i + 1, o, now);
  }

  lemma RetentionGrows(l: Ledger, o: Observation, order: seq<Identity>, now: int)
    requires WellFormed(l) && Observes(o) && Enumerates(order, l.table)
    ensures var d, t := ObserveItems(l.table, Blank(l), |o.items|, o, now), Sync(l, o, order, now);
            d.outbox <= t.outbox && forall k :: k in d.table ==> k in t.table && t.table[k] == d.table[k]
  {
    SyncPhases(l, o, order, now);
    RetainGrows(l.table, ObserveItems(l.table, Blank(l), |o.items|, o, now), order, o);
  }

  /** The entry an item leaves: the earlier note's own, when nothing about it changed; or a new version, with a
      fresh acceptance id, that says what was observed. */
  ghost predicate EntryContinues(l: Ledger, t: Ledger, item: Item, k: Identity, now: int)
    requires k in l.table && KeyOf(item) in t.table
  {
    var was, e := l.table[k], t.table[KeyOf(item)];
    && e.noteId == was.noteId
    && if was.availability.Current? && was.hash == item.hash && was.path == item.path && was.identity == KeyOf(item)
       then e == was.(disk := item.disk)
       else
         && IsNewVersion(l, e, item, now)
         && (IsControl(item.path) ||
             Gains(l, t, EventFor(l, e, if was.path == item.path then Updating else Renaming, Some((was.path, was.hash)))))
  }

  ghost predicate IsNewVersion(l: Ledger, e: Entry, item: Item, now: int) {
    && l.nextId <= e.acceptanceId && e.identity == KeyOf(item) && e.path == item.path && e.hash == item.hash && e.title == item.title
    && e.availability.Current? && e.disk == item.disk && e.acceptedAt == now
    && e.sources == (if item.sources.Some? then item.sources.value else [])
    && e.acceptedBy == AuthorOf(l.intents, item)
  }

  lemma NewEventIsGained(l: Ledger, d: Draft, d': Draft, t: Ledger, e: Event)
    requires l.outbox <= d.outbox && d'.outbox == d.outbox + [e] && d'.outbox <= t.outbox
    ensures Gains(l, t, e)
  {
    assert t.outbox[|l.outbox|..][|d.outbox| - |l.outbox|] == t.outbox[|d.outbox|] == e;
  }

  /** The step that observes item i: the note it continues, the edit that announced it. */
  lemma ItemStep(l: Ledger, o: Observation, i: nat, now: int)
    requires WellFormed(l) && Observes(o) && i < |o.items| && !Skipped(o.items[i])
    ensures var item, d := o.items[i], ObserveItems(l.table, Blank(l), i, o, now);
            var announced := item.path in l.intents && l.intents[item.path].hash == item.hash;
            ObserveItems(l.table, Blank(l), i + 1, o, now)
            == Continue(l.table, d.(intents := d.intents - {item.path}), item, Previous(l.table, item, ClaimedBefore(l, o, i, now), o),
                        if announced then Some(l.intents[item.path]) else None, now)
  {
    IntentsConsumed(l, i, o, now);
    assert o.items[i].path !in PathsBefore(o, i);
  }

  /** What continuing a note, or writing a new one, leaves in a draft. */
  lemma ContinueLeaves(l: Ledger, d: Draft, item: Item, prev: Option<Identity>, now: int)
    requires WellFormed(l) && l.nextId <= d.nextId && (prev.Some? ==> prev.value in l.table)
    ensures var announced := item.path in l.intents && l.intents[item.path].hash == item.hash;
            var d' := Continue(l.table, d, item, prev, if announced then Some(l.intents[item.path]) else None, now);
            && KeyOf(item) in d'.table
            && var e := d'.table[KeyOf(item)];
               && (prev.Some? ==> e.noteId == l.table[prev.value].noteId) && (prev.None? ==> l.nextId <= e.noteId)
               && if prev.Some? && Unchanged(l.table[prev.value], item) then e == l.table[prev.value].(disk := item.disk)
                  else
                    && IsNewVersion(l, e, item, now)
                    && (IsControl(item.path) || d'.outbox == d.outbox + [EventFor(l, e, KindOf(l, item, prev), OldVersion(l, prev))])
  {
  }

  function KindOf(l: Ledger, item: Item, prev: Option<Identity>): Kind
    requires prev.Some? ==> prev.value in l.table
  {
    if prev.None? then Creation else if l.table[prev.value].path == item.path then Updating else Renaming
  }

  function OldVersion(l: Ledger, prev: Option<Identity>): Option<(Path, string)>
    requires prev.Some? ==> prev.value in l.table
  {
    if prev.None? then None else Some((l.table[prev.value].path, l.table[prev.value].hash))
  }

  lemma EventIsGained(l: Ledger, o: Observation, order: seq<Identity>, i: nat, now: int, e: Event)
    requires WellFormed(l) && Observes(o) && Enumerates(order, l.table) && i < |o.items| && !Skipped(o.items[i])
    requires ObserveItems(l.table, Blank(l), i + 1, o, now).outbox == ObserveItems(l.table, Blank(l), i, o, now).outbox + [e]
    ensures Gains(l, Sync(l, o, order, now), e)
  {
    ItemOutcome(l, o, order, i, now);
    HistoryGrows(l, o, i, now);
    NewEventIsGained(l, ObserveItems(l.table, Blank(l), i, o, now), ObserveItems(l.table, Blank(l), i + 1, o, now), Sync(l, o, order, now), e);
  }

  lemma FreshIdsAreLater(l: Ledger, o: Observation, i: nat, now: int)
    requires WellFormed(l) && Observes(o) && i <= |o.items|
    ensures l.nextId <= ObserveItems(l.table, Blank(l), i, o, now).nextId
  {
    ItemsKeepInv(l, i, o, now);
  }

  lemma ItemLeaves(l: Ledger, o: Observation, order: seq<Identity>, i: nat, now: int, prev: Option<Identity>)
    requires WellFormed(l) && Observes(o) && Enumerates(order, l.table) && i < |o.items| && !Skipped(o.items[i])
    requires prev == Previous(l.table, o.items[i], ClaimedBefore(l, o, i, now), o)
    ensures var item, t := o.items[i], Sync(l, o, order, now);
            && KeyOf(item) in t.table
            && var e := t.table[KeyOf(item)];
               && (prev.Some? ==> e.noteId == l.table[prev.value].noteId) && (prev.None? ==> l.nextId <= e.noteId)
               && if prev.Some? && Unchanged(l.table[prev.value], item) then e == l.table[prev.value].(disk := item.disk)
                  else
                    && IsNewVersion(l, e, item, now)
                    && (IsControl(item.path) || Gains(l, t, EventFor(l, e, KindOf(l, item, prev), OldVersion(l, prev))))
  {
    var item := o.items[i];
    var d := ObserveItems(l.table, Blank(l), i, o, now);
    ItemStep(l, o, i, now);
    ItemOutcome(l, o, order, i, now);
    FreshIdsAreLater(l, o, i, now);
    ContinueLeaves(l, d.(intents := d.intents - {item.path}), item, prev, now);
    if !(prev.Some? && Unchanged(l.table[prev.value], item)) && !IsControl(item.path) {
      var e := ObserveItems(l.table, Blank(l), i + 1, o, now).table[KeyOf(item)];
      EventIsGained(l, o, order, i, now, EventFor(l, e, KindOf(l, item, prev), OldVersion(l, prev)));
    }
  }

  // ---- attribution of edits ----

  /** What preparing a manual edit is for: the next sync that observes the file attributes its new version to
      the author if the content is the announced one, and to nobody otherwise; the intent is used up. */
  lemma EditIsAttributed(l: Ledger, path: Path, hash: string, actor: string, o: Observation, order: seq<Identity>, i: nat, now: int)
    requires WellFormed(l) && Observes(o) && Enumerates(order, l.table)
    requires i < |o.items| && o.items[i].path == path && !Skipped(o.items[i])
    ensures var prepared := Prepare(l, path, hash, actor);
            var t, key := Sync(prepared, o, order, now), KeyOf(o.items[i]);
            && key in t.table && t.table[key].path == path && t.table[key].hash == o.items[i].hash
            && Attributed(t.table[key], if o.items[i].hash == hash then actor else "platform-observer", prepared.nextId)
            && path !in t.intents
  {
    var p := Prepare(l, path, hash, actor);
    var items := ObserveItems(p.table, Blank(p), |o.items|, o, now);
    ItemLeaves(p, o, order, i, now, Previous(p.table, o.items[i], ClaimedBefore(p, o, i, now), o));
    IntentsConsumed(p, |o.items|, o, now);
    RetainKeepsIntents(p.table, items, order, o);
    assert path in PathsBefore(o, |o.items|);
  }

  // ---- matching ----

  /** An earlier note that no item continues yet, on the item's own path. */
  ghost predicate OnOwnPath(l: Ledger, item: Item, claimed: set<nat>, k: Identity) {
    k in l.table && l.table[k].acceptanceId !in claimed && l.table[k].path == item.path
  }

  /** An earlier note that no item continues yet and whose own path is gone without a word about it. */
  ghost predicate Gone(l: Ledger, o: Observation, claimed: set<nat>, k: Identity) {
    && k in l.table && l.table[k].acceptanceId !in claimed && !IsControl(l.table[k].path)
    && l.table[k].path !in o.present + o.guarded + o.unreadable
  }

  /** The note bears the item's declared id or its disk mark. */
  predicate Bears(e: Entry, item: Item) {
    (item.declared.Some? && e.identity == Declared(item.declared.value)) || (item.disk.Some? && e.disk == item.disk)
  }

  /** The one gone note that bears the item's id or mark. */
  ghost predicate OnlyMarked(l: Ledger, o: Observation, item: Item, claimed: set<nat>, k: Identity) {
    && Gone(l, o, claimed, k) && Bears(l.table[k], item)
    && forall j :: Gone(l, o, claimed, j) && Bears(l.table[j], item) ==> j == k
  }

  /** The one gone note with the item's content, and no other item has that content. */
  ghost predicate OnlyAlike(l: Ledger, o: Observation, i: nat, claimed: set<nat>, k: Identity)
    requires i < |o.items|
  {
    && Gone(l, o, claimed, k) && l.table[k].hash == o.items[i].hash
    && (forall j :: Gone(l, o, claimed, j) && l.table[j].hash == o.items[i].hash ==> j == k)
    && forall n :: 0 <= n < |o.items| && o.items[n].hash == o.items[i].hash ==> n == i
  }

  lemma OneMember<T>(s: set<T>, x: T)
    requires x in s && forall y :: y in s ==> y == x
    ensures s == {x} && |s| == 1
  {
    assert s == {x};
  }

  lemma MarkedAreFound(l: Ledger, o: Observation, item: Item, claimed: set<nat>, k: Identity)
    ensures k in ByMark(l.table, item, claimed, o) <==> Gone(l, o, claimed, k) && Bears(l.table[k], item)
    ensures k in ByHash(l.table, item, claimed, o) <==> Gone(l, o, claimed, k) && l.table[k].hash == item.hash
    ensures k in ByPath(l.table, item, claimed) <==> OnOwnPath(l, item, claimed, k)
  {
  }

  lemma NobodyOnPath(l: Ledger, item: Item, claimed: set<nat>)
    requires forall j :: !OnOwnPath(l, item, claimed, j)
    ensures ByPath(l.table, item, claimed) == {}
  {
    forall j ensures j !in ByPath(l.table, item, claimed) { MarkedAreFound(l, Observation([], {}, {}, {}), item, claimed, j); }
  }

  /** A note on the item's own path is continued. */
  lemma SamePathContinues(l: Ledger, o: Observation, order: seq<Identity>, i: nat, now: int, k: Identity)
    requires WellFormed(l) && Observes(o) && Enumerates(order, l.table) && i < |o.items| && !Skipped(o.items[i])
    requires OnOwnPath(l, o.items[i], ClaimedBefore(l, o, i, now), k)
    ensures var t := Sync(l, o, order, now);
            KeyOf(o.items[i]) in t.table && EntryContinues(l, t, o.items[i], k, now)
  {
    var claimed := ClaimedBefore(l, o, i, now);
    var r := Previous(l.table, o.items[i], claimed, o);
    assert k in ByPath(l.table, o.items[i], claimed);
    assert r.value == k || Apart(l.table[r.value], l.table[k]);
    ItemLeaves(l, o, order, i, now, Some(k));
  }

  /** A moved note, edited or not, is continued by its id or disk mark, if one gone note alone bears it: the
      entry has its note id, and the history gains its renaming from the old path and content. */
  lemma MarkedNoteMoves(l: Ledger, o: Observation, order: seq<Identity>, i: nat, now: int, k: Identity)
    requires WellFormed(l) && Observes(o) && Enumerates(order, l.table) && i < |o.items| && !IsControl(o.items[i].path)
    requires forall j :: !OnOwnPath(l, o.items[i], ClaimedBefore(l, o, i, now), j)
    requires OnlyMarked(l, o, o.items[i], ClaimedBefore(l, o, i, now), k)
    ensures var t := Sync(l, o, order, now);
            && KeyOf(o.items[i]) in t.table
            && var e := t.table[KeyOf(o.items[i])];
               && e.noteId == l.table[k].noteId && IsNewVersion(l, e, o.items[i], now)
               && Gains(l, t, EventFor(l, e, Renaming, Some((l.table[k].path, l.table[k].hash))))
  {
    var item, claimed := o.items[i], ClaimedBefore(l, o, i, now);
    NobodyOnPath(l, item, claimed);
    MarkedIsPrevious(l, o, item, claimed, k);
    assert l.table[k].path == item.path ==> OnOwnPath(l, item, claimed, k);
    ItemLeaves(l, o, order, i, now, Some(k));
  }

  lemma MarkedIsPrevious(l: Ledger, o: Observation, item: Item, claimed: set<nat>, k: Identity)
    requires ByPath(l.table, item, claimed) == {} && !IsControl(item.path) && OnlyMarked(l, o, item, claimed, k)
    ensures Previous(l.table, item, claimed, o) == Some(k)
  {
    var byMark := ByMark(l.table, item, claimed, o);
    forall j | j in byMark ensures j == k { MarkedAreFound(l, o, item, claimed, j); }
    MarkedAreFound(l, o, item, claimed, k);
    OneMember(byMark, k);
  }

  /** A moved note without a usable mark is continued by its content, if it is unique on both sides. */
  lemma AlikeNoteMoves(l: Ledger, o: Observation, order: seq<Identity>, i: nat, now: int, k: Identity)
    requires WellFormed(l) && Observes(o) && Enumerates(order, l.table) && i < |o.items| && !IsControl(o.items[i].path)
    requires forall j :: !OnOwnPath(l, o.items[i], ClaimedBefore(l, o, i, now), j)
    requires forall j :: !OnlyMarked(l, o, o.items[i], ClaimedBefore(l, o, i, now), j)
    requires OnlyAlike(l, o, i, ClaimedBefore(l, o, i, now), k)
    ensures var t := Sync(l, o, order, now);
            && KeyOf(o.items[i]) in t.table
            && var e := t.table[KeyOf(o.items[i])];
               && e.noteId == l.table[k].noteId && IsNewVersion(l, e, o.items[i], now)
               && Gains(l, t, EventFor(l, e, Renaming, Some((l.table[k].path, l.table[k].hash))))
  {
    var item, claimed := o.items[i], ClaimedBefore(l, o, i, now);
    NobodyOnPath(l, item, claimed);
    NotOneMarked(l, o, item, claimed);
    AlikeIsPrevious(l, o, i, claimed, k);
    assert l.table[k].path == item.path ==> OnOwnPath(l, item, claimed, k);
    ItemLeaves(l, o, order, i, now, Some(k));
  }

  lemma NotOneMarked(l: Ledger, o: Observation, item: Item, claimed: set<nat>)
    requires forall j :: !OnlyMarked(l, o, item, claimed, j)
    ensures |ByMark(l.table, item, claimed, o)| != 1
  {
    var byMark := ByMark(l.table, item, claimed, o);
    if |byMark| == 1 {
      assert byMark != {};
      var k :| k in byMark;
      forall j | Gone(l, o, claimed, j) && Bears(l.table[j], item)
        ensures j == k
      {
        MarkedAreFound(l, o, item, claimed, j);
        OnlyMember(byMark, j, k);
      }
      MarkedAreFound(l, o, item, claimed, k);
      assert OnlyMarked(l, o, item, claimed, k);
    }
  }

  lemma AlikeIsPrevious(l: Ledger, o: Observation, i: nat, claimed: set<nat>, k: Identity)
    requires i < |o.items| && ByPath(l.table, o.items[i], claimed) == {} && !IsControl(o.items[i].path)
    requires |ByMark(l.table, o.items[i], claimed, o)| != 1 && OnlyAlike(l, o, i, claimed, k)
    ensures Previous(l.table, o.items[i], claimed, o) == Some(k)
  {
    var item := o.items[i];
    var byHash := ByHash(l.table, item, claimed, o);
    forall j | j in byHash ensures j == k { MarkedAreFound(l, o, item, claimed, j); }
    MarkedAreFound(l, o, item, claimed, k);
    OneMember(byHash, k);
    OneMember(SameHashItems(o, item.hash), i);
  }

  /** Everything else is a new note: an item for which no rule applies has a fresh note id, and the history
      gains its creation. */
  lemma UnmatchedIsCreated(l: Ledger, o: Observation, order: seq<Identity>, i: nat, now: int)
    requires WellFormed(l) && Observes(o) && Enumerates(order, l.table) && i < |o.items| && !Skipped(o.items[i])
    requires forall j :: !OnOwnPath(l, o.items[i], ClaimedBefore(l, o, i, now), j)
    requires IsControl(o.items[i].path) ||
               forall j :: !OnlyMarked(l, o, o.items[i], ClaimedBefore(l, o, i, now), j) && !OnlyAlike(l, o, i, ClaimedBefore(l, o, i, now), j)
    ensures var t := Sync(l, o, order, now);
            && KeyOf(o.items[i]) in t.table
            && var e := t.table[KeyOf(o.items[i])];
               && l.nextId <= e.noteId && IsNewVersion(l, e, o.items[i], now)
               && (IsControl(o.items[i].path) || Gains(l, t, EventFor(l, e, Creation, None)))
  {
    var item, claimed := o.items[i], ClaimedBefore(l, o, i, now);
    NobodyOnPath(l, item, claimed);
    if !IsControl(item.path) {
      NotOneMarked(l, o, item, claimed);
      NotOneAlike(l, o, i, claimed);
    }
    ItemLeaves(l, o, order, i, now, None);
  }

  lemma NotOneAlike(l: Ledger, o: Observation, i: nat, claimed: set<nat>)
    requires i < |o.items| && forall j :: !OnlyAlike(l, o, i, claimed, j)
    ensures !(|ByHash(l.table, o.items[i], claimed, o)| == 1 && |SameHashItems(o, o.items[i].hash)| == 1)
  {
    var item := o.items[i];
    var byHash, alike := ByHash(l.table, item, claimed, o), SameHashItems(o, item.hash);
    if |byHash| == 1 && |alike| == 1 {
      assert byHash != {};
      var k :| k in byHash;
      forall j | Gone(l, o, claimed, j) && l.table[j].hash == item.hash
        ensures j == k
      {
        MarkedAreFound(l, o, item, claimed, j);
        OnlyMember(byHash, j, k);
      }
      forall n | 0 <= n < |o.items| && o.items[n].hash == item.hash
        ensures n == i
      {
        assert n in alike && i in alike;
        OnlyMember(alike, n, i);
      }
      MarkedAreFound(l, o, item, claimed, k);
      assert OnlyAlike(l, o, i, claimed, k);
    }
  }

  /** The item and the note have the path, the id, the disk mark or the content in common. */
  predicate Related(e: Entry, item: Item) {
    e.path == item.path || Bears(e, item) || e.hash == item.hash
  }

  lemma PreviousIsRelated(l: Ledger, o: Observation, item: Item, claimed: set<nat>)
    ensures var r := Previous(l.table, item, claimed, o);
            r.Some? ==> r.value in l.table && Related(l.table[r.value], item)
  {
  }

  lemma StepClaims(l: Ledger, o: Observation, i: nat, now: int, q: Identity)
    requires WellFormed(l) && Observes(o) && i < |o.items| && q in l.table
    ensures l.table[q].acceptanceId in ClaimedBefore(l, o, i + 1, now) ==>
              l.table[q].acceptanceId in ClaimedBefore(l, o, i, now) || Related(l.table[q], o.items[i])
  {
    if !Skipped(o.items[i]) {
      var claimed := ClaimedBefore(l, o, i, now);
      ItemStep(l, o, i, now);
      PreviousIsRelated(l, o, o.items[i], claimed);
      var prev := Previous(l.table, o.items[i], claimed, o);
      assert prev.Some? && prev.value != q ==> Apart(l.table[prev.value], l.table[q]);
    }
  }

  /** Only items that have something in common with a note can take it. */
  lemma UnrelatedDoNotClaim(l: Ledger, o: Observation, i: nat, now: int, q: Identity)
    requires WellFormed(l) && Observes(o) && i <= |o.items| && q in l.table
    requires forall j :: 0 <= j < i ==> !Related(l.table[q], o.items[j])
    ensures l.table[q].acceptanceId !in ClaimedBefore(l, o, i, now)
  {
    var id := l.table[q].acceptanceId;
    forall n: nat | n < i && id !in ClaimedBefore(l, o, n, now)
      ensures id !in ClaimedBefore(l, o, n + 1, now)
    {
      StepClaims(l, o, n, now, q);
    }
    ByCounting((n: nat) => n <= i && id !in ClaimedBefore(l, o, n, now), 0, i);
  }

  /** Detecting a move, from the inputs alone. A note whose path is gone, and an item on a path that was free,
      belong together when the item bears the note's id or mark and nothing else is about either: no other item
      has anything in common with the note, and no other gone note bears the item's id or mark. The moved note
      keeps its note id, whatever its content is now, and the move is in the history. */
  lemma MoveIsDetected(l: Ledger, o: Observation, order: seq<Identity>, i: nat, now: int, k: Identity)
    requires WellFormed(l) && Observes(o) && Enumerates(order, l.table) && i < |o.items| && !IsControl(o.items[i].path)
    requires forall j :: j in l.table ==> l.table[j].path != o.items[i].path
    requires Gone(l, o, {}, k) && Bears(l.table[k], o.items[i])
    requires forall j :: 0 <= j < |o.items| && j != i ==> !Related(l.table[k], o.items[j])
    requires forall j :: Gone(l, o, {}, j) && Bears(l.table[j], o.items[i]) ==> j == k
    ensures var t := Sync(l, o, order, now);
            && KeyOf(o.items[i]) in t.table
            && var e := t.table[KeyOf(o.items[i])];
               && e.noteId == l.table[k].noteId && IsNewVersion(l, e, o.items[i], now)
               && Gains(l, t, EventFor(l, e, Renaming, Some((l.table[k].path, l.table[k].hash))))
  {
    UnrelatedDoNotClaim(l, o, i, now, k);
    var claimed := ClaimedBefore(l, o, i, now);
    forall j | Gone(l, o, claimed, j) && Bears(l.table[j], o.items[i])
      ensures j == k
    {
      assert Gone(l, o, {}, j);
    }
    assert OnlyMarked(l, o, o.items[i], claimed, k);
    MarkedNoteMoves(l, o, order, i, now, k);
  }

  // ---- what becomes of a note that no item continues ----

  /** The state in which an unobserved note is kept. */
  function Marked(e: Entry, o: Observation): Availability {
    if e.path in o.guarded then e.availability else if e.path in o.unreadable then ChangedOnDisk else Missing
  }

  /** The note is found gone for the first time. */
  predicate Vanishes(e: Entry, o: Observation) {
    e.path !in o.guarded + o.unreadable + o.present && e.availability != Missing && e.availability != Revoked
  }

  /** The entry `e` under `key` is the earlier note `was`, marked as the observation says. */
  predicate IsRetained(was: Entry, key: Identity, e: Entry, o: Observation) {
    e == was.(identity := key, availability := Marked(was, o))
  }

  function DeletionOf(e: Entry, id: nat): Event {
    Event(id, e.noteId, e.path, Some((e.path, e.hash)), e.hash, "platform-observer", Deletion, id)
  }

  /** A change of availability that moves the revision. */
  predicate Noticed(was: Availability, now: Availability) {
    (was.Current? && now.ChangedOnDisk?) || (!was.Missing? && !was.Revoked? && now.Missing?)
  }

  /** Retaining one note: its entry as marked, and its deletion in the history when it vanishes. */
  lemma RetainOneLeaves(prior: Table, d: Draft, q: Identity, o: Observation)
    requires q in prior && Fits(q, prior[q]) && prior[q].acceptanceId !in d.claimed && Kept(prior[q], o)
    ensures var d' := RetainOne(prior, d, q, o);
            var key := RetainedKey(d, q, prior[q]);
            && key in d'.table && IsRetained(prior[q], key, d'.table[key], o)
            && d'.table == d.table[key := d'.table[key]]
            && d'.outbox == (if Vanishes(prior[q], o) && !IsControl(prior[q].path) then d.outbox + [DeletionOf(prior[q], d.nextId)] else d.outbox)
            && d'.changed == (d.changed || Noticed(prior[q].availability, Marked(prior[q], o)))
  {
  }

  /** The note is among the retained ones of a draft. */
  ghost predicate HoldsRetained(l: Ledger, d: Draft, q: Identity, o: Observation)
    requires q in l.table
  {
    && l.outbox <= d.outbox
    && (exists key :: key in d.table && key in {q, AtPath(l.table[q].path)} && IsRetained(l.table[q], key, d.table[key], o))
    && (Vanishes(l.table[q], o) && !IsControl(l.table[q].path) ==> exists id :: l.nextId <= id && DeletionOf(l.table[q], id) in d.outbox[|l.outbox|..])
  }

  lemma RetainedHolds(l: Ledger, items: Draft, d: Draft, done: seq<Identity>, q: Identity, o: Observation)
    requires WellFormed(l) && ItemsInv(l.table, items, |o.items|, o, l.nextId) && RetainInv(l.table, items, d, done, o, l.nextId)
    requires q in l.table && q !in done && !Claimed(l.table, items, q) && Kept(l.table[q], o) && l.outbox <= d.outbox
    ensures HoldsRetained(l, RetainOne(l.table, d, q, o), q, o)
  {
    assert Fits(q, l.table[q]);
    RetainOneLeaves(l.table, d, q, o);
    var d' := RetainOne(l.table, d, q, o);
    if Vanishes(l.table[q], o) && !IsControl(l.table[q].path) {
      assert d'.outbox[|l.outbox|..][|d.outbox| - |l.outbox|] == DeletionOf(l.table[q], d.nextId);
    }
  }

  /** Retaining another note takes nothing away. */
  lemma RetainKeepsHeld(l: Ledger, items: Draft, d: Draft, done: seq<Identity>, q: Identity, r: Identity, o: Observation)
    requires WellFormed(l) && ItemsInv(l.table, items, |o.items|, o, l.nextId) && RetainInv(l.table, items, d, done, o, l.nextId)
    requires q in l.table && r in l.table && r !in done && HoldsRetained(l, d, q, o)
    ensures HoldsRetained(l, RetainOne(l.table, d, r, o), q, o)
  {
    if Claimed(l.table, items, r) || !Kept(l.table[r], o) {
      PassingKeepsInv(l.table, items, d, done, r, o, l.nextId);
    } else {
      assert Fits(r, l.table[r]);
      RetainOneLeaves(l.table, d, r, o);
      RetainedPathIsFree(l.table, items, d, done, r, o, l.nextId);
      HeldStays(l, d, RetainOne(l.table, d, r, o), RetainedKey(d, r, l.table[r]), q, o);
    }
  }

  lemma HeldStays(l: Ledger, d: Draft, d': Draft, key: Identity, q: Identity, o: Observation)
    requires q in l.table && HoldsRetained(l, d, q, o) && d.outbox <= d'.outbox
    requires key !in d.table && key in d'.table && d'.table == d.table[key := d'.table[key]]
    ensures HoldsRetained(l, d', q, o)
  {
    var k :| k in d.table && k in {q, AtPath(l.table[q].path)} && IsRetained(l.table[q], k, d.table[k], o);
    assert k in d'.table && d'.table[k] == d.table[k];
    if Vanishes(l.table[q], o) && !IsControl(l.table[q].path) {
      var id :| l.nextId <= id && DeletionOf(l.table[q], id) in d.outbox[|l.outbox|..];
      assert d.outbox[|l.outbox|..] <= d'.outbox[|l.outbox|..];
    }
  }

  lemma {:induction false} RetainsHold(l: Ledger, items: Draft, order: seq<Identity>, q: Identity, o: Observation)
    requires WellFormed(l) && ItemsInv(l.table, items, |o.items|, o, l.nextId) && l.outbox <= items.outbox
    requires (forall k :: k in order ==> k in l.table) && NoRepeats(order)
    requires q in order && !Claimed(l.table, items, q) && Kept(l.table[q], o)
    ensures HoldsRetained(l, Retain(l.table, items, order, o), q, o)
    decreases |order|
  {
    var n := |order| - 1;
    DropLast(order);
    var d := Retain(l.table, items, order[..n], o);
    RetainsKeepInv(l.table, items, order[..n], o, l.nextId);
    RetainGrows(l.table, items, order[..n], o);
    if q == order[n] {
      RetainedHolds(l, items, d, order[..n], q, o);
    } else {
      RetainsHold(l, items, order[..n], q, o);
      RetainKeepsHeld(l, items, d, order[..n], q, order[n], o);
    }
  }

  /** An earlier note that no item continues, and that the observation does not contradict, keeps everything but
      its availability: it stays as it was where it is guarded, it is marked as changed where it cannot be read,
      and as missing where it is gone. The first time it is gone the history gains its deletion. Its key stays,
      or becomes its path. */
  lemma UnobservedIsMarked(l: Ledger, o: Observation, order: seq<Identity>, now: int, q: Identity)
    requires WellFormed(l) && Observes(o) && Enumerates(order, l.table) && q in l.table
    requires l.table[q].acceptanceId !in ClaimedBefore(l, o, |o.items|, now)
    requires l.table[q].path in o.present ==> l.table[q].path in o.guarded + o.unreadable
    ensures var was, t := l.table[q], Sync(l, o, order, now);
            && (exists key :: key in t.table && key in {q, AtPath(was.path)} && t.table[key] == was.(identity := key, availability := t.table[key].availability) &&
                  t.table[key].availability ==
                    if was.path in o.guarded then was.availability else if was.path in o.unreadable then ChangedOnDisk else Missing)
            && (was.path !in o.guarded + o.unreadable && was.availability != Missing && was.availability != Revoked && !IsControl(was.path) ==>
                  exists id :: l.nextId <= id && Gains(l, t, DeletionOf(was, id)))
  {
    ItemsKeepInv(l, |o.items|, o, now);
    HistoryGrows(l, o, |o.items|, now);
    var items := ObserveItems(l.table, Blank(l), |o.items|, o, now);
    RetainsHold(l, items, order, q, o);
    var t := Sync(l, o, order, now);
    var key :| key in t.table && key in {q, AtPath(l.table[q].path)} && IsRetained(l.table[q], key, t.table[key], o);
    if Vanishes(l.table[q], o) && !IsControl(l.table[q].path) {
      var id :| l.nextId <= id && DeletionOf(l.table[q], id) in t.outbox[|l.outbox|..];
      assert Gains(l, t, DeletionOf(l.table[q], id));
    }
  }

  // ---- when the revision moves ----

  /** The entry is a new version, or an earlier one whose loss was noticed. */
  ghost predicate MovedEntry(l: Ledger, e: Entry) {
    || l.nextId <= e.acceptanceId
    || exists q :: q in l.table && l.table[q].acceptanceId == e.acceptanceId && Noticed(l.table[q].availability, e.availability)
  }

  ghost predicate Moved(l: Ledger, t: Table) {
    exists k :: k in t && MovedEntry(l, t[k])
  }

  ghost predicate KnowsMoved(l: Ledger, d: Draft) {
    d.changed <==> Moved(l, d.table)
  }

  lemma MovedGrows(l: Ledger, t: Table, key: Identity, e: Entry)
    requires key !in t
    ensures Moved(l, t[key := e]) <==> Moved(l, t) || MovedEntry(l, e)
  {
    var t' := t[key := e];
    if Moved(l, t) {
      var k :| k in t && MovedEntry(l, t[k]);
      assert k in t' && t'[k] == t[k];
    }
    assert key in t' && t'[key] == e;
  }

  /** An entry that carries an earlier acceptance id is moved exactly when its loss was noticed. */
  lemma MovedKept(l: Ledger, q: Identity, e: Entry)
    requires WellFormed(l) && q in l.table && e.acceptanceId == l.table[q].acceptanceId
    ensures MovedEntry(l, e) <==> Noticed(l.table[q].availability, e.availability)
  {
    forall r | r in l.table && l.table[r].acceptanceId == e.acceptanceId
      ensures r == q
    {
      assert r != q ==> Apart(l.table[r], l.table[q]);
    }
  }

  lemma ContinueMoves(l: Ledger, d: Draft, item: Item, prev: Option<Identity>, edit: Option<Intent>, now: int)
    requires WellFormed(l) && l.nextId <= d.nextId && (prev.Some? ==> prev.value in l.table) && KeyOf(item) !in d.table
    requires KnowsMoved(l, d)
    ensures KnowsMoved(l, Continue(l.table, d, item, prev, edit, now))
  {
    var d' := Continue(l.table, d, item, prev, edit, now);
    MovedGrows(l, d.table, KeyOf(item), d'.table[KeyOf(item)]);
    if prev.Some? && Unchanged(l.table[prev.value], item) {
      MovedKept(l, prev.value, d'.table[KeyOf(item)]);
    }
  }

  lemma NextItemMoves(l: Ledger, o: Observation, i: nat, now: int)
    requires WellFormed(l) && Observes(o) && i < |o.items|
    requires KnowsMoved(l, ObserveItems(l.table, Blank(l), i, o, now))
    ensures KnowsMoved(l, ObserveItems(l.table, Blank(l), i + 1, o, now))
  {
    var item, d := o.items[i], ObserveItems(l.table, Blank(l), i, o, now);
    if !Skipped(item) {
      ItemStep(l, o, i, now);
      ItemsKeepInv(l, i, o, now);
      NewItemIsNew(l.table, d, i, o, l.nextId);
      ContinueMoves(l, d.(intents := d.intents - {item.path}), item, Previous(l.table, item, ClaimedBefore(l, o, i, now), o),
                    if item.path in l.intents && l.intents[item.path].hash == item.hash then Some(l.intents[item.path]) else None, now);
    }
  }

  lemma ItemsMove(l: Ledger, o: Observation, i: nat, now: int)
    requires WellFormed(l) && Observes(o) && i <= |o.items|
    ensures KnowsMoved(l, ObserveItems(l.table, Blank(l), i, o, now))
  {
    assert KnowsMoved(l, Blank(l));
    forall n: nat | n < i && KnowsMoved(l, ObserveItems(l.table, Blank(l), n, o, now))
      ensures KnowsMoved(l, ObserveItems(l.table, Blank(l), n + 1, o, now))
    {
      NextItemMoves(l, o, n, now);
    }
    ByCounting((n: nat) => n <= i && KnowsMoved(l, ObserveItems(l.table, Blank(l), n, o, now)), 0, i);
  }

  lemma RetainMoves(l: Ledger, items: Draft, d: Draft, done: seq<Identity>, q: Identity, o: Observation)
    requires WellFormed(l) && ItemsInv(l.table, items, |o.items|, o, l.nextId) && RetainInv(l.table, items, d, done, o, l.nextId)
    requires q in l.table && q !in done && KnowsMoved(l, d)
    ensures KnowsMoved(l, RetainOne(l.table, d, q, o))
  {
    if Claimed(l.table, items, q) || !Kept(l.table[q], o) {
      PassingKeepsInv(l.table, items, d, done, q, o, l.nextId);
    } else {
      assert Fits(q, l.table[q]);
      RetainOneLeaves(l.table, d, q, o);
      RetainedPathIsFree(l.table, items, d, done, q, o, l.nextId);
      var d' := RetainOne(l.table, d, q, o);
      var key := RetainedKey(d, q, l.table[q]);
      MovedGrows(l, d.table, key, d'.table[key]);
      MovedKept(l, q, d'.table[key]);
    }
  }

  lemma {:induction false} RetainsMove(l: Ledger, items: Draft, order: seq<Identity>, o: Observation)
    requires WellFormed(l) && ItemsInv(l.table, items, |o.items|, o, l.nextId)
    requires (forall k :: k in order ==> k in l.table) && NoRepeats(order)
    requires KnowsMoved(l, items)
    ensures KnowsMoved(l, Retain(l.table, items, order, o))
    decreases |order|
  {
    if order != [] {
      var n := |order| - 1;
      DropLast(order);
      RetainsMove(l, items, order[..n], o);
      RetainsKeepInv(l.table, items, order[..n], o, l.nextId);
      RetainMoves(l, items, Retain(l.table, items, order[..n], o), order[..n], order[n], o);
    }
  }

  /** A sync moves the revision, by one, exactly when the ledger then holds a new version, or a note whose loss
      was noticed: one that was current and cannot be read, or one that is gone for the first time. */
  lemma RevisionMovesExactly(l: Ledger, o: Observation, order: seq<Identity>, now: int)
    requires WellFormed(l) && Observes(o) && Enumerates(order, l.table)
    ensures var t := Sync(l, o, order, now);
            t.revision == if Moved(l, t.table) then l.revision + 1 else l.revision
  {
    ItemsKeepInv(l, |o.items|, o, now);
    ItemsMove(l, o, |o.items|, now);
    RetainsMove(l, ObserveItems(l.table, Blank(l), |o.items|, o, now), order, o);
  }

  // ---- what the history does not say ----

  /** The event is about an entry of the table, the version it names; or about a note that vanished. */
  ghost predicate Speaks(l: Ledger, t: Table, o: Observation, e: Event) {
    if e.kind.Deletion? then exists q :: q in l.table && !IsControl(l.table[q].path) && Vanishes(l.table[q], o) && e == DeletionOf(l.table[q], e.id)
    else exists k :: k in t && t[k].acceptanceId == e.id && t[k].noteId == e.noteId && t[k].path == e.path && t[k].hash == e.hash && !IsControl(e.path)
  }

  /** Every event gained so far speaks of something, with an id of its own. */
  ghost predicate HistorySound(l: Ledger, d: Draft, o: Observation) {
    && l.outbox <= d.outbox && l.nextId <= d.nextId
    && (forall n :: |l.outbox| <= n < |d.outbox| ==> l.nextId <= d.outbox[n].id < d.nextId && Speaks(l, d.table, o, d.outbox[n]))
    && (forall m, n :: |l.outbox| <= m < n < |d.outbox| ==> d.outbox[m].id < d.outbox[n].id)
  }

  lemma SpeaksOn(l: Ledger, t: Table, key: Identity, x: Entry, o: Observation, e: Event)
    requires key !in t && Speaks(l, t, o, e)
    ensures Speaks(l, t[key := x], o, e)
  {
    if !e.kind.Deletion? {
      var k :| k in t && t[k].acceptanceId == e.id && t[k].noteId == e.noteId && t[k].path == e.path && t[k].hash == e.hash;
      assert k in t[key := x] && t[key := x][k] == t[k];
    }
  }

  lemma SoundGrows(l: Ledger, d: Draft, d': Draft, key: Identity, o: Observation)
    requires HistorySound(l, d, o) && d.nextId <= d'.nextId && key !in d.table && key in d'.table && d'.table == d.table[key := d'.table[key]]
    requires d'.outbox == d.outbox || (|d'.outbox| == |d.outbox| + 1 && d'.outbox[..|d.outbox|] == d.outbox &&
               d.nextId <= d'.outbox[|d.outbox|].id < d'.nextId && Speaks(l, d'.table, o, d'.outbox[|d.outbox|]))
    ensures HistorySound(l, d', o)
  {
    forall n | |l.outbox| <= n < |d'.outbox|
      ensures l.nextId <= d'.outbox[n].id < d'.nextId && Speaks(l, d'.table, o, d'.outbox[n])
    {
      if n < |d.outbox| {
        assert d'.outbox[n] == d.outbox[n];
        SpeaksOn(l, d.table, key, d'.table[key], o, d.outbox[n]);
      }
    }
    IdsGrow(l, d, d');
  }

  lemma IdsGrow(l: Ledger, d: Draft, d': Draft)
    requires |l.outbox| <= |d.outbox| && forall n :: |l.outbox| <= n < |d.outbox| ==> d.outbox[n].id < d.nextId
    requires forall m, n :: |l.outbox| <= m < n < |d.outbox| ==> d.outbox[m].id < d.outbox[n].id
    requires d'.outbox == d.outbox || (|d'.outbox| == |d.outbox| + 1 && d'.outbox[..|d.outbox|] == d.outbox && d.nextId <= d'.outbox[|d.outbox|].id)
    ensures forall m, n :: |l.outbox| <= m < n < |d'.outbox| ==> d'.outbox[m].id < d'.outbox[n].id
  {
    assert forall n :: 0 <= n < |d.outbox| ==> d'.outbox[n] == d.outbox[n];
  }

  lemma ContinueIsSound(l: Ledger, d: Draft, item: Item, prev: Option<Identity>, edit: Option<Intent>, now: int, o: Observation)
    requires HistorySound(l, d, o) && (prev.Some? ==> prev.value in l.table) && KeyOf(item) !in d.table
    ensures HistorySound(l, Continue(l.table, d, item, prev, edit, now), o)
  {
    var d' := Continue(l.table, d, item, prev, edit, now);
    if d'.outbox != d.outbox {
      var e := d'.outbox[|d.outbox|];
      assert KeyOf(item) in d'.table && d'.table[KeyOf(item)].acceptanceId == e.id;
      assert Speaks(l, d'.table, o, e);
    }
    SoundGrows(l, d, d', KeyOf(item), o);
  }

  lemma NextItemIsSound(l: Ledger, o: Observation, i: nat, now: int)
    requires WellFormed(l) && Observes(o) && i < |o.items| && HistorySound(l, ObserveItems(l.table, Blank(l), i, o, now), o)
    ensures HistorySound(l, ObserveItems(l.table, Blank(l), i + 1, o, now), o)
  {
    var item, d := o.items[i], ObserveItems(l.table, Blank(l), i, o, now);
    if !Skipped(item) {
      ItemStep(l, o, i, now);
      ItemsKeepInv(l, i, o, now);
      NewItemIsNew(l.table, d, i, o, l.nextId);
      ContinueIsSound(l, d.(intents := d.intents - {item.path}), item, Previous(l.table, item, ClaimedBefore(l, o, i, now), o),
                      if item.path in l.intents && l.intents[item.path].hash == item.hash then Some(l.intents[item.path]) else None, now, o);
    }
  }

  lemma ItemsAreSound(l: Ledger, o: Observation, i: nat, now: int)
    requires WellFormed(l) && Observes(o) && i <= |o.items|
    ensures HistorySound(l, ObserveItems(l.table, Blank(l), i, o, now), o)
  {
    assert HistorySound(l, Blank(l), o);
    forall n: nat | n < i && HistorySound(l, ObserveItems(l.table, Blank(l), n, o, now), o)
      ensures HistorySound(l, ObserveItems(l.table, Blank(l), n + 1, o, now), o)
    {
      NextItemIsSound(l, o, n, now);
    }
    ByCounting((n: nat) => n <= i && HistorySound(l, ObserveItems(l.table, Blank(l), n, o, now), o), 0, i);
  }

  lemma RetainIsSound(l: Ledger, items: Draft, d: Draft, done: seq<Identity>, q: Identity, o: Observation)
    requires WellFormed(l) && ItemsInv(l.table, items, |o.items|, o, l.nextId) && RetainInv(l.table, items, d, done, o, l.nextId)
    requires q in l.table && q !in done && HistorySound(l, d, o)
    ensures HistorySound(l, RetainOne(l.table, d, q, o), o)
  {
    if Claimed(l.table, items, q) || !Kept(l.table[q], o) {
      PassingKeepsInv(l.table, items, d, done, q, o, l.nextId);
    } else {
      assert Fits(q, l.table[q]);
      RetainOneLeaves(l.table, d, q, o);
      RetainedPathIsFree(l.table, items, d, done, q, o, l.nextId);
      RetainOneDraws(l.table, d, q, o);
      SoundGrows(l, d, RetainOne(l.table, d, q, o), RetainedKey(d, q, l.table[q]), o);
    }
  }

  lemma RetainOneDraws(prior: Table, d: Draft, q: Identity, o: Observation)
    requires q in prior
    ensures var d' := RetainOne(prior, d, q, o);
            d.nextId <= d'.nextId && (d'.outbox != d.outbox ==> d.nextId < d'.nextId)
  {
  }

  lemma {:induction false} RetainsAreSound(l: Ledger, items: Draft, order: seq<Identity>, o: Observation)
    requires WellFormed(l) && ItemsInv(l.table, items, |o.items|, o, l.nextId) && HistorySound(l, items, o)
    requires (forall k :: k in order ==> k in l.table) && NoRepeats(order)
    ensures HistorySound(l, Retain(l.table, items, order, o), o)
    decreases |order|
  {
    if order != [] {
      var n := |order| - 1;
      DropLast(order);
      RetainsAreSound(l, items, order[..n], o);
      RetainsKeepInv(l.table, items, order[..n], o, l.nextId);
      RetainIsSound(l, items, Retain(l.table, items, order[..n], o), order[..n], order[n], o);
    }
  }

  /** A sync writes no history that did not happen: each event it adds has an id of its own and speaks of a
      version that the ledger then holds, or of a note that vanished. What was in the history stays in front. */
  lemma HistoryIsSound(l: Ledger, o: Observation, order: seq<Identity>, now: int)
    requires WellFormed(l) && Observes(o) && Enumerates(order, l.table)
    ensures var t := Sync(l, o, order, now);
            && l.outbox <= t.outbox
            && (forall n :: |l.outbox| <= n < |t.outbox| ==> l.nextId <= t.outbox[n].id < t.nextId && Speaks(l, t.table, o, t.outbox[n]))
            && (forall m, n :: |l.outbox| <= m < n < |t.outbox| ==> t.outbox[m].id < t.outbox[n].id)
  {
    ItemsKeepInv(l, |o.items|, o, now);
    ItemsAreSound(l, o, |o.items|, now);
    RetainsAreSound(l, ObserveItems(l.table, Blank(l), |o.items|, o, now), order, o);
  }

  // ---- a sync leaves nothing to do ----

  lemma SyncSettles(l: Ledger, o: Observation, order: seq<Identity>, now: int)
    requires WellFormed(l) && Observes(o) && Enumerates(order, l.table)
    ensures Settled(Sync(l, o, order, now), o)
  {
    SyncPhases(l, o, order, now);
    var items := ObserveItems(l.table, Blank(l), |o.items|, o, now);
    var d := Retain(l.table, items, order, o);
    forall j | 0 <= j < |o.items| && !Skipped(o.items[j])
      ensures KeyOf(o.items[j]) in d.table && Lands(d.table[KeyOf(o.items[j])], o.items[j])
    {
      var k := KeyOf(o.items[j]);
      assert FromSome(items, k, |o.items|, o);
      var i :| 0 <= i < |o.items| && FromItem(items, k, o.items[i]);
      assert i == j;
    }
    forall k | k in d.table
      ensures k in ItemKeys(o, |o.items|) || Rests(d.table[k], o)
    {
      if k in items.table {
        assert FromSome(items, k, |o.items|, o);
        var i :| 0 <= i < |o.items| && FromItem(items, k, o.items[i]);
        assert KeyOf(o.items[i]) in ItemKeys(o, |o.items|);
      } else {
        assert FromRetained(l.table, items, d, k, order, o);
      }
    }
    IntentsConsumed(l, |o.items|, o, now);
    RetainKeepsIntents(l.table, items, order, o);
    forall j | 0 <= j < |o.items|
      ensures o.items[j].path !in d.intents
    {
      assert o.items[j].path in PathsBefore(o, |o.items|);
    }
  }

  function Part(t: Table, keys: set<Identity>): Table {
    map k | k in t && k in keys :: t[k]
  }

  /** Part of a settled table, rebuilt without any change. */
  ghost predicate Rebuilt(l: Ledger, d: Draft, keys: set<Identity>) {
    && keys <= l.table.Keys
    && d.table == Part(l.table, keys)
    && d.intents == l.intents && d.outbox == l.outbox && !d.changed && d.nextId == l.nextId
  }

  lemma RebuiltExtends(l: Ledger, keys: set<Identity>, k: Identity)
    requires k in l.table && keys <= l.table.Keys
    ensures Part(l.table, keys)[k := l.table[k]] == Part(l.table, keys + {k})
  {
  }

  ghost function IdsOf(l: Ledger, keys: set<Identity>): set<nat> {
    set k | k in keys && k in l.table :: l.table[k].acceptanceId
  }

  lemma IdsOfGrow(l: Ledger, keys: set<Identity>, k: Identity)
    requires k in l.table && Distinct(l.table)
    ensures IdsOf(l, keys + {k}) == IdsOf(l, keys) + {l.table[k].acceptanceId}
    ensures k !in keys ==> l.table[k].acceptanceId !in IdsOf(l, keys)
  {
    forall x | x in keys && x in l.table && x != k
      ensures l.table[x].acceptanceId != l.table[k].acceptanceId
    {
      assert Apart(l.table[x], l.table[k]);
    }
  }

  /** A settled item is recognised by its path, as the entry it already is. */
  lemma SettledByPath(l: Ledger, item: Item, keys: set<Identity>)
    requires WellFormed(l) && KeyOf(item) in l.table && Lands(l.table[KeyOf(item)], item) && KeyOf(item) !in keys
    ensures ByPath(l.table, item, IdsOf(l, keys)) == {KeyOf(item)}
  {
    var key := KeyOf(item);
    IdsOfGrow(l, keys, key);
    forall k | k in ByPath(l.table, item, IdsOf(l, keys))
      ensures k == key
    {
      assert k != key ==> Apart(l.table[k], l.table[key]);
    }
  }

  lemma SettledItem(l: Ledger, d: Draft, item: Item, keys: set<Identity>, o: Observation, now: int)
    requires WellFormed(l) && KeyOf(item) in l.table && Lands(l.table[KeyOf(item)], item) && KeyOf(item) !in keys
    requires !Skipped(item) && item.path !in l.intents
    requires Rebuilt(l, d, keys) && d.claimed == IdsOf(l, keys)
    ensures var d' := ObserveItem(l.table, d, item, o, now);
            Rebuilt(l, d', keys + {KeyOf(item)}) && d'.claimed == IdsOf(l, keys + {KeyOf(item)})
  {
    var key := KeyOf(item);
    SettledByPath(l, item, keys);
    assert Previous(l.table, item, d.claimed, o) == Some(key);
    assert l.table[key].(disk := item.disk) == l.table[key];
    assert d.intents - {item.path} == d.intents;
    RebuiltExtends(l, keys, key);
    IdsOfGrow(l, keys, key);
  }

  lemma SettledSkip(l: Ledger, d: Draft, item: Item, keys: set<Identity>, o: Observation, now: int)
    requires Skipped(item) && item.path !in l.intents && Rebuilt(l, d, keys)
    ensures ObserveItem(l.table, d, item, o, now) == d
  {
    assert d.intents - {item.path} == d.intents;
  }

  lemma PartNone(t: Table)
    ensures Part(t, {}) == map[]
  {
  }

  lemma SettledBlank(l: Ledger, o: Observation)
    ensures Rebuilt(l, Blank(l), ItemKeys(o, 0)) && Blank(l).claimed == IdsOf(l, ItemKeys(o, 0))
  {
    assert ItemKeys(o, 0) == {};
    PartNone(l.table);
  }

  /** One item of a settled ledger lands on its own entry. */
  lemma SettledStep(l: Ledger, d: Draft, i: nat, o: Observation, now: int)
    requires WellFormed(l) && Observes(o) && Settled(l, o) && i < |o.items|
    requires Rebuilt(l, d, ItemKeys(o, i)) && d.claimed == IdsOf(l, ItemKeys(o, i))
    ensures var d' := ObserveItem(l.table, d, o.items[i], o, now);
            Rebuilt(l, d', ItemKeys(o, i + 1)) && d'.claimed == IdsOf(l, ItemKeys(o, i + 1))
  {
    var item := o.items[i];
    ItemKeysGrow(o, i);
    if Skipped(item) {
      SettledSkip(l, d, item, ItemKeys(o, i), o, now);
    } else {
      SettledItem(l, d, item, ItemKeys(o, i), o, now);
    }
  }

  ghost predicate Resumed(l: Ledger, d: Draft, i: nat, o: Observation)
    requires i <= |o.items|
  {
    Rebuilt(l, d, ItemKeys(o, i)) && d.claimed == IdsOf(l, ItemKeys(o, i))
  }

  lemma SettledNext(l: Ledger, i: nat, o: Observation, now: int)
    requires WellFormed(l) && Observes(o) && Settled(l, o) && i < |o.items|
    requires Resumed(l, ObserveItems(l.table, Blank(l), i, o, now), i, o)
    ensures Resumed(l, ObserveItems(l.table, Blank(l), i + 1, o, now), i + 1, o)
  {
    SettledStep(l, ObserveItems(l.table, Blank(l), i, o, now), i, o, now);
  }

  lemma SettledItems(l: Ledger, i: nat, o: Observation, now: int)
    requires WellFormed(l) && Observes(o) && Settled(l, o) && i <= |o.items|
    ensures Resumed(l, ObserveItems(l.table, Blank(l), i, o, now), i, o)
  {
    SettledBlank(l, o);
    forall n: nat | n < i && Resumed(l, ObserveItems(l.table, Blank(l), n, o, now), n, o)
      ensures Resumed(l, ObserveItems(l.table, Blank(l), n + 1, o, now), n + 1, o)
    {
      SettledNext(l, n, o, now);
    }
    ByCounting((n: nat) => n <= i && Resumed(l, ObserveItems(l.table, Blank(l), n, o, now), n, o), 0, i);
  }

  lemma ItemKeysGrow(o: Observation, i: nat)
    requires i < |o.items|
    ensures ItemKeys(o, i + 1) == ItemKeys(o, i) + if Skipped(o.items[i]) then {} else {KeyOf(o.items[i])}
  {
  }

  /** Retaining an entry that already rests changes nothing. */
  lemma SettledRetain(l: Ledger, d: Draft, q: Identity, keys: set<Identity>, o: Observation)
    requires q in l.table && q !in keys && Rests(l.table[q], o)
    requires Rebuilt(l, d, keys) && l.table[q].acceptanceId !in d.claimed
    ensures Rebuilt(l, RetainOne(l.table, d, q, o), keys + {q}) && RetainOne(l.table, d, q, o).claimed == d.claimed
  {
    RebuiltExtends(l, keys, q);
    var e := l.table[q];
    assert e.(availability := e.availability) == e;
    assert q !in d.table;
  }

  lemma SettledRetainStep(l: Ledger, d: Draft, keys: set<Identity>, before: set<Identity>, q: Identity, o: Observation)
    requires Distinct(l.table) && q in l.table && keys <= before
    requires Rebuilt(l, d, before) && d.claimed == IdsOf(l, keys)
    requires q in keys || (q !in before && Rests(l.table[q], o))
    ensures Rebuilt(l, RetainOne(l.table, d, q, o), before + {q}) && RetainOne(l.table, d, q, o).claimed == d.claimed
  {
    IdsOfGrow(l, keys, q);
    if q in keys {
      assert before + {q} == before;
      assert l.table[q].acceptanceId in d.claimed;
    } else {
      SettledRetain(l, d, q, before, o);
    }
  }

  ghost function Members(order: seq<Identity>): set<Identity> {
    set k | k in order
  }

  ghost predicate NoRepeats(order: seq<Identity>) {
    forall i, j :: 0 <= i < j < |order| ==> order[i] != order[j]
  }

  lemma DropLast(order: seq<Identity>)
    requires order != [] && NoRepeats(order)
    ensures var n := |order| - 1;
            && NoRepeats(order[..n]) && order[n] !in order[..n]
            && Members(order) == Members(order[..n]) + {order[n]}
            && forall k :: k in order[..n] ==> k in order
  {
    var n := |order| - 1;
    assert order == order[..n] + [order[n]];
  }

  lemma {:induction false} SettledRetains(l: Ledger, items: Draft, order: seq<Identity>, o: Observation)
    requires WellFormed(l) && Settled(l, o)
    requires Rebuilt(l, items, ItemKeys(o, |o.items|)) && items.claimed == IdsOf(l, ItemKeys(o, |o.items|))
    requires (forall k :: k in order ==> k in l.table) && NoRepeats(order)
    ensures var d := Retain(l.table, items, order, o);
            Rebuilt(l, d, ItemKeys(o, |o.items|) + Members(order)) && d.claimed == items.claimed
  {
    var keys := ItemKeys(o, |o.items|);
    if order == [] {
      assert keys + Members(order) == keys;
    } else {
      var n := |order| - 1;
      DropLast(order);
      SettledRetains(l, items, order[..n], o);
      assert keys + Members(order) == keys + Members(order[..n]) + {order[n]};
      SettledRetainStep(l, Retain(l.table, items, order[..n], o), keys, keys + Members(order[..n]), order[n], o);
    }
  }

  /** External sync is idempotent: the same observation, again, changes nothing at all: tables, revision,
      manual-edit intents, history and id supply. */
  lemma SyncIsIdempotent(l: Ledger, o: Observation, order: seq<Identity>, order': seq<Identity>, now: int, now': int)
    requires WellFormed(l) && Observes(o) && Enumerates(order, l.table)
    requires Enumerates(order', Sync(l, o, order, now).table)
    ensures Sync(Sync(l, o, order, now), o, order', now') == Sync(l, o, order, now)
  {
    var l' := Sync(l, o, order, now);
    SyncKeepsWellFormed(l, o, order, now);
    SyncSettles(l, o, order, now);
    SettledItems(l', |o.items|, o, now');
    SettledRetains(l', ObserveItems(l'.table, Blank(l'), |o.items|, o, now'), order', o);
    var keys := ItemKeys(o, |o.items|) + Members(order');
    assert keys == l'.table.Keys;
    assert Part(l'.table, keys) == l'.table;
  }

  // ---- adoption and removal ----

  datatype Error = InvalidInput | StaleRevision

  predicate HexDigits(s: string) {
    s == "" || (('0' <= s[0] <= '9' || 'a' <= s[0] <= 'f') && HexDigits(s[1..]))
  }

  predicate Adoptable(item: Item, published: bool) {
    && item.path != [] && |item.hash| == 64 && HexDigits(item.hash)
    && (IsControl(item.path) ==> published && IsIndexOrLog(item.path))
  }

  function OnPath(t: Table, path: Path): set<Identity> {
    set k | k in t && t[k].path == path
  }

  /** The entry an adopted item replaces: the one under its key, or else the one on its path. */
  ghost function Replaced(t: Table, item: Item): (r: Option<Identity>)
    ensures r.Some? ==> r.value in t && (r.value == KeyOf(item) || (KeyOf(item) !in t && t[r.value].path == item.path))
    ensures r.None? ==> KeyOf(item) !in t && OnPath(t, item.path) == {}
  {
    if KeyOf(item) in t then Some(KeyOf(item))
    else if OnPath(t, item.path) == {} then None
    else
      var k :| k in OnPath(t, item.path);
      Some(k)
  }

  function AdoptedEntry(prev: Option<Entry>, nextId: nat, item: Item, now: int): Entry {
    var sources := if item.sources.Some? then item.sources.value
      else if prev.Some? && prev.value.hash == item.hash then prev.value.sources else [];
    Entry(if prev.Some? then prev.value.noteId else nextId, KeyOf(item), item.path, item.title, item.hash, item.acceptedBy, now,
          if prev.Some? then nextId else nextId + 1, sources, Current, None)
  }

  /** History records a change of content or path, not a renewed acceptance. */
  function AdoptedHistory(prev: Option<Entry>, e: Entry): seq<Event> {
    if prev.Some? && prev.value.hash == e.hash && prev.value.path == e.path then []
    else [Event(e.acceptanceId, e.noteId, e.path, if prev.Some? then Some((prev.value.path, prev.value.hash)) else None,
                e.hash, e.acceptedBy, if prev.Some? then Updating else Creation, e.acceptanceId)]
  }

  ghost function AdoptOne(l: Ledger, item: Item, now: int): Ledger {
    var replaced := Replaced(l.table, item);
    var prev := if replaced.Some? then Some(l.table[replaced.value]) else None;
    var e := AdoptedEntry(prev, l.nextId, item, now);
    l.(table := (l.table - (OnPath(l.table, item.path) - {KeyOf(item)}))[KeyOf(item) := e],
       outbox := l.outbox + AdoptedHistory(prev, e),
       nextId := e.acceptanceId + 1)
  }

  ghost function AdoptAll(l: Ledger, items: seq<Item>, now: int): Ledger {
    if items == [] then l
    else AdoptOne(AdoptAll(l, items[..|items| - 1], now), items[|items| - 1], now)
  }

  ghost function Adopt(l: Ledger, items: seq<Item>, expected: int, published: bool, now: int): Result<Ledger, Error> {
    if items == [] then Err(InvalidInput)
    else if exists i :: 0 <= i < |items| && !Adoptable(items[i], published) then Err(InvalidInput)
    else if l.revision != expected then Err(StaleRevision)
    else Ok(AdoptAll(l, items, now).(revision := l.revision + 1))
  }

  lemma AdoptOneKeepsWellFormed(l: Ledger, item: Item, now: int)
    requires WellFormed(l) && !Skipped(item)
    ensures WellFormed(AdoptOne(l, item, now))
  {
    var l' := AdoptOne(l, item, now);
    var key := KeyOf(item);
    var prev := Replaced(l.table, item);
    var kept := l.table - OnPath(l.table, item.path) - {key};
    var e := l'.table[key];
    assert l'.table == kept[key := e];
    forall k | k in kept
      ensures Apart(kept[k], e)
    {
      if prev.Some? {
        assert k != prev.value;
        assert Apart(l.table[k], l.table[prev.value]);
      }
    }
    AddKeepsDistinct(kept, key, e);
    assert Fits(key, e);
  }

  lemma {:induction false} AdoptKeepsWellFormed(l: Ledger, items: seq<Item>, now: int)
    requires WellFormed(l) && forall i :: 0 <= i < |items| ==> !Skipped(items[i])
    ensures WellFormed(AdoptAll(l, items, now))
    ensures AdoptAll(l, items, now).revision == l.revision
  {
    if items != [] {
      AdoptKeepsWellFormed(l, items[..|items| - 1], now);
      AdoptOneKeepsWellFormed(AdoptAll(l, items[..|items| - 1], now), items[|items| - 1], now);
    }
  }

  /** Removal reaches the notes only, and advances the revision when something was removed. */
  function Remove(l: Ledger, keys: set<Identity>): Ledger {
    var gone := set k | k in keys && k in l.table && !IsControl(l.table[k].path);
    if gone == {} then l else l.(table := l.table - gone, revision := l.revision + 1)
  }

  function Prepare(l: Ledger, path: Path, hash: string, actor: string): Ledger {
    l.(intents := l.intents[path := Intent(l.nextId, actor, hash)], nextId := l.nextId + 1)
  }

  function Discard(l: Ledger, path: Path, operationId: nat): Ledger {
    if path in l.intents && l.intents[path].operationId == operationId then l.(intents := l.intents - {path}) else l
  }

  // ---- what an adoption leaves ----

  /** The earlier entry an adopted item takes over: the one under its identity, or else the one on its path. */
  ghost predicate TakesOver(t: Table, item: Item, k: Identity) {
    k in t && (k == KeyOf(item) || (KeyOf(item) !in t && t[k].path == item.path))
  }

  /** What adopting one item leaves: an entry under its identity that says what was accepted, by whom and when,
      with a fresh acceptance id; no other entry on its path; every other entry as it was. The note id is that
      of the entry it takes over, or fresh. Unless it takes over the same content on the same path, the history
      gains its version. */
  lemma AdoptedExactly(l: Ledger, item: Item, now: int)
    requires WellFormed(l)
    ensures var t := AdoptOne(l, item, now);
            && KeyOf(item) in t.table
            && var e := t.table[KeyOf(item)];
               && e.identity == KeyOf(item) && e.path == item.path && e.title == item.title && e.hash == item.hash
               && e.acceptedBy == item.acceptedBy && e.acceptedAt == now && e.availability.Current? && e.disk.None?
               && l.nextId <= e.acceptanceId < t.nextId
               && (item.sources.Some? ==> e.sources == item.sources.value)
               && (forall k :: k != KeyOf(item) ==> (k in t.table <==> k in l.table && l.table[k].path != item.path))
               && (forall k :: k != KeyOf(item) && k in t.table ==> t.table[k] == l.table[k])
               && t.revision == l.revision && t.intents == l.intents
               && ((forall k :: !TakesOver(l.table, item, k)) ==>
                     && l.nextId <= e.noteId < t.nextId && (item.sources.None? ==> e.sources == [])
                     && t.outbox == l.outbox + [Event(e.acceptanceId, e.noteId, e.path, None, e.hash, e.acceptedBy, Creation, e.acceptanceId)])
               && (forall k :: TakesOver(l.table, item, k) ==>
                     && e.noteId == l.table[k].noteId
                     && (item.sources.None? ==> e.sources == if l.table[k].hash == item.hash then l.table[k].sources else [])
                     && t.outbox == if l.table[k].hash == item.hash && l.table[k].path == item.path then l.outbox
                                    else l.outbox + [Event(e.acceptanceId, e.noteId, e.path, Some((l.table[k].path, l.table[k].hash)), e.hash,
                                                           e.acceptedBy, Updating, e.acceptanceId)])
  {
    var r := Replaced(l.table, item);
    forall k | TakesOver(l.table, item, k)
      ensures r == Some(k)
    {
      assert k in OnPath(l.table, item.path) || k == KeyOf(item);
      assert r.value != k ==> Apart(l.table[r.value], l.table[k]);
    }
    assert r.Some? ==> TakesOver(l.table, item, r.value);
  }

  /** The ledger holds the item as it was accepted. */
  ghost predicate HoldsAdopted(l: Ledger, item: Item) {
    && KeyOf(item) in l.table
    && var e := l.table[KeyOf(item)];
       e.path == item.path && e.hash == item.hash && e.acceptedBy == item.acceptedBy && e.availability.Current?
  }

  lemma AdoptedIsHeld(l: Ledger, item: Item, now: int)
    requires WellFormed(l)
    ensures HoldsAdopted(AdoptOne(l, item, now), item)
  {
    AdoptedExactly(l, item, now);
  }

  lemma OtherAdoptionKeeps(l: Ledger, item: Item, now: int, held: Item)
    requires WellFormed(l) && HoldsAdopted(l, held) && KeyOf(item) != KeyOf(held) && item.path != held.path
    ensures HoldsAdopted(AdoptOne(l, item, now), held)
  {
    AdoptedExactly(l, item, now);
  }

  lemma NextAdopted(l: Ledger, items: seq<Item>, m: nat, now: int)
    requires WellFormed(l) && m < |items| && forall n :: 0 <= n < |items| ==> !Skipped(items[n])
    ensures AdoptAll(l, items[..m + 1], now) == AdoptOne(AdoptAll(l, items[..m], now), items[m], now)
    ensures WellFormed(AdoptAll(l, items[..m], now))
  {
    assert items[..m + 1][..m] == items[..m];
    AdoptKeepsWellFormed(l, items[..m], now);
  }

  lemma AdoptedStay(l: Ledger, items: seq<Item>, i: nat, now: int)
    requires WellFormed(l) && i < |items| && forall n :: 0 <= n < |items| ==> !Skipped(items[n])
    requires forall n :: i < n < |items| ==> KeyOf(items[n]) != KeyOf(items[i]) && items[n].path != items[i].path
    ensures HoldsAdopted(AdoptAll(l, items, now), items[i])
  {
    NextAdopted(l, items, i, now);
    AdoptedIsHeld(AdoptAll(l, items[..i], now), items[i], now);
    forall n: nat | i < n < |items| && HoldsAdopted(AdoptAll(l, items[..n], now), items[i])
      ensures HoldsAdopted(AdoptAll(l, items[..n + 1], now), items[i])
    {
      NextAdopted(l, items, n, now);
      OtherAdoptionKeeps(AdoptAll(l, items[..n], now), items[n], now, items[i]);
    }
    ByCounting((n: nat) => n <= |items| && HoldsAdopted(AdoptAll(l, items[..n], now), items[i]), i + 1, |items|);
    assert items[..|items|] == items;
  }

  /** The item names a path and a content, and is no control document, unless index or log pages are published. */
  predicate MayAdopt(item: Item, published: bool) {
    && |item.path| > 0 && |item.hash| == 64 && HexDigits(item.hash)
    && (!IsControl(item.path) || (published && Basename(item.path) in {"index.md", "log.md"}))
  }

  lemma IndexNamesListed(name: string)
    ensures Listed(name, IndexNames) <==> name in {"index.md", "log.md"}
  {
    assert IndexNames[1..] == ["log.md"] && ["log.md"][1..] == [];
    assert Listed(name, ["log.md"]) <==> name == "log.md";
  }

  /** A batch is adopted exactly when it is not empty, every item may be adopted and the caller has seen the
      current revision. The revision moves by one, and every item stands in the ledger as it was accepted, unless
      a later one of the batch replaces it. */
  lemma BatchIsAdopted(l: Ledger, items: seq<Item>, expected: int, published: bool, now: int, i: nat)
    requires WellFormed(l) && i < |items|
    ensures var r := Adopt(l, items, expected, published, now);
            && (r.Ok? <==> (forall n :: 0 <= n < |items| ==> MayAdopt(items[n], published)) && l.revision == expected)
            && (r.Err? && r.error.StaleRevision? ==> l.revision != expected)
            && (r.Ok? ==> r.value.revision == l.revision + 1)
            && (r.Ok? && (forall n :: i < n < |items| ==> KeyOf(items[n]) != KeyOf(items[i]) && items[n].path != items[i].path) ==>
                  HoldsAdopted(r.value, items[i]))
  {
    var r := Adopt(l, items, expected, published, now);
    forall n | 0 <= n < |items|
      ensures Adoptable(items[n], published) <==> MayAdopt(items[n], published)
    {
      IndexNamesListed(Basename(items[n].path));
    }
    if r.Ok? {
      assert forall n :: 0 <= n < |items| ==> Adoptable(items[n], published);
      if forall n :: i < n < |items| ==> KeyOf(items[n]) != KeyOf(items[i]) && items[n].path != items[i].path {
        AdoptedStay(l, items, i, now);
      }
    }
  }

  /** Removal takes out exactly the notes that are named, never a control document, and the revision moves by one
      when there was one. */
  lemma RemovedExactly(l: Ledger, keys: set<Identity>)
    ensures var t := Remove(l, keys);
            && (forall k :: k in t.table <==> k in l.table && (k !in keys || IsControl(l.table[k].path)))
            && (forall k :: k in t.table ==> t.table[k] == l.table[k])
            && t.revision == (if exists k :: k in keys && k in l.table && !IsControl(l.table[k].path) then l.revision + 1 else l.revision)
            && t == l.(table := t.table, revision := t.revision)
  {
    if k :| k in keys && k in l.table && !IsControl(l.table[k].path) {
      var gone := set k | k in keys && k in l.table && !IsControl(l.table[k].path);
      assert k in gone;
    }
  }

  /** An intent that was prepared is discarded by its own operation id and by no other. */
  lemma DiscardedExactly(l: Ledger, path: Path, hash: string, actor: string, operationId: nat)
    ensures var p := Prepare(l, path, hash, actor);
            && path in p.intents && p.intents[path] == Intent(l.nextId, actor, hash) && l.nextId < p.nextId
            && Discard(p, path, operationId) == if operationId == l.nextId then p.(intents := l.intents - {path}) else p
  {
    assert (l.intents[path := Intent(l.nextId, actor, hash)]) - {path} == l.intents - {path};
  }

  // ---- runs ----

  datatype Op =
    | DoSync(o: Observation, order: seq<Identity>)
    | DoAdopt(items: seq<Item>, expected: int, published: bool)
    | DoRemove(keys: set<Identity>)
    | DoPrepare(path: Path, hash: string, actor: string)
    | DoDiscard(path: Path, operationId: nat)

  ghost predicate Proper(l: Ledger, op: Op) {
    op.DoSync? ==> Observes(op.o) && Enumerates(op.order, l.table)
  }

  ghost function Apply(l: Ledger, op: Op, now: int): Ledger
    requires Proper(l, op)
  {
    match op
    case DoSync(o, order) => Sync(l, o, order, now)
    case DoAdopt(items, expected, published) =>
      var r := Adopt(l, items, expected, published, now);
      if r.Ok? then r.value else l
    case DoRemove(keys) => Remove(l, keys)
    case DoPrepare(path, hash, actor) => Prepare(l, path, hash, actor)
    case DoDiscard(path, id) => Discard(l, path, id)
  }

  ghost predicate ProperRun(l: Ledger, ops: seq<Op>, now: int)
    decreases |ops|
  {
    ops == [] || (Proper(l, ops[0]) && ProperRun(Apply(l, ops[0], now), ops[1..], now + 1))
  }

  ghost function Run(l: Ledger, ops: seq<Op>, now: int): Ledger
    requires ProperRun(l, ops, now)
    decreases |ops|
  {
    if ops == [] then l else Run(Apply(l, ops[0], now), ops[1..], now + 1)
  }

  /** The ledger stays well formed over every run: keys match identities, and paths, note ids and
      acceptance ids are pairwise distinct. */
  lemma {:induction false} RunsKeepWellFormed(l: Ledger, ops: seq<Op>, now: int)
    requires WellFormed(l) && ProperRun(l, ops, now)
    ensures WellFormed(Run(l, ops, now))
    decreases |ops|
  {
    if ops != [] {
      match ops[0] {
        case DoSync(o, order) => SyncKeepsWellFormed(l, o, order, now);
        case DoAdopt(items, expected, published) =>
          if Adopt(l, items, expected, published, now).Ok? {
            assert forall i :: 0 <= i < |items| ==> Adoptable(items[i], published);
            AdoptKeepsWellFormed(l, items, now);
          }
        case _ =>
      }
      RunsKeepWellFormed(Apply(l, ops[0], now), ops[1..], now + 1);
    }
  }

  // ---- the code, against the functions above ----

  /** Notes in one table, control documents in the other. */
  ghost predicate Split(entries: Table, controls: Table) {
    && AllFit(entries) && AllFit(controls)
    && (forall k :: k in entries ==> !IsControl(entries[k].path))
    && (forall k :: k in controls ==> IsControl(controls[k].path))
  }

  /** A key that suits a path is in no table but the path's own. */
  lemma SplitLookup(entries: Table, controls: Table, k: Identity, path: Path)
    requires Split(entries, controls)
    requires (k.AtPath? ==> k.path == path) && (IsControl(path) ==> k.AtPath?)
    ensures IsControl(path) ==> k !in entries
    ensures !IsControl(path) ==> k !in controls
  {
    assert k in entries ==> Fits(k, entries[k]);
    assert k in controls ==> Fits(k, controls[k]);
  }

  lemma SplitAdd(entries: Table, controls: Table, k: Identity, e: Entry)
    requires Split(entries, controls) && Fits(k, e)
    ensures IsControl(e.path) ==> Split(entries, controls[k := e]) && entries + controls[k := e] == (entries + controls)[k := e]
    ensures !IsControl(e.path) ==> Split(entries[k := e], controls) && entries[k := e] + controls == (entries + controls)[k := e]
  {
    SplitLookup(entries, controls, k, e.path);
    AddLast(entries, controls, k, e);
    if !IsControl(e.path) {
      AddFirst(entries, controls, k, e);
    }
  }

  lemma AddLast(m: Table, n: Table, k: Identity, e: Entry)
    ensures m + n[k := e] == (m + n)[k := e]
  {
  }

  lemma AddFirst(m: Table, n: Table, k: Identity, e: Entry)
    requires k !in n
    ensures m[k := e] + n == (m + n)[k := e]
  {
  }

  lemma OnlyMember<T>(s: set<T>, x: T, y: T)
    requires |s| == 1 && x in s && y in s
    ensures x == y
  {
    assert |s - {x}| == 0;
    assert y !in s - {x};
  }

  class KnowledgeAcceptanceStore {
    var entries: Table
    var controls: Table
    var revision: nat
    var intents: map<Path, Intent>
    var outbox: seq<Event>
    var nextId: nat

    ghost function View(): Ledger
      reads this
    {
      Ledger(entries + controls, revision, intents, outbox, nextId)
    }

    ghost predicate Valid()
      reads this
    {
      Split(entries, controls) && WellFormed(View())
    }

    constructor ()
      ensures Valid() && View() == Ledger(map[], 0, map[], [], 0)
    {
      entries, controls, revision, intents, outbox, nextId := map[], map[], 0, map[], [], 0;
    }

    /** The unclaimed note on the item's own path. */
    method FindByPath(prior: Table, order: seq<Identity>, item: Item, claimed: set<nat>) returns (r: Option<Identity>)
      requires Enumerates(order, prior) && Distinct(prior)
      ensures if r.Some? then ByPath(prior, item, claimed) == {r.value} else ByPath(prior, item, claimed) == {}
    {
      for j := 0 to |order|
        invariant forall i :: 0 <= i < j ==> order[i] !in ByPath(prior, item, claimed)
      {
        if prior[order[j]].path == item.path && prior[order[j]].acceptanceId !in claimed {
          forall k | k in ByPath(prior, item, claimed)
            ensures k == order[j]
          {
            assert k != order[j] ==> Apart(prior[k], prior[order[j]]);
          }
          assert order[j] in ByPath(prior, item, claimed);
          return Some(order[j]);
        }
      }
      return None;
    }

    /** The notes that may have moved to the item: those that share its id or disk mark, and its hash. */
    method FindMovable(prior: Table, order: seq<Identity>, item: Item, claimed: set<nat>, o: Observation)
      returns (marked: set<Identity>, hashed: set<Identity>)
      requires Enumerates(order, prior)
      ensures marked == ByMark(prior, item, claimed, o) && hashed == ByHash(prior, item, claimed, o)
    {
      marked, hashed := {}, {};
      for j := 0 to |order|
        invariant forall k :: k in marked <==> k in order[..j] && k in ByMark(prior, item, claimed, o)
        invariant forall k :: k in hashed <==> k in order[..j] && k in ByHash(prior, item, claimed, o)
      {
        var k := order[j];
        assert order[..j + 1] == order[..j] + [k];
        if Movable(prior, k, claimed, o) && SameMark(prior[k], item) {
          marked := marked + {k};
        }
        if Movable(prior, k, claimed, o) && prior[k].hash == item.hash {
          hashed := hashed + {k};
        }
      }
      assert order[..|order|] == order;
    }

    method FindAlike(o: Observation, hash: string) returns (alike: set<int>)
      ensures alike == SameHashItems(o, hash)
    {
      alike := {};
      for i := 0 to |o.items|
        invariant alike == set n | 0 <= n < i && o.items[n].hash == hash
      {
        if o.items[i].hash == hash {
          alike := alike + {i};
        }
      }
    }

    /** The earlier note an observed item continues, found by walking the tables. */
    method FindPrevious(prior: Table, order: seq<Identity>, item: Item, claimed: set<nat>, o: Observation)
      returns (r: Option<Identity>)
      requires Enumerates(order, prior) && Distinct(prior)
      ensures r == Previous(prior, item, claimed, o)
    {
      r := FindByPath(prior, order, item, claimed);
      if r.Some? || IsControl(item.path) {
        return;
      }
      var marked, hashed := FindMovable(prior, order, item, claimed, o);
      if |marked| == 1 {
        r := PickOnly(marked);
        forall k | k in marked ensures Some(k) == r { OnlyMember(marked, k, r.value); }
        return;
      }
      var alike := FindAlike(o, item.hash);
      if |hashed| == 1 && |alike| == 1 {
        r := PickOnly(hashed);
        forall k | k in hashed ensures Some(k) == r { OnlyMember(hashed, k, r.value); }
      }
    }

    method PickOnly(s: set<Identity>) returns (r: Option<Identity>)
      requires |s| == 1
      ensures r.Some? && r.value in s
    {
      assert s != {};
      var k :| k in s;
      return Some(k);
    }

    /** The record an observed item leaves: the note it continues, or a new version. */
    method RecordItem(prior: Table, item: Item, previous: Option<Identity>, edit: Option<Intent>, now: int) returns (record: Entry, wrote: bool)
      requires previous.Some? ==> previous.value in prior
      modifies `outbox, `nextId
      ensures wrote <==> !(previous.Some? && Unchanged(prior[previous.value], item))
      ensures record == if wrote then RenewedEntry(prior, old(nextId), item, previous, edit, now) else prior[previous.value].(disk := item.disk)
      ensures outbox == if wrote && !IsControl(item.path) then old(outbox) + [RenewedEvent(prior, record, previous, edit)] else old(outbox)
      ensures nextId == if wrote then record.acceptanceId + 1 else old(nextId)
    {
      if previous.Some? && Unchanged(prior[previous.value], item) {
        return prior[previous.value].(disk := item.disk), false;
      }
      record := NewVersion(prior, item, previous, edit, now);
      return record, true;
    }

    /** Writes a new version: the record, its history event unless it is a control document, its ids. */
    method NewVersion(prior: Table, item: Item, previous: Option<Identity>, edit: Option<Intent>, now: int) returns (record: Entry)
      requires previous.Some? ==> previous.value in prior
      modifies `outbox, `nextId
      ensures record == RenewedEntry(prior, old(nextId), item, previous, edit, now)
      ensures outbox == if IsControl(item.path) then old(outbox) else old(outbox) + [RenewedEvent(prior, record, previous, edit)]
      ensures nextId == record.acceptanceId + 1
    {
      record := RenewedEntry(prior, nextId, item, previous, edit, now);
      if !IsControl(item.path) {
        outbox := outbox + [RenewedEvent(prior, record, previous, edit)];
      }
      nextId := record.acceptanceId + 1;
    }

    /** Puts one item's record into the two tables under construction. */
    method ContinueItem(prior: Table, item: Item, previous: Option<Identity>, edit: Option<Intent>, now: int,
                        notes: Table, docs: Table, claimed: set<nat>, changed: bool, ghost origin: map<Identity, Identity>)
      returns (notes': Table, docs': Table, claimed': set<nat>, changed': bool, ghost origin': map<Identity, Identity>)
      requires Split(notes, docs) && !Skipped(item) && (previous.Some? ==> previous.value in prior)
      modifies `outbox, `nextId
      ensures Split(notes', docs')
      ensures Continue(prior, Draft(notes + docs, claimed, origin, intents, old(outbox), changed, old(nextId)), item, previous, edit, now)
           == Draft(notes' + docs', claimed', origin', intents, outbox, changed', nextId)
    {
      claimed', origin' := claimed, origin;
      if previous.Some? {
        claimed' := claimed + {prior[previous.value].acceptanceId};
        origin' := origin[KeyOf(item) := previous.value];
      }
      var record, wrote := RecordItem(prior, item, previous, edit, now);
      changed' := changed || wrote;
      notes', docs' := Add(notes, docs, KeyOf(item), record);
    }

    /** Observes one item; a matching edit intent is used up either way. */
    method ObserveOne(prior: Table, order: seq<Identity>, item: Item, o: Observation, now: int,
                      notes: Table, docs: Table, claimed: set<nat>, changed: bool, ghost origin: map<Identity, Identity>)
      returns (notes': Table, docs': Table, claimed': set<nat>, changed': bool, ghost origin': map<Identity, Identity>)
      requires Enumerates(order, prior) && Distinct(prior) && Split(notes, docs)
      modifies `intents, `outbox, `nextId
      ensures Split(notes', docs')
      ensures ObserveItem(prior, Draft(notes + docs, claimed, origin, old(intents), old(outbox), changed, old(nextId)), item, o, now)
           == Draft(notes' + docs', claimed', origin', intents, outbox, changed', nextId)
    {
      var intent := if item.path in intents then Some(intents[item.path]) else None;
      intents := intents - {item.path};
      if Skipped(item) {
        return notes, docs, claimed, changed, origin;
      }
      var previous := FindPrevious(prior, order, item, claimed, o);
      var edit := if intent.Some? && intent.value.hash == item.hash then intent else None;
      notes', docs', claimed', changed', origin' :=
        ContinueItem(prior, item, previous, edit, now, notes, docs, claimed, changed, origin);
    }

    /** Into the table the entry's path belongs to. */
    method Add(notes: Table, docs: Table, key: Identity, record: Entry) returns (notes': Table, docs': Table)
      requires Split(notes, docs) && Fits(key, record)
      ensures Split(notes', docs') && notes' + docs' == (notes + docs)[key := record]
    {
      SplitAdd(notes, docs, key, record);
      if IsControl(record.path) {
        return notes, docs[key := record];
      } else {
        return notes[key := record], docs;
      }
    }

    method RecordDeletion(entry: Entry)
      modifies `outbox, `nextId
      ensures outbox == old(outbox) + [Event(old(nextId), entry.noteId, entry.path, Some((entry.path, entry.hash)), entry.hash,
                                             "platform-observer", Deletion, old(nextId))]
      ensures nextId == old(nextId) + 1
    {
      outbox := outbox + [Event(nextId, entry.noteId, entry.path, Some((entry.path, entry.hash)), entry.hash,
                                "platform-observer", Deletion, nextId)];
      nextId := nextId + 1;
    }

    /** Keeps one earlier note the items did not continue. */
    method RetainEntry(prior: Table, k: Identity, o: Observation, notes: Table, docs: Table, claimed: set<nat>, changed: bool,
                       ghost origin: map<Identity, Identity>)
      returns (notes': Table, docs': Table, changed': bool, ghost origin': map<Identity, Identity>)
      requires k in prior && Fits(k, prior[k]) && Split(notes, docs)
      modifies `outbox, `nextId
      ensures Split(notes', docs')
      ensures RetainOne(prior, Draft(notes + docs, claimed, origin, intents, old(outbox), changed, old(nextId)), k, o)
           == Draft(notes' + docs', claimed, origin', intents, outbox, changed', nextId)
    {
      var entry := prior[k];
      if entry.acceptanceId in claimed {
        return notes, docs, changed, origin;
      }
      SplitLookup(notes, docs, k, entry.path);
      var target := if IsControl(entry.path) then docs else notes;
      assert k in target <==> k in notes + docs;
      var key := k;
      if k in target && target[k].path != entry.path {
        key := AtPath(entry.path);
        entry := entry.(identity := key);
      }
      notes', docs', changed', origin' := KeepEntry(k, key, entry, o, notes, docs, claimed, changed, origin);
    }

    method KeepEntry(k: Identity, key: Identity, entry: Entry, o: Observation, notes: Table, docs: Table, ghost claimed: set<nat>, changed: bool,
                     ghost origin: map<Identity, Identity>)
      returns (notes': Table, docs': Table, changed': bool, ghost origin': map<Identity, Identity>)
      requires Fits(key, entry) && Split(notes, docs)
      modifies `outbox, `nextId
      ensures Split(notes', docs')
      ensures RetainUnder(Draft(notes + docs, claimed, origin, intents, old(outbox), changed, old(nextId)), k, key, entry, o)
           == Draft(notes' + docs', claimed, origin', intents, outbox, changed', nextId)
    {
      var marked, wrote := MarkUnobserved(entry, o);
      if marked.None? {
        return notes, docs, changed, origin;
      }
      changed' := changed || wrote;
      notes', docs' := Add(notes, docs, key, marked.value);
      origin' := origin[key := k];
    }

    /** How an entry that no item continues is kept, if the observation lets it: as it is, as changed, or as
        missing, which is recorded once. */
    method MarkUnobserved(entry: Entry, o: Observation) returns (marked: Option<Entry>, wrote: bool)
      modifies `outbox, `nextId
      ensures marked == if entry.path in o.guarded then Some(entry)
                        else if entry.path in o.unreadable then Some(entry.(availability := ChangedOnDisk))
                        else if entry.path !in o.present then Some(entry.(availability := Missing))
                        else None
      ensures var gone := entry.path !in o.guarded + o.unreadable + o.present && entry.availability !in {Missing, Revoked};
              && (wrote <==> gone || (entry.path !in o.guarded && entry.path in o.unreadable && entry.availability == Current))
              && (if gone && !IsControl(entry.path)
                  then nextId == old(nextId) + 1 &&
                       outbox == old(outbox) + [Event(old(nextId), entry.noteId, entry.path, Some((entry.path, entry.hash)), entry.hash,
                                                      "platform-observer", Deletion, old(nextId))]
                  else nextId == old(nextId) && outbox == old(outbox))
    {
      if entry.path in o.guarded {
        return Some(entry), false;
      }
      if entry.path in o.unreadable {
        return Some(entry.(availability := ChangedOnDisk)), entry.availability == Current;
      }
      if entry.path in o.present {
        return None, false;
      }
      wrote := entry.availability != Missing && entry.availability != Revoked;
      if wrote && !IsControl(entry.path) {
        RecordDeletion(entry);
      }
      marked := Some(entry.(availability := Missing));
    }

    method ObserveAll(prior: Table, order: seq<Identity>, o: Observation, now: int, ghost start: Ledger)
      returns (notes: Table, docs: Table, claimed: set<nat>, changed: bool, ghost origin: map<Identity, Identity>)
      requires Enumerates(order, prior) && Distinct(prior)
      requires intents == start.intents && outbox == start.outbox && nextId == start.nextId
      modifies `intents, `outbox, `nextId
      ensures Split(notes, docs)
      ensures ObserveItems(prior, Blank(start), |o.items|, o, now) == Draft(notes + docs, claimed, origin, intents, outbox, changed, nextId)
    {
      notes, docs, claimed, changed, origin := map[], map[], {}, false, map[];
      for i := 0 to |o.items|
        invariant Split(notes, docs)
        invariant ObserveItems(prior, Blank(start), i, o, now) == Draft(notes + docs, claimed, origin, intents, outbox, changed, nextId)
      {
        notes, docs, claimed, changed, origin := ObserveOne(prior, order, o.items[i], o, now, notes, docs, claimed, changed, origin);
      }
    }

    method RetainAll(prior: Table, order: seq<Identity>, o: Observation, notes: Table, docs: Table, claimed: set<nat>, changed: bool,
                     ghost origin: map<Identity, Identity>)
      returns (notes': Table, docs': Table, changed': bool, ghost origin': map<Identity, Identity>)
      requires AllFit(prior) && Split(notes, docs) && forall k :: k in order ==> k in prior
      modifies `outbox, `nextId
      ensures Split(notes', docs')
      ensures Retain(prior, Draft(notes + docs, claimed, origin, intents, old(outbox), changed, old(nextId)), order, o)
           == Draft(notes' + docs', claimed, origin', intents, outbox, changed', nextId)
    {
      notes', docs', changed', origin' := notes, docs, changed, origin;
      assert order[..0] == [];
      for j := 0 to |order|
        invariant Split(notes', docs')
        invariant Retain(prior, Draft(notes + docs, claimed, origin, intents, old(outbox), changed, old(nextId)), order[..j], o)
               == Draft(notes' + docs', claimed, origin', intents, outbox, changed', nextId)
      {
        assert order[..j + 1][..j] == order[..j];
        assert Fits(order[j], prior[order[j]]);
        notes', docs', changed', origin' := RetainEntry(prior, order[j], o, notes', docs', claimed, changed', origin');
      }
      assert order[..|order|] == order;
    }

    /** Replaces the current observations in one step; never a human approval. */
    method SyncExternal(o: Observation, order: seq<Identity>, now: int)
      requires Valid() && Observes(o) && Enumerates(order, entries + controls)
      modifies this
      ensures View() == Sync(old(View()), o, order, now) && Valid()
    {
      SyncKeepsWellFormed(View(), o, order, now);
      var prior := entries + controls;
      var notes, docs, claimed, changed, origin := ObserveAll(prior, order, o, now, View());
      notes, docs, changed, origin := RetainAll(prior, order, o, notes, docs, claimed, changed, origin);
      entries, controls := notes, docs;
      if changed {
        revision := revision + 1;
      }
    }

    /** The entry an adopted item replaces, looked up in the item's own table. */
    method FindReplaced(table: Table, item: Item) returns (prev: Option<Entry>)
      requires Valid() && table == if IsControl(item.path) then controls else entries
      ensures var r := Replaced(entries + controls, item);
              prev == if r.Some? then Some((entries + controls)[r.value]) else None
    {
      SplitTable(entries, controls, item);
      if KeyOf(item) in table {
        return Some(table[KeyOf(item)]);
      }
      if OnPath(table, item.path) == {} {
        return None;
      }
      var k :| k in OnPath(table, item.path);
      forall j | j in OnPath(entries + controls, item.path) ensures j == k {
        assert j != k ==> Apart((entries + controls)[j], (entries + controls)[k]);
      }
      return Some(table[k]);
    }

    /** Adopts one item: its key takes the note over, and other keys on the same path go. */
    method AdoptItem(item: Item, now: int)
      requires Valid() && !Skipped(item)
      modifies `entries, `controls, `outbox, `nextId
      ensures View() == AdoptOne(old(View()), item, now) && Valid()
    {
      AdoptOneKeepsWellFormed(View(), item, now);
      var control := IsControl(item.path);
      var table := if control then controls else entries;
      var prev := FindReplaced(table, item);
      var record := AdoptedEntry(prev, nextId, item, now);
      outbox := outbox + AdoptedHistory(prev, record);
      nextId := record.acceptanceId + 1;
      SplitReplace(entries, controls, item, record);
      table := table - (OnPath(table, item.path) - {KeyOf(item)});
      if control {
        controls := table[KeyOf(item) := record];
      } else {
        entries := table[KeyOf(item) := record];
      }
    }

    method AllAdoptable(items: seq<Item>, published: bool) returns (ok: bool)
      ensures ok <==> forall i :: 0 <= i < |items| ==> Adoptable(items[i], published)
    {
      for i := 0 to |items|
        invariant forall j :: 0 <= j < i ==> Adoptable(items[j], published)
      {
        if !Adoptable(items[i], published) {
          return false;
        }
      }
      return true;
    }

    method AdoptItems(items: seq<Item>, now: int)
      requires Valid() && forall i :: 0 <= i < |items| ==> !Skipped(items[i])
      modifies `entries, `controls, `outbox, `nextId
      ensures View() == AdoptAll(old(View()), items, now) && Valid()
    {
      assert items[..0] == [];
      for i := 0 to |items|
        invariant Valid() && View() == AdoptAll(old(View()), items[..i], now)
      {
        assert items[..i + 1][..i] == items[..i];
        AdoptItem(items[i], now);
      }
      assert items[..|items|] == items;
    }

    /** Accepts a batch of notes, or of notes and reviewed control documents when `published`. */
    method AdoptBatch(items: seq<Item>, expected: int, published: bool, now: int) returns (r: Result<nat, Error>)
      requires Valid()
      modifies this
      ensures Valid()
      ensures match Adopt(old(View()), items, expected, published, now)
              case Ok(l) => r == Ok(l.revision) && View() == l
              case Err(e) => r == Err(e) && View() == old(View())
    {
      if items == [] {
        return Err(InvalidInput);
      }
      var sound := AllAdoptable(items, published);
      if !sound {
        return Err(InvalidInput);
      }
      if revision != expected {
        return Err(StaleRevision);
      }
      AdoptItems(items, now);
      revision := revision + 1;
      return Ok(revision);
    }

    method DeleteNotes(keys: seq<Identity>) returns (changed: bool)
      modifies `entries
      ensures entries == old(entries) - Members(keys)
      ensures changed <==> entries != old(entries)
    {
      changed := false;
      assert entries - Members([]) == entries;
      for i := 0 to |keys|
        invariant entries == old(entries) - Members(keys[..i])
        invariant changed <==> entries != old(entries)
      {
        assert Members(keys[..i + 1]) == Members(keys[..i]) + {keys[i]} by {
          assert keys[..i + 1] == keys[..i] + [keys[i]];
        }
        if keys[i] in entries {
          entries := entries - {keys[i]};
          changed := true;
        }
      }
      assert keys[..|keys|] == keys;
    }

    /** Removes notes by key; the revision moves when something was removed. */
    method RemoveEntries(keys: seq<Identity>)
      requires Valid()
      modifies this
      ensures View() == Remove(old(View()), Members(keys)) && Valid()
    {
      ghost var was := View();
      var changed := DeleteNotes(keys);
      RemovedNotes(old(entries), controls, Members(keys));
      RemoveKeepsWellFormed(was, Members(keys));
      if changed {
        revision := revision + 1;
      }
    }

    /** The durable intent that lets a later scan attribute an edit to its author. */
    method PrepareManualEdit(path: Path, hash: string, actor: string) returns (operationId: nat)
      requires Valid()
      modifies this
      ensures View() == Prepare(old(View()), path, hash, actor) && Valid() && operationId == old(nextId)
    {
      operationId := nextId;
      nextId := nextId + 1;
      intents := intents[path := Intent(operationId, actor, hash)];
    }
  }

  /** An item's own table answers for both. */
  lemma SplitTable(entries: Table, controls: Table, item: Item)
    requires Split(entries, controls)
    ensures var table := if IsControl(item.path) then controls else entries;
            && (KeyOf(item) in entries + controls <==> KeyOf(item) in table)
            && (KeyOf(item) in table ==> (entries + controls)[KeyOf(item)] == table[KeyOf(item)])
            && OnPath(entries + controls, item.path) == OnPath(table, item.path)
            && forall k :: k in OnPath(table, item.path) ==> (entries + controls)[k] == table[k]
  {
    SplitLookup(entries, controls, KeyOf(item), item.path);
    SplitApart(entries, controls);
    var table := if IsControl(item.path) then controls else entries;
    forall k
      ensures k in OnPath(entries + controls, item.path) <==> k in OnPath(table, item.path)
    {
    }
  }

  lemma SplitApart(entries: Table, controls: Table)
    requires Split(entries, controls)
    ensures forall k :: k in entries ==> k !in controls
  {
    forall k | k in entries
      ensures k !in controls
    {
      assert Fits(k, entries[k]);
      assert k in controls ==> Fits(k, controls[k]);
    }
  }

  lemma SplitReplace(entries: Table, controls: Table, item: Item, e: Entry)
    requires Split(entries, controls) && Fits(KeyOf(item), e) && e.path == item.path
    ensures var control := IsControl(item.path);
            var table := if control then controls else entries;
            var table' := (table - (OnPath(table, item.path) - {KeyOf(item)}))[KeyOf(item) := e];
            var entries', controls' := if control then entries else table', if control then table' else controls;
            && Split(entries', controls')
            && entries' + controls'
               == ((entries + controls) - (OnPath(entries + controls, item.path) - {KeyOf(item)}))[KeyOf(item) := e]
  {
    SplitTable(entries, controls, item);
    SplitApart(entries, controls);
    var gone := OnPath(entries + controls, item.path) - {KeyOf(item)};
    if IsControl(item.path) {
      DropSecond(entries, controls, gone);
      SplitAdd(entries, controls - gone, KeyOf(item), e);
    } else {
      DropFirst(entries, controls, gone);
      SplitAdd(entries - gone, controls, KeyOf(item), e);
    }
  }

  lemma DropFirst(m: Table, n: Table, gone: set<Identity>)
    requires forall k :: k in gone ==> k !in n
    ensures (m - gone) + n == (m + n) - gone
  {
  }

  lemma DropSecond(m: Table, n: Table, gone: set<Identity>)
    requires forall k :: k in gone ==> k !in m
    ensures m + (n - gone) == (m + n) - gone
  {
  }

  lemma RemovedNotes(entries: Table, controls: Table, keys: set<Identity>)
    requires Split(entries, controls)
    ensures var gone := set k | k in keys && k in entries + controls && !IsControl((entries + controls)[k].path);
            && (entries - keys) + controls == (entries + controls) - gone
            && (gone == {} <==> entries - keys == entries)
            && Split(entries - keys, controls)
  {
    forall k | k in entries
      ensures k !in controls
    {
      assert Fits(k, entries[k]);
      assert k in controls ==> Fits(k, controls[k]);
    }
    var gone := set k | k in keys && k in entries + controls && !IsControl((entries + controls)[k].path);
    assert forall k :: k in keys && k in entries ==> k in gone && k !in entries - keys;
  }

  lemma RemoveKeepsWellFormed(l: Ledger, keys: set<Identity>)
    requires WellFormed(l)
    ensures WellFormed(Remove(l, keys))
  {
  }
}
