/**
 * Write ownership of workspace trees: admission of execution scopes, exclusive leases, their renewal,
 * fencing and release.
 *
 * A root is the list of its path components. The lease table keeps its insertion order, because admission
 * looks only at the first match; a lease is stored under its own key. Each scope carries a copy of its
 * lease, and the two copies can differ: admission fences an expired lease in the table alone.
 */
module WorkspaceLeases {
  import opened Wrappers

  type Root = seq<string>

  // ---- overlap of roots ----

  function Climb(n: nat): (r: seq<string>)
    ensures |r| == n && forall i :: 0 <= i < n ==> r[i] == ".."
  {
    if n == 0 then [] else [".."] + Climb(n - 1)
  }

  /** The relative path from one absolute path to another. */
  function Relative(root: Root, target: Root): seq<string> {
    if root != [] && target != [] && root[0] == target[0] then Relative(root[1..], target[1..])
    else Climb(|root|) + target
  }

  predicate Contains(root: Root, target: Root) {
    var r := Relative(root, target);
    r == [] || r[0] != ".."
  }

  predicate Overlaps(l: Root, r: Root) {
    Contains(l, r) || Contains(r, l)
  }

  predicate Canonical(r: Root) {
    forall i :: 0 <= i < |r| ==> r[i] != ".."
  }

  lemma {:induction false} ContainsIsPrefix(root: Root, target: Root)
    requires Canonical(root) && Canonical(target)
    ensures Contains(root, target) <==> root <= target
  {
    if root != [] && target != [] && root[0] == target[0] {
      ContainsIsPrefix(root[1..], target[1..]);
      assert root <= target <==> root[1..] <= target[1..] by {
        if root[1..] <= target[1..] {
          assert root == [root[0]] + root[1..] && target == [target[0]] + target[1..];
        }
      }
    }
  }

  ghost predicate Under(root: Root, p: Root) {
    root <= p
  }

  /** Two canonical roots overlap exactly when some path lies in both trees. */
  lemma OverlapsMeansSharedPath(l: Root, r: Root)
    requires Canonical(l) && Canonical(r)
    ensures Overlaps(l, r) <==> exists p :: Under(l, p) && Under(r, p)
  {
    ContainsIsPrefix(l, r);
    ContainsIsPrefix(r, l);
    if p :| Under(l, p) && Under(r, p) {
      assert if |l| <= |r| then l <= r else r <= l;
    }
    if l <= r {
      assert Under(l, r) && Under(r, r);
    } else if r <= l {
      assert Under(l, l) && Under(r, l);
    }
  }

  // ---- records ----

  type ScopeId = string

  type Token = string

  datatype Owner =
    | Delegation(delegationId: string)
    | NativeSession(sessionId: string, turnId: string, workItemId: Option<string>)
    | VerificationEnvironment(verificationId: string)

  datatype Mode = ReadOnlyShared | IsolatedWorktree | ExclusiveWrite

  datatype Key = WorkspaceKey(id: string) | PathKey(root: Root)

  datatype LeaseState = LeaseActive | LeaseFenced | LeaseReleased

  datatype Lease = Lease(
    key: Key,
    root: Root,
    scopeId: ScopeId,
    owners: seq<Owner>,
    token: Token,
    expiresAt: int,
    state: LeaseState)

  datatype ScopeState = ScopeActive | ScopeFenced | ScopePromoted | ScopeReleased

  datatype Goal = Goal(id: Option<string>, epoch: Option<int>)

  datatype Scope = Scope(
    workspaceId: Option<string>,
    root: Root,
    mode: Mode,
    owners: seq<Owner>,
    goal: Goal,
    state: ScopeState,
    token: Option<Token>,
    lease: Option<Lease>)

  datatype State = State(scopes: map<ScopeId, Scope>, leases: seq<Lease>)

  datatype Error = InvalidPolicy | UnsupportedLayout | ScopeNotFound | ScopeConflict | LeaseConflict | LeaseIsFenced

  datatype Reply<+T> = Reply(st: State, result: Result<T, Error>)

  datatype Config = Config(stateDir: Root, worktreeRoot: Root, timeout: int, ownerClosed: Option<Owner -> bool>)

  datatype Request = Request(
    workspaceId: Option<string>,
    root: Root,
    mode: Mode,
    owner: Owner,
    goal: Goal,
    reuse: Option<ScopeId>,
    token: Option<Token>,
    enforcedReadOnly: bool)

  // ---- the lease table ----

  /** Assignment under a key: in place when the key is there, at the end otherwise. */
  function Put(ls: seq<Lease>, l: Lease): seq<Lease> {
    if ls == [] then [l]
    else if ls[0].key == l.key then [l] + ls[1..]
    else [ls[0]] + Put(ls[1..], l)
  }

  predicate Held(l: Lease) {
    !l.state.LeaseReleased?
  }

  predicate Occupies(l: Lease, key: Key, root: Root) {
    Held(l) && (l.key == key || Overlaps(l.root, root))
  }

  function FindOccupying(ls: seq<Lease>, key: Key, root: Root): (r: Option<Lease>)
    ensures r.Some? ==> r.value in ls && Occupies(r.value, key, root)
    ensures r.None? ==> forall l :: l in ls ==> !Occupies(l, key, root)
  {
    if ls == [] then None
    else if Occupies(ls[0], key, root) then Some(ls[0])
    else FindOccupying(ls[1..], key, root)
  }

  ghost predicate UniqueKeys(ls: seq<Lease>) {
    forall i, j :: 0 <= i < j < |ls| ==> ls[i].key != ls[j].key
  }

  lemma {:induction false} PutContents(ls: seq<Lease>, l: Lease)
    requires UniqueKeys(ls)
    ensures UniqueKeys(Put(ls, l))
    ensures forall x :: x in Put(ls, l) <==> x == l || (x in ls && x.key != l.key)
  {
    if ls != [] {
      assert ls == [ls[0]] + ls[1..];
      if ls[0].key != l.key {
        PutContents(ls[1..], l);
        var r := Put(ls[1..], l);
        forall j | 0 <= j < |r|
          ensures r[j].key != ls[0].key
        {
          assert r[j] in r;
        }
      }
    }
  }

  // ---- operations ----

  predicate Blank(s: string) {
    forall i :: 0 <= i < |s| ==> s[i] in {' ', '\t', '\n', '\r'}
  }

  predicate ValidOwner(o: Owner) {
    match o
    case Delegation(id) => !Blank(id)
    case NativeSession(session, turn, _) => !Blank(session) && !Blank(turn)
    case VerificationEnvironment(id) => !Blank(id)
  }

  function LeaseKey(workspaceId: Option<string>, root: Root): Key {
    if workspaceId.Some? then WorkspaceKey(workspaceId.value) else PathKey(root)
  }

  predicate SameBinding(o: Owner, ref: Owner) {
    match o
    case Delegation(_) => ref.Delegation?
    case NativeSession(session, _, item) => ref.NativeSession? && ref.sessionId == session && ref.workItemId == item
    case VerificationEnvironment(_) => ref.VerificationEnvironment?
  }

  predicate Live(l: Lease, now: int) {
    l.state.LeaseActive? && now < l.expiresAt
  }

  function CheckReuse(sc: Scope, q: Request, now: int): Option<Error> {
    if !sc.state.ScopeActive? then Some(ScopeConflict)
    else if sc.workspaceId != q.workspaceId || sc.goal != q.goal then Some(ScopeConflict)
    else if sc.mode != q.mode || sc.root != q.root then Some(ScopeConflict)
    else if sc.token.Some? && q.token != sc.token then Some(LeaseConflict)
    else if q.mode.ExclusiveWrite? && sc.lease.Some? && !Live(sc.lease.value, now) then Some(LeaseIsFenced)
    else if exists o :: o in sc.owners && !SameBinding(q.owner, o) then Some(ScopeConflict)
    else None
  }

  function Reuse(st: State, id: ScopeId, q: Request, now: int, cfg: Config): Reply<Scope> {
    if id !in st.scopes then Reply(st, Err(ScopeNotFound))
    else
      var sc := st.scopes[id];
      var refused := CheckReuse(sc, q, now);
      if refused.Some? then Reply(st, Err(refused.value))
      else
        var owners := if q.owner in sc.owners then sc.owners else sc.owners + [q.owner];
        var lease := match sc.lease
          case Some(l) => Some(l.(owners := owners, expiresAt := now + cfg.timeout))
          case None => None;
        var sc' := sc.(owners := owners, lease := lease);
        var leases := if lease.Some? then Put(st.leases, lease.value) else st.leases;
        Reply(State(st.scopes[id := sc'], leases), Ok(sc'))
  }

  /** The holder is provably finished: its scope is active and every owner is closed. */
  predicate TakenOver(st: State, l: Lease, cfg: Config) {
    && l.state.LeaseActive? && cfg.ownerClosed.Some?
    && l.scopeId in st.scopes && st.scopes[l.scopeId].state.ScopeActive?
    && l.owners != [] && forall o :: o in l.owners ==> cfg.ownerClosed.value(o)
  }

  function FreeLease(st: State, l: Lease): State
    requires l.scopeId in st.scopes
  {
    var freed := l.(state := LeaseReleased);
    var holder := st.scopes[l.scopeId];
    var holder' := holder.(state := ScopeReleased, lease := if holder.lease.Some? then Some(freed) else None);
    State(st.scopes[l.scopeId := holder'], Put(st.leases, freed))
  }

  /** A new scope, with a lease in exclusive mode. */
  function Admit(st: State, id: ScopeId, token: Token, q: Request, now: int, cfg: Config): Reply<Scope> {
    var key := LeaseKey(q.workspaceId, q.root);
    var lease := if q.mode.ExclusiveWrite?
      then Some(Lease(key, q.root, id, [q.owner], token, now + cfg.timeout, LeaseActive))
      else None;
    var sc := Scope(q.workspaceId, q.root, q.mode, [q.owner], q.goal, ScopeActive,
                    if q.mode.ReadOnlyShared? then None else Some(token), lease);
    Reply(State(st.scopes[id := sc], if lease.Some? then Put(st.leases, lease.value) else st.leases), Ok(sc))
  }

  function Begin(st: State, id: ScopeId, token: Token, q: Request, now: int, cfg: Config): Reply<Scope> {
    if !ValidOwner(q.owner) then Reply(st, Err(InvalidPolicy))
    else if q.mode.ReadOnlyShared? && !q.enforcedReadOnly then Reply(st, Err(InvalidPolicy))
    else if Contains(q.root, cfg.stateDir) || Contains(q.root, cfg.worktreeRoot) then Reply(st, Err(UnsupportedLayout))
    else if q.reuse.Some? then Reuse(st, q.reuse.value, q, now, cfg)
    else if q.mode.ReadOnlyShared? then Admit(st, id, token, q, now, cfg)
    else
      match FindOccupying(st.leases, LeaseKey(q.workspaceId, q.root), q.root)
      case None => Admit(st, id, token, q, now, cfg)
      case Some(l) =>
        if TakenOver(st, l, cfg) then Admit(FreeLease(st, l), id, token, q, now, cfg)
        else if l.state.LeaseFenced? then Reply(st, Err(LeaseIsFenced))
        else if l.expiresAt <= now then
          Reply(st.(leases := Put(st.leases, l.(state := LeaseFenced))), Err(LeaseIsFenced))
        else Reply(st, Err(LeaseConflict))
  }

  function Renew(st: State, id: ScopeId, token: Token, now: int, cfg: Config): Reply<Lease> {
    if id !in st.scopes || st.scopes[id].lease.None? then Reply(st, Err(ScopeNotFound))
    else
      var l := st.scopes[id].lease.value;
      if l.token != token then Reply(st, Err(LeaseConflict))
      else if !Live(l, now) then Reply(st, Err(LeaseIsFenced))
      else
        var l' := l.(expiresAt := now + cfg.timeout);
        Reply(State(st.scopes[id := st.scopes[id].(lease := Some(l'))], Put(st.leases, l')), Ok(l'))
  }

  function Close(st: State, id: ScopeId, scopeState: ScopeState, leaseState: LeaseState): Reply<Scope>
    requires id in st.scopes
  {
    var sc := st.scopes[id];
    match sc.lease
    case Some(l) =>
      var l' := l.(state := leaseState);
      var sc' := sc.(state := scopeState, lease := Some(l'));
      Reply(State(st.scopes[id := sc'], Put(st.leases, l')), Ok(sc'))
    case None =>
      var sc' := sc.(state := scopeState);
      Reply(st.(scopes := st.scopes[id := sc']), Ok(sc'))
  }

  function Fence(st: State, id: ScopeId, token: Option<Token>): Reply<Scope> {
    if id !in st.scopes then Reply(st, Err(ScopeNotFound))
    else
      var sc := st.scopes[id];
      if sc.lease.Some? && token.Some? && sc.lease.value.token != token.value then Reply(st, Err(LeaseConflict))
      else Close(st, id, ScopeFenced, LeaseFenced)
  }

  function Release(st: State, id: ScopeId, token: Option<Token>, allowFenced: bool): Reply<Scope> {
    if id !in st.scopes then Reply(st, Err(ScopeNotFound))
    else
      var sc := st.scopes[id];
      if sc.state.ScopeFenced? && !allowFenced then Reply(st, Err(LeaseIsFenced))
      else if sc.token.Some? && token != sc.token then Reply(st, Err(LeaseConflict))
      else if sc.lease.Some? && token != Some(sc.lease.value.token) then Reply(st, Err(LeaseConflict))
      else Close(st, id, ScopeReleased, LeaseReleased)
  }

  /** What a promotion does to its scope once its guards have passed: promoted, or fenced. */
  function SettlePromotion(st: State, id: ScopeId, token: Option<Token>, applied: bool): Reply<Scope> {
    if id !in st.scopes || st.scopes[id].state.ScopeReleased? then Reply(st, Err(ScopeNotFound))
    else
      var sc := st.scopes[id];
      if sc.token.Some? && token != sc.token then Reply(st, Err(LeaseConflict))
      else if !sc.mode.IsolatedWorktree? then Reply(st, Err(InvalidPolicy))
      else if exists l :: l in st.leases && Held(l) && Overlaps(l.root, sc.root) then Reply(st, Err(LeaseConflict))
      else
        var sc' := sc.(state := if applied then ScopePromoted else ScopeFenced);
        Reply(st.(scopes := st.scopes[id := sc']), Ok(sc'))
  }

  predicate AssertLeaseActive(st: State, id: ScopeId, token: Token, now: int) {
    && id in st.scopes
    && st.scopes[id].state.ScopeActive?
    && st.scopes[id].token == Some(token)
    && (st.scopes[id].lease.Some? ==> Live(st.scopes[id].lease.value, now))
  }

  datatype Op =
    | DoBegin(id: ScopeId, token: Token, q: Request)
    | DoRenew(id: ScopeId, owner: Token)
    | DoFence(id: ScopeId, bearer: Option<Token>)
    | DoRelease(id: ScopeId, bearer: Option<Token>, allowFenced: bool)
    | DoPromote(id: ScopeId, bearer: Option<Token>, applied: bool)

  function Apply(st: State, op: Op, now: int, cfg: Config): State {
    match op
    case DoBegin(id, token, q) => Begin(st, id, token, q, now, cfg).st
    case DoRenew(id, token) => Renew(st, id, token, now, cfg).st
    case DoFence(id, token) => Fence(st, id, token).st
    case DoRelease(id, token, allow) => Release(st, id, token, allow).st
    case DoPromote(id, token, applied) => SettlePromotion(st, id, token, applied).st
  }

  // ---- the code, against the functions above ----

  /** The durable state of the coordinator; every method is one turn of its queue. */
  class WorkspaceExecutionCoordinator {
    var scopes: map<ScopeId, Scope>
    var leases: seq<Lease>

    constructor ()
      ensures View() == State(map[], [])
    {
      scopes, leases := map[], [];
    }

    function View(): State
      reads this
    {
      State(scopes, leases)
    }

    /** The first held lease that stands in the way, in table order. */
    method Occupying(key: Key, root: Root) returns (r: Option<Lease>)
      ensures r == FindOccupying(leases, key, root)
    {
      for i := 0 to |leases|
        invariant FindOccupying(leases, key, root) == FindOccupying(leases[i..], key, root)
      {
        if Occupies(leases[i], key, root) {
          return Some(leases[i]);
        }
      }
      return None;
    }

    method ReuseScope(id: ScopeId, q: Request, now: int, cfg: Config) returns (r: Result<Scope, Error>)
      modifies this
      ensures Reply(View(), r) == Reuse(old(View()), id, q, now, cfg)
    {
      if id !in scopes {
        return Err(ScopeNotFound);
      }
      var sc := scopes[id];
      if !sc.state.ScopeActive? { return Err(ScopeConflict); }
      if sc.workspaceId != q.workspaceId || sc.goal != q.goal { return Err(ScopeConflict); }
      if sc.mode != q.mode || sc.root != q.root { return Err(ScopeConflict); }
      if sc.token.Some? && q.token != sc.token { return Err(LeaseConflict); }
      if q.mode.ExclusiveWrite? && sc.lease.Some? && !sc.lease.value.state.LeaseActive? { return Err(LeaseIsFenced); }
      if q.mode.ExclusiveWrite? && sc.lease.Some? && sc.lease.value.expiresAt <= now { return Err(LeaseIsFenced); }
      for i := 0 to |sc.owners|
        invariant forall j :: 0 <= j < i ==> SameBinding(q.owner, sc.owners[j])
      {
        if !SameBinding(q.owner, sc.owners[i]) {
          return Err(ScopeConflict);
        }
      }
      if q.owner !in sc.owners {
        sc := sc.(owners := sc.owners + [q.owner]);
      }
      if sc.lease.Some? {
        var lease := sc.lease.value.(owners := sc.owners, expiresAt := now + cfg.timeout);
        sc := sc.(lease := Some(lease));
        leases := Put(leases, lease);
      }
      scopes := scopes[id := sc];
      return Ok(sc);
    }

    method AdmitScope(id: ScopeId, token: Token, q: Request, now: int, cfg: Config) returns (r: Result<Scope, Error>)
      modifies this
      ensures Reply(View(), r) == Admit(old(View()), id, token, q, now, cfg)
    {
      var sc := Scope(q.workspaceId, q.root, q.mode, [q.owner], q.goal, ScopeActive, None, None);
      if !q.mode.ReadOnlyShared? {
        sc := sc.(token := Some(token));
      }
      if q.mode.ExclusiveWrite? {
        var lease := Lease(LeaseKey(q.workspaceId, q.root), q.root, id, [q.owner], token, now + cfg.timeout, LeaseActive);
        sc := sc.(lease := Some(lease));
        leases := Put(leases, lease);
      }
      scopes := scopes[id := sc];
      return Ok(sc);
    }

    /** Admission: reuse of a scope, or a new one; `id` and `token` are the fresh random identifiers. */
    method BeginScope(id: ScopeId, token: Token, q: Request, now: int, cfg: Config) returns (r: Result<Scope, Error>)
      modifies this
      ensures Reply(View(), r) == Begin(old(View()), id, token, q, now, cfg)
    {
      if !ValidOwner(q.owner) { return Err(InvalidPolicy); }
      if q.mode.ReadOnlyShared? && !q.enforcedReadOnly { return Err(InvalidPolicy); }
      if Contains(q.root, cfg.stateDir) || Contains(q.root, cfg.worktreeRoot) { return Err(UnsupportedLayout); }
      if q.reuse.Some? {
        r := ReuseScope(q.reuse.value, q, now, cfg);
        return;
      }
      if !q.mode.ReadOnlyShared? {
        var occupied := Occupying(LeaseKey(q.workspaceId, q.root), q.root);
        if occupied.Some? && TakenOver(View(), occupied.value, cfg) {
          var freed := occupied.value.(state := LeaseReleased);
          var holder := scopes[freed.scopeId].(state := ScopeReleased);
          if holder.lease.Some? {
            holder := holder.(lease := Some(freed));
          }
          scopes := scopes[freed.scopeId := holder];
          leases := Put(leases, freed);
          assert View() == FreeLease(old(View()), occupied.value);
          occupied := None;
        }
        if occupied.Some? {
          if occupied.value.state.LeaseFenced? { return Err(LeaseIsFenced); }
          if occupied.value.expiresAt <= now {
            leases := Put(leases, occupied.value.(state := LeaseFenced));
            return Err(LeaseIsFenced);
          }
          return Err(LeaseConflict);
        }
      }
      r := AdmitScope(id, token, q, now, cfg);
    }

    method RenewLease(id: ScopeId, token: Token, now: int, cfg: Config) returns (r: Result<Lease, Error>)
      modifies this
      ensures Reply(View(), r) == Renew(old(View()), id, token, now, cfg)
    {
      if id !in scopes || scopes[id].lease.None? { return Err(ScopeNotFound); }
      var lease := scopes[id].lease.value;
      if lease.token != token { return Err(LeaseConflict); }
      if !lease.state.LeaseActive? || lease.expiresAt <= now { return Err(LeaseIsFenced); }
      lease := lease.(expiresAt := now + cfg.timeout);
      scopes := scopes[id := scopes[id].(lease := Some(lease))];
      leases := Put(leases, lease);
      return Ok(lease);
    }

    method FenceScope(id: ScopeId, token: Option<Token>) returns (r: Result<Scope, Error>)
      modifies this
      ensures Reply(View(), r) == Fence(old(View()), id, token)
    {
      if id !in scopes { return Err(ScopeNotFound); }
      var sc := scopes[id];
      if sc.lease.Some? && token.Some? && sc.lease.value.token != token.value { return Err(LeaseConflict); }
      sc := sc.(state := ScopeFenced);
      if sc.lease.Some? {
        sc := sc.(lease := Some(sc.lease.value.(state := LeaseFenced)));
        leases := Put(leases, sc.lease.value);
      }
      scopes := scopes[id := sc];
      return Ok(sc);
    }

    method ReleaseScope(id: ScopeId, token: Option<Token>, allowFenced: bool) returns (r: Result<Scope, Error>)
      modifies this
      ensures Reply(View(), r) == Release(old(View()), id, token, allowFenced)
    {
      if id !in scopes { return Err(ScopeNotFound); }
      var sc := scopes[id];
      if sc.state.ScopeFenced? && !allowFenced { return Err(LeaseIsFenced); }
      if sc.token.Some? && token != sc.token { return Err(LeaseConflict); }
      if sc.lease.Some? && token != Some(sc.lease.value.token) { return Err(LeaseConflict); }
      if sc.lease.Some? {
        sc := sc.(lease := Some(sc.lease.value.(state := LeaseReleased)));
        leases := Put(leases, sc.lease.value);
      }
      sc := sc.(state := ScopeReleased);
      scopes := scopes[id := sc];
      return Ok(sc);
    }
  }

  // ---- exclusivity ----

  /** A lease in the table and the copy in its scope describe the same grant. */
  ghost predicate Owned(st: State, l: Lease) {
    && l.scopeId in st.scopes && st.scopes[l.scopeId].lease.Some?
    && var c := st.scopes[l.scopeId].lease.value;
       c.key == l.key && c.root == l.root && c.token == l.token && (Held(l) ==> Held(c))
  }

  ghost predicate ScopeFits(st: State, id: ScopeId, sc: Scope) {
    && (sc.mode.ExclusiveWrite? <==> sc.lease.Some?)
    && (sc.lease.Some? ==>
          && sc.lease.value.scopeId == id && sc.lease.value.root == sc.root
          && (Held(sc.lease.value) ==> exists l :: l in st.leases && l.key == sc.lease.value.key && l.scopeId == id && Held(l)))
  }

  ghost predicate Disjoint(ls: seq<Lease>) {
    forall l, m :: l in ls && m in ls && l.key != m.key && Held(l) && Held(m) ==> !Overlaps(l.root, m.root)
  }

  ghost predicate Exclusive(st: State) {
    && UniqueKeys(st.leases)
    && (forall l :: l in st.leases ==> Owned(st, l))
    && (forall id :: id in st.scopes ==> ScopeFits(st, id, st.scopes[id]))
    && Disjoint(st.leases)
  }

  /** Among scopes that pass the lease check, exclusive roots never overlap. */
  lemma ExclusiveMeansOneWriter(st: State, i: ScopeId, j: ScopeId, ti: Token, tj: Token, now: int)
    requires Exclusive(st) && i != j
    requires AssertLeaseActive(st, i, ti, now) && AssertLeaseActive(st, j, tj, now)
    requires st.scopes[i].mode.ExclusiveWrite? && st.scopes[j].mode.ExclusiveWrite?
    ensures !Overlaps(st.scopes[i].root, st.scopes[j].root)
  {
    var l :| l in st.leases && l.key == st.scopes[i].lease.value.key && l.scopeId == i && Held(l);
    var m :| m in st.leases && m.key == st.scopes[j].lease.value.key && m.scopeId == j && Held(m);
    assert Owned(st, l) && Owned(st, m);
    if l.key == m.key {
      SameKeySameLease(st.leases, l, m);
    }
  }

  lemma SameKeySameLease(ls: seq<Lease>, l: Lease, m: Lease)
    requires UniqueKeys(ls) && l in ls && m in ls && l.key == m.key
    ensures l == m
  {
    var i :| 0 <= i < |ls| && ls[i] == l;
    var j :| 0 <= j < |ls| && ls[j] == m;
    assert i == j;
  }

  /** Another scope's held lease stands in the way of a grant of `root` under `key`. */
  ghost predicate Rivalled(st: State, id: ScopeId, key: Key, root: Root) {
    exists l :: l in st.leases && l.scopeId != id && Occupies(l, key, root)
  }

  /** The request itself is in order. */
  predicate MayBegin(q: Request, cfg: Config) {
    && ValidOwner(q.owner) && (q.mode.ReadOnlyShared? ==> q.enforcedReadOnly)
    && !Contains(q.root, cfg.stateDir) && !Contains(q.root, cfg.worktreeRoot)
  }

  /** A caller without a token may fence; one with a token must have the lease's. */
  predicate MayFence(st: State, id: ScopeId, token: Option<Token>) {
    && id in st.scopes
    && (st.scopes[id].lease.Some? && token.Some? ==> token.value == st.scopes[id].lease.value.token)
  }

  predicate MayRelease(st: State, id: ScopeId, token: Option<Token>, allowFenced: bool) {
    && id in st.scopes
    && (st.scopes[id].state.ScopeFenced? ==> allowFenced)
    && (st.scopes[id].token.Some? ==> token == st.scopes[id].token)
    && (st.scopes[id].lease.Some? ==> token == Some(st.scopes[id].lease.value.token))
  }

  /** The scope had a lease, and it was released before. */
  predicate ReleasedBefore(st: State, id: ScopeId) {
    id in st.scopes && st.scopes[id].lease.Some? && !Held(st.scopes[id].lease.value)
  }

  /** What a caller can check before the call: a takeover frees the only lease in the way, fencing a
      released scope meets no held lease on its tree, releasing it again meets none under its key. */
  ghost predicate Safe(st: State, op: Op, now: int, cfg: Config) {
    match op
    case DoBegin(id, token, q) =>
      MayBegin(q, cfg) && q.reuse.None? && q.mode.ExclusiveWrite? ==>
        var key := LeaseKey(q.workspaceId, q.root);
        var holder := FindOccupying(st.leases, key, q.root);
        holder.Some? && TakenOver(st, holder.value, cfg) ==> !Rivalled(st, holder.value.scopeId, key, q.root)
    case DoFence(id, token) =>
      MayFence(st, id, token) && ReleasedBefore(st, id) ==>
        !Rivalled(st, id, st.scopes[id].lease.value.key, st.scopes[id].root)
    case DoRelease(id, token, allow) =>
      MayRelease(st, id, token, allow) && ReleasedBefore(st, id) ==>
        forall l :: l in st.leases && l.scopeId != id && l.key == st.scopes[id].lease.value.key ==> !Held(l)
    case _ => true
  }

  ghost predicate FreshIds(st: State, op: Op) {
    op.DoBegin? ==> op.id !in st.scopes
  }

  /** Replacing a scope's own lease copy, in the scope and in the table. */
  function Regrant(st: State, id: ScopeId, sc: Scope, l: Lease): State {
    State(st.scopes[id := sc.(lease := Some(l))], Put(st.leases, l))
  }

  /** Writing a lease of scope `id` keeps exclusivity exactly when no held lease of another scope is
      overwritten and, for a held lease, none overlaps it. */
  lemma RegrantKeepsExclusive(st: State, id: ScopeId, sc: Scope, l: Lease)
    requires Exclusive(st)
    requires l.scopeId == id && l.root == sc.root && sc.mode.ExclusiveWrite?
    requires id in st.scopes ==>
      st.scopes[id].lease.Some? && st.scopes[id].lease.value.key == l.key &&
      st.scopes[id].lease.value.root == l.root && st.scopes[id].lease.value.token == l.token
    requires forall m :: m in st.leases && m.scopeId != id && Held(m) ==> m.key != l.key && (Held(l) ==> !Overlaps(m.root, l.root))
    ensures Exclusive(Regrant(st, id, sc, l))
  {
    var st' := Regrant(st, id, sc, l);
    PutContents(st.leases, l);
    forall m | m in st'.leases
      ensures Owned(st', m)
    {
      if m != l {
        assert Owned(st, m);
      }
    }
    forall x | x in st'.scopes
      ensures ScopeFits(st', x, st'.scopes[x])
    {
      if x == id {
        assert l in st'.leases;
      } else {
        assert ScopeFits(st, x, st.scopes[x]);
        if st.scopes[x].lease.Some? && Held(st.scopes[x].lease.value) {
          var m :| m in st.leases && m.key == st.scopes[x].lease.value.key && m.scopeId == x && Held(m);
          assert m in st'.leases;
        }
      }
    }
    forall a, b | a in st'.leases && b in st'.leases && a.key != b.key && Held(a) && Held(b)
      ensures !Overlaps(a.root, b.root)
    {
      if a == l || b == l {
        var m := if a == l then b else a;
        assert Owned(st, m);
        assert m.scopeId != id;
      }
    }
  }

  /** A held lease of another scope in the way makes the same write break exclusivity. */
  lemma RegrantBreaksExclusive(st: State, id: ScopeId, sc: Scope, l: Lease, m: Lease)
    requires Exclusive(st) && l.scopeId == id
    requires m in st.leases && m.scopeId != id && Held(m)
    requires m.key == l.key || (Held(l) && Overlaps(m.root, l.root))
    ensures !Exclusive(Regrant(st, id, sc, l))
  {
    var st' := Regrant(st, id, sc, l);
    PutContents(st.leases, l);
    assert Owned(st, m);
    if m.key == l.key {
      var x := m.scopeId;
      assert st'.scopes[x] == st.scopes[x] && Held(st.scopes[x].lease.value);
      assert forall n :: n in st'.leases && n.key == m.key ==> n.scopeId != x;
      assert !ScopeFits(st', x, st'.scopes[x]);
    } else {
      assert m in st'.leases && l in st'.leases;
    }
  }

  /** A scope's own lease is the only table entry its copy speaks about. */
  lemma OwnEntry(st: State, id: ScopeId, m: Lease)
    requires Exclusive(st) && id in st.scopes && st.scopes[id].lease.Some? && Held(st.scopes[id].lease.value)
    requires m in st.leases && m.scopeId != id && Held(m)
    ensures m.key != st.scopes[id].lease.value.key && !Overlaps(m.root, st.scopes[id].root)
  {
    assert ScopeFits(st, id, st.scopes[id]);
    var l :| l in st.leases && l.key == st.scopes[id].lease.value.key && l.scopeId == id && Held(l);
    assert Owned(st, l);
    if m.key == l.key {
      SameKeySameLease(st.leases, l, m);
    }
  }

  lemma UntouchedLeases(st: State, id: ScopeId, sc: Scope)
    requires Exclusive(st) && ScopeFits(st, id, sc)
    requires id in st.scopes ==> sc.lease == st.scopes[id].lease
    requires id !in st.scopes ==> sc.lease.None?
    ensures Exclusive(st.(scopes := st.scopes[id := sc]))
  {
    var st' := st.(scopes := st.scopes[id := sc]);
    forall l | l in st'.leases
      ensures Owned(st', l)
    {
      assert Owned(st, l);
    }
    forall x | x in st'.scopes
      ensures ScopeFits(st', x, st'.scopes[x])
    {
      assert x != id ==> ScopeFits(st, x, st.scopes[x]);
    }
  }

  lemma CloseExactly(st: State, id: ScopeId, scopeState: ScopeState, leaseState: LeaseState)
    requires Exclusive(st) && id in st.scopes && !leaseState.LeaseActive?
    ensures Exclusive(Close(st, id, scopeState, leaseState).st) <==>
            (st.scopes[id].lease.Some? && !Held(st.scopes[id].lease.value) ==>
               if leaseState.LeaseFenced?
               then !Rivalled(st, id, st.scopes[id].lease.value.key, st.scopes[id].root)
               else forall l :: l in st.leases && l.scopeId != id && l.key == st.scopes[id].lease.value.key ==> !Held(l))
  {
    var sc := st.scopes[id];
    assert ScopeFits(st, id, sc);
    if sc.lease.None? {
      UntouchedLeases(st, id, sc.(state := scopeState));
    } else {
      var l := sc.lease.value.(state := leaseState);
      var sc' := sc.(state := scopeState);
      assert Close(st, id, scopeState, leaseState).st == Regrant(st, id, sc', l);
      if m :| m in st.leases && m.scopeId != id && Held(m) && (m.key == l.key || (Held(l) && Overlaps(m.root, l.root))) {
        RegrantBreaksExclusive(st, id, sc', l, m);
        if Held(sc.lease.value) {
          OwnEntry(st, id, m);
        }
      } else {
        RegrantKeepsExclusive(st, id, sc', l);
      }
    }
  }

  lemma FreeKeepsExclusive(st: State, l: Lease)
    requires Exclusive(st) && l in st.leases && Held(l)
    ensures l.scopeId in st.scopes && Exclusive(FreeLease(st, l))
    ensures forall m :: m in FreeLease(st, l).leases && Held(m) <==> m in st.leases && Held(m) && m.scopeId != l.scopeId
    ensures FreeLease(st, l).scopes.Keys == st.scopes.Keys
  {
    assert Owned(st, l);
    var id := l.scopeId;
    var sc := st.scopes[id];
    assert ScopeFits(st, id, sc);
    var freed := l.(state := LeaseReleased);
    PutContents(st.leases, freed);
    forall m | m in st.leases && m.scopeId != id && Held(m)
      ensures m.key != l.key
    {
      OwnEntry(st, id, m);
    }
    forall m | m in st.leases && m.scopeId == id
      ensures m == l
    {
      assert Owned(st, m);
      SameKeySameLease(st.leases, l, m);
    }
    RegrantKeepsExclusive(st, id, sc.(state := ScopeReleased), freed);
    assert FreeLease(st, l) == Regrant(st, id, sc.(state := ScopeReleased), freed);
  }

  lemma AdmitExactly(st: State, id: ScopeId, token: Token, q: Request, now: int, cfg: Config)
    requires Exclusive(st) && id !in st.scopes
    ensures Exclusive(Admit(st, id, token, q, now, cfg).st) <==>
            (q.mode.ExclusiveWrite? ==> forall l :: l in st.leases ==> !Occupies(l, LeaseKey(q.workspaceId, q.root), q.root))
  {
    var key := LeaseKey(q.workspaceId, q.root);
    var sc := Admit(st, id, token, q, now, cfg).result.value;
    forall l | l in st.leases
      ensures l.scopeId != id
    {
      assert Owned(st, l);
    }
    if q.mode.ExclusiveWrite? {
      assert Admit(st, id, token, q, now, cfg).st == Regrant(st, id, sc, sc.lease.value);
      if l :| l in st.leases && Occupies(l, key, q.root) {
        RegrantBreaksExclusive(st, id, sc, sc.lease.value, l);
      } else {
        RegrantKeepsExclusive(st, id, sc, sc.lease.value);
      }
    } else {
      UntouchedLeases(st, id, sc);
    }
  }

  lemma BeginExactly(st: State, id: ScopeId, token: Token, q: Request, now: int, cfg: Config)
    requires Exclusive(st) && id !in st.scopes
    ensures Exclusive(Begin(st, id, token, q, now, cfg).st) <==> Safe(st, DoBegin(id, token, q), now, cfg)
  {
    var key := LeaseKey(q.workspaceId, q.root);
    var r := Begin(st, id, token, q, now, cfg);
    if r.st == st {
    } else if q.reuse.Some? {
      var x := q.reuse.value;
      ReuseKeepsExclusive(st, x, q, now, cfg);
    } else if q.mode.ReadOnlyShared? {
      AdmitExactly(st, id, token, q, now, cfg);
    } else {
      var holder := FindOccupying(st.leases, key, q.root);
      if holder.None? {
        AdmitExactly(st, id, token, q, now, cfg);
      } else {
        var l := holder.value;
        assert Owned(st, l);
        if TakenOver(st, l, cfg) {
          FreeKeepsExclusive(st, l);
          AdmitExactly(FreeLease(st, l), id, token, q, now, cfg);
        } else {
          FenceInTable(st, l);
        }
      }
    }
  }

  /** Fencing an expired lease in the table alone. */
  lemma FenceInTable(st: State, l: Lease)
    requires Exclusive(st) && l in st.leases && Held(l)
    ensures Exclusive(st.(leases := Put(st.leases, l.(state := LeaseFenced))))
  {
    var l' := l.(state := LeaseFenced);
    var st' := st.(leases := Put(st.leases, l'));
    PutContents(st.leases, l');
    assert Owned(st, l);
    forall m | m in st'.leases
      ensures Owned(st', m)
    {
      assert m != l' ==> Owned(st, m);
    }
    forall x | x in st'.scopes
      ensures ScopeFits(st', x, st'.scopes[x])
    {
      assert ScopeFits(st, x, st.scopes[x]);
      if st.scopes[x].lease.Some? && Held(st.scopes[x].lease.value) {
        var m :| m in st.leases && m.key == st.scopes[x].lease.value.key && m.scopeId == x && Held(m);
        if m.key == l.key {
          SameKeySameLease(st.leases, l, m);
          assert l' in st'.leases;
        } else {
          assert m in st'.leases;
        }
      }
    }
    forall a, b | a in st'.leases && b in st'.leases && a.key != b.key && Held(a) && Held(b)
      ensures !Overlaps(a.root, b.root)
    {
      assert !Overlaps((if a == l' then l else a).root, (if b == l' then l else b).root);
    }
  }

  lemma ReuseKeepsExclusive(st: State, id: ScopeId, q: Request, now: int, cfg: Config)
    requires Exclusive(st)
    ensures Exclusive(Reuse(st, id, q, now, cfg).st)
  {
    var r := Reuse(st, id, q, now, cfg);
    if r.result.Ok? {
      var sc := st.scopes[id];
      assert ScopeFits(st, id, sc);
      if sc.lease.Some? {
        forall m | m in st.leases && m.scopeId != id && Held(m)
          ensures m.key != sc.lease.value.key && !Overlaps(m.root, sc.root)
        {
          OwnEntry(st, id, m);
        }
        RegrantKeepsExclusive(st, id, r.result.value, r.result.value.lease.value);
        assert r.st == Regrant(st, id, r.result.value, r.result.value.lease.value);
      } else {
        UntouchedLeases(st, id, r.result.value);
      }
    }
  }

  lemma RenewKeepsExclusive(st: State, id: ScopeId, token: Token, now: int, cfg: Config)
    requires Exclusive(st)
    ensures Exclusive(Renew(st, id, token, now, cfg).st)
  {
    var r := Renew(st, id, token, now, cfg);
    if r.result.Ok? {
      var sc := st.scopes[id];
      assert ScopeFits(st, id, sc);
      forall m | m in st.leases && m.scopeId != id && Held(m)
        ensures m.key != sc.lease.value.key && !Overlaps(m.root, sc.root)
      {
        OwnEntry(st, id, m);
      }
      RegrantKeepsExclusive(st, id, sc, r.result.value);
    }
  }

  /** What an admission grants: the new scope passes the lease check with its own token, with no other one,
      and in exclusive mode until its time is up; for every other scope the check is as before. */
  lemma AdmissionGrantsExactly(st: State, id: ScopeId, token: Token, q: Request, now: int, cfg: Config, other: ScopeId, t: Token, at: int)
    requires id !in st.scopes && other != id
    ensures var st' := Admit(st, id, token, q, now, cfg).st;
            && (AssertLeaseActive(st', id, t, at) <==>
                  !q.mode.ReadOnlyShared? && t == token && (q.mode.ExclusiveWrite? ==> at < now + cfg.timeout))
            && (AssertLeaseActive(st', other, t, at) <==> AssertLeaseActive(st, other, t, at))
  {
  }

  // ---- what each operation grants and ends ----

  /** The lease check of a scope is the same before and after, at any time and for any token. */
  ghost predicate SameChecks(st: State, st': State, id: ScopeId) {
    forall t, at :: AssertLeaseActive(st', id, t, at) <==> AssertLeaseActive(st, id, t, at)
  }

  /** No token passes for the scope, now or later. */
  ghost predicate Ended(st: State, id: ScopeId) {
    forall t, at :: !AssertLeaseActive(st, id, t, at)
  }

  /** The table holds `l` under its key; everything else is as it was. */
  ghost predicate Rewritten(ls: seq<Lease>, ls': seq<Lease>, l: Lease) {
    forall x :: x in ls' <==> x == l || (x in ls && x.key != l.key)
  }

  /** Renewal succeeds exactly for the owner of a live lease. From then on the scope's token passes until the
      timeout has gone by from now, table and scope hold the same new lease, and no other scope is touched.
      A refused renewal changes nothing. */
  lemma RenewalExtendsExactly(st: State, id: ScopeId, token: Token, now: int, cfg: Config, t: Token, at: int)
    requires UniqueKeys(st.leases)
    ensures var r := Renew(st, id, token, now, cfg);
            var live := && id in st.scopes && st.scopes[id].lease.Some? && st.scopes[id].lease.value.token == token
                        && st.scopes[id].lease.value.state.LeaseActive? && now < st.scopes[id].lease.value.expiresAt;
            && (r.result.Ok? <==> live)
            && (!live ==> r.st == st)
            && (live ==>
                  var l := st.scopes[id].lease.value.(expiresAt := now + cfg.timeout);
                  && r.result == Ok(l) && r.st.scopes == st.scopes[id := st.scopes[id].(lease := Some(l))] && Rewritten(st.leases, r.st.leases, l)
                  && (AssertLeaseActive(r.st, id, t, at) <==>
                        st.scopes[id].state.ScopeActive? && st.scopes[id].token == Some(t) && at < now + cfg.timeout))
  {
    if Renew(st, id, token, now, cfg).result.Ok? {
      PutContents(st.leases, st.scopes[id].lease.value.(expiresAt := now + cfg.timeout));
    }
  }

  /** The request names the scope as it is: its workspace, goal, mode and tree, its token, owners of its kind. */
  ghost predicate NamesScope(sc: Scope, q: Request) {
    && sc.workspaceId == q.workspaceId && sc.goal == q.goal && sc.mode == q.mode && sc.root == q.root
    && (sc.token.Some? ==> q.token == sc.token)
    && forall o :: o in sc.owners ==> SameBinding(q.owner, o)
  }

  /** What a reuse leaves: the scope with the owner added, its lease extended in scope and table. */
  ghost predicate Reused(st: State, r: Reply<Scope>, id: ScopeId, q: Request, now: int, cfg: Config)
    requires id in st.scopes
  {
    && r.result.Ok? && r.st.scopes == st.scopes[id := r.result.value]
    && (forall o :: o in r.result.value.owners <==> o == q.owner || o in st.scopes[id].owners)
    && (st.scopes[id].lease.None? ==> r.st.leases == st.leases && r.result.value.lease.None?)
    && (st.scopes[id].lease.Some? ==>
          var l := st.scopes[id].lease.value.(owners := r.result.value.owners, expiresAt := now + cfg.timeout);
          r.result.value.lease == Some(l) && Rewritten(st.leases, r.st.leases, l))
  }

  lemma ReuseGrants(st: State, id: ScopeId, q: Request, now: int, cfg: Config)
    requires UniqueKeys(st.leases) && Reuse(st, id, q, now, cfg).result.Ok?
    ensures id in st.scopes && Reused(st, Reuse(st, id, q, now, cfg), id, q, now, cfg)
  {
    ReuseIs(st, id, q, now, cfg);
    var sc := st.scopes[id];
    if sc.lease.Some? {
      PutContents(st.leases, sc.lease.value.(owners := WithOwner(sc.owners, q.owner), expiresAt := now + cfg.timeout));
    }
  }

  function WithOwner(owners: seq<Owner>, o: Owner): seq<Owner> {
    if o in owners then owners else owners + [o]
  }

  lemma ReuseIs(st: State, id: ScopeId, q: Request, now: int, cfg: Config)
    requires Reuse(st, id, q, now, cfg).result.Ok?
    ensures id in st.scopes
    ensures var sc, owners := st.scopes[id], WithOwner(st.scopes[id].owners, q.owner);
            var l := if sc.lease.Some? then Some(sc.lease.value.(owners := owners, expiresAt := now + cfg.timeout)) else None;
            Reuse(st, id, q, now, cfg) == Reply(State(st.scopes[id := sc.(owners := owners, lease := l)],
                                                      if l.Some? then Put(st.leases, l.value) else st.leases),
                                                Ok(sc.(owners := owners, lease := l)))
  {
  }

  lemma ReuseExtends(st: State, id: ScopeId, q: Request, now: int, cfg: Config, t: Token, at: int)
    requires Reuse(st, id, q, now, cfg).result.Ok?
    ensures AssertLeaseActive(Reuse(st, id, q, now, cfg).st, id, t, at) <==>
              && st.scopes[id].token == Some(t)
              && (st.scopes[id].lease.Some? ==> st.scopes[id].lease.value.state.LeaseActive? && at < now + cfg.timeout)
  {
  }

  /** A scope is reused exactly when it is active, the request names it as it is and its exclusive lease is
      live. The owner joins it, and its lease lives until the timeout has gone by from now. A refused reuse
      changes nothing. */
  lemma ReuseExtendsExactly(st: State, id: ScopeId, q: Request, now: int, cfg: Config, t: Token, at: int)
    requires UniqueKeys(st.leases)
    ensures var r := Reuse(st, id, q, now, cfg);
            var fits := && id in st.scopes && st.scopes[id].state.ScopeActive? && NamesScope(st.scopes[id], q)
                        && (q.mode.ExclusiveWrite? && st.scopes[id].lease.Some? ==> Live(st.scopes[id].lease.value, now));
            && (r.result.Ok? <==> fits)
            && (!fits ==> r.st == st)
            && (fits ==>
                  && Reused(st, r, id, q, now, cfg)
                  && (AssertLeaseActive(r.st, id, t, at) <==>
                        && st.scopes[id].token == Some(t)
                        && (st.scopes[id].lease.Some? ==> st.scopes[id].lease.value.state.LeaseActive? && at < now + cfg.timeout)))
  {
    if Reuse(st, id, q, now, cfg).result.Ok? {
      ReuseGrants(st, id, q, now, cfg);
      ReuseExtends(st, id, q, now, cfg, t, at);
    }
  }

  /** Fencing a scope ends it for every token; its lease stays in the table, held and fenced. No other scope's
      check changes, and a refused call changes nothing. */
  lemma FenceEndsGrant(st: State, id: ScopeId, token: Option<Token>, other: ScopeId)
    requires UniqueKeys(st.leases) && other != id
    ensures var r := Fence(st, id, token);
            && (r.result.Ok? <==> MayFence(st, id, token))
            && (!MayFence(st, id, token) ==> r.st == st)
            && (MayFence(st, id, token) ==>
                  && Ended(r.st, id) && SameChecks(st, r.st, other)
                  && r.st.scopes == st.scopes[id := r.result.value] && r.result.value.state.ScopeFenced?
                  && (st.scopes[id].lease.None? ==> r.st.leases == st.leases)
                  && (st.scopes[id].lease.Some? ==>
                        Rewritten(st.leases, r.st.leases, st.scopes[id].lease.value.(state := LeaseFenced))))
  {
    if MayFence(st, id, token) && st.scopes[id].lease.Some? {
      PutContents(st.leases, st.scopes[id].lease.value.(state := LeaseFenced));
    }
  }

  /** Releasing a scope ends it too, and frees the key of its lease. */
  lemma ReleaseEndsGrant(st: State, id: ScopeId, token: Option<Token>, allowFenced: bool, other: ScopeId)
    requires UniqueKeys(st.leases) && other != id
    ensures var r := Release(st, id, token, allowFenced);
            && (r.result.Ok? <==> MayRelease(st, id, token, allowFenced))
            && (!MayRelease(st, id, token, allowFenced) ==> r.st == st)
            && (MayRelease(st, id, token, allowFenced) ==>
                  && Ended(r.st, id) && SameChecks(st, r.st, other)
                  && r.st.scopes == st.scopes[id := r.result.value] && r.result.value.state.ScopeReleased?
                  && (st.scopes[id].lease.None? ==> r.st.leases == st.leases)
                  && (st.scopes[id].lease.Some? ==>
                        && Rewritten(st.leases, r.st.leases, st.scopes[id].lease.value.(state := LeaseReleased))
                        && forall l :: l in r.st.leases && l.key == st.scopes[id].lease.value.key ==> !Held(l)))
  {
    if MayRelease(st, id, token, allowFenced) && st.scopes[id].lease.Some? {
      PutContents(st.leases, st.scopes[id].lease.value.(state := LeaseReleased));
    }
  }

  /** A settled promotion ends its scope, applied or not, and touches no lease; it needs the scope's token, an
      isolated checkout, and nobody holding a lease on the tree. */
  lemma PromotionEndsGrant(st: State, id: ScopeId, token: Option<Token>, applied: bool, other: ScopeId)
    requires other != id
    ensures var r := SettlePromotion(st, id, token, applied);
            var may := && id in st.scopes && !st.scopes[id].state.ScopeReleased? && st.scopes[id].mode.IsolatedWorktree?
                       && (st.scopes[id].token.Some? ==> token == st.scopes[id].token)
                       && forall l :: l in st.leases && Overlaps(l.root, st.scopes[id].root) ==> l.state.LeaseReleased?;
            && (r.result.Ok? <==> may)
            && (!may ==> r.st == st)
            && (may ==> Ended(r.st, id) && SameChecks(st, r.st, other) && r.st.leases == st.leases
                        && r.st.scopes == st.scopes[id := r.result.value]
                        && (r.result.value.state.ScopePromoted? <==> applied) && (r.result.value.state.ScopeFenced? <==> !applied))
  {
  }

  /** Somebody's lease is in the way of a writer that asks for a new scope. */
  ghost predicate InTheWay(st: State, q: Request, l: Lease) {
    l in st.leases && Occupies(l, LeaseKey(q.workspaceId, q.root), q.root)
  }

  /** The lease is not fenced, its scope is active, and each of its owners, of which there is one at least, is closed. */
  ghost predicate HolderIsDone(st: State, l: Lease, cfg: Config) {
    && l.state.LeaseActive? && l.scopeId in st.scopes && st.scopes[l.scopeId].state.ScopeActive?
    && |l.owners| > 0 && cfg.ownerClosed.Some? && forall i :: 0 <= i < |l.owners| ==> cfg.ownerClosed.value(l.owners[i])
  }

  /** How a request for a new scope is answered. One that is not in order, and every refusal, grants nothing.
      A reader is admitted. A writer is admitted when nobody is in the way, and otherwise only by taking over a
      lease of an active scope whose owners are all closed, which ends that scope and frees that lease. It is
      refused as a conflict because of a live lease, and as fenced because of a fenced one or of one that has
      expired, which is fenced then. */
  lemma NewScopeAnswers(st: State, id: ScopeId, token: Token, q: Request, now: int, cfg: Config)
    requires UniqueKeys(st.leases) && id !in st.scopes && q.reuse.None?
    ensures var r := Begin(st, id, token, q, now, cfg);
            && (!MayBegin(q, cfg) ==> r.result.Err? && r.st == st)
            && (r.result.Err? ==> r.st.scopes == st.scopes)
            && (r.result.Ok? ==> id in r.st.scopes && r.result.value == r.st.scopes[id])
            && (MayBegin(q, cfg) && (q.mode.ReadOnlyShared? || forall l :: !InTheWay(st, q, l)) ==> r.result.Ok?)
            && (r.result.Ok? && !q.mode.ReadOnlyShared? && (exists l :: InTheWay(st, q, l)) ==>
                  exists l :: InTheWay(st, q, l) && TakenOver(st, l, cfg) && HolderIsDone(st, l, cfg) && Ended(r.st, l.scopeId) && l !in r.st.leases)
            && (MayBegin(q, cfg) && r.result.Err? ==>
                  && (r.result.error.LeaseConflict? || r.result.error.LeaseIsFenced?)
                  && exists l :: InTheWay(st, q, l) && !TakenOver(st, l, cfg) &&
                       (r.result.error.LeaseConflict? <==> Live(l, now)) &&
                       (if l.state.LeaseActive? && !Live(l, now) then Rewritten(st.leases, r.st.leases, l.(state := LeaseFenced)) else r.st == st))
  {
    var holder := FindOccupying(st.leases, LeaseKey(q.workspaceId, q.root), q.root);
    if MayBegin(q, cfg) && !q.mode.ReadOnlyShared? && holder.Some? {
      var l := holder.value;
      assert InTheWay(st, q, l);
      if TakenOver(st, l, cfg) {
        TakenOverIsFreed(st, id, token, q, now, cfg, l);
      } else {
        PutContents(st.leases, l.(state := LeaseFenced));
      }
    }
  }

  lemma TakenOverIsFreed(st: State, id: ScopeId, token: Token, q: Request, now: int, cfg: Config, l: Lease)
    requires UniqueKeys(st.leases) && id !in st.scopes && l in st.leases && TakenOver(st, l, cfg)
    ensures var r := Admit(FreeLease(st, l), id, token, q, now, cfg);
            Ended(r.st, l.scopeId) && l !in r.st.leases
  {
    var freed := FreeLease(st, l);
    PutContents(st.leases, l.(state := LeaseReleased));
    var r := Admit(freed, id, token, q, now, cfg);
    if r.result.value.lease.Some? {
      PutContents(freed.leases, r.result.value.lease.value);
      assert r.result.value.lease.value != l;
    }
  }

  /** What was admitted can be reused: the same request, with the scope's id and the token it was given, finds
      the scope as long as its time is not up, and adds nothing; and the lease of a writer names its owner. */
  lemma AdmittedCanBeReused(st: State, id: ScopeId, token: Token, q: Request, now: int, cfg: Config, later: int)
    requires id !in st.scopes && MayBegin(q, cfg) && q.reuse.None? && (q.mode.ExclusiveWrite? ==> later < now + cfg.timeout)
    requires Begin(st, id, token, q, now, cfg).result.Ok?
    ensures var begun := Begin(st, id, token, q, now, cfg);
            var again := Begin(begun.st, id, token, q.(reuse := Some(id), token := Some(token)), later, cfg);
            && again.result.Ok? && again.result.value.owners == begun.result.value.owners == [q.owner]
            && (q.mode.ExclusiveWrite? <==> begun.result.value.lease.Some?)
            && (q.mode.ExclusiveWrite? ==> begun.result.value.lease.value.owners == [q.owner] &&
                                           begun.result.value.lease.value.expiresAt == now + cfg.timeout)
  {
    AdmittedScope(st, id, token, q, now, cfg);
    AdmittedFits(Begin(st, id, token, q, now, cfg).st, id, token, q, later, cfg);
  }

  /** What a scope is when it is admitted. */
  ghost predicate IsAdmitted(sc: Scope, id: ScopeId, token: Token, q: Request, expiresAt: int) {
    && sc.owners == [q.owner] && sc.goal == q.goal && sc.workspaceId == q.workspaceId && sc.root == q.root && sc.mode == q.mode
    && sc.state.ScopeActive? && (sc.token.Some? ==> sc.token.value == token)
    && (q.mode.ExclusiveWrite? <==> sc.lease.Some?)
    && (sc.lease.Some? ==> sc.lease.value.owners == [q.owner] && sc.lease.value.expiresAt == expiresAt && sc.lease.value.state.LeaseActive?)
  }

  lemma AdmittedScope(st: State, id: ScopeId, token: Token, q: Request, now: int, cfg: Config)
    requires id !in st.scopes && MayBegin(q, cfg) && q.reuse.None? && Begin(st, id, token, q, now, cfg).result.Ok?
    ensures var r := Begin(st, id, token, q, now, cfg);
            id in r.st.scopes && r.result.value == r.st.scopes[id] && IsAdmitted(r.result.value, id, token, q, now + cfg.timeout)
  {
  }

  lemma AdmittedFits(st: State, id: ScopeId, token: Token, q: Request, later: int, cfg: Config)
    requires id in st.scopes && MayBegin(q, cfg) && q.reuse.None?
    requires exists end :: IsAdmitted(st.scopes[id], id, token, q, end) && (q.mode.ExclusiveWrite? ==> later < end)
    ensures var again := Begin(st, id, token, q.(reuse := Some(id), token := Some(token)), later, cfg);
            again.result.Ok? && again.result.value.owners == [q.owner]
  {
  }

  /** Exactly which operations keep exclusivity. */
  lemma StepKeepsExclusiveExactly(st: State, op: Op, now: int, cfg: Config)
    requires Exclusive(st) && FreshIds(st, op)
    ensures Exclusive(Apply(st, op, now, cfg)) <==> Safe(st, op, now, cfg)
  {
    match op
    case DoBegin(id, token, q) => BeginExactly(st, id, token, q, now, cfg);
    case DoRenew(id, token) => RenewKeepsExclusive(st, id, token, now, cfg);
    case DoFence(id, token) =>
      if Fence(st, id, token).result.Ok? {
        assert ScopeFits(st, id, st.scopes[id]);
        CloseExactly(st, id, ScopeFenced, LeaseFenced);
      }
    case DoRelease(id, token, allow) =>
      if Release(st, id, token, allow).result.Ok? {
        CloseExactly(st, id, ScopeReleased, LeaseReleased);
      }
    case DoPromote(id, token, applied) =>
      var r := SettlePromotion(st, id, token, applied);
      if r.result.Ok? {
        assert ScopeFits(st, id, st.scopes[id]);
        UntouchedLeases(st, id, r.result.value);
      }
  }

  // ---- runs ----

  datatype Call = Call(op: Op, now: int, cfg: Config)

  function Run(st: State, calls: seq<Call>): State
    decreases |calls|
  {
    if calls == [] then st
    else Run(Apply(st, calls[0].op, calls[0].now, calls[0].cfg), calls[1..])
  }

  /** Ids are fresh and the clock never goes back. */
  ghost predicate Plausible(st: State, calls: seq<Call>, since: int)
    decreases |calls|
  {
    calls == [] ||
    (&& FreshIds(st, calls[0].op) && since <= calls[0].now
     && Plausible(Apply(st, calls[0].op, calls[0].now, calls[0].cfg), calls[1..], calls[0].now))
  }

  ghost predicate SafeRun(st: State, calls: seq<Call>)
    decreases |calls|
  {
    calls == [] ||
    (&& Safe(st, calls[0].op, calls[0].now, calls[0].cfg)
     && SafeRun(Apply(st, calls[0].op, calls[0].now, calls[0].cfg), calls[1..]))
  }

  const Empty := State(map[], [])

  /** Two exclusive scopes on overlapping trees pass the lease check. */
  ghost predicate TwoWriters(st: State, x: ScopeId, tx: Token, y: ScopeId, ty: Token, now: int) {
    && x != y && AssertLeaseActive(st, x, tx, now) && AssertLeaseActive(st, y, ty, now)
    && st.scopes[x].mode.ExclusiveWrite? && st.scopes[y].mode.ExclusiveWrite?
    && Overlaps(st.scopes[x].root, st.scopes[y].root)
  }

  /** In every state a safe run reaches, exclusive writers that pass the lease check never overlap. */
  lemma {:induction false} RunsKeepOneWriter(st: State, calls: seq<Call>, since: int)
    requires Exclusive(st) && Plausible(st, calls, since) && SafeRun(st, calls)
    ensures Exclusive(Run(st, calls))
    ensures forall i, j, ti, tj, now {:trigger AssertLeaseActive(Run(st, calls), i, ti, now), AssertLeaseActive(Run(st, calls), j, tj, now)} ::
              i != j && AssertLeaseActive(Run(st, calls), i, ti, now) && AssertLeaseActive(Run(st, calls), j, tj, now) &&
              Run(st, calls).scopes[i].mode.ExclusiveWrite? && Run(st, calls).scopes[j].mode.ExclusiveWrite? ==>
                !Overlaps(Run(st, calls).scopes[i].root, Run(st, calls).scopes[j].root)
    decreases |calls|
  {
    if calls == [] {
      forall i, j, ti, tj, now | i != j && AssertLeaseActive(st, i, ti, now) && AssertLeaseActive(st, j, tj, now) &&
                                 st.scopes[i].mode.ExclusiveWrite? && st.scopes[j].mode.ExclusiveWrite?
        ensures !Overlaps(st.scopes[i].root, st.scopes[j].root)
      {
        ExclusiveMeansOneWriter(st, i, j, ti, tj, now);
      }
    } else {
      var c := calls[0];
      StepKeepsExclusiveExactly(st, c.op, c.now, c.cfg);
      RunsKeepOneWriter(Apply(st, c.op, c.now, c.cfg), calls[1..], c.now);
    }
  }

  /** Hence from the empty tables on: in every state that safe operations reach there is one writer on a tree. */
  lemma ReachableHaveOneWriter(calls: seq<Call>, since: int, i: ScopeId, ti: Token, j: ScopeId, tj: Token, now: int)
    requires Plausible(Empty, calls, since) && SafeRun(Empty, calls)
    ensures !TwoWriters(Run(Empty, calls), i, ti, j, tj, now)
  {
    RunsKeepOneWriter(Empty, calls, since);
  }

  // ---- owners ----

  /** Two owners that may share a scope: of one kind, and native sessions only for the same session and item. */
  predicate MayShare(a: Owner, b: Owner) {
    && (a.Delegation? <==> b.Delegation?) && (a.NativeSession? <==> b.NativeSession?)
    && (a.NativeSession? && b.NativeSession? ==> a.sessionId == b.sessionId && a.workItemId == b.workItemId)
  }

  /** Something other than white space. */
  ghost predicate Says(s: string) {
    exists i :: 0 <= i < |s| && s[i] != ' ' && s[i] != '\t' && s[i] != '\n' && s[i] != '\r'
  }

  ghost predicate IsNamed(o: Owner) {
    match o
    case Delegation(id) => Says(id)
    case NativeSession(session, turn, _) => Says(session) && Says(turn)
    case VerificationEnvironment(id) => Says(id)
  }

  lemma ValidIsNamed(o: Owner)
    requires ValidOwner(o)
    ensures IsNamed(o)
  {
  }

  ghost predicate SharedProperly(sc: Scope) {
    && (forall a, b :: a in sc.owners && b in sc.owners ==> MayShare(a, b))
    && (forall a :: a in sc.owners ==> IsNamed(a))
  }

  /** A scope's own lease names the scope and its owners. */
  ghost predicate ScopeNames(id: ScopeId, sc: Scope) {
    SharedProperly(sc) && (sc.lease.Some? ==> sc.lease.value.scopeId == id && sc.lease.value.owners == sc.owners)
  }

  /** A lease in the table has the key of its scope's lease and names the owners of the scope. */
  ghost predicate LeaseNames(st: State, l: Lease) {
    && l.scopeId in st.scopes && st.scopes[l.scopeId].lease.Some?
    && l.key == st.scopes[l.scopeId].lease.value.key && l.owners == st.scopes[l.scopeId].owners
  }

  ghost predicate OwnersAgree(st: State) {
    && UniqueKeys(st.leases)
    && (forall id :: id in st.scopes ==> ScopeNames(id, st.scopes[id]))
    && (forall l :: l in st.leases ==> LeaseNames(st, l))
  }

  /** Writing a scope and, under its own key, its lease. */
  lemma GrantKeepsOwners(st: State, st': State, id: ScopeId, sc: Scope)
    requires OwnersAgree(st) && st'.scopes == st.scopes[id := sc] && ScopeNames(id, sc)
    requires st'.leases == if sc.lease.Some? then Put(st.leases, sc.lease.value) else st.leases
    requires id in st.scopes ==> (st.scopes[id].lease.Some? <==> sc.lease.Some?)
    requires id in st.scopes && sc.lease.Some? ==> st.scopes[id].lease.value.key == sc.lease.value.key
    ensures OwnersAgree(st')
  {
    if sc.lease.Some? {
      PutContents(st.leases, sc.lease.value);
    }
    forall l | l in st'.leases
      ensures LeaseNames(st', l)
    {
      assert l in st.leases ==> LeaseNames(st, l);
    }
  }

  /** Changing only the state or the time of a lease in the table. */
  lemma TouchKeepsOwners(st: State, l: Lease, l': Lease)
    requires OwnersAgree(st) && l in st.leases && l'.key == l.key && l'.scopeId == l.scopeId && l'.owners == l.owners
    ensures OwnersAgree(st.(leases := Put(st.leases, l')))
  {
    PutContents(st.leases, l');
    assert LeaseNames(st, l);
    forall m | m in Put(st.leases, l')
      ensures LeaseNames(st.(leases := Put(st.leases, l')), m)
    {
      assert m in st.leases ==> LeaseNames(st, m);
    }
  }

  lemma ReuseKeepsOwners(st: State, id: ScopeId, q: Request, now: int, cfg: Config)
    requires OwnersAgree(st) && ValidOwner(q.owner)
    ensures OwnersAgree(Reuse(st, id, q, now, cfg).st)
  {
    ValidIsNamed(q.owner);
    var r := Reuse(st, id, q, now, cfg);
    if r.result.Ok? {
      assert ScopeNames(id, st.scopes[id]);
      GrantKeepsOwners(st, r.st, id, r.result.value);
    }
  }

  lemma CloseKeepsOwners(st: State, id: ScopeId, scopeState: ScopeState, leaseState: LeaseState)
    requires OwnersAgree(st) && id in st.scopes
    ensures OwnersAgree(Close(st, id, scopeState, leaseState).st)
  {
    assert ScopeNames(id, st.scopes[id]);
    var r := Close(st, id, scopeState, leaseState);
    GrantKeepsOwners(st, r.st, id, r.result.value);
  }

  lemma FreeKeepsOwners(st: State, l: Lease)
    requires OwnersAgree(st) && l in st.leases
    ensures l.scopeId in st.scopes && OwnersAgree(FreeLease(st, l)) && FreeLease(st, l).scopes.Keys == st.scopes.Keys
  {
    assert LeaseNames(st, l) && ScopeNames(l.scopeId, st.scopes[l.scopeId]);
    GrantKeepsOwners(st, FreeLease(st, l), l.scopeId, FreeLease(st, l).scopes[l.scopeId]);
  }

  lemma BeginKeepsOwners(st: State, id: ScopeId, token: Token, q: Request, now: int, cfg: Config)
    requires OwnersAgree(st) && id !in st.scopes
    ensures OwnersAgree(Begin(st, id, token, q, now, cfg).st)
  {
    if !MayBegin(q, cfg) {
    } else if q.reuse.Some? {
      ReuseKeepsOwners(st, q.reuse.value, q, now, cfg);
    } else {
      AdmitKeepsOwners(st, id, token, q, now, cfg);
      var holder := FindOccupying(st.leases, LeaseKey(q.workspaceId, q.root), q.root);
      if holder.Some? {
        FreeKeepsOwners(st, holder.value);
        AdmitKeepsOwners(FreeLease(st, holder.value), id, token, q, now, cfg);
        TouchKeepsOwners(st, holder.value, holder.value.(state := LeaseFenced));
      }
    }
  }

  lemma AdmitKeepsOwners(st: State, id: ScopeId, token: Token, q: Request, now: int, cfg: Config)
    requires OwnersAgree(st) && id !in st.scopes && ValidOwner(q.owner)
    ensures OwnersAgree(Admit(st, id, token, q, now, cfg).st)
  {
    ValidIsNamed(q.owner);
    var r := Admit(st, id, token, q, now, cfg);
    GrantKeepsOwners(st, r.st, id, r.result.value);
  }

  lemma StepKeepsOwners(st: State, op: Op, now: int, cfg: Config)
    requires OwnersAgree(st) && FreshIds(st, op)
    ensures OwnersAgree(Apply(st, op, now, cfg))
  {
    match op
    case DoBegin(id, token, q) => BeginKeepsOwners(st, id, token, q, now, cfg);
    case DoRenew(id, token) =>
      if Renew(st, id, token, now, cfg).result.Ok? {
        var st' := Renew(st, id, token, now, cfg).st;
        assert ScopeNames(id, st.scopes[id]);
        GrantKeepsOwners(st, st', id, st'.scopes[id]);
      }
    case DoFence(id, _) => if id in st.scopes { CloseKeepsOwners(st, id, ScopeFenced, LeaseFenced); }
    case DoRelease(id, _, _) => if id in st.scopes { CloseKeepsOwners(st, id, ScopeReleased, LeaseReleased); }
    case DoPromote(id, token, applied) =>
      var r := SettlePromotion(st, id, token, applied);
      if r.result.Ok? {
        SettleKeepsOwners(st, id, r.result.value);
      }
  }

  lemma SettleKeepsOwners(st: State, id: ScopeId, sc: Scope)
    requires OwnersAgree(st) && id in st.scopes && sc == st.scopes[id].(state := sc.state)
    ensures OwnersAgree(st.(scopes := st.scopes[id := sc]))
  {
    assert ScopeNames(id, st.scopes[id]);
    forall l | l in st.leases
      ensures LeaseNames(st.(scopes := st.scopes[id := sc]), l)
    {
      assert LeaseNames(st, l);
    }
  }

  lemma {:induction false} RunKeepsOwners(st: State, calls: seq<Call>, since: int)
    requires OwnersAgree(st) && Plausible(st, calls, since)
    ensures OwnersAgree(Run(st, calls))
    decreases |calls|
  {
    if calls != [] {
      var c := calls[0];
      StepKeepsOwners(st, c.op, c.now, c.cfg);
      RunKeepsOwners(Apply(st, c.op, c.now, c.cfg), calls[1..], c.now);
    }
  }

  /** In every reachable state, whatever operations led there, safe or not: a scope is shared only by owners of
      one kind, native sessions only of one session and item, and none without a name; and a request for a new scope ends an active scope
      only if every owner of that scope is closed. */
  lemma OnlyFinishedScopesAreTakenOver(calls: seq<Call>, since: int, id: ScopeId, token: Token, q: Request, now: int, cfg: Config, x: ScopeId)
    requires Plausible(Empty, calls, since) && id !in Run(Empty, calls).scopes && q.reuse.None? && x in Run(Empty, calls).scopes
    ensures var st := Run(Empty, calls);
            var st' := Begin(st, id, token, q, now, cfg).st;
            && (forall a, b :: a in st.scopes[x].owners && b in st.scopes[x].owners ==> MayShare(a, b))
            && (forall a :: a in st.scopes[x].owners ==> IsNamed(a))
            && x in st'.scopes
            && (st.scopes[x].state.ScopeActive? && !st'.scopes[x].state.ScopeActive? ==>
                  cfg.ownerClosed.Some? && forall a :: a in st.scopes[x].owners ==> cfg.ownerClosed.value(a))
  {
    RunKeepsOwners(Empty, calls, since);
    var st := Run(Empty, calls);
    assert ScopeNames(x, st.scopes[x]);
    var holder := FindOccupying(st.leases, LeaseKey(q.workspaceId, q.root), q.root);
    if holder.Some? {
      assert LeaseNames(st, holder.value);
    }
  }

  // ---- fencing is permanent ----

  /** The scope's lease was fenced or released, or has expired. */
  ghost predicate Dead(st: State, id: ScopeId, now: int) {
    && id in st.scopes && st.scopes[id].mode.ExclusiveWrite? && st.scopes[id].lease.Some?
    && !(st.scopes[id].state.ScopeActive? && Live(st.scopes[id].lease.value, now))
  }

  /** One operation, safe or not, never revives a dead lease. */
  lemma StepKeepsDead(st: State, id: ScopeId, since: int, op: Op, now: int, cfg: Config)
    requires Dead(st, id, since) && since <= now && FreshIds(st, op)
    ensures Dead(Apply(st, op, now, cfg), id, now)
  {
  }

  function LastTime(calls: seq<Call>, since: int): int {
    if calls == [] then since else LastTime(calls[1..], calls[0].now)
  }

  /** Fencing is permanent: in every run with a clock that never goes back, whatever the operations, the
      lease check of a dead scope fails for ever, for every token. */
  lemma {:induction false} FencingIsPermanent(st: State, id: ScopeId, since: int, calls: seq<Call>, token: Token, now: int)
    requires Dead(st, id, since) && Plausible(st, calls, since)
    requires LastTime(calls, since) <= now
    ensures !AssertLeaseActive(Run(st, calls), id, token, now)
    decreases |calls|
  {
    if calls != [] {
      var c := calls[0];
      StepKeepsDead(st, id, since, c.op, c.now, c.cfg);
      FencingIsPermanent(Apply(st, c.op, c.now, c.cfg), id, c.now, calls[1..], token, now);
    }
  }

  // ---- what happens without the conditions ----

  /** An unsafe takeover whose second holder is live admits two writers at once. */
  lemma UnsafeTakeoverAdmitsTwoWriters(st: State, id: ScopeId, token: Token, q: Request, now: int, cfg: Config, x: ScopeId, tx: Token)
    requires Exclusive(st) && id !in st.scopes && MayBegin(q, cfg) && q.reuse.None? && q.mode.ExclusiveWrite? && cfg.timeout > 0
    requires var holder := FindOccupying(st.leases, LeaseKey(q.workspaceId, q.root), q.root);
             holder.Some? && TakenOver(st, holder.value, cfg) && x != holder.value.scopeId
    requires AssertLeaseActive(st, x, tx, now) && st.scopes[x].mode.ExclusiveWrite? && Overlaps(st.scopes[x].root, q.root)
    ensures !Safe(st, DoBegin(id, token, q), now, cfg)
    ensures TwoWriters(Begin(st, id, token, q, now, cfg).st, x, tx, id, token, now)
  {
    assert ScopeFits(st, x, st.scopes[x]);
    var l :| l in st.leases && l.key == st.scopes[x].lease.value.key && l.scopeId == x && Held(l);
    assert Owned(st, l);
  }

  /** A lease that is not in the table protects nobody: the next request for its tree is admitted. */
  lemma ErasedLeaseAdmitsTwoWriters(st: State, x: ScopeId, tx: Token, id: ScopeId, token: Token, q: Request, now: int, cfg: Config)
    requires AssertLeaseActive(st, x, tx, now) && st.scopes[x].mode.ExclusiveWrite? && q.root == st.scopes[x].root
    requires id !in st.scopes && MayBegin(q, cfg) && q.reuse.None? && q.mode.ExclusiveWrite? && cfg.timeout > 0
    requires forall l :: l in st.leases ==> !Occupies(l, LeaseKey(q.workspaceId, q.root), q.root)
    ensures TwoWriters(Begin(st, id, token, q, now, cfg).st, x, tx, id, token, now)
  {
    SameRootOverlaps(q.root);
  }

  lemma {:induction false} SameRootOverlaps(root: Root)
    ensures Relative(root, root) == [] && Overlaps(root, root)
    decreases |root|
  {
    if root != [] {
      SameRootOverlaps(root[1..]);
    }
  }

  /** An unsafe takeover whose second holder has the key of the request writes over that holder's lease: once
      the new scope is released, the next request for the holder's tree is admitted beside it. */
  lemma UnsafeTakeoverErasesLease(st: State, id: ScopeId, token: Token, q: Request, now: int, cfg: Config, m: Lease, tx: Token,
                                  id': ScopeId, token': Token, q': Request)
    requires Exclusive(st) && id !in st.scopes && MayBegin(q, cfg) && q.reuse.None? && q.mode.ExclusiveWrite? && cfg.timeout > 0
    requires var holder := FindOccupying(st.leases, LeaseKey(q.workspaceId, q.root), q.root);
             holder.Some? && TakenOver(st, holder.value, cfg) && m.scopeId != holder.value.scopeId
    requires m in st.leases && Held(m) && m.key == LeaseKey(q.workspaceId, q.root) && AssertLeaseActive(st, m.scopeId, tx, now)
    requires id' !in st.scopes && id' != id && MayBegin(q', cfg) && q'.reuse.None? && q'.mode.ExclusiveWrite?
    requires q'.root == m.root && LeaseKey(q'.workspaceId, q'.root) == m.key
    ensures !Safe(st, DoBegin(id, token, q), now, cfg)
    ensures var released := Release(Begin(st, id, token, q, now, cfg).st, id, Some(token), false).st;
            TwoWriters(Begin(released, id', token', q', now, cfg).st, m.scopeId, tx, id', token', now)
  {
    var l := FindOccupying(st.leases, m.key, q.root).value;
    assert Occupies(m, m.key, q.root);
    FreeKeepsExclusive(st, l);
    assert Begin(st, id, token, q, now, cfg) == Admit(FreeLease(st, l), id, token, q, now, cfg);
    OverwrittenAdmitsTwoWriters(FreeLease(st, l), id, token, q, now, cfg, m, tx, id', token', q');
  }

  /** An admission under the key of a live scope's lease, and its release: that lease is gone. */
  lemma OverwrittenAdmitsTwoWriters(st: State, id: ScopeId, token: Token, q: Request, now: int, cfg: Config, m: Lease, tx: Token,
                                    id': ScopeId, token': Token, q': Request)
    requires Exclusive(st) && id !in st.scopes && q.mode.ExclusiveWrite? && cfg.timeout > 0
    requires m in st.leases && Held(m) && m.key == LeaseKey(q.workspaceId, q.root) && AssertLeaseActive(st, m.scopeId, tx, now)
    requires id' !in st.scopes && id' != id && MayBegin(q', cfg) && q'.reuse.None? && q'.mode.ExclusiveWrite?
    requires q'.root == m.root && LeaseKey(q'.workspaceId, q'.root) == m.key
    ensures var released := Release(Admit(st, id, token, q, now, cfg).st, id, Some(token), false).st;
            TwoWriters(Begin(released, id', token', q', now, cfg).st, m.scopeId, tx, id', token', now)
  {
    assert Owned(st, m) && ScopeFits(st, m.scopeId, st.scopes[m.scopeId]);
    OverwrittenIsErased(st, id, token, q, now, cfg, m);
    var released := Release(Admit(st, id, token, q, now, cfg).st, id, Some(token), false).st;
    ErasedLeaseAdmitsTwoWriters(released, m.scopeId, tx, id', token', q', now, cfg);
  }

  lemma OverwrittenIsErased(st: State, id: ScopeId, token: Token, q: Request, now: int, cfg: Config, m: Lease)
    requires Exclusive(st) && id !in st.scopes && q.mode.ExclusiveWrite?
    requires m in st.leases && Held(m) && m.key == LeaseKey(q.workspaceId, q.root)
    ensures var released := Release(Admit(st, id, token, q, now, cfg).st, id, Some(token), false).st;
            && released.scopes.Keys == st.scopes.Keys + {id} && (forall y :: y in st.scopes ==> released.scopes[y] == st.scopes[y])
            && (forall x :: x in released.leases ==> !Occupies(x, m.key, m.root))
  {
    var begun := Admit(st, id, token, q, now, cfg);
    var grant := begun.result.value.lease.value;
    var released := Release(begun.st, id, Some(token), false).st;
    assert released == Close(begun.st, id, ScopeReleased, LeaseReleased).st;
    PutTwice(st.leases, grant, grant.(state := LeaseReleased));
    forall x | x in released.leases
      ensures !Occupies(x, m.key, m.root)
    {
      if x != grant.(state := LeaseReleased) {
        assert x in st.leases && x.key != m.key;
      }
    }
  }

  lemma PutTwice(ls: seq<Lease>, l: Lease, l': Lease)
    requires UniqueKeys(ls) && l.key == l'.key
    ensures forall x :: x in Put(Put(ls, l), l') <==> x == l' || (x in ls && x.key != l.key)
  {
    PutContents(ls, l);
    PutContents(Put(ls, l), l');
  }

  /** An unsafe fence under another scope's key erases that scope's lease as well: once the fenced scope is
      released, the next request for the tree is admitted. */
  lemma UnsafeFenceAdmitsTwoWriters(st: State, gone: ScopeId, bearer: Token, m: Lease, tx: Token,
                                    id: ScopeId, token: Token, q: Request, now: int, cfg: Config)
    requires Exclusive(st) && MayRelease(st, gone, Some(bearer), true) && ReleasedBefore(st, gone)
    requires m in st.leases && m.scopeId != gone && Held(m) && m.key == st.scopes[gone].lease.value.key
    requires AssertLeaseActive(st, m.scopeId, tx, now)
    requires id !in st.scopes && MayBegin(q, cfg) && q.reuse.None? && q.mode.ExclusiveWrite? && cfg.timeout > 0
    requires q.root == m.root && LeaseKey(q.workspaceId, q.root) == m.key
    ensures !Safe(st, DoFence(gone, Some(bearer)), now, cfg)
    ensures var released := Release(Fence(st, gone, Some(bearer)).st, gone, Some(bearer), true).st;
            TwoWriters(Begin(released, id, token, q, now, cfg).st, m.scopeId, tx, id, token, now)
  {
    assert Rivalled(st, gone, st.scopes[gone].lease.value.key, st.scopes[gone].root);
    assert Owned(st, m) && ScopeFits(st, m.scopeId, st.scopes[m.scopeId]);
    FencedThenReleased(st, gone, bearer, m);
    ErasedLeaseAdmitsTwoWriters(Release(Fence(st, gone, Some(bearer)).st, gone, Some(bearer), true).st, m.scopeId, tx, id, token, q, now, cfg);
  }

  /** Fencing and releasing a scope under the key of another's lease: that lease is gone, and nothing else changed. */
  lemma FencedThenReleased(st: State, gone: ScopeId, bearer: Token, m: Lease)
    requires Exclusive(st) && MayRelease(st, gone, Some(bearer), true) && st.scopes[gone].lease.Some?
    requires m in st.leases && m.scopeId != gone && Held(m) && m.key == st.scopes[gone].lease.value.key
    ensures var released := Release(Fence(st, gone, Some(bearer)).st, gone, Some(bearer), true).st;
            && released.scopes.Keys == st.scopes.Keys && (forall y :: y in st.scopes && y != gone ==> released.scopes[y] == st.scopes[y])
            && (forall x :: x in released.leases ==> !Occupies(x, m.key, m.root))
  {
    var l := st.scopes[gone].lease.value;
    var fenced := Fence(st, gone, Some(bearer)).st;
    assert fenced == Close(st, gone, ScopeFenced, LeaseFenced).st;
    var released := Release(fenced, gone, Some(bearer), true).st;
    assert released == Close(fenced, gone, ScopeReleased, LeaseReleased).st;
    PutTwice(st.leases, l.(state := LeaseFenced), l.(state := LeaseReleased));
    forall x | x in released.leases
      ensures !Occupies(x, m.key, m.root)
    {
      assert x != l.(state := LeaseReleased) ==> x in st.leases && x.key != m.key;
    }
  }

  /** An unsafe release that erases the lease of a live scope lets the next request for its tree in: from
      every state, two tokens pass. */
  lemma UnsafeReleaseAdmitsTwoWriters(st: State, gone: ScopeId, bearer: Option<Token>, allowFenced: bool, m: Lease, tx: Token,
                                      id: ScopeId, token: Token, q: Request, now: int, cfg: Config)
    requires Exclusive(st) && MayRelease(st, gone, bearer, allowFenced) && ReleasedBefore(st, gone)
    requires m in st.leases && m.scopeId != gone && Held(m) && m.key == st.scopes[gone].lease.value.key
    requires AssertLeaseActive(st, m.scopeId, tx, now)
    requires id !in st.scopes && MayBegin(q, cfg) && q.reuse.None? && q.mode.ExclusiveWrite? && cfg.timeout > 0
    requires q.root == m.root && LeaseKey(q.workspaceId, q.root) == m.key
    ensures !Safe(st, DoRelease(gone, bearer, allowFenced), now, cfg)
    ensures TwoWriters(Begin(Release(st, gone, bearer, allowFenced).st, id, token, q, now, cfg).st, m.scopeId, tx, id, token, now)
  {
    var st' := Release(st, gone, bearer, allowFenced).st;
    var freed := st.scopes[gone].lease.value.(state := LeaseReleased);
    assert Owned(st, m) && ScopeFits(st, m.scopeId, st.scopes[m.scopeId]);
    PutContents(st.leases, freed);
    forall l | l in st'.leases
      ensures !Occupies(l, m.key, m.root)
    {
      assert l != freed ==> l in st.leases && l.key != m.key;
    }
    ErasedLeaseAdmitsTwoWriters(st', m.scopeId, tx, id, token, q, now, cfg);
  }

  /** A fence that is unsafe only because a rival has the tree under another key lets nobody in: each lease
      check is as before, and each rival's lease is still in the table. What it does is to block: a request in
      the way of the fenced lease alone, which would have been admitted, is refused. */
  lemma UnsafeFenceBlocks(st: State, gone: ScopeId, bearer: Option<Token>, x: ScopeId, t: Token, at: int,
                          id: ScopeId, token: Token, q: Request, now: int, cfg: Config)
    requires Exclusive(st) && MayFence(st, gone, bearer) && ReleasedBefore(st, gone)
    requires forall l :: l in st.leases && l.scopeId != gone && l.key == st.scopes[gone].lease.value.key ==> !Held(l)
    ensures var st' := Fence(st, gone, bearer).st;
            && (AssertLeaseActive(st', x, t, at) <==> AssertLeaseActive(st, x, t, at))
            && (forall m :: m in st.leases && Held(m) && m.scopeId != gone ==> m in st'.leases)
    ensures id !in st.scopes && MayBegin(q, cfg) && q.reuse.None? && q.mode.ExclusiveWrite? && Overlaps(st.scopes[gone].root, q.root) &&
            !Rivalled(st, gone, LeaseKey(q.workspaceId, q.root), q.root) ==>
              && Begin(st, id, token, q, now, cfg).result.Ok?
              && Begin(Fence(st, gone, bearer).st, id, token, q, now, cfg).result == Err(LeaseIsFenced)
  {
    var key := LeaseKey(q.workspaceId, q.root);
    var fenced := st.scopes[gone].lease.value.(state := LeaseFenced);
    var st' := Fence(st, gone, bearer).st;
    PutContents(st.leases, fenced);
    assert ScopeFits(st, gone, st.scopes[gone]);
    forall l | l in st.leases && l.scopeId == gone
      ensures !Held(l)
    {
      assert Owned(st, l);
    }
    if Overlaps(st.scopes[gone].root, q.root) && !Rivalled(st, gone, key, q.root) {
      assert fenced in st'.leases && Occupies(fenced, key, q.root);
      assert forall l :: l in st'.leases && Occupies(l, key, q.root) ==> l == fenced;
    }
  }

  const Sample: Config := Config(["srv", "state"], ["srv", "trees"], 600000, None)

  function Exclusively(root: Root): Request {
    Request(None, root, ExclusiveWrite, Delegation("d"), Goal(None, None), None, None, false)
  }

  function SampleScope(id: ScopeId, token: Token, root: Root): Scope {
    Scope(None, root, ExclusiveWrite, [Delegation("d")], Goal(None, None), ScopeActive, Some(token), Some(SampleLease(id, token, root)))
  }

  function SampleLease(id: ScopeId, token: Token, root: Root): Lease {
    Lease(PathKey(root), root, id, [Delegation("d")], token, 600000, LeaseActive)
  }

  lemma Unfold(st: State, c: Call, rest: seq<Call>)
    ensures Run(st, [c] + rest) == Run(Apply(st, c.op, c.now, c.cfg), rest)
    ensures Plausible(st, [c] + rest, c.now) <==> FreshIds(st, c.op) && Plausible(Apply(st, c.op, c.now, c.cfg), rest, c.now)
  {
    assert ([c] + rest)[1..] == rest;
  }

  /** Releasing a released scope a second time erases the next holder's lease from the table, and a third
      scope is then admitted to the same tree: two tokens pass the lease check. */
  lemma RepeatedReleaseAdmitsTwoWriters()
    ensures var q := Exclusively(["w"]);
            var again := Call(DoRelease("a", Some("ta"), false), 0, Sample);
            var calls := [Call(DoBegin("a", "ta", q), 0, Sample)] + ([again] + ([Call(DoBegin("b", "tb", q), 0, Sample)] +
                         ([again] + ([Call(DoBegin("c", "tc", q), 0, Sample)] + []))));
            && Plausible(Empty, calls, 0)
            && AssertLeaseActive(Run(Empty, calls), "b", "tb", 0)
            && AssertLeaseActive(Run(Empty, calls), "c", "tc", 0)
  {
    var q := Exclusively(["w"]);
    assert ValidOwner(q.owner) by { assert q.owner.delegationId[0] == 'd'; }
    var again := Call(DoRelease("a", Some("ta"), false), 0, Sample);
    var b, c := Call(DoBegin("b", "tb", q), 0, Sample), Call(DoBegin("c", "tc", q), 0, Sample);
    var s1 := Apply(Empty, DoBegin("a", "ta", q), 0, Sample);
    assert s1 == State(map["a" := SampleScope("a", "ta", ["w"])], [SampleLease("a", "ta", ["w"])]);
    var gone := SampleLease("a", "ta", ["w"]).(state := LeaseReleased);
    var s2 := Apply(s1, again.op, 0, Sample);
    assert s2.leases == [gone];
    var s3 := Apply(s2, b.op, 0, Sample);
    assert s3.leases == [SampleLease("b", "tb", ["w"])];
    var s4 := Apply(s3, again.op, 0, Sample);
    assert s4.leases == [gone];
    var s5 := Apply(s4, c.op, 0, Sample);
    Unfold(s4, c, []);
    Unfold(s3, again, [c] + []);
    Unfold(s2, b, [again] + ([c] + []));
    Unfold(s1, again, [b] + ([again] + ([c] + [])));
    Unfold(Empty, Call(DoBegin("a", "ta", q), 0, Sample), [again] + ([b] + ([again] + ([c] + []))));
  }

  const TwoTrees := State(
    map["a" := SampleScope("a", "ta", ["w", "x"]), "b" := SampleScope("b", "tb", ["w", "y"])],
    [SampleLease("a", "ta", ["w", "x"]), SampleLease("b", "tb", ["w", "y"])])

  lemma SampleOverlaps()
    ensures Contains(["w"], ["w", "x"]) && Contains(["w"], ["w", "y"]) && !Overlaps(["w", "x"], ["w", "y"])
    ensures !Contains(["w"], Sample.stateDir) && !Contains(["w"], Sample.worktreeRoot)
  {
    assert Canonical(["w"]) && Canonical(["w", "x"]) && Canonical(["w", "y"]) && Canonical(["srv", "state"]) && Canonical(["srv", "trees"]) by {
      assert |"w"| == |"x"| == |"y"| == 1 && "srv"[0] == 's' && |"state"| == |"trees"| == 5;
    }
    ContainsIsPrefix(["w"], ["w", "x"]);
    ContainsIsPrefix(["w"], ["w", "y"]);
    ContainsIsPrefix(["w", "x"], ["w", "y"]);
    ContainsIsPrefix(["w", "y"], ["w", "x"]);
    ContainsIsPrefix(["w"], ["srv", "state"]);
    ContainsIsPrefix(["w"], ["srv", "trees"]);
    assert ["w", "x"][1] != ["w", "y"][1] by { assert "x"[0] != "y"[0]; }
    assert |"w"| != |"srv"|;
  }

  lemma TwoTreesExclusive()
    ensures Exclusive(TwoTrees)
  {
    SampleOverlaps();
    var la, lb := SampleLease("a", "ta", ["w", "x"]), SampleLease("b", "tb", ["w", "y"]);
    assert "a" != "b" by { assert "a"[0] != "b"[0]; }
    assert la in TwoTrees.leases && lb in TwoTrees.leases;
    assert la.root[1] != lb.root[1] by { assert "x"[0] != "y"[0]; }
  }

  /** A takeover frees only the first lease in the way: a request for a tree above two leased trees is
      admitted although the second one is still held. */
  lemma TakeoverAdmitsTwoWriters(cfg: Config)
    requires cfg == Sample.(ownerClosed := cfg.ownerClosed) && cfg.ownerClosed.Some? && cfg.ownerClosed.value(Delegation("d"))
    ensures var st' := Apply(TwoTrees, DoBegin("c", "tc", Exclusively(["w"])), 0, cfg);
            && Exclusive(TwoTrees)
            && AssertLeaseActive(st', "b", "tb", 0) && AssertLeaseActive(st', "c", "tc", 0)
            && Overlaps(st'.scopes["b"].root, st'.scopes["c"].root)
  {
    var q := Exclusively(["w"]);
    SampleOverlaps();
    TwoTreesExclusive();
    assert ValidOwner(q.owner) by { assert q.owner.delegationId[0] == 'd'; }
    var la := SampleLease("a", "ta", ["w", "x"]);
    assert FindOccupying(TwoTrees.leases, PathKey(["w"]), ["w"]) == Some(la);
    assert TakenOver(TwoTrees, la, cfg);
    assert "a"[0] != "b"[0] && "c"[0] != "b"[0];
    assert Begin(TwoTrees, "c", "tc", q, 0, cfg) == Admit(FreeLease(TwoTrees, la), "c", "tc", q, 0, cfg);
  }
}
