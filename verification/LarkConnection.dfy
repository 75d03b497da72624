/**
 * The shared OAuth connection: one credential record on disk, refreshed with one-time refresh tokens
 * (section 6 of RFC 6749). Every operation runs alone in the connection's queue; its environment says how
 * each of its writes and requests ends, and a crash at any of them loses what is only in memory.
 *
 * `log` is a history variable: which refresh token was sent, refused by an explicit OAuth error, or issued.
 */
module LarkConnection {
  import opened Wrappers

  datatype User = User(
    access: string,
    refresh: Option<string>,
    expiresAt: int,
    refreshExpiresAt: Option<int>,
    name: Option<string>,
    pending: bool)

  datatype Bot = Bot(access: string, expiresAt: int)

  datatype Credential = Credential(appId: string, secret: string, user: Option<User>, bot: Option<Bot>)

  datatype Session = Session(appId: string, revision: nat, live: bool)

  datatype Event = Sent(token: string) | Refused(token: string) | Issued(token: string)

  datatype St = St(disk: Option<Credential>, uncertain: bool, revision: nat, sessions: map<nat, Session>, log: seq<Event>)

  const Ahead := 60_000

  const Empty := St(None, false, 0, map[], [])

  /** A crash keeps the disk. */
  function Restarted(s: St): St {
    St(s.disk, false, 0, map[], s.log)
  }

  // ---- what the environment does ----

  /** How a write ends. A failed write may or may not have reached the disk, and so may one cut by a crash. */
  datatype Save = Saved | NotSaved(landed: bool) | CutOff(landed: bool)

  /** How a request for a user token ends. */
  datatype Reply =
    | Tokens(user: User)
    | Malformed
    | OAuthError(kind: string, code: int)
    | Unreachable
    | NoReply

  datatype BotReply = BotToken(bot: Bot) | BotFailed | BotNoReply

  datatype RefreshEnv = RefreshEnv(mark: Save, reply: Reply, store: Save)

  datatype Meanwhile = StillPending | Cancelled | Expired

  datatype Profile = Nameless | Named(name: string, store: Save) | NoProfileReply

  datatype Answer = Returned(token: string) | Done | Threw | Crashed

  function Landed(s: St, c: Credential, save: Save): St {
    if save.Saved? || save.landed then s.(disk := Some(c)) else s
  }

  /** Replaces the record, then ends with `ok` when the write succeeded. */
  function Store(s: St, c: Credential, save: Save, ok: Answer): (St, Answer) {
    match save
    case Saved => (Landed(s, c, save), ok)
    case NotSaved(_) => (Landed(s, c, save), Threw)
    case CutOff(_) => (Restarted(Landed(s, c, save)), Crashed)
  }

  function NewTokens(log: seq<Event>, user: User): seq<Event> {
    if user.refresh.Some? then log + [Issued(user.refresh.value)] else log
  }

  // ---- user token ----

  /** The OAuth errors after which the refresh token is dropped. */
  predicate Final(kind: string, code: int) {
    code in {20026, 20037, 20064, 20073} || kind == "invalid_grant"
  }

  predicate Refreshable(u: User, now: int) {
    && u.refresh.Some? && u.refresh.value != ""
    && u.refreshExpiresAt.Some? && u.refreshExpiresAt.value != 0 && now < u.refreshExpiresAt.value
  }

  function UserToken(s: St, record: Credential, force: bool, now: int, env: RefreshEnv): (St, Answer) {
    if record.user.None? then (s, Threw)
    else
      var u := record.user.value;
      if !force && u.expiresAt > now + Ahead then (s, Returned(u.access))
      else if s.uncertain || u.pending then (s, Threw)
      else if !Refreshable(u, now) then (s, Threw)
      else
        var marked := record.(user := Some(u.(pending := true)));
        match env.mark
        case NotSaved(_) => (Landed(s, marked, env.mark), Threw)
        case CutOff(_) => (Restarted(Landed(s, marked, env.mark)), Crashed)
        case Saved =>
          Exchange(s.(disk := Some(marked), log := s.log + [Sent(u.refresh.value)]), record, u, env)
  }

  /** After the token was sent: what each reply leaves. */
  function Exchange(s: St, record: Credential, u: User, env: RefreshEnv): (St, Answer)
    requires u.refresh.Some?
  {
    match env.reply
    case NoReply => (Restarted(s), Crashed)
    case Unreachable => (s.(uncertain := true), Threw)
    case Malformed => (s.(uncertain := true), Threw)
    case OAuthError(kind, code) =>
      var kept := if Final(kind, code) then u.(refresh := None, pending := false, expiresAt := 0) else u.(pending := false);
      Store(s.(log := s.log + [Refused(u.refresh.value)]), record.(user := Some(kept)), env.store, Threw)
    case Tokens(user) =>
      var rotated := user.(name := u.name, pending := false);
      var (s', answer) := Store(s.(log := NewTokens(s.log, user)), record.(user := Some(rotated)), env.store, Returned(user.access));
      if answer.Threw? then (s'.(uncertain := true), Threw) else (s', answer)
  }

  // ---- the other operations ----

  /** The record with a usable bot token, or how getting one ended. */
  function WithBot(c: Credential, force: bool, now: int, reply: BotReply): (r: Result<Credential, Answer>)
    ensures r.Ok? ==> r.value.bot.Some? && r.value == c.(bot := r.value.bot)
  {
    if !force && c.bot.Some? && c.bot.value.expiresAt > now + Ahead then Ok(c)
    else match reply
      case BotToken(bot) => Ok(c.(bot := Some(bot)))
      case BotFailed => Err(Threw)
      case BotNoReply => Err(Crashed)
  }

  function Failed(s: St, a: Answer): (St, Answer) {
    if a.Crashed? then (Restarted(s), a) else (s, a)
  }

  function CancelAll(sessions: map<nat, Session>): map<nat, Session> {
    map id | id in sessions :: sessions[id].(live := false)
  }

  function BotAccess(s: St, force: bool, now: int, reply: BotReply, store: Save): (St, Answer) {
    if s.disk.None? then (s, Threw)
    else match WithBot(s.disk.value, force, now, reply)
      case Err(a) => Failed(s, a)
      case Ok(c) => Store(s, c, store, Returned(c.bot.value.access))
  }

  predicate ValidAppId(appId: string) {
    && |appId| > 4 && appId[..4] == "cli_"
    && forall i :: 4 <= i < |appId| ==> 'a' <= appId[i] <= 'z' || 'A' <= appId[i] <= 'Z' || '0' <= appId[i] <= '9'
  }

  /** `secret` is the trimmed input. The record is proved with a bot token before it replaces the old one. */
  function Configure(s: St, appId: string, secret: Option<string>, confirm: bool, now: int, reply: BotReply, store: Save): (St, Answer) {
    if !ValidAppId(appId) || secret == Some("") then (s, Threw)
    else
      var changed := s.disk.Some? && s.disk.value.appId != appId;
      if changed && !confirm then (s, Threw)
      else
        var kept := if secret.Some? then secret.value else if s.disk.Some? && !changed then s.disk.value.secret else "";
        if kept == "" then (s, Threw)
        else
          var user := if s.disk.Some? && !changed then s.disk.value.user else None;
          match WithBot(Credential(appId, kept, user, None), false, now, reply)
          case Err(a) => Failed(s, a)
          case Ok(c) =>
            var (s', answer) := Store(s, c, store, Done);
            if answer.Done? then (s'.(revision := s.revision + 1, sessions := CancelAll(s.sessions), uncertain := false), Done)
            else (s', answer)
  }

  function Adopt(s: St, record: Credential, now: int, reply: BotReply, store: Save): (St, Answer) {
    if s.disk.Some? || !ValidAppId(record.appId) || record.secret == "" then (s, Threw)
    else match WithBot(record, false, now, reply)
      case Err(a) => Failed(s, a)
      case Ok(c) =>
        var (s', answer) := Store(s, c, store, Done);
        if answer.Done? then (s'.(revision := s.revision + 1), Done) else (s', answer)
  }

  /** `granted` is whether the device authorization was obtained. */
  function Begin(s: St, id: nat, granted: bool): (St, Answer) {
    if s.disk.None? then (s, Threw)
    else
      var cancelled := s.(sessions := CancelAll(s.sessions));
      if !granted then (cancelled, Threw)
      else (cancelled.(sessions := cancelled.sessions[id := Session(s.disk.value.appId, s.revision, true)]), Done)
  }

  function Finish(s: St, id: nat): St
    requires id in s.sessions
  {
    s.(sessions := s.sessions[id := s.sessions[id].(live := false)])
  }

  function Poll(s: St, id: nat, reply: Reply, meanwhile: Meanwhile, store: Save, profile: Profile): (St, Answer) {
    if id !in s.sessions || !s.sessions[id].live then (s, Done)
    else if s.disk.None? || s.disk.value.appId != s.sessions[id].appId || s.revision != s.sessions[id].revision then (Finish(s, id), Done)
    else match reply
      case NoReply => (Restarted(s), Crashed)
      case Unreachable => (Finish(s, id), Done)
      case Malformed => (Finish(s, id), Done)
      case OAuthError(kind, _) => (if kind in {"authorization_pending", "slow_down"} && !meanwhile.Cancelled? then s else Finish(s, id), Done)
      case Tokens(user) => Accept(s, id, user, meanwhile, store, profile)
  }

  /** Tokens count only when nothing ended the authorization while they were on their way. */
  function Accept(s: St, id: nat, user: User, meanwhile: Meanwhile, store: Save, profile: Profile): (St, Answer)
    requires id in s.sessions && s.disk.Some?
  {
    var s1 := s.(log := NewTokens(s.log, user));
    if meanwhile.Expired? then (s1, Done)
    else if meanwhile.Cancelled? then (Finish(s1, id), Done)
    else Authorized(s1, id, s.disk.value.(user := Some(user.(name := None, pending := false))), store, profile)
  }

  /** Persists the new user token at once; the account name is optional and comes after. */
  function Authorized(s: St, id: nat, c: Credential, store: Save, profile: Profile): (St, Answer)
    requires id in s.sessions && c.user.Some?
  {
    match store
    case NotSaved(_) => (Finish(Landed(s, c, store), id), Done)
    case CutOff(_) => (Restarted(Landed(s, c, store)), Crashed)
    case Saved =>
      var s1 := Landed(s, c, store).(uncertain := false, revision := s.revision + 1);
      match profile
      case Nameless => (Finish(s1, id), Done)
      case NoProfileReply => (Restarted(s1), Crashed)
      case Named(name, again) =>
        var (s2, answer) := Store(s1, c.(user := Some(c.user.value.(name := Some(name)))), again, Done);
        if answer.Crashed? then (s2, answer) else (Finish(s2, id), Done)
  }

  function Logout(s: St, store: Save): (St, Answer) {
    var (s', answer) := if s.disk.Some? then Store(s, s.disk.value.(user := None), store, Done) else (s, Done);
    if answer.Done? then (s'.(revision := s.revision + 1, sessions := CancelAll(s.sessions)), Done) else (s', answer)
  }

  datatype Op =
    | DoUserAccess(force: bool, env: RefreshEnv)
    | DoBotAccess(force: bool, botReply: BotReply, store: Save)
    | DoConfigure(appId: string, secret: Option<string>, confirm: bool, botReply: BotReply, store: Save)
    | DoAdopt(record: Credential, botReply: BotReply, store: Save)
    | DoBegin(id: nat, granted: bool)
    | DoPoll(id: nat, reply: Reply, meanwhile: Meanwhile, store: Save, profile: Profile)
    | DoCancel(id: nat)
    | DoLogout(store: Save)
    | Crash

  function Apply(s: St, op: Op, now: int): (St, Answer) {
    match op
    case DoUserAccess(force, env) => if s.disk.None? then (s, Threw) else UserToken(s, s.disk.value, force, now, env)
    case DoBotAccess(force, botReply, store) => BotAccess(s, force, now, botReply, store)
    case DoConfigure(appId, secret, confirm, botReply, store) => Configure(s, appId, secret, confirm, now, botReply, store)
    case DoAdopt(record, botReply, store) => Adopt(s, record, now, botReply, store)
    case DoBegin(id, granted) => Begin(s, id, granted)
    case DoPoll(id, reply, meanwhile, store, profile) => Poll(s, id, reply, meanwhile, store, profile)
    case DoCancel(id) => (if id in s.sessions then Finish(s, id) else s, Done)
    case DoLogout(store) => Logout(s, store)
    case Crash => (Restarted(s), Crashed)
  }

  /** `times[i]` is the clock at operation i; nothing is assumed of it. */
  function Run(s: St, ops: seq<Op>, times: seq<int>): St
    requires |ops| == |times|
    decreases |ops|
  {
    if ops == [] then s else Run(Apply(s, ops[0], times[0]).0, ops[1..], times[1..])
  }

  // ---- a refresh token is sent at most once ----

  /** The token was sent and nothing was heard of it since. */
  predicate Outstanding(log: seq<Event>, t: string)
    decreases |log|
  {
    log != [] &&
    var last := log[|log| - 1];
    if last.token == t then last.Sent? else Outstanding(log[..|log| - 1], t)
  }

  /** No token was ever sent while it was outstanding. */
  ghost predicate SentOnce(log: seq<Event>) {
    forall j :: 0 <= j < |log| && log[j].Sent? ==> !Outstanding(log[..j], log[j].token)
  }

  /** What is stored and not marked as pending may be sent. */
  ghost predicate Inv(s: St) {
    && (s.disk.None? ==> s.log == [])
    && SentOnce(s.log)
    && (s.disk.Some? ==> Sendable(s.disk.value, s.log))
    && OneLive(s.sessions)
  }

  predicate Sendable(c: Credential, log: seq<Event>) {
    c.user.Some? && c.user.value.refresh.Some? && !c.user.value.pending ==> !Outstanding(log, c.user.value.refresh.value)
  }

  ghost predicate OneLive(sessions: map<nat, Session>) {
    forall a, b :: a in sessions && b in sessions && sessions[a].live && sessions[b].live ==> a == b
  }

  lemma AppendedLog(log: seq<Event>, e: Event)
    requires SentOnce(log) && (e.Sent? ==> !Outstanding(log, e.token))
    ensures SentOnce(log + [e])
    ensures forall t :: Outstanding(log + [e], t) <==> if e.token == t then e.Sent? else Outstanding(log, t)
  {
    assert (log + [e])[..|log|] == log;
    forall j | 0 <= j < |log + [e]| && (log + [e])[j].Sent?
      ensures !Outstanding((log + [e])[..j], (log + [e])[j].token)
    {
      assert j < |log| ==> (log + [e])[..j] == log[..j];
    }
  }

  lemma IssuedLog(log: seq<Event>, u: User)
    requires SentOnce(log)
    ensures SentOnce(NewTokens(log, u))
    ensures u.refresh.Some? ==> !Outstanding(NewTokens(log, u), u.refresh.value)
  {
    if u.refresh.Some? {
      AppendedLog(log, Issued(u.refresh.value));
    }
  }

  /** A write keeps the invariant when the new record may be sent, whether it lands or not. */
  lemma StoreKeepsInv(s: St, c: Credential, save: Save, ok: Answer)
    requires Inv(s) && Sendable(c, s.log)
    ensures Inv(Store(s, c, save, ok).0)
  {
  }

  lemma ExchangeKeepsInv(s: St, record: Credential, u: User, env: RefreshEnv)
    requires u.refresh.Some? && s.disk == Some(record.(user := Some(u.(pending := true)))) && Inv(s)
    ensures Inv(Exchange(s, record, u, env).0)
  {
    match env.reply
    case OAuthError(kind, code) =>
      var kept := if Final(kind, code) then u.(refresh := None, pending := false, expiresAt := 0) else u.(pending := false);
      AppendedLog(s.log, Refused(u.refresh.value));
      StoreKeepsInv(s.(log := s.log + [Refused(u.refresh.value)]), record.(user := Some(kept)), env.store, Threw);
    case Tokens(user) =>
      IssuedLog(s.log, user);
      StoreKeepsInv(s.(log := NewTokens(s.log, user)), record.(user := Some(user.(name := u.name, pending := false))), env.store, Returned(user.access));
    case _ =>
  }

  lemma UserTokenKeepsInv(s: St, force: bool, now: int, env: RefreshEnv)
    requires Inv(s) && s.disk.Some?
    ensures Inv(UserToken(s, s.disk.value, force, now, env).0)
  {
    var record := s.disk.value;
    if record.user.Some? {
      var u := record.user.value;
      if !u.pending && Refreshable(u, now) && env.mark.Saved? {
        AppendedLog(s.log, Sent(u.refresh.value));
        ExchangeKeepsInv(s.(disk := Some(record.(user := Some(u.(pending := true)))), log := s.log + [Sent(u.refresh.value)]), record, u, env);
      }
    }
  }

  lemma CancelAllKeepsOneLive(sessions: map<nat, Session>)
    ensures OneLive(CancelAll(sessions)) && forall id :: id in CancelAll(sessions) ==> !CancelAll(sessions)[id].live
  {
  }

  lemma FinishKeepsInv(s: St, id: nat)
    requires Inv(s) && id in s.sessions
    ensures Inv(Finish(s, id))
  {
  }

  lemma AuthorizedKeepsInv(s: St, id: nat, c: Credential, store: Save, profile: Profile)
    requires Inv(s) && id in s.sessions && c.user.Some? && Sendable(c, s.log)
    ensures Inv(Authorized(s, id, c, store, profile).0)
  {
    StoreKeepsInv(s, c, store, Done);
    var s1 := Landed(s, c, store).(uncertain := false, revision := s.revision + 1);
    FinishKeepsInv(Landed(s, c, store), id);
    FinishKeepsInv(s1, id);
    if profile.Named? {
      var named := c.(user := Some(c.user.value.(name := Some(profile.name))));
      StoreKeepsInv(s1, named, profile.store, Done);
      FinishKeepsInv(Landed(s1, named, profile.store), id);
    }
  }

  /** What the server issues may be sent, and changes nothing for the token that is stored. */
  lemma IssuedKeepsInv(s: St, user: User)
    requires Inv(s) && s.disk.Some?
    ensures Inv(s.(log := NewTokens(s.log, user)))
    ensures Sendable(s.disk.value.(user := Some(user.(name := None, pending := false))), NewTokens(s.log, user))
  {
    IssuedLog(s.log, user);
    if user.refresh.Some? {
      AppendedLog(s.log, Issued(user.refresh.value));
    }
  }

  lemma PollKeepsInv(s: St, id: nat, reply: Reply, meanwhile: Meanwhile, store: Save, profile: Profile)
    requires Inv(s)
    ensures Inv(Poll(s, id, reply, meanwhile, store, profile).0)
  {
    if id in s.sessions && s.sessions[id].live {
      FinishKeepsInv(s, id);
      if s.disk.Some? && reply.Tokens? {
        var s1 := s.(log := NewTokens(s.log, reply.user));
        IssuedKeepsInv(s, reply.user);
        FinishKeepsInv(s1, id);
        AuthorizedKeepsInv(s1, id, s.disk.value.(user := Some(reply.user.(name := None, pending := false))), store, profile);
      }
    }
  }

  /** A record whose user is the stored one, or that has none, keeps the invariant; so does any change of
      the memory that leaves at most one live session. */
  lemma KeptUserKeepsInv(s: St, c: Credential, save: Save, ok: Answer)
    requires Inv(s) && s.disk.Some? && (c.user.None? || c.user == s.disk.value.user)
    ensures Inv(Store(s, c, save, ok).0)
  {
    StoreKeepsInv(s, c, save, ok);
  }

  lemma MemoryKeepsInv(s: St, uncertain: bool, revision: nat, sessions: map<nat, Session>)
    requires Inv(s) && OneLive(sessions)
    ensures Inv(St(s.disk, uncertain, revision, sessions, s.log)) && Inv(Restarted(s))
  {
  }

  lemma ConfigureKeepsInv(s: St, appId: string, secret: Option<string>, confirm: bool, now: int, reply: BotReply, store: Save)
    requires Inv(s)
    ensures Inv(Configure(s, appId, secret, confirm, now, reply, store).0)
  {
    var changed := s.disk.Some? && s.disk.value.appId != appId;
    var kept := if secret.Some? then secret.value else if s.disk.Some? && !changed then s.disk.value.secret else "";
    var user := if s.disk.Some? && !changed then s.disk.value.user else None;
    var c := WithBot(Credential(appId, kept, user, None), false, now, reply);
    CancelAllKeepsOneLive(s.sessions);
    MemoryKeepsInv(s, s.uncertain, s.revision, s.sessions);
    if c.Ok? {
      StoreKeepsInv(s, c.value, store, Done);
      MemoryKeepsInv(Store(s, c.value, store, Done).0, false, s.revision + 1, CancelAll(s.sessions));
    }
  }

  lemma AdoptKeepsInv(s: St, record: Credential, now: int, reply: BotReply, store: Save)
    requires Inv(s)
    ensures Inv(Adopt(s, record, now, reply, store).0)
  {
    var c := WithBot(record, false, now, reply);
    MemoryKeepsInv(s, s.uncertain, s.revision, s.sessions);
    if s.disk.None? && c.Ok? {
      StoreKeepsInv(s, c.value, store, Done);
    }
  }

  lemma BotKeepsInv(s: St, force: bool, now: int, reply: BotReply, store: Save)
    requires Inv(s)
    ensures Inv(BotAccess(s, force, now, reply, store).0)
  {
    if s.disk.Some? {
      var c := WithBot(s.disk.value, force, now, reply);
      MemoryKeepsInv(s, s.uncertain, s.revision, s.sessions);
      if c.Ok? {
        KeptUserKeepsInv(s, c.value, store, Returned(c.value.bot.value.access));
      }
    }
  }

  lemma BeginKeepsInv(s: St, id: nat, granted: bool)
    requires Inv(s)
    ensures Inv(Begin(s, id, granted).0)
  {
    CancelAllKeepsOneLive(s.sessions);
  }

  lemma LogoutKeepsInv(s: St, store: Save)
    requires Inv(s)
    ensures Inv(Logout(s, store).0)
  {
    CancelAllKeepsOneLive(s.sessions);
    if s.disk.Some? {
      KeptUserKeepsInv(s, s.disk.value.(user := None), store, Done);
    }
  }

  lemma StepKeepsInv(s: St, op: Op, now: int)
    requires Inv(s)
    ensures Inv(Apply(s, op, now).0)
  {
    match op
    case DoUserAccess(force, env) => if s.disk.Some? { UserTokenKeepsInv(s, force, now, env); }
    case DoBotAccess(force, botReply, store) => BotKeepsInv(s, force, now, botReply, store);
    case DoConfigure(appId, secret, confirm, botReply, store) => ConfigureKeepsInv(s, appId, secret, confirm, now, botReply, store);
    case DoAdopt(record, botReply, store) => AdoptKeepsInv(s, record, now, botReply, store);
    case DoBegin(id, granted) => BeginKeepsInv(s, id, granted);
    case DoPoll(id, reply, meanwhile, store, profile) => PollKeepsInv(s, id, reply, meanwhile, store, profile);
    case DoCancel(id) => if id in s.sessions { FinishKeepsInv(s, id); }
    case DoLogout(store) => LogoutKeepsInv(s, store);
    case Crash => MemoryKeepsInv(s, s.uncertain, s.revision, s.sessions);
  }

  lemma {:induction false} RunKeepsInv(s: St, ops: seq<Op>, times: seq<int>)
    requires Inv(s) && |ops| == |times|
    ensures Inv(Run(s, ops, times))
    decreases |ops|
  {
    if ops != [] {
      StepKeepsInv(s, ops[0], times[0]);
      RunKeepsInv(Apply(s, ops[0], times[0]).0, ops[1..], times[1..]);
    }
  }

  /** Something was heard of a token between two of its sends. */
  lemma {:induction false} HeardBetween(log: seq<Event>, i: nat, j: nat, t: string) returns (k: nat)
    requires i < j <= |log| && log[i] == Sent(t) && !Outstanding(log[..j], t)
    ensures i < k < j && log[k].token == t && !log[k].Sent?
    decreases j
  {
    assert log[..j][..j - 1] == log[..j - 1];
    if log[j - 1].token == t {
      k := j - 1;
    } else {
      k := HeardBetween(log, i, j - 1, t);
    }
  }

  /** A server that rotates: what it issues never appeared before. */
  ghost predicate Rotates(log: seq<Event>) {
    forall i, k :: 0 <= i < k < |log| && log[k].Issued? ==> log[i].token != log[k].token
  }

  /** Over every run of the connection, with crashes, network failures and failed writes at any await: with a
      server that rotates its tokens, a refresh token is sent again only after the server refused it. */
  lemma RefreshTokenSentOnce(ops: seq<Op>, times: seq<int>, i: nat, j: nat)
    requires |ops| == |times|
    requires var log := Run(Empty, ops, times).log;
             Rotates(log) && i < j < |log| && log[i].Sent? && log[j] == log[i]
    ensures var log := Run(Empty, ops, times).log;
            exists k :: i < k < j && log[k] == Refused(log[i].token)
  {
    RunKeepsInv(Empty, ops, times);
    var log := Run(Empty, ops, times).log;
    var k := HeardBetween(log, i, j, log[i].token);
    assert log[k] == Refused(log[i].token);
  }

  // ---- a token is returned only when it is on disk ----

  /** What a request for a user token answers: with a token only if the stored record holds it; and a token
      obtained by a refresh is stored together with the refresh token that was issued with it. */
  ghost predicate Durable(s: St, s': St, answer: Answer, env: RefreshEnv) {
    answer.Returned? ==>
      && s'.disk.Some? && s'.disk.value.user.Some? && s'.disk.value.user.value.access == answer.token
      && (s'.log != s.log ==>
            && env.reply.Tokens? && env.reply.user.access == answer.token
            && s'.disk.value.user.value.refresh == env.reply.user.refresh && !s'.disk.value.user.value.pending)
  }

  lemma ReturnedTokenIsStored(s: St, force: bool, now: int, env: RefreshEnv)
    ensures var (s', answer) := Apply(s, DoUserAccess(force, env), now); Durable(s, s', answer, env)
  {
  }

  // ---- an uncertain refresh blocks until the user authorizes again ----

  ghost predicate NothingToSend(s: St) {
    s.disk.Some? && (s.disk.value.user.None? || s.disk.value.user.value.pending)
  }

  lemma StepSendsNothing(s: St, op: Op, now: int)
    requires NothingToSend(s) && !op.DoPoll?
    ensures NothingToSend(Apply(s, op, now).0) && Apply(s, op, now).0.log == s.log
  {
  }

  /** Once a token is marked as pending on disk, only a new authorization makes the connection send again:
      restarts, reconfiguration and retries send nothing. */
  lemma {:induction false} PendingBlocks(s: St, ops: seq<Op>, times: seq<int>)
    requires |ops| == |times| && NothingToSend(s) && forall i :: 0 <= i < |ops| ==> !ops[i].DoPoll?
    ensures Run(s, ops, times).log == s.log && NothingToSend(Run(s, ops, times))
    decreases |ops|
  {
    if ops != [] {
      StepSendsNothing(s, ops[0], times[0]);
      PendingBlocks(Apply(s, ops[0], times[0]).0, ops[1..], times[1..]);
    }
  }

  /** Every refresh that ends without an explicit reply, forced or because the cached token is about to expire,
      leaves the connection blocked, or the token unsent. */
  lemma UncertainRefreshBlocks(s: St, force: bool, now: int, env: RefreshEnv)
    requires s.disk.Some? && s.disk.value.user.Some? && !s.disk.value.user.value.pending && !s.uncertain
    requires Refreshable(s.disk.value.user.value, now)
    requires force || s.disk.value.user.value.expiresAt <= now + Ahead
    requires env.reply.Unreachable? || env.reply.NoReply? || env.reply.Malformed?
    ensures var s' := UserToken(s, s.disk.value, force, now, env).0;
            NothingToSend(s') || (s'.log == s.log && s'.disk == s.disk)
  {
  }

  // ---- what each operation answers ----

  /** How many times a token was sent. */
  function Sends(log: seq<Event>, t: string): nat {
    if log == [] then 0 else Sends(log[..|log| - 1], t) + if log[|log| - 1] == Sent(t) then 1 else 0
  }

  /** A stored user whose token is wanted and cannot come from the cache. */
  predicate Due(s: St, force: bool, now: int) {
    s.disk.Some? && s.disk.value.user.Some? && (force || s.disk.value.user.value.expiresAt <= now + Ahead)
  }

  /** A due refresh that may be tried: nothing is known to be uncertain, and the refresh token is usable. */
  predicate MayRefresh(s: St, now: int) {
    && s.disk.Some? && s.disk.value.user.Some? && !s.uncertain
    && var u := s.disk.value.user.value;
       && !u.pending && u.refresh.Some? && |u.refresh.value| > 0
       && u.refreshExpiresAt.Some? && u.refreshExpiresAt.value > now && u.refreshExpiresAt.value != 0
  }

  /** A token comes from the cache exactly when there is a stored user, nobody forces a refresh and the token is
      good for more than a minute; it is the stored one then, and nothing changes. */
  lemma CachedTokenExactly(s: St, force: bool, now: int, env: RefreshEnv)
    ensures var (s', answer) := Apply(s, DoUserAccess(force, env), now);
            && (answer.Returned? && s'.log == s.log <==>
                  s.disk.Some? && s.disk.value.user.Some? && !force && s.disk.value.user.value.expiresAt > now + Ahead)
            && (answer.Returned? && s'.log == s.log ==> s' == s && answer.token == s.disk.value.user.value.access)
  {
    if Due(s, force, now) && MayRefresh(s, now) && env.mark.Saved? {
      RefreshSends(s, force, now, env);
    }
  }

  lemma RefreshSends(s: St, force: bool, now: int, env: RefreshEnv)
    requires Due(s, force, now) && MayRefresh(s, now) && env.mark.Saved?
    ensures var log := Apply(s, DoUserAccess(force, env), now).0.log;
            |s.log| < |log| && log[..|s.log|] == s.log && log[|s.log|] == Sent(s.disk.value.user.value.refresh.value)
  {
  }

  /** What cannot be refreshed is not: without a stored user, with a refresh of unknown outcome, or with a token
      that is missing or over, a due request throws, sends nothing and changes nothing. */
  lemma RefreshIsRefused(s: St, force: bool, now: int, env: RefreshEnv)
    requires s.disk.None? || s.disk.value.user.None? || (Due(s, force, now) && !MayRefresh(s, now))
    ensures Apply(s, DoUserAccess(force, env), now) == (s, Threw)
  {
  }

  /** How a refresh reaches the exchange: the token is marked on disk before it is sent. */
  lemma RefreshReachesExchange(s: St, force: bool, now: int, env: RefreshEnv)
    requires Due(s, force, now) && MayRefresh(s, now) && env.mark.Saved?
    ensures var record, u := s.disk.value, s.disk.value.user.value;
            Apply(s, DoUserAccess(force, env), now)
            == Exchange(s.(disk := Some(record.(user := Some(u.(pending := true)))), log := s.log + [Sent(u.refresh.value)]), record, u, env)
  {
  }

  lemma SentIsCounted(log: seq<Event>, t: string, user: User)
    ensures Sends(NewTokens(log + [Sent(t)], user), t) == Sends(log, t) + 1
  {
    var sent := log + [Sent(t)];
    assert sent[..|log|] == log;
    if user.refresh.Some? {
      assert NewTokens(sent, user)[..|sent|] == sent;
    }
  }

  /** A due refresh that meets no failure: the old refresh token is sent once, the new token is returned, and
      the record holds it with all that was issued with it, under the same app and name, not pending. */
  lemma RefreshSucceeds(s: St, force: bool, now: int, env: RefreshEnv)
    requires Due(s, force, now) && MayRefresh(s, now)
    requires env.mark.Saved? && env.reply.Tokens? && env.store.Saved?
    ensures var (s', answer) := Apply(s, DoUserAccess(force, env), now);
            var t := s.disk.value.user.value.refresh.value;
            var issued := env.reply.user;
            && answer == Returned(issued.access) && Sends(s'.log, t) == Sends(s.log, t) + 1
            && s'.disk.Some? && s'.disk.value.user.Some?
            && s'.disk.value.appId == s.disk.value.appId && s'.disk.value.secret == s.disk.value.secret && s'.disk.value.bot == s.disk.value.bot
            && s'.disk.value.user.value == issued.(name := s.disk.value.user.value.name, pending := false)
            && !s'.uncertain && s'.revision == s.revision && s'.sessions == s.sessions
  {
    RefreshReachesExchange(s, force, now, env);
    SentIsCounted(s.log, s.disk.value.user.value.refresh.value, env.reply.user);
  }

  /** An explicit OAuth error ends the refresh: the call throws, and the stored user keeps everything but the
      mark, and loses the refresh token and the cached one after a final error. From then on a request throws at
      once after a final error, and may try again after any other. */
  lemma OAuthErrorsSettle(s: St, force: bool, now: int, env: RefreshEnv)
    requires Due(s, force, now) && MayRefresh(s, now) && env.mark.Saved? && env.reply.OAuthError? && env.store.Saved?
    ensures var (s', answer) := Apply(s, DoUserAccess(force, env), now);
            var u := s.disk.value.user.value;
            && answer == Threw && s'.disk.Some? && s'.disk.value.user.Some? && !s'.uncertain
            && s'.disk.value.(user := s.disk.value.user) == s.disk.value
            && var kept := s'.disk.value.user.value;
               if env.reply.code in {20026, 20037, 20064, 20073} || env.reply.kind == "invalid_grant"
               then kept.refresh.None? && kept.expiresAt == 0 && !kept.pending && !MayRefresh(s', now)
               else kept == u && MayRefresh(s', now)
  {
  }

  /** When the reply cannot be trusted or stored, the process knows: no request refreshes until a person
      authorizes or the app is configured anew. */
  lemma LostReplyIsUncertain(s: St, force: bool, now: int, env: RefreshEnv)
    requires Due(s, force, now) && MayRefresh(s, now) && env.mark.Saved?
    requires env.reply.Unreachable? || env.reply.Malformed? || (env.reply.Tokens? && env.store.NotSaved?)
    ensures var (s', answer) := Apply(s, DoUserAccess(force, env), now);
            && answer == Threw && s'.uncertain
            && ((env.reply.Tokens? && env.store.landed) || (s'.disk.Some? && s'.disk.value.user == Some(s.disk.value.user.value.(pending := true))))
  {
  }

  /** The bot token of a record that is good for more than a minute and not to be replaced. */
  predicate BotIsFresh(c: Credential, force: bool, now: int) {
    !force && c.bot.Some? && c.bot.value.expiresAt > now + Ahead
  }

  /** A bot token is returned exactly when there is a record, the token in it is fresh or the server issues one,
      and the write succeeds. It is stored, and the rest of the record stays. */
  lemma BotTokenIsStored(s: St, force: bool, now: int, reply: BotReply, store: Save)
    ensures var (s', answer) := Apply(s, DoBotAccess(force, reply, store), now);
            && (answer.Returned? <==> s.disk.Some? && (BotIsFresh(s.disk.value, force, now) || reply.BotToken?) && store.Saved?)
            && (answer.Returned? ==>
                  && s'.disk.Some? && s'.disk.value.bot.Some? && answer.token == s'.disk.value.bot.value.access
                  && s'.disk.value == s.disk.value.(bot := s'.disk.value.bot) && s' == s.(disk := s'.disk)
                  && s'.disk.value.bot == (if BotIsFresh(s.disk.value, force, now) then s.disk.value.bot else Some(reply.bot)))
            && s'.log == s.log && (s.disk.None? ==> s' == s)
  {
  }

  /** The secret a configuration would use: the one given, or the stored one of the same app. */
  function UsableSecret(s: St, appId: string, secret: Option<string>): string {
    if secret.Some? then secret.value
    else if s.disk.Some? && s.disk.value.appId == appId then s.disk.value.secret
    else ""
  }

  /** A configuration is done exactly when the app id is valid, a change of app is confirmed, a secret is
      usable, the server issues a bot token for it and the write succeeds. The record is then the new app with
      its token; the user stays exactly with the same app; every authorization is over and nothing uncertain.
      Otherwise, unless the failing write landed, the record stays. */
  lemma ConfigureExactly(s: St, appId: string, secret: Option<string>, confirm: bool, now: int, reply: BotReply, store: Save)
    ensures var (s', answer) := Apply(s, DoConfigure(appId, secret, confirm, reply, store), now);
            var same := s.disk.Some? && s.disk.value.appId == appId;
            && (answer.Done? <==>
                  && ValidAppId(appId) && (s.disk.None? || same || confirm)
                  && UsableSecret(s, appId, secret) != "" && reply.BotToken? && store.Saved?)
            && (answer.Done? ==>
                  && s'.disk == Some(Credential(appId, UsableSecret(s, appId, secret), if same then s.disk.value.user else None, Some(reply.bot)))
                  && s'.revision == s.revision + 1 && !s'.uncertain && s'.sessions.Keys == s.sessions.Keys
                  && (forall id :: id in s'.sessions ==> !s'.sessions[id].live))
            && (answer.Threw? && !(store.NotSaved? && store.landed) ==> s' == s)
            && (!reply.BotToken? ==> s'.disk == s.disk)
  {
  }

  /** A record is adopted exactly where none is stored, when it is sound, proved by a bot token and written. */
  lemma AdoptExactly(s: St, record: Credential, now: int, reply: BotReply, store: Save)
    ensures var (s', answer) := Apply(s, DoAdopt(record, reply, store), now);
            && (answer.Done? <==>
                  && s.disk.None? && ValidAppId(record.appId) && record.secret != ""
                  && (BotIsFresh(record, false, now) || reply.BotToken?) && store.Saved?)
            && (answer.Done? ==>
                  && s'.disk == Some(record.(bot := if BotIsFresh(record, false, now) then record.bot else Some(reply.bot)))
                  && s' == s.(disk := s'.disk, revision := s.revision + 1))
            && (s.disk.Some? ==> s' == s)
  {
  }

  /** A new authorization needs a record and a grant. It is then the only open one, bound to the app and the
      revision of now; the attempt cancels the others in any case. */
  lemma BeginExactly(s: St, id: nat, granted: bool, now: int)
    ensures var (s', answer) := Apply(s, DoBegin(id, granted), now);
            && (answer.Done? <==> s.disk.Some? && granted)
            && (s.disk.None? ==> s' == s)
            && (s.disk.Some? ==>
                  && s' == s.(sessions := s'.sessions)
                  && forall other :: other in s'.sessions && s'.sessions[other].live ==> other == id && granted)
            && (answer.Done? ==> id in s'.sessions && s'.sessions[id] == Session(s.disk.value.appId, s.revision, true))
  {
  }

  /** The authorization is open, and the app and the revision it began with are still those of the record. */
  predicate MayPoll(s: St, id: nat) {
    && id in s.sessions && s.sessions[id].live
    && s.disk.Some? && s.disk.value.appId == s.sessions[id].appId && s.revision == s.sessions[id].revision
  }

  /** A poll writes a user exactly when it may, the server issues tokens, nothing ended the authorization
      meanwhile and the first write succeeds. The user is the issued one, not pending, under the same app; the
      refresh of unknown outcome is over, and the authorizations of before are, for the revision moved. */
  lemma PollStoresExactly(s: St, id: nat, reply: Reply, meanwhile: Meanwhile, store: Save, profile: Profile, now: int)
    ensures var (s', answer) := Apply(s, DoPoll(id, reply, meanwhile, store, profile), now);
            var taken := MayPoll(s, id) && reply.Tokens? && meanwhile.StillPending?;
            && (!taken ==> s'.disk == s.disk && (answer.Done? ==> s'.revision == s.revision && s'.uncertain == s.uncertain))
            && (taken && store.Saved? ==>
                  && s'.disk.Some? && s'.disk.value.user.Some?
                  && s'.disk.value.(user := s.disk.value.user) == s.disk.value
                  && s'.disk.value.user.value.(name := None) == reply.user.(name := None, pending := false)
                  && (s'.disk.value.user.value.name == if profile.Named? && (profile.store.Saved? || profile.store.landed) then Some(profile.name) else None)
                  && !s'.uncertain && (answer.Done? ==> s'.revision == s.revision + 1 && s'.sessions == s.sessions[id := s.sessions[id].(live := false)]))
            && (taken && !store.Saved? ==> s'.disk == if store.landed then Some(s.disk.value.(user := Some(reply.user.(name := None, pending := false)))) else s.disk)
            && s'.log == (if MayPoll(s, id) && reply.Tokens? then NewTokens(s.log, reply.user) else s.log)
  {
  }

  /** An authorization stays open exactly when nothing decided about it: it is not polled in vain for another
      app or revision, the server says to wait, or its time ran out while tokens arrived. */
  lemma PollKeepsOpenExactly(s: St, id: nat, reply: Reply, meanwhile: Meanwhile, store: Save, profile: Profile, now: int)
    requires id in s.sessions && s.sessions[id].live
    ensures var (s', answer) := Apply(s, DoPoll(id, reply, meanwhile, store, profile), now);
            answer.Done? ==> s'.sessions == s.sessions[id := s.sessions[id].(live := id in s'.sessions && s'.sessions[id].live)]
    ensures var (s', answer) := Apply(s, DoPoll(id, reply, meanwhile, store, profile), now);
            (id in s'.sessions && s'.sessions[id].live) <==>
              MayPoll(s, id) &&
              ((reply.OAuthError? && reply.kind in {"authorization_pending", "slow_down"} && !meanwhile.Cancelled?) ||
               (reply.Tokens? && meanwhile.Expired?))
  {
  }

  /** An authorization that is over stays over: polling it does nothing, and neither does cancelling another. */
  lemma ClosedAuthorizationIsInert(s: St, id: nat, reply: Reply, meanwhile: Meanwhile, store: Save, profile: Profile, now: int)
    ensures !(id in s.sessions && s.sessions[id].live) ==> Apply(s, DoPoll(id, reply, meanwhile, store, profile), now) == (s, Done)
    ensures var (s', answer) := Apply(s, DoCancel(id), now);
            && answer.Done? && s' == s.(sessions := s'.sessions) && s'.sessions.Keys == s.sessions.Keys
            && forall other :: other in s'.sessions ==> s'.sessions[other] == s.sessions[other].(live := s.sessions[other].live && other != id)
  {
    if id in s.sessions {
      assert Finish(s, id).sessions.Keys == s.sessions.Keys;
    }
  }

  /** After a sign-out no user is stored, the app and its bot token are, and every authorization is over. */
  lemma LogoutExactly(s: St, store: Save, now: int)
    ensures var (s', answer) := Apply(s, DoLogout(store), now);
            && (answer.Done? <==> s.disk.None? || store.Saved?)
            && (answer.Done? ==>
                  && (s.disk.None? ==> s'.disk.None?)
                  && (s.disk.Some? ==> s'.disk == Some(s.disk.value.(user := None)))
                  && s'.revision == s.revision + 1 && s'.log == s.log
                  && forall id :: id in s'.sessions ==> !s'.sessions[id].live)
            && (answer.Threw? ==> s' == s.(disk := if store.landed then Some(s.disk.value.(user := None)) else s.disk))
  {
  }

  // ---- the connection ----

  class LarkConnection {
    var disk: Option<Credential>
    var refreshUncertain: bool
    var revision: nat
    var sessions: map<nat, Session>
    ghost var log: seq<Event>

    ghost function View(): St
      reads this
    {
      St(disk, refreshUncertain, revision, sessions, log)
    }

    constructor ()
      ensures View() == Empty
    {
      disk, refreshUncertain, revision, sessions, log := None, false, 0, map[], [];
    }

    /** The process stops and starts again. */
    method Restart()
      modifies this
      ensures View() == Restarted(old(View()))
    {
      refreshUncertain, revision, sessions := false, 0, map[];
    }

    method Save(c: Credential, save: Save) returns (a: Answer)
      modifies this
      ensures (View(), a) == Store(old(View()), c, save, Done)
    {
      if save.Saved? || save.landed {
        disk := Some(c);
      }
      if save.CutOff? {
        Restart();
        return Crashed;
      }
      return if save.Saved? then Done else Threw;
    }

    /** A user token: the cached one, or a refreshed one whose refresh token was marked before it was sent. */
    method UserAccessToken(force: bool, now: int, env: RefreshEnv) returns (a: Answer)
      modifies this
      ensures (View(), a) == Apply(old(View()), DoUserAccess(force, env), now)
    {
      if disk.None? || disk.value.user.None? {
        return Threw;
      }
      var record := disk.value;
      var user := record.user.value;
      if !force && user.expiresAt > now + Ahead {
        return Returned(user.access);
      }
      if refreshUncertain || user.pending || !Refreshable(user, now) {
        return Threw;
      }
      a := Save(record.(user := Some(user.(pending := true))), env.mark);
      if !a.Done? {
        return;
      }
      log := log + [Sent(user.refresh.value)];
      a := AwaitTokens(record, user, env);
    }

    method AwaitTokens(record: Credential, user: User, env: RefreshEnv) returns (a: Answer)
      requires user.refresh.Some?
      modifies this
      ensures (View(), a) == Exchange(old(View()), record, user, env)
    {
      match env.reply
      case NoReply =>
        Restart();
        return Crashed;
      case Unreachable =>
        refreshUncertain := true;
        return Threw;
      case Malformed =>
        refreshUncertain := true;
        return Threw;
      case OAuthError(kind, code) =>
        log := log + [Refused(user.refresh.value)];
        var kept := user.(pending := false);
        if Final(kind, code) {
          kept := kept.(refresh := None, expiresAt := 0);
        }
        a := Save(record.(user := Some(kept)), env.store);
        return if a.Crashed? then a else Threw;
      case Tokens(issued) =>
        log := NewTokens(log, issued);
        a := Save(record.(user := Some(issued.(name := user.name, pending := false))), env.store);
        if a.Threw? {
          refreshUncertain := true;
        }
        return if a.Done? then Returned(issued.access) else a;
    }

    method BotAccessToken(force: bool, now: int, reply: BotReply, store: Save) returns (a: Answer)
      modifies this
      ensures (View(), a) == Apply(old(View()), DoBotAccess(force, reply, store), now)
    {
      if disk.None? {
        return Threw;
      }
      var record := WithBot(disk.value, force, now, reply);
      if record.Err? {
        if record.error.Crashed? {
          Restart();
        }
        return record.error;
      }
      a := Save(record.value, store);
      return if a.Done? then Returned(record.value.bot.value.access) else a;
    }

    method CancelSessions()
      modifies `sessions
      ensures sessions == CancelAll(old(sessions))
    {
      sessions := map id | id in sessions :: sessions[id].(live := false);
    }

    method ConfigureApp(appId: string, secret: Option<string>, confirm: bool, now: int, reply: BotReply, store: Save) returns (a: Answer)
      modifies this
      ensures (View(), a) == Apply(old(View()), DoConfigure(appId, secret, confirm, reply, store), now)
    {
      if !ValidAppId(appId) || secret == Some("") {
        return Threw;
      }
      var changed := disk.Some? && disk.value.appId != appId;
      if changed && !confirm {
        return Threw;
      }
      var kept := "";
      if secret.Some? {
        kept := secret.value;
      } else if disk.Some? && !changed {
        kept := disk.value.secret;
      }
      if kept == "" {
        return Threw;
      }
      var user := if disk.Some? && !changed then disk.value.user else None;
      var record := WithBot(Credential(appId, kept, user, None), false, now, reply);
      if record.Err? {
        if record.error.Crashed? {
          Restart();
        }
        return record.error;
      }
      a := Save(record.value, store);
      if a.Done? {
        revision := revision + 1;
        CancelSessions();
        refreshUncertain := false;
      }
    }

    method AdoptRecord(record: Credential, now: int, reply: BotReply, store: Save) returns (a: Answer)
      modifies this
      ensures (View(), a) == Apply(old(View()), DoAdopt(record, reply, store), now)
    {
      if disk.Some? || !ValidAppId(record.appId) || record.secret == "" {
        return Threw;
      }
      var proved := WithBot(record, false, now, reply);
      if proved.Err? {
        if proved.error.Crashed? {
          Restart();
        }
        return proved.error;
      }
      a := Save(proved.value, store);
      if a.Done? {
        revision := revision + 1;
      }
    }

    method BeginAuthorization(id: nat, granted: bool, now: int) returns (a: Answer)
      modifies this
      ensures (View(), a) == Apply(old(View()), DoBegin(id, granted), now)
    {
      if disk.None? {
        return Threw;
      }
      CancelSessions();
      if !granted {
        return Threw;
      }
      sessions := sessions[id := Session(disk.value.appId, revision, true)];
      return Done;
    }

    method FinishSession(id: nat)
      requires id in sessions
      modifies `sessions
      ensures sessions == old(sessions)[id := old(sessions)[id].(live := false)]
    {
      sessions := sessions[id := sessions[id].(live := false)];
    }

    method PollAuthorization(id: nat, reply: Reply, meanwhile: Meanwhile, store: Save, profile: Profile, now: int) returns (a: Answer)
      modifies this
      ensures (View(), a) == Apply(old(View()), DoPoll(id, reply, meanwhile, store, profile), now)
    {
      if id !in sessions || !sessions[id].live {
        return Done;
      }
      if disk.None? || disk.value.appId != sessions[id].appId || revision != sessions[id].revision {
        FinishSession(id);
        return Done;
      }
      if reply.NoReply? {
        Restart();
        return Crashed;
      }
      if reply.OAuthError? && reply.kind in {"authorization_pending", "slow_down"} && !meanwhile.Cancelled? {
        return Done;
      }
      if !reply.Tokens? {
        FinishSession(id);
        return Done;
      }
      a := AcceptTokens(id, reply.user, meanwhile, store, profile);
    }

    method AcceptTokens(id: nat, user: User, meanwhile: Meanwhile, store: Save, profile: Profile) returns (a: Answer)
      requires id in sessions && disk.Some?
      modifies this
      ensures (View(), a) == Accept(old(View()), id, user, meanwhile, store, profile)
    {
      log := NewTokens(log, user);
      if meanwhile.Expired? {
        return Done;
      }
      if meanwhile.Cancelled? {
        FinishSession(id);
        return Done;
      }
      a := KeepAuthorization(id, disk.value.(user := Some(user.(name := None, pending := false))), store, profile);
    }

    method KeepAuthorization(id: nat, record: Credential, store: Save, profile: Profile) returns (a: Answer)
      requires id in sessions && record.user.Some?
      modifies this
      ensures (View(), a) == Authorized(old(View()), id, record, store, profile)
    {
      a := Save(record, store);
      if a.Crashed? {
        return;
      }
      if a.Done? {
        refreshUncertain := false;
        revision := revision + 1;
        if profile.NoProfileReply? {
          Restart();
          return Crashed;
        }
        if profile.Named? {
          a := Save(record.(user := Some(record.user.value.(name := Some(profile.name)))), profile.store);
          if a.Crashed? {
            return;
          }
        }
      }
      FinishSession(id);
      return Done;
    }

    method SignOut(store: Save, now: int) returns (a: Answer)
      modifies this
      ensures (View(), a) == Apply(old(View()), DoLogout(store), now)
    {
      a := Done;
      if disk.Some? {
        a := Save(disk.value.(user := None), store);
      }
      if a.Done? {
        revision := revision + 1;
        CancelSessions();
      }
    }
  }
}
