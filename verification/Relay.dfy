/**
 The relay's requests, each one whole step: who may do what to a group, what happens to a
 Welcome, and how invites are spent (relay/src/server.rs over relay/src/store.rs).
 */
module Relay {
  import opened Common
  import opened Seqs
  import opened Roster

  type Conn = nat
  type InviteId = string

  datatype Welcome = Welcome(from: User, group: Group, after: nat, payload: Bytes)

  datatype Invite = Invite(group: Group, payload: Bytes, expiresAt: Option<nat>, maxUses: Option<nat>, uses: nat)

  /** Deployment settings: global admins, and whether anyone may register. */
  datatype Config = Config(admins: set<User>, open: bool)

  /** `claims` holds the (invite, user) pairs that already counted a use. */
  datatype State = State(
    users: set<User>,
    rosters: map<Group, Roster>,
    subscribers: map<Group, map<User, Conn>>,
    online: map<User, Conn>,
    stored: map<User, seq<Welcome>>,
    invites: map<InviteId, Invite>,
    claims: set<(InviteId, User)>)

  const START := State({}, map[], map[], map[], map[], map[], {})

  /** `room`: whether the recipient's connection, if there is one, can take another message. */
  datatype Request =
    | Register(user: User, invite: Option<InviteId>, now: nat)
    | Connect(user: User, conn: Conn)
    | Disconnect(user: User, conn: Conn)
    | CreateGroup(user: User, conn: Conn, group: Group)
    | Allow(user: User, group: Group, target: User)
    | SetRole(user: User, group: Group, target: User, role: Role)
    | Disallow(user: User, group: Group, target: User)
    | DeleteGroup(user: User, group: Group)
    | Subscribe(user: User, conn: Conn, group: Group)
    | DropSlow(user: User, group: Group)
    | SendWelcome(user: User, to: User, welcome: Welcome, room: bool)
    | CreateInvite(user: User, id: InviteId, record: Invite)
    | UpdateInvite(user: User, id: InviteId, payload: Bytes)
    | RevokeInvite(user: User, id: InviteId)
    | RedeemInvite(user: User, id: InviteId, now: nat)

  datatype Reply = Done | Refused | Invited(group: Group, payload: Bytes)

  function At<T>(m: map<User, seq<T>>, user: User): (s: seq<T>) { if user in m then m[user] else [] }

  predicate IsMember(s: State, g: Group, u: User) { g in s.rosters && RoleOf(s.rosters[g], u).Some? }

  /** A group admin or a global one. */
  predicate IsAdmin(c: Config, s: State, g: Group, u: User) {
    u in c.admins || (g in s.rosters && RoleOf(s.rosters[g], u) == Some(Admin))
  }

  function SubscribersOf(s: State, g: Group): (subs: map<User, Conn>) {
    if g in s.subscribers then s.subscribers[g] else map[]
  }

  function WithSubscriber(s: State, g: Group, u: User, conn: Conn): (s': State) {
    s.(subscribers := s.subscribers[g := SubscribersOf(s, g)[u := conn]])
  }

  function WithoutSubscriber(s: State, g: Group, u: User): (s': State) {
    if g in s.subscribers then s.(subscribers := s.subscribers[g := s.subscribers[g] - {u}]) else s
  }

  /** A closing connection takes away only the entries it still owns. */
  function WithoutConnection(s: State, u: User, conn: Conn): (s': State) {
    s.(subscribers := map g | g in s.subscribers ::
         if u in s.subscribers[g] && s.subscribers[g][u] == conn then s.subscribers[g] - {u} else s.subscribers[g],
       online := if u in s.online && s.online[u] == conn then s.online - {u} else s.online)
  }

  /** Deleting a group takes its queued Welcomes and its invites with it. */
  function WithoutGroup(s: State, g: Group): (s': State) {
    s.(rosters := s.rosters - {g},
       subscribers := s.subscribers - {g},
       stored := map u | u in s.stored :: Filter(ForOther(g), s.stored[u]),
       invites := map i | i in s.invites && s.invites[i].group != g :: s.invites[i])
  }

  function ForOther(g: Group): Welcome -> bool { (w: Welcome) => w.group != g }

  function For(g: Group): Welcome -> bool { (w: Welcome) => w.group == g }

  // ------------------------------------------------------------------------- invites

  /** Whether presenting the link now succeeds. */
  predicate Redeemable(s: State, id: InviteId, user: User, now: nat) {
    && id in s.invites
    && (s.invites[id].expiresAt.Some? ==> now <= s.invites[id].expiresAt.value)
    && ((id, user) in s.claims || (s.invites[id].maxUses.Some? ==> s.invites[id].uses < s.invites[id].maxUses.value))
  }

  /** `redeem_invite`: a first presentation counts a use, a repeated one does not. */
  function Redeem(s: State, id: InviteId, user: User, now: nat): (r: (State, bool)) {
    if !Redeemable(s, id, user, now) then (s, false)
    else if (id, user) in s.claims then (s, true)
    else (s.(invites := s.invites[id := s.invites[id].(uses := s.invites[id].uses + 1)], claims := s.claims + {(id, user)}), true)
  }

  // ------------------------------------------------------------------------ requests

  function HandleGroup(c: Config, s: State, r: Request): (out: (State, Reply))
    requires r.CreateGroup? || r.Allow? || r.SetRole? || r.Disallow? || r.DeleteGroup? || r.Subscribe? || r.DropSlow?
  {
    match r
    case CreateGroup(user, conn, g) =>
      if g in s.rosters then (s, Refused)
      else (WithSubscriber(s.(rosters := s.rosters[g := [Seat(user, Admin)]]), g, user, conn), Done)
    case Allow(user, g, target) =>
      if !IsAdmin(c, s, g, user) || g !in s.rosters then (s, Refused)
      else (s.(rosters := s.rosters[g := With(s.rosters[g], target)]), Done)
    case SetRole(user, g, target, role) =>
      if !IsAdmin(c, s, g, user) || g !in s.rosters then (s, Refused)
      else if role.Member? && LastAdmin(s.rosters[g], target) then (s, Refused)
      else if RoleOf(s.rosters[g], target).None? then (s, Refused)
      else (s.(rosters := s.rosters[g := Assign(s.rosters[g], target, role)]), Done)
    case Disallow(user, g, target) =>
      if target != user && !IsAdmin(c, s, g, user) then (s, Refused)
      else if g !in s.rosters || LastAdmin(s.rosters[g], target) then (s, Refused)
      else (WithoutSubscriber(s.(rosters := s.rosters[g := Without(s.rosters[g], target)]), g, target), Done)
    case DeleteGroup(user, g) =>
      if !IsAdmin(c, s, g, user) then (s, Refused) else (WithoutGroup(s, g), Done)
    case Subscribe(user, conn, g) =>
      if !IsMember(s, g, user) then (s, Refused) else (WithSubscriber(s, g, user, conn), Done)
    case DropSlow(user, g) => (WithoutSubscriber(s, g, user), Done)
  }

  function HandleInvite(c: Config, s: State, r: Request): (out: (State, Reply))
    requires r.Register? || r.CreateInvite? || r.UpdateInvite? || r.RevokeInvite? || r.RedeemInvite?
  {
    match r
    case Register(user, invite, now) =>
      if user in s.users || c.open || s.users == {} then (s.(users := s.users + {user}), Done)
      else if invite.None? then (s, Refused)
      else
        var (s', ok) := Redeem(s, invite.value, user, now);
        if ok then (s'.(users := s.users + {user}), Done) else (s, Refused)
    case CreateInvite(user, id, record) =>
      if !IsAdmin(c, s, record.group, user) || record.group !in s.rosters then (s, Refused)
      // The first writer of an id wins.
      else if id in s.invites then (s, Done)
      else (s.(invites := s.invites[id := record.(uses := 0)]), Done)
    case UpdateInvite(user, id, payload) =>
      if id !in s.invites || !IsAdmin(c, s, s.invites[id].group, user) then (s, Refused)
      else (s.(invites := s.invites[id := s.invites[id].(payload := payload)]), Done)
    case RevokeInvite(user, id) =>
      if id !in s.invites then (s, Done)
      else if !IsAdmin(c, s, s.invites[id].group, user) then (s, Refused)
      else (s.(invites := s.invites - {id}), Done)
    case RedeemInvite(user, id, now) =>
      var (s', ok) := Redeem(s, id, user, now);
      if !ok then (s, Refused)
      else if s.invites[id].group !in s.rosters then (s', Refused)
      else
        var g := s.invites[id].group;
        (s'.(rosters := s.rosters[g := With(s.rosters[g], user)]), Invited(g, s.invites[id].payload))
  }

  /** A Welcome goes to the recipient's connection if it takes it, and otherwise into the store. */
  function HandleLive(c: Config, s: State, r: Request): (out: (State, Reply))
    requires r.Connect? || r.Disconnect? || r.SendWelcome?
  {
    match r
    case Connect(user, conn) => (s.(online := s.online[user := conn], stored := s.stored - {user}), Done)
    case Disconnect(user, conn) => (WithoutConnection(s, user, conn), Done)
    case SendWelcome(user, to, w, room) =>
      if !IsMember(s, w.group, user) || !IsMember(s, w.group, to) then (s, Refused)
      else if to in s.online && room then (s, Done)
      else (s.(stored := s.stored[to := At(s.stored, to) + [w.(from := user)]]), Done)
  }

  function Handle(c: Config, s: State, r: Request): (out: (State, Reply)) {
    if r.Connect? || r.Disconnect? || r.SendWelcome? then HandleLive(c, s, r)
    else if r.Register? || r.CreateInvite? || r.UpdateInvite? || r.RevokeInvite? || r.RedeemInvite? then HandleInvite(c, s, r)
    else HandleGroup(c, s, r)
  }

  function HandleAll(c: Config, rs: seq<Request>): (s: State) {
    if rs == [] then START else Handle(c, HandleAll(c, rs[..|rs| - 1]), rs[|rs| - 1]).0
  }

  // -------------------------------------------------------------------- the ACL invariant

  ghost predicate RostersOk(rosters: map<Group, Roster>) { forall g :: g in rosters ==> Valid(rosters[g]) }

  ghost predicate SubscribersOk(s: State) {
    forall g, u :: g in s.subscribers && u in s.subscribers[g] ==> IsMember(s, g, u)
  }

  ghost predicate StoredOk(s: State) {
    forall u, w :: u in s.stored && w in s.stored[u] ==> w.group in s.rosters
  }

  ghost predicate InvitesOk(s: State) { forall i :: i in s.invites ==> s.invites[i].group in s.rosters }

  ghost predicate Acl(s: State) { RostersOk(s.rosters) && SubscribersOk(s) && StoredOk(s) && InvitesOk(s) }

  /** Nobody loses a seat: everything that pointed at a group or a member still does. */
  ghost predicate SeatsGrow(before: map<Group, Roster>, after: map<Group, Roster>) {
    && (forall g :: g in before ==> g in after)
    && (forall g, u :: g in before && RoleOf(before[g], u).Some? ==> RoleOf(after[g], u).Some?)
  }

  lemma {:induction false} GrowKeeps(s: State, s': State)
    requires Acl(s) && RostersOk(s'.rosters) && SeatsGrow(s.rosters, s'.rosters)
    requires s'.subscribers == s.subscribers && s'.stored == s.stored && s'.invites == s.invites
    ensures Acl(s')
  {
  }

  lemma {:induction false} AllowKeeps(s: State, g: Group, user: User)
    requires Acl(s) && g in s.rosters
    ensures Acl(s.(rosters := s.rosters[g := With(s.rosters[g], user)]))
    ensures IsMember(s.(rosters := s.rosters[g := With(s.rosters[g], user)]), g, user)
  {
    var s' := s.(rosters := s.rosters[g := With(s.rosters[g], user)]);
    WithValid(s.rosters[g], user);
    WithRoles(s.rosters[g], user, user);
    forall u | RoleOf(s.rosters[g], u).Some? ensures RoleOf(s'.rosters[g], u).Some? { WithRoles(s.rosters[g], user, u); }
    GrowKeeps(s, s');
  }

  lemma {:induction false} AssignKeeps(s: State, g: Group, user: User, role: Role)
    requires Acl(s) && g in s.rosters && (role.Member? ==> !LastAdmin(s.rosters[g], user))
    ensures Acl(s.(rosters := s.rosters[g := Assign(s.rosters[g], user, role)]))
  {
    var s' := s.(rosters := s.rosters[g := Assign(s.rosters[g], user, role)]);
    AssignValid(s.rosters[g], user, role);
    forall u | RoleOf(s.rosters[g], u).Some? ensures RoleOf(s'.rosters[g], u).Some? { AssignRoles(s.rosters[g], user, role, u); }
    GrowKeeps(s, s');
  }

  lemma {:induction false} CreateKeeps(s: State, g: Group, user: User)
    requires Acl(s) && g !in s.rosters
    ensures Acl(s.(rosters := s.rosters[g := [Seat(user, Admin)]]))
    ensures IsMember(s.(rosters := s.rosters[g := [Seat(user, Admin)]]), g, user)
  {
    GrowKeeps(s, s.(rosters := s.rosters[g := [Seat(user, Admin)]]));
  }

  lemma {:induction false} SubscribeKeeps(s: State, g: Group, user: User, conn: Conn)
    requires Acl(s) && IsMember(s, g, user)
    ensures Acl(WithSubscriber(s, g, user, conn))
  {
  }

  /** Removing a member is safe only because their subscription goes in the same step. */
  lemma {:induction false} DisallowKeeps(s: State, g: Group, user: User)
    requires Acl(s) && g in s.rosters && !LastAdmin(s.rosters[g], user)
    ensures Acl(WithoutSubscriber(s.(rosters := s.rosters[g := Without(s.rosters[g], user)]), g, user))
  {
    WithoutValid(s.rosters[g], user);
    var s' := WithoutSubscriber(s.(rosters := s.rosters[g := Without(s.rosters[g], user)]), g, user);
    forall h, u | h in s'.subscribers && u in s'.subscribers[h] ensures IsMember(s', h, u) {
      if h == g { WithoutRoles(s.rosters[g], user, u); }
    }
  }

  lemma {:induction false} DeleteKeeps(s: State, g: Group)
    requires Acl(s)
    ensures Acl(WithoutGroup(s, g))
  {
    var s' := WithoutGroup(s, g);
    forall u, w | u in s'.stored && w in s'.stored[u] ensures w.group in s'.rosters {
      FilterMembers(ForOther(g), s.stored[u], w);
    }
  }

  lemma {:induction false} GroupKeeps(c: Config, s: State, r: Request)
    requires Acl(s)
    requires r.CreateGroup? || r.Allow? || r.SetRole? || r.Disallow? || r.DeleteGroup? || r.Subscribe? || r.DropSlow?
    ensures Acl(HandleGroup(c, s, r).0)
  {
    match r
    case CreateGroup(user, conn, g) =>
      if g !in s.rosters {
        CreateKeeps(s, g, user);
        SubscribeKeeps(s.(rosters := s.rosters[g := [Seat(user, Admin)]]), g, user, conn);
      }
    case Allow(user, g, target) => if g in s.rosters { AllowKeeps(s, g, target); }
    case SetRole(user, g, target, role) =>
      if g in s.rosters && !(role.Member? && LastAdmin(s.rosters[g], target)) { AssignKeeps(s, g, target, role); }
    case Disallow(user, g, target) =>
      if g in s.rosters && !LastAdmin(s.rosters[g], target) { DisallowKeeps(s, g, target); }
    case DeleteGroup(user, g) => DeleteKeeps(s, g);
    case Subscribe(user, conn, g) => if IsMember(s, g, user) { SubscribeKeeps(s, g, user, conn); }
    case DropSlow(user, g) =>
  }

  lemma {:induction false} RedeemAcl(s: State, id: InviteId, user: User, now: nat)
    requires Acl(s)
    ensures Acl(Redeem(s, id, user, now).0) && Redeem(s, id, user, now).0.rosters == s.rosters
  {
  }

  lemma {:induction false} PresentKeeps(c: Config, s: State, user: User, id: InviteId, now: nat)
    requires Acl(s)
    ensures Acl(HandleInvite(c, s, RedeemInvite(user, id, now)).0)
  {
    RedeemAcl(s, id, user, now);
    if id in s.invites { AllowKeeps(Redeem(s, id, user, now).0, s.invites[id].group, user); }
  }

  lemma {:induction false} InviteKeeps(c: Config, s: State, r: Request)
    requires Acl(s)
    requires r.Register? || r.CreateInvite? || r.UpdateInvite? || r.RevokeInvite? || r.RedeemInvite?
    ensures Acl(HandleInvite(c, s, r).0)
  {
    match r
    case Register(user, invite, now) => if invite.Some? { RedeemAcl(s, invite.value, user, now); }
    case RedeemInvite(user, id, now) => PresentKeeps(c, s, user, id, now);
    case _ =>
  }

  lemma {:induction false} LiveKeeps(c: Config, s: State, r: Request)
    requires Acl(s) && (r.Connect? || r.Disconnect? || r.SendWelcome?)
    ensures Acl(HandleLive(c, s, r).0)
  {
  }

  lemma {:induction false} HandleKeeps(c: Config, s: State, r: Request)
    requires Acl(s)
    ensures Acl(Handle(c, s, r).0)
  {
    if r.Connect? || r.Disconnect? || r.SendWelcome? {
      LiveKeeps(c, s, r);
    } else if r.Register? || r.CreateInvite? || r.UpdateInvite? || r.RevokeInvite? || r.RedeemInvite? {
      InviteKeeps(c, s, r);
    } else {
      GroupKeeps(c, s, r);
    }
  }

  /**
   After any run of requests every group has an admin and no one twice, every subscriber is a
   member, and invites, queued Welcomes and subscriptions name only groups that exist.
   */
  lemma {:induction false} AclHolds(c: Config, rs: seq<Request>)
    ensures Acl(HandleAll(c, rs))
  {
    if rs != [] {
      AclHolds(c, rs[..|rs| - 1]);
      HandleKeeps(c, HandleAll(c, rs[..|rs| - 1]), rs[|rs| - 1]);
    }
  }

  // ------------------------------------------------------------------------ authorisation

  lemma {:induction false} SeatGained(c: Config, s: State, r: Request, g: Group, u: User)
    requires r.CreateGroup? || r.Allow? || r.SetRole? || r.Disallow? || r.DeleteGroup? || r.Subscribe? || r.DropSlow?
    requires !IsMember(s, g, u) && IsMember(HandleGroup(c, s, r).0, g, u)
    ensures || (r.CreateGroup? && r.user == u && r.group == g && g !in s.rosters)
            || (r.Allow? && r.target == u && r.group == g && IsAdmin(c, s, g, r.user))
  {
    match r
    case CreateGroup(user, conn, h) => RoleOfOne(Seat(user, Admin), u);
    case SetRole(user, h, target, role) => if h == g && g in s.rosters { AssignRoles(s.rosters[g], target, role, u); }
    case Disallow(user, h, target) => if h == g && g in s.rosters { WithoutRoles(s.rosters[g], target, u); }
    case Allow(user, h, target) => if h == g && g in s.rosters { WithRoles(s.rosters[g], target, u); }
    case _ =>
  }

  lemma {:induction false} SeatLost(c: Config, s: State, r: Request, g: Group, u: User)
    requires r.CreateGroup? || r.Allow? || r.SetRole? || r.Disallow? || r.DeleteGroup? || r.Subscribe? || r.DropSlow?
    requires IsMember(s, g, u) && !IsMember(HandleGroup(c, s, r).0, g, u)
    ensures || (r.Disallow? && r.target == u && r.group == g && (r.user == u || IsAdmin(c, s, g, r.user)))
            || (r.DeleteGroup? && r.group == g && IsAdmin(c, s, g, r.user))
  {
    match r
    case SetRole(user, h, target, role) => if h == g { AssignRoles(s.rosters[g], target, role, u); }
    case Disallow(user, h, target) => if h == g { WithoutRoles(s.rosters[g], target, u); }
    case Allow(user, h, target) => if h == g { WithRoles(s.rosters[g], target, u); }
    case _ =>
  }

  lemma {:induction false} SeatAfterInvite(c: Config, s: State, r: Request, g: Group, u: User)
    requires r.Register? || r.CreateInvite? || r.UpdateInvite? || r.RevokeInvite? || r.RedeemInvite?
    ensures !IsMember(s, g, u) && IsMember(HandleInvite(c, s, r).0, g, u) ==>
            r.RedeemInvite? && r.user == u && Redeemable(s, r.id, u, r.now) && s.invites[r.id].group == g
    ensures IsMember(s, g, u) ==> IsMember(HandleInvite(c, s, r).0, g, u)
  {
    if r.RedeemInvite? && r.id in s.invites && s.invites[r.id].group == g && g in s.rosters { WithRoles(s.rosters[g], r.user, u); }
  }

  /**
   Who may seat and unseat whom: a seat is gained only by creating the group, by an admin's Allow
   or by a link that redeems, and lost only by leaving, by an admin's Disallow or with the group.
   */
  lemma {:induction false} SeatsAreAuthorised(c: Config, s: State, r: Request, g: Group, u: User)
    ensures !IsMember(s, g, u) && IsMember(Handle(c, s, r).0, g, u) ==>
            || (r.CreateGroup? && r.user == u && r.group == g && g !in s.rosters)
            || (r.Allow? && r.target == u && r.group == g && IsAdmin(c, s, g, r.user))
            || (r.RedeemInvite? && r.user == u && Redeemable(s, r.id, u, r.now) && s.invites[r.id].group == g)
    ensures IsMember(s, g, u) && !IsMember(Handle(c, s, r).0, g, u) ==>
            || (r.Disallow? && r.target == u && r.group == g && (r.user == u || IsAdmin(c, s, g, r.user)))
            || (r.DeleteGroup? && r.group == g && IsAdmin(c, s, g, r.user))
  {
    if r.Connect? || r.Disconnect? || r.SendWelcome? {
      assert HandleLive(c, s, r).0.rosters == s.rosters;
    } else if r.Register? || r.CreateInvite? || r.UpdateInvite? || r.RevokeInvite? || r.RedeemInvite? {
      SeatAfterInvite(c, s, r, g, u);
    } else {
      if !IsMember(s, g, u) && IsMember(HandleGroup(c, s, r).0, g, u) { SeatGained(c, s, r, g, u); }
      if IsMember(s, g, u) && !IsMember(HandleGroup(c, s, r).0, g, u) { SeatLost(c, s, r, g, u); }
    }
  }

  // ------------------------------------------------------------------- Welcomes conserved

  /** A Welcome put on one connection's queue. */
  datatype Delivery = Delivery(conn: Conn, welcome: Welcome)

  /** Per recipient: what the relay said Ok to, what it queued to connections, what went with a deleted group. */
  datatype Trace = Trace(accepted: map<User, seq<Welcome>>, sent: map<User, seq<Delivery>>, dropped: map<User, seq<Welcome>>)

  function Deliveries(conn: Conn, ws: seq<Welcome>): (ds: seq<Delivery>)
    ensures |ds| == |ws|
  {
    if ws == [] then [] else Deliveries(conn, ws[..|ws| - 1]) + [Delivery(conn, ws[|ws| - 1])]
  }

  function Contents(ds: seq<Delivery>): (ws: seq<Welcome>) {
    if ds == [] then [] else Contents(ds[..|ds| - 1]) + [ds[|ds| - 1].welcome]
  }

  function TraceNext(c: Config, s: State, t: Trace, r: Request): (t': Trace) {
    match r
    case Connect(user, conn) =>
      t.(sent := t.sent[user := At(t.sent, user) + Deliveries(conn, At(s.stored, user))])
    case SendWelcome(user, to, w, room) =>
      if Handle(c, s, r).1 == Refused then t
      else
        var out := w.(from := user);
        var t' := t.(accepted := t.accepted[to := At(t.accepted, to) + [out]]);
        if to in s.online && room then t'.(sent := t.sent[to := At(t.sent, to) + [Delivery(s.online[to], out)]]) else t'
    case DeleteGroup(user, g) =>
      if Handle(c, s, r).1 == Refused then t
      else t.(dropped := map u | u in t.dropped.Keys + s.stored.Keys :: At(t.dropped, u) + Filter(For(g), At(s.stored, u)))
    case _ => t
  }

  function TraceAll(c: Config, rs: seq<Request>): (t: Trace) {
    if rs == [] then Trace(map[], map[], map[])
    else TraceNext(c, HandleAll(c, rs[..|rs| - 1]), TraceAll(c, rs[..|rs| - 1]), rs[|rs| - 1])
  }

  /** One recipient's account. */
  datatype Account = Account(accepted: seq<Welcome>, sent: seq<Delivery>, stored: seq<Welcome>, dropped: seq<Welcome>)

  function AccountOf(s: State, t: Trace, u: User): (a: Account) {
    Account(At(t.accepted, u), At(t.sent, u), At(s.stored, u), At(t.dropped, u))
  }

  ghost predicate Balanced(a: Account) {
    multiset(a.accepted) == multiset(Contents(a.sent)) + multiset(a.stored) + multiset(a.dropped)
  }

  ghost predicate Conserved(s: State, t: Trace) { forall u :: Balanced(AccountOf(s, t, u)) }

  // The four things that happen to an account.
  function Posted(a: Account, d: Delivery): (r: Account) { a.(accepted := a.accepted + [d.welcome], sent := a.sent + [d]) }
  function Parked(a: Account, w: Welcome): (r: Account) { a.(accepted := a.accepted + [w], stored := a.stored + [w]) }
  function Drained(a: Account, conn: Conn): (r: Account) { a.(sent := a.sent + Deliveries(conn, a.stored), stored := []) }
  function Dropped(a: Account, g: Group): (r: Account) {
    a.(stored := Filter(ForOther(g), a.stored), dropped := a.dropped + Filter(For(g), a.stored))
  }

  lemma {:induction false} ContentsConcat(a: seq<Delivery>, b: seq<Delivery>)
    ensures Contents(a + b) == Contents(a) + Contents(b)
  {
    if b == [] {
      assert a + b == a;
    } else {
      ContentsConcat(a, b[..|b| - 1]);
      assert (a + b)[..|a + b| - 1] == a + b[..|b| - 1];
    }
  }

  lemma {:induction false} ContentsOfDeliveries(conn: Conn, ws: seq<Welcome>)
    ensures Contents(Deliveries(conn, ws)) == ws
  {
    if ws != [] {
      ContentsOfDeliveries(conn, ws[..|ws| - 1]);
      assert Deliveries(conn, ws)[..|ws| - 1] == Deliveries(conn, ws[..|ws| - 1]);
    }
  }

  /** Deleting a group splits a queue in two. */
  lemma {:induction false} QueueSplits(g: Group, ws: seq<Welcome>)
    ensures multiset(ws) == multiset(Filter(ForOther(g), ws)) + multiset(Filter(For(g), ws))
  {
    if ws != [] {
      QueueSplits(g, ws[..|ws| - 1]);
      assert ws == ws[..|ws| - 1] + [ws[|ws| - 1]];
    }
  }

  /** Connecting moves the whole queue onto the new connection, in order, and leaves nothing stored. */
  lemma {:induction false} ConnectDrains(c: Config, s: State, t: Trace, user: User, conn: Conn)
    ensures var s' := Handle(c, s, Connect(user, conn)).0; At(s'.stored, user) == [] && user in s'.online && s'.online[user] == conn
    ensures Contents(At(TraceNext(c, s, t, Connect(user, conn)).sent, user)) == Contents(At(t.sent, user)) + At(s.stored, user)
  {
    ContentsConcat(At(t.sent, user), Deliveries(conn, At(s.stored, user)));
    ContentsOfDeliveries(conn, At(s.stored, user));
  }

  lemma {:induction false} PostedBalanced(a: Account, d: Delivery)
    requires Balanced(a)
    ensures Balanced(Posted(a, d))
  {
    assert (a.sent + [d])[..|a.sent|] == a.sent;
    assert Contents(a.sent + [d]) == Contents(a.sent) + [d.welcome];
  }

  lemma {:induction false} ParkedBalanced(a: Account, w: Welcome)
    requires Balanced(a)
    ensures Balanced(Parked(a, w))
  {
  }

  lemma {:induction false} DrainedBalanced(a: Account, conn: Conn)
    requires Balanced(a)
    ensures Balanced(Drained(a, conn))
  {
    ContentsConcat(a.sent, Deliveries(conn, a.stored));
    ContentsOfDeliveries(conn, a.stored);
  }

  lemma {:induction false} DroppedBalanced(a: Account, g: Group)
    requires Balanced(a)
    ensures Balanced(Dropped(a, g))
  {
    QueueSplits(g, a.stored);
  }

  /** No other request touches a queued Welcome. */
  lemma {:induction false} OthersLeaveStored(c: Config, s: State, r: Request)
    requires !r.Connect? && !r.SendWelcome? && !r.DeleteGroup?
    ensures Handle(c, s, r).0.stored == s.stored
  {
  }

  /** What a request does to one recipient's account. */
  function Moved(c: Config, s: State, r: Request, u: User, a: Account): (a': Account) {
    match r
    case Connect(user, conn) => if user == u then Drained(a, conn) else a
    case SendWelcome(user, to, w, room) =>
      if to != u || !IsMember(s, w.group, user) || !IsMember(s, w.group, to) then a
      else if to in s.online && room then Posted(a, Delivery(s.online[to], w.(from := user)))
      else Parked(a, w.(from := user))
    case DeleteGroup(user, g) => if IsAdmin(c, s, g, user) then Dropped(a, g) else a
    case _ => a
  }

  lemma {:induction false} DeleteMoves(c: Config, s: State, t: Trace, user: User, g: Group, u: User)
    ensures AccountOf(HandleGroup(c, s, DeleteGroup(user, g)).0, TraceNext(c, s, t, DeleteGroup(user, g)), u)
            == Moved(c, s, DeleteGroup(user, g), u, AccountOf(s, t, u))
  {
    var s', t' := WithoutGroup(s, g), TraceNext(c, s, t, DeleteGroup(user, g));
    if IsAdmin(c, s, g, user) {
      assert At(s'.stored, u) == Filter(ForOther(g), At(s.stored, u));
      assert At(t'.dropped, u) == At(t.dropped, u) + Filter(For(g), At(s.stored, u));
    }
  }

  lemma {:induction false} SendMoves(c: Config, s: State, t: Trace, user: User, to: User, w: Welcome, room: bool, u: User)
    ensures var r := SendWelcome(user, to, w, room);
            AccountOf(HandleLive(c, s, r).0, TraceNext(c, s, t, r), u) == Moved(c, s, r, u, AccountOf(s, t, u))
  {
  }

  lemma {:induction false} AccountMoves(c: Config, s: State, t: Trace, r: Request, u: User)
    ensures AccountOf(Handle(c, s, r).0, TraceNext(c, s, t, r), u) == Moved(c, s, r, u, AccountOf(s, t, u))
  {
    match r
    case Connect(user, conn) =>
    case SendWelcome(user, to, w, room) => SendMoves(c, s, t, user, to, w, room, u);
    case DeleteGroup(user, g) => DeleteMoves(c, s, t, user, g, u);
    case _ => OthersLeaveStored(c, s, r);
  }

  lemma {:induction false} MovedBalanced(c: Config, s: State, r: Request, u: User, a: Account)
    requires Balanced(a)
    ensures Balanced(Moved(c, s, r, u, a))
  {
    match r
    case Connect(user, conn) => if user == u { DrainedBalanced(a, conn); }
    case SendWelcome(user, to, w, room) =>
      if Moved(c, s, r, u, a) != a {
        if to in s.online && room { PostedBalanced(a, Delivery(s.online[to], w.(from := user))); }
        else { ParkedBalanced(a, w.(from := user)); }
      }
    case DeleteGroup(user, g) => if IsAdmin(c, s, g, user) { DroppedBalanced(a, g); }
    case _ =>
  }

  /**
   Every Welcome the relay accepted is, in every run, in exactly one place: on a connection's
   queue, in the recipient's store, or gone with its deleted group.
   */
  lemma {:induction false} WelcomesConserved(c: Config, rs: seq<Request>)
    ensures Conserved(HandleAll(c, rs), TraceAll(c, rs))
  {
    if rs != [] {
      var init, r := rs[..|rs| - 1], rs[|rs| - 1];
      WelcomesConserved(c, init);
      forall u ensures Balanced(AccountOf(HandleAll(c, rs), TraceAll(c, rs), u)) {
        AccountMoves(c, HandleAll(c, init), TraceAll(c, init), r, u);
        MovedBalanced(c, HandleAll(c, init), r, u, AccountOf(HandleAll(c, init), TraceAll(c, init), u));
      }
    }
  }

  // --------------------------------------------------------------------- invite accounting

  function Claimants(claims: set<(InviteId, User)>, id: InviteId): (us: set<User>) { set p | p in claims && p.0 == id :: p.1 }

  /** For each invite, who had already claimed its id when the current record was made. */
  type Ledger = map<InviteId, set<User>>

  function LedgerNext(c: Config, s: State, l: Ledger, r: Request): (l': Ledger) {
    if r.CreateInvite? && Handle(c, s, r).1 == Done && r.id !in s.invites then l[r.id := Claimants(s.claims, r.id)] else l
  }

  function LedgerAll(c: Config, rs: seq<Request>): (l: Ledger) {
    if rs == [] then map[] else LedgerNext(c, HandleAll(c, rs[..|rs| - 1]), LedgerAll(c, rs[..|rs| - 1]), rs[|rs| - 1])
  }

  ghost predicate Accounted(invite: Invite, claimants: set<User>, earlier: set<User>) {
    && earlier <= claimants
    && invite.uses == |claimants - earlier|
    && (invite.maxUses.Some? ==> invite.uses <= invite.maxUses.value)
  }

  ghost predicate AllAccounted(invites: map<InviteId, Invite>, claims: set<(InviteId, User)>, l: Ledger) {
    forall id :: id in invites ==> id in l && Accounted(invites[id], Claimants(claims, id), l[id])
  }

  lemma {:induction false} ClaimantsAdd(claims: set<(InviteId, User)>, id: InviteId, user: User, i: InviteId)
    ensures Claimants(claims + {(id, user)}, i) == Claimants(claims, i) + if i == id then {user} else {}
  {
    if i == id { assert (id, user) in claims + {(id, user)}; }
  }

  lemma {:induction false} AccountedMore(invite: Invite, claimants: set<User>, earlier: set<User>, user: User)
    requires Accounted(invite, claimants, earlier) && user !in claimants
    requires invite.maxUses.Some? ==> invite.uses < invite.maxUses.value
    ensures Accounted(invite.(uses := invite.uses + 1), claimants + {user}, earlier)
  {
    assert claimants + {user} - earlier == (claimants - earlier) + {user};
  }

  lemma {:induction false} RedeemAccounted(s: State, l: Ledger, id: InviteId, user: User, now: nat)
    requires AllAccounted(s.invites, s.claims, l)
    ensures var s' := Redeem(s, id, user, now).0; AllAccounted(s'.invites, s'.claims, l)
  {
    var s' := Redeem(s, id, user, now).0;
    if s' != s {
      assert user !in Claimants(s.claims, id);
      forall i | i in s'.invites ensures i in l && Accounted(s'.invites[i], Claimants(s'.claims, i), l[i]) {
        ClaimantsAdd(s.claims, id, user, i);
        if i == id { AccountedMore(s.invites[i], Claimants(s.claims, i), l[i], user); }
      }
    }
  }

  /** Only invite requests count; any other at most removes records. */
  lemma {:induction false} OthersLeaveInvites(c: Config, s: State, r: Request, i: InviteId)
    requires !r.Register? && !r.RedeemInvite? && !r.CreateInvite?
    ensures var s' := Handle(c, s, r).0;
            && s'.claims == s.claims
            && (i in s'.invites ==> i in s.invites && s'.invites[i].uses == s.invites[i].uses && s'.invites[i].maxUses == s.invites[i].maxUses)
  {
  }

  lemma {:induction false} CreateAccounted(c: Config, s: State, l: Ledger, user: User, id: InviteId, record: Invite)
    requires AllAccounted(s.invites, s.claims, l)
    ensures var s' := HandleInvite(c, s, CreateInvite(user, id, record)).0;
            AllAccounted(s'.invites, s'.claims, LedgerNext(c, s, l, CreateInvite(user, id, record)))
  {
    assert Claimants(s.claims, id) - Claimants(s.claims, id) == {};
  }

  lemma {:induction false} RegisterAccounted(c: Config, s: State, l: Ledger, user: User, invite: Option<InviteId>, now: nat)
    requires AllAccounted(s.invites, s.claims, l)
    ensures var s' := HandleInvite(c, s, Register(user, invite, now)).0; AllAccounted(s'.invites, s'.claims, l)
  {
    if invite.Some? { RedeemAccounted(s, l, invite.value, user, now); }
  }

  lemma {:induction false} PresentAccounted(c: Config, s: State, l: Ledger, user: User, id: InviteId, now: nat)
    requires AllAccounted(s.invites, s.claims, l)
    ensures var s' := HandleInvite(c, s, RedeemInvite(user, id, now)).0; AllAccounted(s'.invites, s'.claims, l)
  {
    RedeemAccounted(s, l, id, user, now);
  }

  lemma {:induction false} StepAccounted(c: Config, s: State, l: Ledger, r: Request)
    requires AllAccounted(s.invites, s.claims, l)
    ensures var s' := Handle(c, s, r).0; AllAccounted(s'.invites, s'.claims, LedgerNext(c, s, l, r))
  {
    match r
    case Register(user, invite, now) => RegisterAccounted(c, s, l, user, invite, now);
    case RedeemInvite(user, id, now) => PresentAccounted(c, s, l, user, id, now);
    case CreateInvite(user, id, record) => CreateAccounted(c, s, l, user, id, record);
    case _ =>
      var s' := Handle(c, s, r).0;
      forall i | i in s'.invites ensures i in l && Accounted(s'.invites[i], Claimants(s'.claims, i), l[i]) {
        OthersLeaveInvites(c, s, r, i);
      }
  }

  /**
   Over one record's lifetime, through the registration gate and RedeemInvite alike, an invite's
   `uses` is the number of distinct users who first claimed it then, and never passes `max_uses`.
   */
  lemma {:induction false} InvitesAccounted(c: Config, rs: seq<Request>)
    ensures AllAccounted(HandleAll(c, rs).invites, HandleAll(c, rs).claims, LedgerAll(c, rs))
  {
    if rs != [] {
      InvitesAccounted(c, rs[..|rs| - 1]);
      StepAccounted(c, HandleAll(c, rs[..|rs| - 1]), LedgerAll(c, rs[..|rs| - 1]), rs[|rs| - 1]);
    }
  }

  lemma {:induction false} ClaimsStay(c: Config, s: State, r: Request)
    ensures s.claims <= Handle(c, s, r).0.claims
  {
  }

  lemma {:induction false} ClaimsLast(c: Config, rs: seq<Request>, k: nat)
    requires k <= |rs|
    ensures HandleAll(c, rs[..k]).claims <= HandleAll(c, rs).claims
    decreases |rs|
  {
    if k == |rs| {
      assert rs[..k] == rs;
    } else {
      var init := rs[..|rs| - 1];
      assert init[..k] == rs[..k];
      ClaimsLast(c, init, k);
      ClaimsStay(c, HandleAll(c, init), rs[|rs| - 1]);
    }
  }

  /**
   Whoever claimed a link once may present it again at any later time, whatever happened since and
   without counting, exactly until the record expires or is gone.
   */
  lemma {:induction false} RepeatsAreFree(c: Config, rs: seq<Request>, k: nat, id: InviteId, user: User, now: nat)
    requires k <= |rs| && (id, user) in HandleAll(c, rs[..k]).claims
    ensures var s := HandleAll(c, rs);
            && Redeem(s, id, user, now).0 == s
            && (Redeem(s, id, user, now).1 <==>
                id in s.invites && (s.invites[id].expiresAt.Some? ==> now <= s.invites[id].expiresAt.value))
  {
    ClaimsLast(c, rs, k);
  }

  /**
   Claims outlive the record. Once an unexpired link is used up, those it still admits are exactly its
   claimants, of this record and of earlier ones under the same id; and they are no more than
   `max_uses` exactly when nobody had claimed the id before the record was made.
   */
  lemma {:induction false} AdmittedExactly(c: Config, rs: seq<Request>, id: InviteId, now: nat)
    requires var s := HandleAll(c, rs);
             && id in s.invites && s.invites[id].maxUses == Some(s.invites[id].uses)
             && (s.invites[id].expiresAt.Some? ==> now <= s.invites[id].expiresAt.value)
    ensures var s, l := HandleAll(c, rs), LedgerAll(c, rs);
            && id in l
            && (forall u :: Redeemable(s, id, u, now) <==> u in Claimants(s.claims, id))
            && |Claimants(s.claims, id)| == s.invites[id].maxUses.value + |l[id]|
            && (|Claimants(s.claims, id)| <= s.invites[id].maxUses.value <==> l[id] == {})
  {
    var s, l := HandleAll(c, rs), LedgerAll(c, rs);
    InvitesAccounted(c, rs);
    var all, earlier := Claimants(s.claims, id), l[id];
    assert all == (all - earlier) + earlier;
    forall u ensures Redeemable(s, id, u, now) <==> u in all {
      assert u in all <==> (id, u) in s.claims;
    }
  }

  const OPEN := Config({}, true)
  const LINK := Invite("circle", [], None, Some(1), 0)

  /** A link for one use is made and used ... */
  const USED: seq<Request> :=
    [] + [CreateGroup("root", 0, "circle")] + [CreateInvite("root", "link", LINK)] + [RedeemInvite("alice", "link", 0)]

  /** ... and revoked and made again. */
  const REMADE: seq<Request> := USED + [RevokeInvite("root", "link")] + [CreateInvite("root", "link", LINK)]

  lemma {:induction false} HandleSnoc(c: Config, rs: seq<Request>, r: Request)
    ensures HandleAll(c, rs + [r]) == Handle(c, HandleAll(c, rs), r).0
    ensures LedgerAll(c, rs + [r]) == LedgerNext(c, HandleAll(c, rs), LedgerAll(c, rs), r)
  {
    assert (rs + [r])[..|rs|] == rs;
  }

  /** What a run has come to, as far as the link goes. */
  ghost predicate LinkState(s: State, invites: map<InviteId, Invite>, claims: set<(InviteId, User)>) {
    s.invites == invites && s.claims == claims && "circle" in s.rosters && RoleOf(s.rosters["circle"], "root") == Some(Admin)
  }

  lemma {:induction false} LinkRedeemed(s: State, user: User)
    requires LinkState(s, map["link" := LINK], {}) && user != "root"
    ensures LinkState(Handle(OPEN, s, RedeemInvite(user, "link", 0)).0, map["link" := LINK.(uses := 1)], {("link", user)})
  {
    WithRoles(s.rosters["circle"], user, "root");
  }

  lemma {:induction false} LinkMade(s: State, claims: set<(InviteId, User)>)
    requires LinkState(s, map[], claims)
    ensures LinkState(Handle(OPEN, s, CreateInvite("root", "link", LINK)).0, map["link" := LINK], claims)
  {
  }

  lemma {:induction false} LinkRevoked(s: State, record: Invite, claims: set<(InviteId, User)>)
    requires LinkState(s, map["link" := record], claims) && record.group == "circle"
    ensures LinkState(Handle(OPEN, s, RevokeInvite("root", "link")).0, map[], claims)
  {
  }

  lemma {:induction false} Used()
    ensures LinkState(HandleAll(OPEN, USED), map["link" := LINK.(uses := 1)], {("link", "alice")})
  {
    var r1, r2 := [] + [CreateGroup("root", 0, "circle")], CreateInvite("root", "link", LINK);
    HandleSnoc(OPEN, [], CreateGroup("root", 0, "circle"));
    RoleOfOne(Seat("root", Admin), "root");
    assert LinkState(HandleAll(OPEN, r1), map[], {});
    HandleSnoc(OPEN, r1, r2);
    LinkMade(HandleAll(OPEN, r1), {});
    HandleSnoc(OPEN, r1 + [r2], RedeemInvite("alice", "link", 0));
    assert |"alice"| != |"root"|;
    LinkRedeemed(HandleAll(OPEN, r1 + [r2]), "alice");
  }

  lemma {:induction false} Remade()
    ensures LinkState(HandleAll(OPEN, REMADE), map["link" := LINK], {("link", "alice")})
  {
    Used();
    HandleSnoc(OPEN, USED, RevokeInvite("root", "link"));
    LinkRevoked(HandleAll(OPEN, USED), LINK.(uses := 1), {("link", "alice")});
    HandleSnoc(OPEN, USED + [RevokeInvite("root", "link")], CreateInvite("root", "link", LINK));
    LinkMade(HandleAll(OPEN, USED + [RevokeInvite("root", "link")]), {("link", "alice")});
  }

  /** So a link for one use lets two in: after that run both Alice, who had used the old one, and Bob are admitted. */
  lemma {:induction false} RecreatedLinkAdmitsMore()
    ensures var s := HandleAll(OPEN, REMADE);
            var (s1, first) := Handle(OPEN, s, RedeemInvite("alice", "link", 0));
            var (s2, second) := Handle(OPEN, s1, RedeemInvite("bob", "link", 0));
            && s.invites == map["link" := LINK] && LINK.maxUses == Some(1)
            && first.Invited? && second.Invited? && s2.invites == map["link" := LINK.(uses := 1)]
  {
    Remade();
    assert |"alice"| != |"bob"|;
  }
}
