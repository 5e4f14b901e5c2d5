/**
 Who may change what: for each part of the relay's state, every request that can change it, who may
 make that request, and what it changes it to (relay/src/server.rs). Permissions are spelled out on the
 member lists, in any state whatever.
 */
module Rights {
  import opened Common
  import opened Seqs
  import opened Roster
  import opened Relay

  /** The user's role in the group, if they have a seat there. */
  function RoleIn(s: State, g: Group, u: User): (role: Option<Role>) {
    if g in s.rosters then RoleOf(s.rosters[g], u) else None
  }

  /** A global admin, or someone whose role in the group is Admin. */
  predicate MayManage(c: Config, s: State, g: Group, u: User) { u in c.admins || RoleIn(s, g, u) == Some(Admin) }

  // --------------------------------------------------------------------------- roles

  /** What a change of a seated user's role needs. */
  predicate RoleGiven(c: Config, s: State, r: Request, g: Group, u: User, role: Option<Role>) {
    r.SetRole? && r.group == g && r.target == u && MayManage(c, s, g, r.user) && role == Some(r.role)
  }

  lemma {:induction false} RoleAfterGroup(c: Config, s: State, r: Request, g: Group, u: User)
    requires r.CreateGroup? || r.Allow? || r.SetRole? || r.Disallow? || r.DeleteGroup? || r.Subscribe? || r.DropSlow?
    ensures var before, after := RoleIn(s, g, u), RoleIn(HandleGroup(c, s, r).0, g, u);
            before.Some? && after.Some? && after != before ==> RoleGiven(c, s, r, g, u, after)
  {
    match r
    case SetRole(user, h, target, role) => if h == g && g in s.rosters { AssignRoles(s.rosters[g], target, role, u); }
    case Disallow(user, h, target) => if h == g && g in s.rosters { WithoutRoles(s.rosters[g], target, u); }
    case Allow(user, h, target) => if h == g && g in s.rosters { WithRoles(s.rosters[g], target, u); }
    case _ =>
  }

  lemma {:induction false} RoleAfterInvite(c: Config, s: State, r: Request, g: Group, u: User)
    requires r.Register? || r.CreateInvite? || r.UpdateInvite? || r.RevokeInvite? || r.RedeemInvite?
    ensures RoleIn(s, g, u).Some? ==> RoleIn(HandleInvite(c, s, r).0, g, u) == RoleIn(s, g, u)
  {
    if r.RedeemInvite? && r.id in s.invites && s.invites[r.id].group == g && g in s.rosters { WithRoles(s.rosters[g], r.user, u); }
  }

  /**
   A seated user's role changes only by a SetRole that names them and the group, made by a global admin
   or an admin of that group, and becomes the role asked for.
   */
  lemma {:induction false} RolesAreAuthorised(c: Config, s: State, r: Request, g: Group, u: User)
    ensures var before, after := RoleIn(s, g, u), RoleIn(Handle(c, s, r).0, g, u);
            before.Some? && after.Some? && after != before ==> RoleGiven(c, s, r, g, u, after)
  {
    if r.Connect? || r.Disconnect? || r.SendWelcome? {
      assert HandleLive(c, s, r).0.rosters == s.rosters;
    } else if r.Register? || r.CreateInvite? || r.UpdateInvite? || r.RevokeInvite? || r.RedeemInvite? {
      RoleAfterInvite(c, s, r, g, u);
    } else {
      RoleAfterGroup(c, s, r, g, u);
    }
  }

  /**
   And such a request, made by someone who may, is done exactly when the target has a seat and is not
   the last admin being demoted; then the target has the role, and otherwise nothing changes.
   */
  lemma {:induction false} SetRoleExactly(c: Config, s: State, user: User, g: Group, target: User, role: Role)
    ensures var (s', reply) := Handle(c, s, SetRole(user, g, target, role));
            var allowed := MayManage(c, s, g, user) && RoleIn(s, g, target).Some? &&
                           !(role.Member? && RoleIn(s, g, target) == Some(Admin) && Admins(s.rosters[g]) <= 1);
            && (reply == Done <==> allowed) && (allowed ==> RoleIn(s', g, target) == Some(role)) && (!allowed ==> s' == s)
  {
    if g in s.rosters { AssignRoles(s.rosters[g], target, role, target); }
  }

  // --------------------------------------------------------------------------- seats

  /** The converse of `SeatsAreAuthorised`: which of those requests are done, and that they are. */
  lemma {:induction false} SeatsGivenExactly(c: Config, s: State, r: Request)
    requires r.CreateGroup? || r.Allow? || r.Disallow? || r.DeleteGroup?
    ensures var (s', reply) := Handle(c, s, r);
            match r
            case CreateGroup(user, conn, g) =>
              && (reply == Done <==> g !in s.rosters)
              && (reply == Done ==> RoleIn(s', g, user) == Some(Admin) && |s'.rosters[g]| == 1)
            case Allow(user, g, target) =>
              && (reply == Done <==> MayManage(c, s, g, user) && g in s.rosters)
              && (reply == Done ==> RoleIn(s', g, target) == if RoleIn(s, g, target).Some? then RoleIn(s, g, target) else Some(Member))
            case Disallow(user, g, target) =>
              && (reply == Done <==> (user == target || MayManage(c, s, g, user)) && g in s.rosters &&
                                     !(RoleIn(s, g, target) == Some(Admin) && Admins(s.rosters[g]) <= 1))
              && (reply == Done ==> RoleIn(s', g, target).None? && (g in s'.subscribers ==> target !in s'.subscribers[g]))
            case DeleteGroup(user, g) =>
              && (reply == Done <==> MayManage(c, s, g, user))
              && (reply == Done ==> g !in s'.rosters && g !in s'.subscribers)
    ensures Handle(c, s, r).1 != Done ==> Handle(c, s, r).0 == s
  {
    match r
    case CreateGroup(user, conn, g) => RoleOfOne(Seat(user, Admin), user);
    case Allow(user, g, target) => if g in s.rosters { WithRoles(s.rosters[g], target, target); }
    case Disallow(user, g, target) => if g in s.rosters { WithoutRoles(s.rosters[g], target, target); }
    case DeleteGroup(user, g) =>
  }

  // ----------------------------------------------------------------- links and accounts

  /** Whether a link still works for a user: it exists, has not expired, and has uses left or was used by them before. */
  predicate Works(s: State, id: InviteId, u: User, now: nat) {
    && id in s.invites
    && (s.invites[id].expiresAt.None? || now <= s.invites[id].expiresAt.value)
    && ((id, u) in s.claims || s.invites[id].maxUses.None? || s.invites[id].uses < s.invites[id].maxUses.value)
  }

  /** Presenting a link succeeds exactly when it works, and then its presenter has a seat in its group, keeping a role they had. */
  lemma {:induction false} RedeemSeatsExactly(c: Config, s: State, u: User, id: InviteId, now: nat)
    ensures var (s', reply) := Handle(c, s, RedeemInvite(u, id, now));
            && (reply.Invited? <==> Works(s, id, u, now) && s.invites[id].group in s.rosters)
            && (reply.Invited? ==>
                  var record := s.invites[id];
                  && reply == Invited(record.group, record.payload) && (id, u) in s'.claims
                  && RoleIn(s', record.group, u) == (if RoleIn(s, record.group, u).Some? then RoleIn(s, record.group, u) else Some(Member)))
            && (!Works(s, id, u, now) ==> s' == s)
  {
    if id in s.invites && s.invites[id].group in s.rosters { WithRoles(s.rosters[s.invites[id].group], u, u); }
  }

  /**
   Accounts: one is made only by registering, and registering succeeds exactly for a known user, on an open
   relay, for the first user of all, or with a link that works.
   */
  lemma {:induction false} AccountsAreAdmitted(c: Config, s: State, r: Request)
    ensures !r.Register? ==> Handle(c, s, r).0.users == s.users
    ensures r.Register? ==>
              var (s', reply) := Handle(c, s, r);
              var admitted := r.user in s.users || c.open || s.users == {} || (r.invite.Some? && Works(s, r.invite.value, r.user, r.now));
              && (reply == Done <==> admitted) && s'.users == (if admitted then s.users + {r.user} else s.users)
              && (!admitted ==> s' == s)
  {
  }

  /** Somebody new has presented the link, in registering or in redeeming. */
  predicate FirstUse(s: State, r: Request, id: InviteId) {
    && ((r.RedeemInvite? && r.id == id) || (r.Register? && r.invite == Some(id)))
    && (id, r.user) !in s.claims && Works(s, id, r.user, r.now)
  }

  /** Why a link may appear as it does, change as it does, or go. */
  predicate LinkChange(c: Config, s: State, r: Request, id: InviteId, before: Option<Invite>, after: Option<Invite>) {
    || after == before
    || (&& before.None? && after.Some? && r.CreateInvite? && r.id == id && r.record.group in s.rosters
        && MayManage(c, s, r.record.group, r.user) && after.value == r.record.(uses := 0))
    || (&& before.Some? && after.Some? && r.UpdateInvite? && r.id == id && MayManage(c, s, before.value.group, r.user)
        && after.value == before.value.(payload := r.payload))
    || (before.Some? && after.Some? && FirstUse(s, r, id) && after.value == before.value.(uses := before.value.uses + 1))
    || (before.Some? && after.None? && r.RevokeInvite? && r.id == id && MayManage(c, s, before.value.group, r.user))
    || (before.Some? && after.None? && r.DeleteGroup? && r.group == before.value.group && MayManage(c, s, r.group, r.user))
  }

  function LinkOf(s: State, id: InviteId): (link: Option<Invite>) { if id in s.invites then Some(s.invites[id]) else None }

  lemma {:induction false} LinkAfterInvite(c: Config, s: State, r: Request, id: InviteId)
    requires r.Register? || r.CreateInvite? || r.UpdateInvite? || r.RevokeInvite? || r.RedeemInvite?
    ensures LinkChange(c, s, r, id, LinkOf(s, id), LinkOf(HandleInvite(c, s, r).0, id))
  {
  }

  lemma {:induction false} LinkAfterGroup(c: Config, s: State, r: Request, id: InviteId)
    requires r.CreateGroup? || r.Allow? || r.SetRole? || r.Disallow? || r.DeleteGroup? || r.Subscribe? || r.DropSlow?
    ensures LinkChange(c, s, r, id, LinkOf(s, id), LinkOf(HandleGroup(c, s, r).0, id))
  {
  }

  /**
   Links: one is made only by somebody who may manage its group, unused and as asked for; changed only in its
   payload by such a person, or in its uses by one first use; and taken away only by such a person, alone or
   with the group.
   */
  lemma {:induction false} LinksAreAuthorised(c: Config, s: State, r: Request, id: InviteId)
    ensures LinkChange(c, s, r, id, LinkOf(s, id), LinkOf(Handle(c, s, r).0, id))
  {
    if r.Connect? || r.Disconnect? || r.SendWelcome? {
      assert HandleLive(c, s, r).0.invites == s.invites;
    } else if r.Register? || r.CreateInvite? || r.UpdateInvite? || r.RevokeInvite? || r.RedeemInvite? {
      LinkAfterInvite(c, s, r, id);
    } else {
      LinkAfterGroup(c, s, r, id);
    }
  }

  /** And each of those requests is done when it may be; the first writer of an id wins. */
  lemma {:induction false} LinkRequestsExactly(c: Config, s: State, r: Request)
    requires r.CreateInvite? || r.UpdateInvite? || r.RevokeInvite?
    ensures var (s', reply) := Handle(c, s, r);
            match r
            case CreateInvite(user, id, record) =>
              && (reply == Done <==> MayManage(c, s, record.group, user) && record.group in s.rosters)
              && (reply == Done ==> s'.invites == if id in s.invites then s.invites else s.invites[id := record.(uses := 0)])
            case UpdateInvite(user, id, payload) =>
              && (reply == Done <==> id in s.invites && MayManage(c, s, s.invites[id].group, user))
              && (reply == Done ==> id in s'.invites && s'.invites[id].payload == payload)
            case RevokeInvite(user, id) =>
              && (reply == Done <==> id !in s.invites || MayManage(c, s, s.invites[id].group, user))
              && (reply == Done ==> id !in s'.invites)
    ensures Handle(c, s, r).1 != Done ==> Handle(c, s, r).0 == s
  {
  }

  // ----------------------------------------------------------------- live state and Welcomes

  function SubscriptionOf(s: State, g: Group, u: User): (conn: Option<Conn>) {
    if g in s.subscribers && u in s.subscribers[g] then Some(s.subscribers[g][u]) else None
  }

  /** Why a subscription may appear, move to another connection, or go. */
  predicate SubscriptionChange(c: Config, s: State, r: Request, g: Group, u: User, before: Option<Conn>, after: Option<Conn>) {
    || after == before
    || (after.Some? && r.Subscribe? && r.user == u && r.group == g && after.value == r.conn && RoleIn(s, g, u).Some?)
    || (after.Some? && r.CreateGroup? && r.user == u && r.group == g && after.value == r.conn && g !in s.rosters)
    || (after.None? && r.Disallow? && r.group == g && r.target == u && (r.user == u || MayManage(c, s, g, r.user)))
    || (after.None? && r.DeleteGroup? && r.group == g && MayManage(c, s, g, r.user))
    || (after.None? && r.Disconnect? && r.user == u && before == Some(r.conn))
    || (after.None? && r.DropSlow? && r.user == u && r.group == g)
  }

  lemma {:induction false} SubscriptionAfterGroup(c: Config, s: State, r: Request, g: Group, u: User)
    requires r.CreateGroup? || r.Allow? || r.SetRole? || r.Disallow? || r.DeleteGroup? || r.Subscribe? || r.DropSlow?
    ensures SubscriptionChange(c, s, r, g, u, SubscriptionOf(s, g, u), SubscriptionOf(HandleGroup(c, s, r).0, g, u))
  {
  }

  lemma {:induction false} SubscriptionAfterLive(c: Config, s: State, r: Request, g: Group, u: User)
    requires r.Connect? || r.Disconnect? || r.SendWelcome?
    ensures SubscriptionChange(c, s, r, g, u, SubscriptionOf(s, g, u), SubscriptionOf(HandleLive(c, s, r).0, g, u))
    ensures r.Disconnect? && r.user == u && SubscriptionOf(s, g, u) == Some(r.conn) ==> SubscriptionOf(HandleLive(c, s, r).0, g, u).None?
  {
  }

  /**
   Subscriptions: one is made only for the requesting user's own connection, by a member or the group's
   creator; and it goes only by leaving or being removed, with the group, with the connection that owns it,
   or by being too slow.
   */
  lemma {:induction false} SubscriptionsAreAuthorised(c: Config, s: State, r: Request, g: Group, u: User)
    ensures SubscriptionChange(c, s, r, g, u, SubscriptionOf(s, g, u), SubscriptionOf(Handle(c, s, r).0, g, u))
    ensures r.Disconnect? && r.user == u && SubscriptionOf(s, g, u) == Some(r.conn) ==> SubscriptionOf(Handle(c, s, r).0, g, u).None?
  {
    if r.Connect? || r.Disconnect? || r.SendWelcome? {
      SubscriptionAfterLive(c, s, r, g, u);
    } else if r.Register? || r.CreateInvite? || r.UpdateInvite? || r.RevokeInvite? || r.RedeemInvite? {
      assert HandleInvite(c, s, r).0.subscribers == s.subscribers;
    } else {
      SubscriptionAfterGroup(c, s, r, g, u);
    }
  }

  /** And a member who subscribes is subscribed, on that connection; a stranger changes nothing. */
  lemma {:induction false} SubscribeExactly(c: Config, s: State, user: User, conn: Conn, g: Group)
    ensures var (s', reply) := Handle(c, s, Subscribe(user, conn, g));
            && (reply == Done <==> RoleIn(s, g, user).Some?)
            && (if reply == Done then SubscriptionOf(s', g, user) == Some(conn) else s' == s)
  {
  }

  /** Whoever is taken to be online, and on which connection, is decided only by connecting and by closing that connection. */
  lemma {:induction false} OnlineExactly(c: Config, s: State, r: Request, u: User)
    ensures var s' := Handle(c, s, r).0;
            var before, after := (if u in s.online then Some(s.online[u]) else None), (if u in s'.online then Some(s'.online[u]) else None);
            after == if r.Connect? && r.user == u then Some(r.conn)
                     else if r.Disconnect? && r.user == u && before == Some(r.conn) then None
                     else before
  {
    if r.Connect? || r.Disconnect? || r.SendWelcome? {
    } else if r.Register? || r.CreateInvite? || r.UpdateInvite? || r.RevokeInvite? || r.RedeemInvite? {
      assert HandleInvite(c, s, r).0.online == s.online;
    } else {
      assert HandleGroup(c, s, r).0.online == s.online;
    }
  }

  /**
   A Welcome is taken exactly from one member to another, under its sender's own name, and waits at the end of
   the recipient's queue unless a connection has room for it.
   */
  lemma {:induction false} WelcomesAreAuthorised(c: Config, s: State, user: User, to: User, w: Welcome, room: bool)
    ensures var (s', reply) := Handle(c, s, SendWelcome(user, to, w, room));
            && (reply == Done <==> RoleIn(s, w.group, user).Some? && RoleIn(s, w.group, to).Some?)
            && At(s'.stored, to) == At(s.stored, to) +
                 (if reply == Done && !(to in s.online && room) then [Welcome(user, w.group, w.after, w.payload)] else [])
            && (forall u :: u != to ==> At(s'.stored, u) == At(s.stored, u))
  {
  }
}
