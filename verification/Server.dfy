/**
 The request handlers of relay/src/server.rs over the store: what each checks, in what order, and
 what it changes in the hub. Each is the request of `Relay` it stands for, done whole.
 */
module Server {
  import opened Common
  import GroupLog
  import opened Roster
  import opened Relay
  import opened Store

  class RelayServer {
    const admins: set<User>
    const open: bool
    const store: MemoryStore
    var subscribers: map<Group, map<User, Conn>>
    var online: map<User, Conn>

    constructor (admins: set<User>, open: bool)
      ensures fresh(store) && Model() == Relay.START && config() == Config(admins, open)
    {
      this.admins, this.open := admins, open;
      store := new MemoryStore();
      subscribers, online := map[], map[];
    }

    function config(): (c: Config) { Config(admins, open) }

    ghost function Model(): (s: State)
      reads this, store
    {
      State(store.users, store.rosters, subscribers, online, store.stored, store.invites, store.claims)
    }

    method RequireMember(g: Group, user: User) returns (ok: bool)
      ensures ok <==> IsMember(Model(), g, user)
    {
      var role := store.MemberRole(g, user);
      ok := role.Some?;
    }

    method RequireAdmin(g: Group, user: User) returns (ok: bool)
      ensures ok <==> IsAdmin(config(), Model(), g, user)
    {
      if user in admins { return true; }
      var role := store.MemberRole(g, user);
      ok := role == Some(Admin);
    }

    /** Whether taking the target's role would leave the group without an admin. */
    method WouldOrphan(r: Roster, target: User) returns (yes: bool)
      ensures yes <==> LastAdmin(r, target)
    {
      var i := FindSeat(r, target);
      FirstSeatDecides(r, target, i, Member);
      var admins := CountAdmins(r);
      yes := i < |r| && r[i].role.Admin? && admins <= 1;
    }

    method CreateGroup(user: User, conn: Conn, g: Group) returns (reply: Reply)
      modifies this, store
      ensures (Model(), reply) == HandleGroup(config(), old(Model()), Request.CreateGroup(user, conn, g))
    {
      var r := store.CreateGroup(g, user);
      if r.Err? { return Refused; }
      var subs := if g in subscribers then subscribers[g] else map[];
      subscribers := subscribers[g := subs[user := conn]];
      return Done;
    }

    method SetRole(user: User, g: Group, target: User, role: Role) returns (reply: Reply)
      modifies store
      ensures (Model(), reply) == HandleGroup(config(), old(Model()), Request.SetRole(user, g, target, role))
    {
      var ok := RequireAdmin(g, user);
      if !ok { return Refused; }
      if role.Member? {
        if g !in store.rosters { return Refused; }
        var last := WouldOrphan(store.rosters[g], target);
        if last { return Refused; }
      }
      var r := store.SetMemberRole(g, target, role);
      return if r.Ok? then Done else Refused;
    }

    method Disallow(user: User, g: Group, target: User) returns (reply: Reply)
      modifies this, store
      ensures (Model(), reply) == HandleGroup(config(), old(Model()), Request.Disallow(user, g, target))
    {
      if target != user {
        var ok := RequireAdmin(g, user);
        if !ok { return Refused; }
      }
      if g !in store.rosters { return Refused; }
      var last := WouldOrphan(store.rosters[g], target);
      if last { return Refused; }
      store.DisallowMember(g, target);
      if g in subscribers { subscribers := subscribers[g := subscribers[g] - {target}]; }
      return Done;
    }

    method DeleteGroup(user: User, g: Group) returns (reply: Reply)
      modifies this, store
      ensures (Model(), reply) == HandleGroup(config(), old(Model()), Request.DeleteGroup(user, g))
    {
      var ok := RequireAdmin(g, user);
      if !ok { return Refused; }
      ghost var before := Model();
      store.DeleteGroup(g);
      subscribers := subscribers - {g};
      assert store.stored == WithoutGroup(before, g).stored && store.invites == WithoutGroup(before, g).invites;
      return Done;
    }

    /** Read the backlog and register, under one hold of the hub lock; a failed read registers nobody. */
    method Subscribe(user: User, conn: Conn, g: Group, after: nat)
      returns (reply: Reply, backlog: seq<GroupLog.Message<Bytes>>)
      modifies this
      ensures IsMember(old(Model()), g, user) && g !in store.threads ==> reply == Refused && Model() == old(Model())
      ensures IsMember(old(Model()), g, user) && g in store.threads ==>
                reply == Done && backlog == GroupLog.After(store.threads[g], after)
      ensures !IsMember(old(Model()), g, user) || g in store.threads ==>
                (Model(), reply) == HandleGroup(config(), old(Model()), Request.Subscribe(user, conn, g))
      ensures reply.Refused? ==> backlog == []
    {
      var ok := RequireMember(g, user);
      if !ok { return Refused, []; }
      var read := store.MessagesAfter(g, after);
      if read.Err? { return Refused, []; }
      var subs := if g in subscribers then subscribers[g] else map[];
      subscribers := subscribers[g := subs[user := conn]];
      return Done, read.value;
    }

    /** Register as online and drain what was stored, under one hold of the hub lock. */
    method Connect(user: User, conn: Conn) returns (sent: seq<Delivery>)
      modifies this, store
      ensures Model() == HandleLive(config(), old(Model()), Request.Connect(user, conn)).0
      ensures sent == Deliveries(conn, At(old(store.stored), user))
    {
      online := online[user := conn];
      var ws := store.TakeWelcomes(user);
      sent := [];
      for i := 0 to |ws|
        invariant sent == Deliveries(conn, ws[..i])
      {
        assert ws[..i + 1][..i] == ws[..i];
        sent := sent + [Delivery(conn, ws[i])];
      }
      assert ws[..|ws|] == ws;
    }

    /** Offer to the recipient's connection, and store if it does not take it. */
    method SendWelcome(user: User, to: User, w: Welcome, room: bool) returns (reply: Reply, sent: Option<Delivery>)
      modifies store
      ensures (Model(), reply) == HandleLive(config(), old(Model()), Request.SendWelcome(user, to, w, room))
      ensures sent.Some? <==> reply == Done && to in online && room
      ensures sent.Some? ==> sent == Some(Delivery(online[to], w.(from := user)))
    {
      sent := None;
      var ok := RequireMember(w.group, user);
      if !ok { return Refused, None; }
      ok := RequireMember(w.group, to);
      if !ok { return Refused, None; }
      var out := w.(from := user);
      if to in online && room {
        sent := Some(Delivery(online[to], out));
      } else {
        store.StoreWelcome(to, out);
      }
      reply := Done;
    }

    method RedeemInvite(user: User, id: InviteId, now: nat) returns (reply: Reply)
      modifies store
      ensures (Model(), reply) == HandleInvite(config(), old(Model()), Request.RedeemInvite(user, id, now))
    {
      var r := store.RedeemInvite(id, user, now);
      if r.Err? { return Refused; }
      var allowed := store.AllowMember(r.value.0, user);
      return if allowed.Ok? then Invited(r.value.0, r.value.1) else Refused;
    }
  }
}
