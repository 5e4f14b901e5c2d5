/**
 The store calls of one role or removal request (relay/src/server.rs), each a step of its own: the
 permission check, the guard's read of the member list, and the write. Nothing holds a lock from one to
 the next, so requests interleave.
 */
module RosterRace {
  import opened Common
  import opened Roster

  datatype Change = Promote | Demote | Remove

  /** A request that passed its permission check, and then the list its guard passed on. */
  datatype Request = Request(target: User, change: Change, guarded: Option<Roster>)

  datatype Desk = Desk(list: Roster, requests: map<nat, Request>)

  datatype Step = Ask(id: nat, actor: User, target: User, change: Change) | Guard(id: nat) | Write(id: nat)

  /** An admin may change anyone, and anyone may remove themselves. */
  predicate MayAsk(globals: set<User>, list: Roster, actor: User, target: User, change: Change) {
    actor in globals || RoleOf(list, actor) == Some(Admin) || (change.Remove? && actor == target)
  }

  predicate Passes(list: Roster, target: User, change: Change) { change.Promote? || !LastAdmin(list, target) }

  function Changed(list: Roster, target: User, change: Change): (r: Roster) {
    match change
    case Promote => Assign(list, target, Admin)
    case Demote => Assign(list, target, Member)
    case Remove => Without(list, target)
  }

  function Next(globals: set<User>, d: Desk, s: Step): (r: Desk) {
    match s
    case Ask(id, actor, target, change) =>
      if id in d.requests || !MayAsk(globals, d.list, actor, target, change) then d
      else d.(requests := d.requests[id := Request(target, change, None)])
    case Guard(id) =>
      if id !in d.requests || d.requests[id].guarded.Some? then d
      else if Passes(d.list, d.requests[id].target, d.requests[id].change)
      then d.(requests := d.requests[id := d.requests[id].(guarded := Some(d.list))])
      else d.(requests := d.requests - {id})
    case Write(id) =>
      if id !in d.requests || d.requests[id].guarded.None? then d
      else Desk(Changed(d.list, d.requests[id].target, d.requests[id].change), d.requests - {id})
  }

  function Run(globals: set<User>, d: Desk, steps: seq<Step>): (r: Desk) {
    if steps == [] then d else Next(globals, Run(globals, d, steps[..|steps| - 1]), steps[|steps| - 1])
  }

  lemma {:induction false} ChangeKeepsExactly(list: Roster, target: User, change: Change)
    requires Valid(list)
    ensures Valid(Changed(list, target, change)) <==> Passes(list, target, change)
  {
    GuardIsExact(list, target);
    if change.Promote? { AssignValid(list, target, Admin); }
  }

  /** A step leaves an admin exactly unless it is a write whose guard would by now refuse. */
  predicate Current(d: Desk, s: Step) {
    s.Write? && s.id in d.requests && d.requests[s.id].guarded.Some? ==>
      Passes(d.list, d.requests[s.id].target, d.requests[s.id].change)
  }

  predicate AllCurrent(globals: set<User>, d: Desk, steps: seq<Step>) {
    steps == [] ||
    (AllCurrent(globals, d, steps[..|steps| - 1]) && Current(Run(globals, d, steps[..|steps| - 1]), steps[|steps| - 1]))
  }

  ghost predicate ValidThroughout(globals: set<User>, d: Desk, steps: seq<Step>) {
    Valid(Run(globals, d, steps).list) && (steps == [] || ValidThroughout(globals, d, steps[..|steps| - 1]))
  }

  /** Over every interleaving of requests: there is an admin at every moment exactly when each write's guard would still pass. */
  lemma {:induction false} AdminKeptExactly(globals: set<User>, d: Desk, steps: seq<Step>)
    requires Valid(d.list)
    ensures ValidThroughout(globals, d, steps) <==> AllCurrent(globals, d, steps)
  {
    if steps != [] {
      AdminKeptExactly(globals, d, steps[..|steps| - 1]);
      var mid, s := Run(globals, d, steps[..|steps| - 1]), steps[|steps| - 1];
      if Valid(mid.list) && s.Write? && s.id in mid.requests {
        ChangeKeepsExactly(mid.list, mid.requests[s.id].target, mid.requests[s.id].change);
      }
    }
  }

  /** The list has not changed between a guard's read of it and the write. */
  predicate Undisturbed(globals: set<User>, d: Desk, steps: seq<Step>) {
    steps == [] ||
    (&& Undisturbed(globals, d, steps[..|steps| - 1])
     && var mid, s := Run(globals, d, steps[..|steps| - 1]), steps[|steps| - 1];
        (s.Write? && s.id in mid.requests && mid.requests[s.id].guarded.Some? ==> mid.requests[s.id].guarded == Some(mid.list)))
  }

  /** Each request holds the list its guard passed on. */
  ghost predicate Guarded(d: Desk) {
    forall id :: id in d.requests && d.requests[id].guarded.Some? ==>
      Passes(d.requests[id].guarded.value, d.requests[id].target, d.requests[id].change)
  }

  lemma {:induction false} RunGuarded(globals: set<User>, d: Desk, steps: seq<Step>)
    requires Guarded(d)
    ensures Guarded(Run(globals, d, steps))
  {
    if steps != [] { RunGuarded(globals, d, steps[..|steps| - 1]); }
  }

  /** So requests that no write falls into the middle of always leave an admin. */
  lemma {:induction false} UndisturbedKeepsAdmin(globals: set<User>, d: Desk, steps: seq<Step>)
    requires Valid(d.list) && Guarded(d) && Undisturbed(globals, d, steps)
    ensures Valid(Run(globals, d, steps).list) && AllCurrent(globals, d, steps)
  {
    if steps != [] {
      UndisturbedKeepsAdmin(globals, d, steps[..|steps| - 1]);
      RunGuarded(globals, d, steps[..|steps| - 1]);
      AdminKeptExactly(globals, d, steps);
      AdminKeptExactly(globals, d, steps[..|steps| - 1]);
    }
  }

  /** The `k`th step made the request, and whoever made it was then a global admin, an admin of the group, or leaving it. */
  predicate AllowedAt(globals: set<User>, d: Desk, steps: seq<Step>, k: nat, id: nat, target: User, change: Change) {
    && k < |steps| && steps[k].Ask? && steps[k].id == id && steps[k].target == target && steps[k].change == change
    && var list := Run(globals, d, steps[..k]).list;
       (steps[k].actor in globals || RoleOf(list, steps[k].actor) == Some(Admin) || (change.Remove? && steps[k].actor == target))
  }

  /** Every request under way was allowed when it was made. */
  lemma {:induction false} RequestsWereAllowed(globals: set<User>, d: Desk, steps: seq<Step>, id: nat) returns (k: nat)
    requires d.requests == map[] && id in Run(globals, d, steps).requests
    ensures var r := Run(globals, d, steps).requests[id]; AllowedAt(globals, d, steps, k, id, r.target, r.change)
  {
    var init, s := steps[..|steps| - 1], steps[|steps| - 1];
    if id in Run(globals, d, init).requests {
      k := RequestsWereAllowed(globals, d, init, id);
      assert init[..k] == steps[..k] && init[k] == steps[k];
    } else {
      k := |init|;
    }
  }

  /**
   So the list changes only by a write, of a request somebody was allowed to make when they made it, and just
   as asked for: everyone else's role stays as it was.
   */
  lemma {:induction false} ChangesWereAllowed(globals: set<User>, d: Desk, steps: seq<Step>, s: Step, u: User) returns (k: nat, target: User)
    requires d.requests == map[] && RoleOf(Next(globals, Run(globals, d, steps), s).list, u) != RoleOf(Run(globals, d, steps).list, u)
    ensures s.Write? && target == u && k < |steps| && steps[k].Ask? && AllowedAt(globals, d, steps, k, s.id, u, steps[k].change)
    ensures RoleOf(Next(globals, Run(globals, d, steps), s).list, u) ==
            match steps[k].change case Promote => Some(Admin) case Demote => Some(Member) case Remove => None
  {
    var mid := Run(globals, d, steps);
    k := RequestsWereAllowed(globals, d, steps, s.id);
    target := mid.requests[s.id].target;
    AssignRoles(mid.list, target, Admin, u);
    AssignRoles(mid.list, target, Member, u);
    WithoutRoles(mid.list, target, u);
  }

  /** And a request that passed its guard does what it asked for, to a target who has a seat, and nothing to anybody else. */
  lemma {:induction false} WriteExactly(globals: set<User>, d: Desk, id: nat, u: User)
    requires id in d.requests && d.requests[id].guarded.Some?
    ensures var r, d' := d.requests[id], Next(globals, d, Write(id));
            && id !in d'.requests
            && RoleOf(d'.list, u) ==
                 if u != r.target || RoleOf(d.list, u).None? then RoleOf(d.list, u)
                 else match r.change case Promote => Some(Admin) case Demote => Some(Member) case Remove => None
  {
    var target := d.requests[id].target;
    AssignRoles(d.list, target, Admin, u);
    AssignRoles(d.list, target, Member, u);
    WithoutRoles(d.list, target, u);
  }

  lemma {:induction false} Snoc(globals: set<User>, d: Desk, steps: seq<Step>, s: Step)
    ensures Run(globals, d, steps + [s]) == Next(globals, Run(globals, d, steps), s)
  {
    assert (steps + [s])[..|steps|] == steps;
  }

  /** Two admins demote each other. */
  function Duel(a: User, b: User): (steps: seq<Step>) {
    [] + [Ask(1, a, b, Demote)] + [Ask(2, b, a, Demote)] + [Guard(1)] + [Guard(2)] + [Write(1)] + [Write(2)]
  }

  lemma {:induction false} TwoAdmins(a: User, b: User)
    requires a != b
    ensures var r := [Seat(a, Admin), Seat(b, Admin)];
            && Valid(r) && RoleOf(r, a) == RoleOf(r, b) == Some(Admin) && !LastAdmin(r, a) && !LastAdmin(r, b)
            && Admins(Assign(Assign(r, b, Member), a, Member)) == 0
  {
    var r := [Seat(a, Admin), Seat(b, Admin)];
    assert r[1..] == [Seat(b, Admin)] && r[1..][1..] == [];
    assert Admins(r[1..]) == 1;
    AssignRoles(r, b, Member, a);
    AssignRoles(Assign(r, b, Member), a, Member, a);
  }

  lemma {:induction false} BothPass(a: User, b: User)
    requires a != b
    ensures var r := [Seat(a, Admin), Seat(b, Admin)];
            Run({}, Desk(r, map[]), [] + [Ask(1, a, b, Demote)] + [Ask(2, b, a, Demote)] + [Guard(1)] + [Guard(2)]) ==
            Desk(r, map[1 := Request(b, Demote, Some(r)), 2 := Request(a, Demote, Some(r))])
  {
    var r, steps: seq<Step> := [Seat(a, Admin), Seat(b, Admin)], [];
    var d := Desk(r, map[]);
    TwoAdmins(a, b);
    Snoc({}, d, [], Ask(1, a, b, Demote));
    Snoc({}, d, [] + [Ask(1, a, b, Demote)], Ask(2, b, a, Demote));
    Snoc({}, d, [] + [Ask(1, a, b, Demote)] + [Ask(2, b, a, Demote)], Guard(1));
    Snoc({}, d, [] + [Ask(1, a, b, Demote)] + [Ask(2, b, a, Demote)] + [Guard(1)], Guard(2));
    var one, two := Request(b, Demote, None), Request(a, Demote, None);
    assert Run({}, d, [] + [Ask(1, a, b, Demote)] + [Ask(2, b, a, Demote)]) == Desk(r, map[1 := one, 2 := two]);
    assert Run({}, d, [] + [Ask(1, a, b, Demote)] + [Ask(2, b, a, Demote)] + [Guard(1)]) ==
           Desk(r, map[1 := one.(guarded := Some(r)), 2 := two]);
  }

  /** Both requests are allowed, both guards pass, both writes are done, and the group has no admin. */
  lemma {:induction false} StaleGuardFails(a: User, b: User)
    requires a != b
    ensures var d := Desk([Seat(a, Admin), Seat(b, Admin)], map[]);
            Valid(d.list) && Run({}, d, Duel(a, b)).requests == map[] && Admins(Run({}, d, Duel(a, b)).list) == 0
  {
    var d, steps := Desk([Seat(a, Admin), Seat(b, Admin)], map[]),
                    [] + [Ask(1, a, b, Demote)] + [Ask(2, b, a, Demote)] + [Guard(1)] + [Guard(2)];
    TwoAdmins(a, b);
    BothPass(a, b);
    Snoc({}, d, steps, Write(1));
    Snoc({}, d, steps + [Write(1)], Write(2));
    var mid := Run({}, d, steps);
    assert (mid.requests - {1}) - {2} == map[];
  }
}
