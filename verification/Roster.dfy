/** A group's member list: who is on it and who may manage it (relay/src/store.rs). */
module Roster {
  import opened Common

  datatype Role = Admin | Member

  datatype Seat = Seat(user: User, role: Role)

  type Roster = seq<Seat>

  function RoleOf(r: Roster, user: User): (role: Option<Role>) {
    if r == [] then None else if r[0].user == user then Some(r[0].role) else RoleOf(r[1..], user)
  }

  function Admins(r: Roster): (n: nat) {
    if r == [] then 0 else (if r[0].role.Admin? then 1 else 0) + Admins(r[1..])
  }

  /** `allow_member`: joining twice changes nothing, in particular no role. */
  function With(r: Roster, user: User): (r': Roster) {
    if RoleOf(r, user).Some? then r else r + [Seat(user, Member)]
  }

  /** `disallow_member`. */
  function Without(r: Roster, user: User): (r': Roster) {
    if r == [] then [] else (if r[0].user == user then [] else [r[0]]) + Without(r[1..], user)
  }

  /** `set_member_role` for a user who is on the list. */
  function Assign(r: Roster, user: User, role: Role): (r': Roster) {
    if r == [] then []
    else if r[0].user == user then [Seat(user, role)] + r[1..]
    else [r[0]] + Assign(r[1..], user, role)
  }

  /** The guard SetRole and Disallow share: taking the role from this user would leave no admin. */
  predicate LastAdmin(r: Roster, user: User) { RoleOf(r, user) == Some(Admin) && Admins(r) <= 1 }

  ghost predicate NoRepeats(r: Roster) { forall i, j :: 0 <= i < j < |r| ==> r[i].user != r[j].user }

  ghost predicate Valid(r: Roster) { NoRepeats(r) && Admins(r) >= 1 }

  lemma {:induction false} OnTheList(r: Roster, user: User)
    ensures RoleOf(r, user).Some? <==> exists i :: 0 <= i < |r| && r[i].user == user
  {
    if r != [] {
      OnTheList(r[1..], user);
      assert forall i :: 0 <= i < |r[1..]| ==> r[1..][i] == r[i + 1];
    }
  }

  /** The first seat of a user, or the end of the list. */
  predicate FirstSeat(r: Roster, user: User, i: nat) {
    i <= |r| && (forall j :: 0 <= j < i ==> r[j].user != user) && (i < |r| ==> r[i].user == user)
  }

  lemma {:induction false} FirstSeatDecides(r: Roster, user: User, i: nat, role: Role)
    requires FirstSeat(r, user, i)
    ensures RoleOf(r, user) == if i < |r| then Some(r[i].role) else None
    ensures i < |r| ==> Assign(r, user, role) == r[i := Seat(user, role)]
  {
    if i > 0 {
      assert forall j :: 0 <= j < |r[1..]| ==> r[1..][j] == r[j + 1];
      FirstSeatDecides(r[1..], user, i - 1, role);
      if i < |r| { assert [r[0]] + r[1..][i - 1 := Seat(user, role)] == r[i := Seat(user, role)]; }
    } else if r != [] {
      assert [Seat(user, role)] + r[1..] == r[0 := Seat(user, role)];
    }
  }

  lemma {:induction false} RoleOfOne(s: Seat, user: User)
    ensures RoleOf([s], user) == if s.user == user then Some(s.role) else None
  {
    assert [s][1..] == [];
  }

  lemma {:induction false} AdminsConcat(a: Roster, b: Roster)
    ensures Admins(a + b) == Admins(a) + Admins(b)
  {
    if a == [] {
      assert a + b == b;
    } else {
      assert (a + b)[1..] == a[1..] + b;
      AdminsConcat(a[1..], b);
    }
  }

  lemma {:induction false} RoleOfConcat(a: Roster, b: Roster, user: User)
    ensures RoleOf(a + b, user) == if RoleOf(a, user).Some? then RoleOf(a, user) else RoleOf(b, user)
  {
    if a == [] {
      assert a + b == b;
    } else {
      assert (a + b)[1..] == a[1..] + b;
      RoleOfConcat(a[1..], b, user);
    }
  }

  lemma {:induction false} WithValid(r: Roster, user: User)
    requires Valid(r)
    ensures Valid(With(r, user))
  {
    OnTheList(r, user);
    AdminsConcat(r, [Seat(user, Member)]);
  }

  lemma {:induction false} WithRoles(r: Roster, user: User, u: User)
    ensures RoleOf(With(r, user), u) == if u == user && RoleOf(r, u).None? then Some(Member) else RoleOf(r, u)
  {
    RoleOfConcat(r, [Seat(user, Member)], u);
    RoleOfOne(Seat(user, Member), u);
  }

  /** Removing a user removes exactly their seats. */
  lemma {:induction false} WithoutRoles(r: Roster, user: User, u: User)
    ensures RoleOf(Without(r, user), u) == if u == user then None else RoleOf(r, u)
  {
    if r != [] {
      WithoutRoles(r[1..], user, u);
      if r[0].user == user {
        assert Without(r, user) == Without(r[1..], user);
      } else {
        assert Without(r, user)[0] == r[0] && Without(r, user)[1..] == Without(r[1..], user);
      }
    }
  }

  lemma {:induction false} WithoutSeats(r: Roster, user: User, s: Seat)
    ensures s in Without(r, user) <==> s in r && s.user != user
  {
    if r != [] {
      WithoutSeats(r[1..], user, s);
      assert s in r <==> s == r[0] || s in r[1..];
    }
  }

  lemma {:induction false} WithoutNoRepeats(r: Roster, user: User)
    requires NoRepeats(r)
    ensures NoRepeats(Without(r, user))
  {
    if r != [] {
      WithoutNoRepeats(r[1..], user);
      forall s | s in Without(r[1..], user) ensures s.user != r[0].user {
        WithoutSeats(r[1..], user, s);
        var i :| 0 <= i < |r[1..]| && r[1..][i] == s;
        assert r[i + 1] == s;
      }
      assert forall i :: 0 <= i < |Without(r[1..], user)| ==> Without(r[1..], user)[i] in Without(r[1..], user);
    }
  }

  /** On a list without repeats, removing a user costs one admin exactly if they were one. */
  lemma {:induction false} WithoutAdmins(r: Roster, user: User)
    requires NoRepeats(r)
    ensures Admins(Without(r, user)) == Admins(r) - if RoleOf(r, user) == Some(Admin) then 1 else 0
  {
    if r != [] {
      WithoutAdmins(r[1..], user);
      OnTheList(r[1..], user);
      assert forall i :: 0 <= i < |r[1..]| ==> r[1..][i] == r[i + 1];
      AdminsConcat(if r[0].user == user then [] else [r[0]], Without(r[1..], user));
    }
  }

  lemma {:induction false} WithoutValid(r: Roster, user: User)
    requires Valid(r) && !LastAdmin(r, user)
    ensures Valid(Without(r, user))
  {
    WithoutNoRepeats(r, user);
    WithoutAdmins(r, user);
  }

  lemma {:induction false} AssignUsers(r: Roster, user: User, role: Role)
    ensures |Assign(r, user, role)| == |r| && forall i :: 0 <= i < |r| ==> Assign(r, user, role)[i].user == r[i].user
  {
    if r != [] && r[0].user != user { AssignUsers(r[1..], user, role); }
  }

  lemma {:induction false} AssignRoles(r: Roster, user: User, role: Role, u: User)
    ensures RoleOf(Assign(r, user, role), u) == if u == user && RoleOf(r, u).Some? then Some(role) else RoleOf(r, u)
    ensures Admins(Assign(r, user, role)) ==
            Admins(r) + (if RoleOf(r, user) == Some(Member) && role.Admin? then 1 else 0)
                      - (if RoleOf(r, user) == Some(Admin) && role.Member? then 1 else 0)
  {
    if r != [] {
      AssignRoles(r[1..], user, role, u);
      var r' := Assign(r, user, role);
      assert r'[1..] == if r[0].user == user then r[1..] else Assign(r[1..], user, role);
    }
  }

  lemma {:induction false} AssignValid(r: Roster, user: User, role: Role)
    requires Valid(r) && (role.Member? ==> !LastAdmin(r, user))
    ensures Valid(Assign(r, user, role))
  {
    AssignUsers(r, user, role);
    AssignRoles(r, user, role, user);
  }

  /** The admins of a list, each once. */
  ghost function AdminUsers(r: Roster): (us: set<User>) { set s | s in r && s.role.Admin? :: s.user }

  /** On a list without repeats the count is of people, and they are the users whose role is Admin. */
  lemma {:induction false} AdminsAreUsers(r: Roster)
    requires NoRepeats(r)
    ensures Admins(r) == |AdminUsers(r)| && forall u :: u in AdminUsers(r) <==> RoleOf(r, u) == Some(Admin)
  {
    if r == [] {
      assert AdminUsers(r) == {};
    } else {
      var rest := r[1..];
      assert forall i :: 0 <= i < |rest| ==> rest[i] == r[i + 1];
      AdminsAreUsers(rest);
      OnTheList(rest, r[0].user);
      assert forall s :: s in r <==> s == r[0] || s in rest;
      assert AdminUsers(r) == AdminUsers(rest) + (if r[0].role.Admin? then {r[0].user} else {});
    }
  }

  /** The guard is exact: at the moment of the change, it refuses just the changes that would leave no admin. */
  lemma {:induction false} GuardIsExact(r: Roster, user: User)
    requires Valid(r)
    ensures Valid(Without(r, user)) <==> !LastAdmin(r, user)
    ensures Valid(Assign(r, user, Member)) <==> !LastAdmin(r, user)
  {
    WithoutNoRepeats(r, user);
    WithoutAdmins(r, user);
    AssignUsers(r, user, Member);
    AssignRoles(r, user, Member, user);
  }
}
