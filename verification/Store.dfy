/**
 The in-memory store (relay/src/store.rs): maps and vectors updated in place. Each method is
 stated by the function of the log, history, roster, invite or blob it changes.
 */
module Store {
  import opened Common
  import opened Seqs
  import GroupLog
  import History
  import Relay
  import opened Roster

  type Hid = string

  /** `Vec::retain`. */
  method Retain<T>(s: seq<T>, keep: T -> bool) returns (r: seq<T>)
    ensures r == Filter(keep, s)
  {
    r := [];
    for i := 0 to |s|
      invariant r == Filter(keep, s[..i])
    {
      assert s[..i + 1][..i] == s[..i];
      if keep(s[i]) { r := r + [s[i]]; }
    }
    assert s[..|s|] == s;
  }

  /** The entries of some logs that are past their time, each named by its log and place. */
  ghost function Expired(history: map<(Group, Hid), History.Log>, keys: set<(Group, Hid)>, now: nat)
    : (r: set<((Group, Hid), nat)>)
    requires keys <= history.Keys
  {
    set k, i: nat | k in keys && i < |history[k].entries| && !History.Alive(history[k].entries[i], now) :: (k, i)
  }

  lemma {:induction false} ExpiredOneMore(history: map<(Group, Hid), History.Log>, keys: set<(Group, Hid)>, k: (Group, Hid), now: nat)
    requires keys <= history.Keys && k in history && k !in keys
    ensures |Expired(history, keys + {k}, now)| == |Expired(history, keys, now)| +
            |history[k].entries| - |Filter(History.Unexpired(now), history[k].entries)|
  {
    var es := history[k].entries;
    ExpiredInLog(k, es, now);
    assert Expired(history, keys + {k}, now) == Expired(history, keys, now) + ExpiredOf(k, es, now);
    assert Expired(history, keys, now) !! ExpiredOf(k, es, now);
  }

  ghost function ExpiredOf(k: (Group, Hid), es: seq<History.Entry>, now: nat): (r: set<((Group, Hid), nat)>) {
    set i: nat | i < |es| && !History.Alive(es[i], now) :: (k, i)
  }

  lemma {:induction false} ExpiredInLog(k: (Group, Hid), es: seq<History.Entry>, now: nat)
    ensures |ExpiredOf(k, es, now)| == |es| - |Filter(History.Unexpired(now), es)|
  {
    if es == [] {
      assert ExpiredOf(k, es, now) == {};
    } else {
      var n := |es| - 1;
      ExpiredInLog(k, es[..n], now);
      assert ExpiredOf(k, es, now) ==
             ExpiredOf(k, es[..n], now) + (if History.Alive(es[n], now) then {} else {(k, n)});
    }
  }

  /** `iter().find` by name. */
  method FindSeat(r: Roster, user: User) returns (i: nat)
    ensures FirstSeat(r, user, i)
  {
    i := 0;
    while i < |r| && r[i].user != user
      invariant i <= |r| && forall j :: 0 <= j < i ==> r[j].user != user
    {
      i := i + 1;
    }
  }

  /** `iter().filter(..).count()`. */
  method CountAdmins(r: Roster) returns (n: nat)
    ensures n == Admins(r)
  {
    n := 0;
    for i := 0 to |r|
      invariant n + Admins(r[i..]) == Admins(r)
    {
      assert r[i..][1..] == r[i + 1..];
      if r[i].role.Admin? { n := n + 1; }
    }
  }

  method RemoveSeats(r: Roster, user: User) returns (out: Roster)
    ensures out == Without(r, user)
  {
    out := [];
    for i := 0 to |r|
      invariant out + Without(r[i..], user) == Without(r, user)
    {
      ghost var rest := Without(r[i + 1..], user);
      assert r[i..][1..] == r[i + 1..] && r[i..][0] == r[i];
      if r[i].user != user {
        Regroup(out, [r[i]], rest);
        out := out + [r[i]];
      } else {
        assert [] + rest == rest;
      }
    }
    assert r[|r|..] == [];
  }

  /** Every queue loses the Welcomes of one group. */
  method DropWelcomes(before: map<User, seq<Relay.Welcome>>, g: Group) returns (stored: map<User, seq<Relay.Welcome>>)
    ensures stored == map u | u in before :: Filter(Relay.ForOther(g), before[u])
  {
    stored := before;
    var left := before.Keys;
    while left != {}
      invariant left <= before.Keys == stored.Keys
      invariant forall u :: u in before ==> stored[u] == if u in left then before[u] else Filter(Relay.ForOther(g), before[u])
      decreases |left|
    {
      var u :| u in left;
      left := left - {u};
      var kept := Retain(stored[u], Relay.ForOther(g));
      stored := stored[u := kept];
    }
  }

  class MemoryStore {
    var users: set<User>
    var threads: map<Group, GroupLog.Thread<Bytes>>
    var rosters: map<Group, Roster>
    var history: map<(Group, Hid), History.Log>
    var stored: map<User, seq<Relay.Welcome>>
    var invites: map<Relay.InviteId, Relay.Invite>
    var claims: set<(Relay.InviteId, User)>
    var backups: map<User, (Bytes, nat)>

    constructor ()
      ensures users == {} && threads == map[] && rosters == map[] && history == map[]
      ensures stored == map[] && invites == map[] && claims == {} && backups == map[]
    {
      users, threads, rosters, history, stored, invites, claims, backups := {}, map[], map[], map[], map[], map[], {}, map[];
    }

    // ------------------------------------------------------------------- the message log

    method AppendMessage(g: Group, epoch: nat, sender: User, payload: Bytes, commit: bool) returns (r: Result<nat>)
      modifies this`threads
      ensures g !in old(threads) ==> r == Err(NoSuchGroup) && threads == old(threads)
      ensures g in old(threads) ==>
                var (t, out) := GroupLog.Append(old(threads)[g], epoch, sender, payload, commit);
                r == out && threads == old(threads)[g := t]
    {
      if g !in threads { return Err(NoSuchGroup); }
      var data := threads[g];
      if commit {
        if epoch != data.epoch + 1 {
          assert threads[g := data] == threads;
          return Err(EpochConflict);
        }
        data := data.(epoch := epoch);
      }
      var seqno := |data.log| + 1;
      data := data.(log := data.log + [GroupLog.Message(seqno, epoch, sender, payload)]);
      threads := threads[g := data];
      return Ok(seqno);
    }

    method MessagesAfter(g: Group, after: nat) returns (r: Result<seq<GroupLog.Message<Bytes>>>)
      ensures r == if g in threads then Ok(GroupLog.After(threads[g], after)) else Err(NoSuchGroup)
    {
      if g !in threads { return Err(NoSuchGroup); }
      var out := Retain(threads[g].log, (m: GroupLog.Message<Bytes>) => m.seqno > after);
      return Ok(out);
    }

    // ------------------------------------------------------------------------ history

    function LogAt(g: Group, hid: Hid): (l: History.Log)
      reads this
    {
      if (g, hid) in history then history[(g, hid)] else History.NEW_LOG
    }

    method AppendHistory(g: Group, hid: Hid, author: User, ts: nat, expiresAt: Option<nat>, payload: Bytes) returns (r: Result<nat>)
      modifies this`history
      ensures g !in rosters ==> r == Err(NoSuchGroup) && history == old(history)
      ensures g in rosters ==>
                && r == Ok(old(LogAt(g, hid)).lastSeq + 1)
                && history == old(history)[(g, hid) := History.Add(old(LogAt(g, hid)), author, ts, expiresAt, payload)]
    {
      if g !in rosters { return Err(NoSuchGroup); }
      var log := LogAt(g, hid);
      var seqno := log.lastSeq + 1;
      log := History.Log(seqno, log.entries + [History.Entry(seqno, ts, expiresAt, payload, author)]);
      history := history[(g, hid) := log];
      return Ok(seqno);
    }

    method SweepExpiredHistory(now: nat) returns (removed: nat)
      modifies this`history
      ensures history.Keys == old(history).Keys
      ensures forall k :: k in history ==> history[k] == History.Purge(old(history)[k], now)
      ensures removed == |Expired(old(history), old(history).Keys, now)|
    {
      var left := history.Keys;
      removed := 0;
      while left != {}
        invariant left <= old(history).Keys == history.Keys
        invariant forall k :: k in history ==> history[k] == if k in left then old(history)[k] else History.Purge(old(history)[k], now)
        invariant removed == |Expired(old(history), old(history).Keys - left, now)|
        decreases |left|
      {
        var k :| k in left;
        ghost var done := old(history).Keys - left;
        left := left - {k};
        var before := history[k].entries;
        var kept := Retain(before, History.Unexpired(now));
        ExpiredOneMore(old(history), done, k, now);
        assert old(history).Keys - left == done + {k};
        removed := removed + (|before| - |kept|);
        history := history[k := history[k].(entries := kept)];
      }
      assert old(history).Keys - left == old(history).Keys;
    }

    method HistoryPage(g: Group, hid: Hid, page: History.Page, now: nat) returns (r: Result<(seq<History.Entry>, bool)>)
      modifies this`history
      ensures g !in rosters ==> r == Err(NoSuchGroup) && history == old(history)
      ensures g in rosters && (g, hid) !in old(history) ==> r == Ok(([], true)) && history == old(history)
      ensures g in rosters && (g, hid) in old(history) ==>
                var log := History.Purge(old(history)[(g, hid)], now);
                history == old(history)[(g, hid) := log] && r == Ok(History.ReadPage(log.entries, page))
    {
      if g !in rosters { return Err(NoSuchGroup); }
      if (g, hid) !in history { return Ok(([], true)); }
      var log := history[(g, hid)];
      var living := Retain(log.entries, History.Unexpired(now));
      log := log.(entries := living);
      history := history[(g, hid) := log];
      match page
      case After(after, limit) =>
        var matching := Retain(living, History.Newer(after));
        var complete := after == 0 && |matching| <= limit;
        return Ok((matching[..Min(limit, |matching|)], complete));
      case Before(before, limit) =>
        var matching := Retain(living, History.Older(before));
        var complete := |matching| <= limit;
        return Ok((matching[Max(|matching| - limit, 0)..], complete));
    }

    method HistoryCount(g: Group, hid: Hid, afterTs: nat, exclude: User, now: nat) returns (r: Result<nat>)
      ensures r == if g !in rosters then Err(NoSuchGroup)
                   else Ok(History.CountUnread(LogAt(g, hid).entries, afterTs, exclude, now))
    {
      if g !in rosters { return Err(NoSuchGroup); }
      if (g, hid) !in history { return Ok(0); }
      var counted := Retain(history[(g, hid)].entries, History.Unread(afterTs, exclude, now));
      return Ok(|counted|);
    }

    /** Only what was removed tells the caller apart from one naming an entry that is not there. */
    method RedactHistory(g: Group, hid: Hid, seqno: nat, caller: User, admin: bool) returns (r: Result<bool>)
      modifies this`history
      ensures g !in rosters ==> r == Err(NoSuchGroup) && history == old(history)
      ensures g in rosters && (g, hid) !in old(history) ==> r == Ok(false) && history == old(history)
      ensures g in rosters && (g, hid) in old(history) ==>
                var log := old(history)[(g, hid)];
                && history == old(history)[(g, hid) := History.Redact(log, seqno, caller, admin)]
                && r == Ok(|History.Redact(log, seqno, caller, admin).entries| < |log.entries|)
    {
      if g !in rosters { return Err(NoSuchGroup); }
      if (g, hid) !in history { return Ok(false); }
      var log := history[(g, hid)];
      var kept := Retain(log.entries, History.NotRedacted(seqno, caller, admin));
      history := history[(g, hid) := log.(entries := kept)];
      return Ok(|kept| < |log.entries|);
    }

    method PruneHistory(g: Group, hid: Hid, beforeTs: nat) returns (r: Result<()>)
      modifies this`history
      ensures g !in rosters ==> r == Err(NoSuchGroup) && history == old(history)
      ensures g in rosters ==>
                && r == Ok(())
                && history == if (g, hid) in old(history) then old(history)[(g, hid) := History.Prune(old(history)[(g, hid)], beforeTs)]
                              else old(history)
    {
      if g !in rosters { return Err(NoSuchGroup); }
      if (g, hid) in history {
        var kept := Retain(history[(g, hid)].entries, History.NotBefore(beforeTs));
        history := history[(g, hid) := history[(g, hid)].(entries := kept)];
      }
      return Ok(());
    }

    // ------------------------------------------------------------------------ backups

    /** The compare-and-swap: nothing is written over a version its writer did not expect. */
    method SetBackup(user: User, payload: Bytes, expected: Option<nat>) returns (r: Result<nat>)
      modifies this`backups
      ensures var current := if user in old(backups) then Some(old(backups)[user].1) else None;
              if current != expected then r == Err(BackupConflict) && backups == old(backups)
              else var next := (if expected.Some? then expected.value else 0) + 1;
                   r == Ok(next) && backups == old(backups)[user := (payload, next)]
    {
      var current := if user in backups then Some(backups[user].1) else None;
      if current != expected { return Err(BackupConflict); }
      var next := (if current.Some? then current.value else 0) + 1;
      backups := backups[user := (payload, next)];
      return Ok(next);
    }

    // ------------------------------------------------------------- groups and their members

    method CreateGroup(g: Group, creator: User) returns (r: Result<()>)
      modifies this`threads, this`rosters
      ensures r.Ok? <==> g !in old(rosters)
      ensures r.Err? ==> rosters == old(rosters) && threads == old(threads)
      ensures r.Ok? ==> rosters == old(rosters)[g := [Seat(creator, Admin)]] && threads == old(threads)[g := GroupLog.Thread(0, [])]
    {
      if g in rosters { return Err(GroupExists); }
      rosters := rosters[g := [Seat(creator, Admin)]];
      threads := threads[g := GroupLog.Thread(0, [])];
      return Ok(());
    }

    method MemberRole(g: Group, user: User) returns (role: Option<Role>)
      ensures role == if g in rosters then RoleOf(rosters[g], user) else None
    {
      if g !in rosters { return None; }
      var i := FindSeat(rosters[g], user);
      FirstSeatDecides(rosters[g], user, i, Member);
      return if i < |rosters[g]| then Some(rosters[g][i].role) else None;
    }

    method AllowMember(g: Group, user: User) returns (r: Result<()>)
      modifies this`rosters
      ensures r.Ok? <==> g in old(rosters)
      ensures rosters == if r.Ok? then old(rosters)[g := With(old(rosters)[g], user)] else old(rosters)
    {
      if g !in rosters { return Err(NoSuchGroup); }
      var i := FindSeat(rosters[g], user);
      FirstSeatDecides(rosters[g], user, i, Member);
      if i == |rosters[g]| {
        rosters := rosters[g := rosters[g] + [Seat(user, Member)]];
      } else {
        assert rosters[g := rosters[g]] == rosters;
      }
      return Ok(());
    }

    method DisallowMember(g: Group, user: User)
      modifies this`rosters
      ensures rosters == if g in old(rosters) then old(rosters)[g := Without(old(rosters)[g], user)] else old(rosters)
    {
      if g in rosters {
        var kept := RemoveSeats(rosters[g], user);
        rosters := rosters[g := kept];
      }
    }

    method SetMemberRole(g: Group, user: User, role: Role) returns (r: Result<()>)
      modifies this`rosters
      ensures r.Ok? <==> g in old(rosters) && RoleOf(old(rosters)[g], user).Some?
      ensures rosters == if r.Ok? then old(rosters)[g := Assign(old(rosters)[g], user, role)] else old(rosters)
    {
      if g !in rosters { return Err(NoSuchGroup); }
      var i := FindSeat(rosters[g], user);
      FirstSeatDecides(rosters[g], user, i, role);
      if i == |rosters[g]| { return Err(Backend); }
      rosters := rosters[g := rosters[g][i := Seat(user, role)]];
      return Ok(());
    }

    /** The group's own data go with it, and whatever pointed at it. */
    method DeleteGroup(g: Group)
      modifies this`threads, this`rosters, this`history, this`stored, this`invites
      ensures threads == old(threads) - {g} && rosters == old(rosters) - {g}
      ensures history == map k | k in old(history) && k.0 != g :: old(history)[k]
      ensures stored == map u | u in old(stored) :: Filter(Relay.ForOther(g), old(stored)[u])
      ensures invites == map i | i in old(invites) && old(invites)[i].group != g :: old(invites)[i]
    {
      threads, rosters := threads - {g}, rosters - {g};
      history := map k | k in history && k.0 != g :: history[k];
      invites := map i | i in invites && invites[i].group != g :: invites[i];
      stored := DropWelcomes(stored, g);
    }

    // ---------------------------------------------------------------- welcomes and invites

    method StoreWelcome(to: User, w: Relay.Welcome)
      modifies this`stored
      ensures stored == old(stored)[to := Relay.At(old(stored), to) + [w]]
    {
      stored := stored[to := (if to in stored then stored[to] else []) + [w]];
    }

    method TakeWelcomes(to: User) returns (ws: seq<Relay.Welcome>)
      modifies this`stored
      ensures ws == Relay.At(old(stored), to) && stored == old(stored) - {to}
    {
      ws := if to in stored then stored[to] else [];
      stored := stored - {to};
    }

    method RedeemInvite(id: Relay.InviteId, user: User, now: nat) returns (r: Result<(Group, Bytes)>)
      modifies this`invites, this`claims
      ensures var s := Relay.State(users, rosters, map[], map[], stored, old(invites), old(claims));
              var (s', ok) := Relay.Redeem(s, id, user, now);
              invites == s'.invites && claims == s'.claims && (r.Ok? <==> ok) &&
              (ok ==> r == Ok((old(invites)[id].group, old(invites)[id].payload)))
    {
      var already := (id, user) in claims;
      if id !in invites { return Err(InviteInvalid); }
      var record := invites[id];
      if record.expiresAt.Some? && now > record.expiresAt.value { return Err(InviteInvalid); }
      if !already {
        if record.maxUses.Some? && record.uses >= record.maxUses.value { return Err(InviteInvalid); }
        invites := invites[id := record.(uses := record.uses + 1)];
        claims := claims + {(id, user)};
      }
      return Ok((record.group, record.payload));
    }
  }
}
