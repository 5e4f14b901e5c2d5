/** Telling a fork from ordinary undecryptable messages (client/src/lib/fork.js). */
module Fork {
  import opened Common
  import opened Seqs

  datatype Why = Self | Ahead | Replay | Restored | Suspect

  /** What is known about a message that would not open; an epoch may be missing. */
  datatype Info = Info(sender: User, epoch: Option<nat>, me: User, groupEpoch: Option<nat>, restored: bool, replay: bool)

  function ClassifyFailure(i: Info): (why: Why)
    ensures why.Suspect? <==> !i.restored && !i.replay && i.sender != i.me &&
                              !(i.epoch.Some? && i.groupEpoch.Some? && i.epoch.value > i.groupEpoch.value)
    ensures (why.Restored? <==> i.restored) && (why.Replay? <==> i.replay && !i.restored)
    ensures why.Self? <==> i.sender == i.me && !i.replay && !i.restored
  {
    if i.restored then Restored
    else if i.replay then Replay
    else if i.sender == i.me then Self
    else if i.epoch.Some? && i.groupEpoch.Some? && i.epoch.value > i.groupEpoch.value then Ahead
    else Suspect
  }

  /** Consecutive suspect failures by sender, and the senders judged either way. */
  datatype Tally = Tally(counts: map<User, nat>, seen: set<User>)

  const NO_TALLY := Tally(map[], {})

  type Tallies = map<Group, Tally>

  function TallyOf(gs: Tallies, g: Group): (t: Tally) { if g in gs then gs[g] else NO_TALLY }

  datatype Event = Opened(group: Group, sender: User) | Failed(group: Group, info: Info) | Cleared(group: Group)

  function Apply(gs: Tallies, e: Event): (gs': Tallies) {
    match e
    case Opened(g, sender) =>
      var t := TallyOf(gs, g);
      gs[g := Tally(t.counts - {sender}, t.seen + {sender})]
    case Failed(g, info) =>
      if !ClassifyFailure(info).Suspect? then gs
      else
        var t := TallyOf(gs, g);
        var n := if info.sender in t.counts then t.counts[info.sender] else 0;
        gs[g := Tally(t.counts[info.sender := n + 1], t.seen + {info.sender})]
    case Cleared(g) => gs - {g}
  }

  function ApplyAll(events: seq<Event>): (gs: Tallies) {
    if events == [] then map[] else Apply(ApplyAll(events[..|events| - 1]), events[|events| - 1])
  }

  // -------------------------------------------------------------------- sorted senders

  /** Dictionary order on handles. */
  predicate Less(a: User, b: User) {
    b != [] && (a == [] || a[0] < b[0] || (a[0] == b[0] && Less(a[1..], b[1..])))
  }

  lemma {:induction false} LessTotal(a: User, b: User)
    ensures a == b || Less(a, b) || Less(b, a)
    ensures !(Less(a, b) && Less(b, a)) && !Less(a, a)
  {
    if a != [] && b != [] {
      LessTotal(a[1..], b[1..]);
      if a[0] == b[0] && a[1..] == b[1..] { assert a == [a[0]] + a[1..] && b == [b[0]] + b[1..]; }
    }
    if a != [] { LessTotal(a[1..], a[1..]); }
  }

  lemma {:induction false} LessTransitive(a: User, b: User, c: User)
    requires Less(a, b) && Less(b, c)
    ensures Less(a, c)
  {
    if a != [] && a[0] == b[0] && b[0] == c[0] { LessTransitive(a[1..], b[1..], c[1..]); }
  }

  ghost predicate Sorted(us: seq<User>) { forall i, j :: 0 <= i < j < |us| ==> Less(us[i], us[j]) }

  function Insert(us: seq<User>, u: User): (r: seq<User>)
    ensures |r| == |us| + 1
    ensures multiset(r) == multiset(us) + multiset{u}
  {
    if us == [] || Less(u, us[0]) then [u] + us
    else
      assert us == [us[0]] + us[1..];
      [us[0]] + Insert(us[1..], u)
  }

  lemma {:induction false} InsertSorted(us: seq<User>, u: User)
    requires Sorted(us) && u !in us
    ensures Sorted(Insert(us, u))
    ensures forall x :: x in Insert(us, u) <==> x in us || x == u
  {
    forall x ensures x in Insert(us, u) <==> x in us || x == u {
      assert x in Insert(us, u) <==> x in multiset(Insert(us, u));
      assert x in us <==> x in multiset(us);
    }
    if us != [] {
      if Less(u, us[0]) {
        forall j | 0 <= j < |us| ensures Less(u, us[j]) {
          if j > 0 { LessTransitive(u, us[0], us[j]); }
        }
      } else {
        LessTotal(u, us[0]);
        InsertSorted(us[1..], u);
        var rest := Insert(us[1..], u);
        forall j | 0 <= j < |rest| ensures Less(us[0], rest[j]) {
          assert rest[j] in rest;
          if rest[j] != u {
            var k :| 0 <= k < |us[1..]| && us[1..][k] == rest[j];
            assert us[k + 1] == rest[j];
          }
        }
      }
    }
  }

  // ------------------------------------------------------------------------ the history

  /** Suspect failures from `u` in `g` since `u` last got through, or since `g` was cleared. */
  function Streak(events: seq<Event>, g: Group, u: User): (n: nat) {
    if events == [] then 0
    else
      var before := Streak(events[..|events| - 1], g, u);
      match events[|events| - 1]
      case Opened(h, sender) => if h == g && sender == u then 0 else before
      case Failed(h, info) => if h == g && info.sender == u && ClassifyFailure(info).Suspect? then before + 1 else before
      case Cleared(h) => if h == g then 0 else before
  }

  /** Whether `u` was judged in `g`, either way, since it was cleared. */
  predicate Judged(events: seq<Event>, g: Group, u: User) {
    events != [] &&
    var before := Judged(events[..|events| - 1], g, u);
    match events[|events| - 1]
    case Opened(h, sender) => (h == g && sender == u) || before
    case Failed(h, info) => (h == g && info.sender == u && ClassifyFailure(info).Suspect?) || before
    case Cleared(h) => h != g && before
  }

  /** The tally is what the history says. */
  lemma {:induction false} TallyIsHistory(events: seq<Event>, g: Group, u: User)
    ensures var t := TallyOf(ApplyAll(events), g);
            && (u in t.counts <==> Streak(events, g, u) > 0)
            && (u in t.counts ==> t.counts[u] == Streak(events, g, u))
            && (u in t.seen <==> Judged(events, g, u))
            && (u in t.counts ==> u in t.seen)
  {
    if events != [] { TallyIsHistory(events[..|events| - 1], g, u); }
  }

  /** The events that concern one sender in one group. */
  function Own(g: Group, u: User): Event -> bool {
    (e: Event) => e.group == g && (e.Cleared? || (e.Opened? && e.sender == u) || (e.Failed? && e.info.sender == u))
  }

  /** What is believed of a sender depends on nothing but their own messages. */
  lemma {:induction false} OwnMessagesDecide(events: seq<Event>, g: Group, u: User)
    ensures Streak(events, g, u) == Streak(Filter(Own(g, u), events), g, u)
    ensures Judged(events, g, u) == Judged(Filter(Own(g, u), events), g, u)
  {
    if events != [] {
      var init, last := events[..|events| - 1], events[|events| - 1];
      OwnMessagesDecide(init, g, u);
      var own := Filter(Own(g, u), init);
      assert (own + [last])[..|own|] == own;
    }
  }

  lemma {:induction false} SubsetSize(a: set<User>, b: set<User>)
    requires a <= b
    ensures |a| <= |b| && (|a| == |b| <==> a == b)
  {
    if a != b {
      assert b == a + (b - a) && b - a != {};
    }
  }

  /** The watch the controller keeps. `events` is its history, for the specification only. */
  class ForkWatch {
    const threshold: int
    var groups: Tallies
    ghost var events: seq<Event>

    ghost predicate Valid()
      reads this
    {
      groups == ApplyAll(events)
    }

    constructor (threshold: int)
      ensures Valid() && events == [] && this.threshold == threshold
    {
      this.threshold := threshold;
      groups := map[];
      events := [];
    }

    method Succeeded(group: Group, sender: User)
      requires Valid()
      modifies this
      ensures Valid() && events == old(events) + [Opened(group, sender)]
    {
      var s := TallyOf(groups, group);
      groups := groups[group := Tally(s.counts - {sender}, s.seen + {sender})];
      events := events + [Opened(group, sender)];
    }

    method Failed(group: Group, info: Info) returns (why: Why)
      requires Valid()
      modifies this
      ensures Valid() && events == old(events) + [Event.Failed(group, info)]
      ensures why == ClassifyFailure(info) && (!why.Suspect? ==> groups == old(groups))
    {
      why := ClassifyFailure(info);
      if why.Suspect? {
        var s := TallyOf(groups, group);
        var n := if info.sender in s.counts then s.counts[info.sender] else 0;
        groups := groups[group := Tally(s.counts[info.sender := n + 1], s.seen + {info.sender})];
      }
      events := events + [Event.Failed(group, info)];
    }

    method Clear(group: Group)
      requires Valid()
      modifies this
      ensures Valid() && events == old(events) + [Cleared(group)]
    {
      groups := groups - {group};
      events := events + [Cleared(group)];
    }

    /** The senders over the threshold, sorted. */
    method Stranded(group: Group) returns (stranded: seq<User>)
      ensures Sorted(stranded)
      ensures forall u :: u in stranded <==> u in TallyOf(groups, group).counts && TallyOf(groups, group).counts[u] >= threshold
      ensures |stranded| == |set u | u in stranded|
    {
      var counts := TallyOf(groups, group).counts;
      var left := counts.Keys;
      stranded := [];
      ghost var taken: set<User> := {};
      while left != {}
        invariant left <= counts.Keys && Sorted(stranded)
        invariant forall u :: u in stranded <==> u in taken
        invariant forall u :: u in taken <==> u in counts && u !in left && counts[u] >= threshold
        invariant |stranded| == |taken|
        decreases |left|
      {
        var u :| u in left;
        left := left - {u};
        if counts[u] >= threshold {
          InsertSorted(stranded, u);
          stranded := Insert(stranded, u);
          taken := taken + {u};
        }
      }
      assert taken == set u | u in stranded;
    }

    /**
     The verdict is the history's: `stranded` lists, in order, exactly the senders with at least
     `threshold` suspect failures since they last got through — and at least one, if the threshold
     is lower — and the device is out of sync exactly when they are everyone it ever judged.
     */
    method Verdict(group: Group) returns (stranded: seq<User>, outOfSync: bool)
      requires Valid()
      ensures Sorted(stranded)
      ensures forall u :: u in stranded <==> Streak(events, group, u) >= Max(threshold, 1)
      ensures outOfSync <==> stranded != [] && forall u :: Judged(events, group, u) ==> u in stranded
    {
      stranded := Stranded(group);
      var seen := TallyOf(groups, group).seen;
      outOfSync := |stranded| > 0 && |stranded| == |seen|;
      forall u ensures u in stranded <==> Streak(events, group, u) >= Max(threshold, 1) { TallyIsHistory(events, group, u); }
      forall u ensures (u in stranded ==> u in seen) && (u in seen <==> Judged(events, group, u)) { TallyIsHistory(events, group, u); }
      SubsetSize((set u | u in stranded), seen);
    }
  }
}
