/**
 A channel's history log: `MemoryStore`'s `*_history` methods (relay/src/store.rs) as
 functions of one log, and what they promise over whole runs.
 */
module History {
  import opened Common
  import opened Seqs

  datatype Entry = Entry(seqno: nat, ts: nat, expiresAt: Option<nat>, payload: Bytes, author: User)

  /** The counter survives deletions: it, not the surviving entries, numbers the next one. */
  datatype Log = Log(lastSeq: nat, entries: seq<Entry>)

  const NEW_LOG := Log(0, [])

  datatype Page = After(after: nat, limit: nat) | Before(before: nat, limit: nat)

  predicate Alive(e: Entry, now: nat) { e.expiresAt.Some? ==> now <= e.expiresAt.value }

  // The conditions the operations filter by.
  function Unexpired(now: nat): Entry -> bool { (e: Entry) => Alive(e, now) }
  function Newer(n: nat): Entry -> bool { (e: Entry) => e.seqno > n }
  function Older(n: nat): Entry -> bool { (e: Entry) => e.seqno < n }
  function Unread(afterTs: nat, exclude: User, now: nat): Entry -> bool {
    (e: Entry) => e.ts > afterTs && e.author != exclude && Alive(e, now)
  }
  function NotRedacted(seqno: nat, caller: User, admin: bool): Entry -> bool {
    (e: Entry) => !(e.seqno == seqno && (admin || e.author == caller))
  }
  function NotBefore(ts: nat): Entry -> bool { (e: Entry) => e.ts >= ts }

  function Living(es: seq<Entry>, now: nat): (r: seq<Entry>) { Filter(Unexpired(now), es) }

  function Add(l: Log, author: User, ts: nat, expiresAt: Option<nat>, payload: Bytes): (r: Log) {
    Log(l.lastSeq + 1, l.entries + [Entry(l.lastSeq + 1, ts, expiresAt, payload, author)])
  }

  /** Expired ciphertext is dropped on the way to every read, and by the sweep. */
  function Purge(l: Log, now: nat): (r: Log) { l.(entries := Living(l.entries, now)) }

  /** One page of the entries still there, and whether it reaches the log's start. */
  function ReadPage(es: seq<Entry>, page: Page): (r: (seq<Entry>, bool)) {
    match page
    case After(after, limit) =>
      var matching := Filter(Newer(after), es);
      (matching[..Min(limit, |matching|)], after == 0 && |matching| <= limit)
    case Before(before, limit) =>
      var matching := Filter(Older(before), es);
      (matching[Max(|matching| - limit, 0)..], |matching| <= limit)
  }

  function CountUnread(es: seq<Entry>, afterTs: nat, exclude: User, now: nat): (n: nat) {
    |Filter(Unread(afterTs, exclude, now), es)|
  }

  /** Only the author or an admin may redact; anyone else's attempt removes nothing. */
  function Redact(l: Log, seqno: nat, caller: User, admin: bool): (r: Log) {
    l.(entries := Filter(NotRedacted(seqno, caller, admin), l.entries))
  }

  function Prune(l: Log, beforeTs: nat): (r: Log) {
    l.(entries := Filter(NotBefore(beforeTs), l.entries))
  }

  // ------------------------------------------------------------------------ requests

  datatype Op =
    | Append(author: User, ts: nat, expiresAt: Option<nat>, payload: Bytes)
    | Fetch(page: Page, now: nat)
    | Sweep(now: nat)
    | Count(afterTs: nat, exclude: User, now: nat)
    | RedactEntry(seqno: nat, caller: User, admin: bool)
    | PruneEntries(beforeTs: nat)

  /** What the caller is told. The server reports neither what a redaction nor a sweep removed. */
  datatype Obs = Assigned(seqno: nat) | Paged(entries: seq<Entry>, complete: bool) | Counted(n: nat) | Done

  function Apply(l: Log, op: Op): (r: (Log, Obs)) {
    match op
    case Append(author, ts, expiresAt, payload) =>
      (Add(l, author, ts, expiresAt, payload), Assigned(l.lastSeq + 1))
    case Fetch(page, now) =>
      var l' := Purge(l, now);
      var out := ReadPage(l'.entries, page);
      (l', Paged(out.0, out.1))
    case Sweep(now) => (Purge(l, now), Done)
    case Count(afterTs, exclude, now) => (l, Counted(CountUnread(l.entries, afterTs, exclude, now)))
    case RedactEntry(seqno, caller, admin) => (Redact(l, seqno, caller, admin), Done)
    case PruneEntries(beforeTs) => (Prune(l, beforeTs), Done)
  }

  function ApplyAll(l: Log, ops: seq<Op>): (r: Log) {
    if ops == [] then l else Apply(ApplyAll(l, ops[..|ops| - 1]), ops[|ops| - 1]).0
  }

  function Observe(l: Log, ops: seq<Op>): (r: seq<Obs>)
    ensures |r| == |ops|
  {
    if ops == [] then []
    else
      var init := ops[..|ops| - 1];
      Observe(l, init) + [Apply(ApplyAll(l, init), ops[|ops| - 1]).1]
  }

  // ----------------------------------------------------------------- order and numbering

  ghost predicate Ordered(es: seq<Entry>) {
    forall i, j :: 0 <= i < j < |es| ==> es[i].seqno < es[j].seqno
  }

  ghost predicate Valid(l: Log) {
    Ordered(l.entries) && forall e :: e in l.entries ==> 1 <= e.seqno <= l.lastSeq
  }

  lemma {:induction false} FilterOrdered(p: Entry -> bool, es: seq<Entry>)
    requires Ordered(es)
    ensures Ordered(Filter(p, es))
    ensures forall e :: e in Filter(p, es) ==> e in es
  {
    FilterSubset(p, es);
    if es != [] {
      var init := es[..|es| - 1];
      FilterOrdered(p, init);
      FilterSubset(p, init);
      assert forall e :: e in init ==> e.seqno < es[|es| - 1].seqno;
    }
  }

  lemma {:induction false} ApplyValid(l: Log, op: Op)
    requires Valid(l)
    ensures Valid(Apply(l, op).0) && l.lastSeq <= Apply(l, op).0.lastSeq
  {
    match op
    case Fetch(page, now) => FilterOrdered(Unexpired(now), l.entries);
    case Sweep(now) => FilterOrdered(Unexpired(now), l.entries);
    case RedactEntry(n, caller, admin) =>
      FilterOrdered(NotRedacted(n, caller, admin), l.entries);
    case PruneEntries(ts) => FilterOrdered(NotBefore(ts), l.entries);
    case _ =>
  }

  lemma {:induction false} RunValid(l: Log, ops: seq<Op>)
    requires Valid(l)
    ensures Valid(ApplyAll(l, ops)) && l.lastSeq <= ApplyAll(l, ops).lastSeq
  {
    if ops != [] {
      RunValid(l, ops[..|ops| - 1]);
      ApplyValid(ApplyAll(l, ops[..|ops| - 1]), ops[|ops| - 1]);
    }
  }

  /** The numbers handed out, in order, climb strictly from above `lo` up to at most `hi`. */
  ghost predicate Climbing(out: seq<Obs>, lo: nat, hi: nat) {
    && lo <= hi
    && (forall i :: 0 <= i < |out| && out[i].Assigned? ==> lo < out[i].seqno <= hi)
    && (forall i, j :: 0 <= i < j < |out| && out[i].Assigned? && out[j].Assigned? ==> out[i].seqno < out[j].seqno)
  }

  lemma {:induction false} ClimbingSnoc(out: seq<Obs>, lo: nat, hi: nat, o: Obs, top: nat)
    requires Climbing(out, lo, hi) && if o.Assigned? then top == hi + 1 == o.seqno else top == hi
    ensures Climbing(out + [o], lo, top)
  {
  }

  /** No sequence number is ever issued twice, whatever was deleted in between. */
  lemma {:induction false} NeverReissued(l: Log, ops: seq<Op>)
    ensures Climbing(Observe(l, ops), l.lastSeq, ApplyAll(l, ops).lastSeq)
  {
    if ops != [] {
      var init, last := ops[..|ops| - 1], ops[|ops| - 1];
      NeverReissued(l, init);
      var before := ApplyAll(l, init);
      ClimbingSnoc(Observe(l, init), l.lastSeq, before.lastSeq, Apply(before, last).1, Apply(before, last).0.lastSeq);
    }
  }

  // ---------------------------------------------------------- expiry is unobservable

  /** The simple form: expiry deletes nothing and every read filters by its own clock. */
  function ApplyKeeping(l: Log, op: Op): (r: (Log, Obs)) {
    match op
    case Fetch(page, now) =>
      var out := ReadPage(Living(l.entries, now), page);
      (l, Paged(out.0, out.1))
    case Sweep(now) => (l, Done)
    case _ => Apply(l, op)
  }

  function ApplyAllKeeping(l: Log, ops: seq<Op>): (r: Log) {
    if ops == [] then l else ApplyKeeping(ApplyAllKeeping(l, ops[..|ops| - 1]), ops[|ops| - 1]).0
  }

  function ObserveKeeping(l: Log, ops: seq<Op>): (r: seq<Obs>)
    ensures |r| == |ops|
  {
    if ops == [] then []
    else
      var init := ops[..|ops| - 1];
      ObserveKeeping(l, init) + [ApplyKeeping(ApplyAllKeeping(l, init), ops[|ops| - 1]).1]
  }

  /** The clock reading a request carries, if it has one. */
  function ClockOf(op: Op): (t: Option<nat>) {
    if op.Fetch? || op.Sweep? || op.Count? then Some(op.now) else None
  }

  /** The latest clock reading among requests whose readings never go back, from `start`. */
  function LastClock(start: nat, ops: seq<Op>): (t: nat) {
    if ops == [] then start
    else if ClockOf(ops[|ops| - 1]).Some? then ClockOf(ops[|ops| - 1]).value
    else LastClock(start, ops[..|ops| - 1])
  }

  predicate ClockForward(start: nat, ops: seq<Op>) {
    ops == [] ||
    (ClockForward(start, ops[..|ops| - 1]) &&
     (ClockOf(ops[|ops| - 1]).Some? ==> LastClock(start, ops[..|ops| - 1]) <= ClockOf(ops[|ops| - 1]).value))
  }

  /** Two logs no reader at or after `clock` can tell apart. */
  ghost predicate SameFrom(a: Log, b: Log, clock: nat) {
    a.lastSeq == b.lastSeq && Living(a.entries, clock) == Living(b.entries, clock)
  }

  /** What lives later lives now. */
  lemma {:induction false} LivingLater(es: seq<Entry>, clock: nat, now: nat)
    requires clock <= now
    ensures Living(Living(es, clock), now) == Living(es, now)
  {
    FilterWeaker(Unexpired(clock), Unexpired(now), es);
  }

  lemma {:induction false} SameLater(a: Log, b: Log, clock: nat, now: nat)
    requires SameFrom(a, b, clock) && clock <= now
    ensures SameFrom(a, b, now)
  {
    LivingLater(a.entries, clock, now);
    LivingLater(b.entries, clock, now);
  }

  /** A deletion by any other criterion commutes with expiry. */
  lemma {:induction false} SameUnderFilter(p: Entry -> bool, a: seq<Entry>, b: seq<Entry>, clock: nat)
    requires Living(a, clock) == Living(b, clock)
    ensures Living(Filter(p, a), clock) == Living(Filter(p, b), clock)
  {
    var alive := Unexpired(clock);
    FilterCommutes(alive, p, a);
    FilterCommutes(alive, p, b);
  }

  lemma {:induction false} SameAppend(a: Log, b: Log, clock: nat, author: User, ts: nat, expiresAt: Option<nat>, payload: Bytes)
    requires SameFrom(a, b, clock)
    ensures SameFrom(Add(a, author, ts, expiresAt, payload), Add(b, author, ts, expiresAt, payload), clock)
  {
    var e := Entry(a.lastSeq + 1, ts, expiresAt, payload, author);
    FilterConcat(Unexpired(clock), a.entries, [e]);
    FilterConcat(Unexpired(clock), b.entries, [e]);
  }

  lemma {:induction false} SameCount(a: Log, b: Log, clock: nat, afterTs: nat, exclude: User, now: nat)
    requires SameFrom(a, b, clock) && clock <= now
    ensures CountUnread(a.entries, afterTs, exclude, now) == CountUnread(b.entries, afterTs, exclude, now)
  {
    SameLater(a, b, clock, now);
    FilterWeaker(Unexpired(now), Unread(afterTs, exclude, now), a.entries);
    FilterWeaker(Unexpired(now), Unread(afterTs, exclude, now), b.entries);
  }

  /** One request: the same answer, and logs that stay indistinguishable. */
  lemma {:induction false} SameStep(a: Log, b: Log, clock: nat, op: Op)
    requires SameFrom(a, b, clock) && (ClockOf(op).Some? ==> clock <= ClockOf(op).value)
    ensures Apply(a, op).1 == ApplyKeeping(b, op).1
    ensures SameFrom(Apply(a, op).0, ApplyKeeping(b, op).0, if ClockOf(op).Some? then ClockOf(op).value else clock)
  {
    match op
    case Append(author, ts, expiresAt, payload) => SameAppend(a, b, clock, author, ts, expiresAt, payload);
    case Fetch(page, now) =>
      SameLater(a, b, clock, now);
      LivingLater(a.entries, now, now);
    case Sweep(now) =>
      SameLater(a, b, clock, now);
      LivingLater(a.entries, now, now);
    case Count(afterTs, exclude, now) =>
      SameCount(a, b, clock, afterTs, exclude, now);
      SameLater(a, b, clock, now);
    case RedactEntry(n, caller, admin) => SameUnderFilter(NotRedacted(n, caller, admin), a.entries, b.entries, clock);
    case PruneEntries(ts) => SameUnderFilter(NotBefore(ts), a.entries, b.entries, clock);
  }

  /**
   Deleting expired entries on reads and sweeps is unobservable: while the clock does not go
   back, every page, count and number is that of a log which keeps everything and filters.
   */
  lemma {:induction false} ExpiryUnobservable(l: Log, start: nat, ops: seq<Op>)
    requires ClockForward(start, ops)
    ensures Observe(l, ops) == ObserveKeeping(l, ops)
    ensures SameFrom(ApplyAll(l, ops), ApplyAllKeeping(l, ops), LastClock(start, ops))
  {
    if ops != [] {
      var init := ops[..|ops| - 1];
      ExpiryUnobservable(l, start, init);
      SameStep(ApplyAll(l, init), ApplyAllKeeping(l, init), LastClock(start, init), ops[|ops| - 1]);
    }
  }

  // ------------------------------------------------------------------ pages in detail

  /** A suffix of an ordered sequence: what it leaves out is older than all it holds. */
  lemma {:induction false} SuffixSplits(matching: seq<Entry>, skip: nat)
    requires Ordered(matching) && skip <= |matching|
    ensures Ordered(matching[skip..])
    ensures forall e :: e in matching[skip..] ==> e in matching
    ensures skip < |matching| ==> forall e :: e in matching && matching[skip].seqno <= e.seqno ==> e in matching[skip..]
  {
    var page := matching[skip..];
    if skip < |matching| {
      forall e | e in matching && matching[skip].seqno <= e.seqno ensures e in page {
        var i :| 0 <= i < |matching| && matching[i] == e;
        assert page[i - skip] == e;
      }
    }
  }

  /** A backward page: in order, older than `before`, nothing between it and `before` left out, and full unless it has all there is. */
  lemma {:induction false} BackwardPage(es: seq<Entry>, before: nat, limit: nat)
    requires Ordered(es)
    ensures var page := ReadPage(es, Before(before, limit)).0;
            && |page| <= limit && Ordered(page)
            && (forall e :: e in page ==> e in es && e.seqno < before)
            && (page != [] ==> forall e :: e in es && page[0].seqno <= e.seqno < before ==> e in page)
            && (|page| < limit ==> forall e :: e in es && e.seqno < before ==> e in page)
  {
    FilterOrdered(Older(before), es);
    FilterSubset(Older(before), es);
    var matching := Filter(Older(before), es);
    SuffixSplits(matching, Max(|matching| - limit, 0));
  }

  /** `complete` on a backward page says exactly that nothing older is left. */
  lemma {:induction false} CompleteMeansNothingOlder(es: seq<Entry>, before: nat, limit: nat)
    requires Ordered(es) && limit >= 1
    ensures var (page, complete) := ReadPage(es, Before(before, limit));
            && (complete <==> forall e :: e in es && e.seqno < before ==> e in page)
            && (!complete ==> page != [] && exists e :: e in es && e.seqno < page[0].seqno)
  {
    FilterOrdered(Older(before), es);
    FilterSubset(Older(before), es);
    var matching := Filter(Older(before), es);
    var skip := Max(|matching| - limit, 0);
    if skip > 0 {
      var older := matching[skip - 1];
      assert older in matching && older.seqno < matching[skip].seqno;
      assert older !in matching[skip..];
    }
  }

  lemma {:induction false} PrefixSplits(matching: seq<Entry>, keep: nat)
    requires Ordered(matching) && keep <= |matching|
    ensures Ordered(matching[..keep])
    ensures forall e :: e in matching[..keep] ==> e in matching
    ensures 0 < keep ==> forall e :: e in matching && e.seqno <= matching[keep - 1].seqno ==> e in matching[..keep]
  {
    var page := matching[..keep];
    if 0 < keep {
      forall e | e in matching && e.seqno <= matching[keep - 1].seqno ensures e in page {
        var i :| 0 <= i < |matching| && matching[i] == e;
        assert page[i] == e;
      }
    }
  }

  /** A forward page: in order, newer than `after`, nothing between `after` and its end left out, and full unless it has all there is. */
  lemma {:induction false} ForwardPage(es: seq<Entry>, after: nat, limit: nat)
    requires Ordered(es)
    ensures var page := ReadPage(es, After(after, limit)).0;
            && |page| <= limit && Ordered(page)
            && (forall e :: e in page ==> e in es && e.seqno > after)
            && (page != [] ==> forall e :: e in es && after < e.seqno <= page[|page| - 1].seqno ==> e in page)
            && (|page| < limit ==> forall e :: e in es && e.seqno > after ==> e in page)
  {
    FilterOrdered(Newer(after), es);
    FilterSubset(Newer(after), es);
    var matching := Filter(Newer(after), es);
    PrefixSplits(matching, Min(limit, |matching|));
  }

  /** A forward page is `complete` exactly when it was asked for from the start and is the whole log. */
  lemma {:induction false} ForwardComplete(es: seq<Entry>, after: nat, limit: nat)
    requires forall e :: e in es ==> e.seqno >= 1
    ensures var (page, complete) := ReadPage(es, After(after, limit)); complete <==> after == 0 && page == es
  {
    if after == 0 {
      FilterAll(Newer(after), es);
    }
  }

  /** What a clock stepping back from `now` to `earlier` shows: a sweep at `now` goes unnoticed exactly
      when nothing it dropped was due to live until `earlier`. */
  lemma {:induction false} ClockBackExactly(es: seq<Entry>, now: nat, earlier: nat)
    ensures Living(Living(es, now), earlier) == Living(es, earlier) <==> forall e :: e in es && Alive(e, earlier) ==> Alive(e, now)
  {
    if e :| e in es && Alive(e, earlier) && !Alive(e, now) {
      FilterMembers(Unexpired(now), es, e);
      FilterMembers(Unexpired(earlier), Living(es, now), e);
      FilterMembers(Unexpired(earlier), es, e);
    } else {
      FilterWeaker(Unexpired(now), Unexpired(earlier), es);
    }
  }

  // ------------------------------------------------------------------ the life of an entry

  /** A request that takes an entry down: one whose clock is past its time, a prune past it, or a redaction by its author or an admin. */
  predicate TakesDown(op: Op, e: Entry) {
    match op
    case Fetch(page, now) => e.expiresAt.Some? && e.expiresAt.value < now
    case Sweep(now) => e.expiresAt.Some? && e.expiresAt.value < now
    case PruneEntries(beforeTs) => e.ts < beforeTs
    case RedactEntry(seqno, caller, admin) => e.seqno == seqno && (admin || e.author == caller)
    case _ => false
  }

  /** What an append adds under a number. */
  function Appended(op: Op, seqno: nat): (e: Entry)
    requires op.Append?
  {
    Entry(seqno, op.ts, op.expiresAt, op.payload, op.author)
  }

  /**
   One request, any log: an entry of the log stays exactly unless the request takes it down, nothing appears
   but what an append adds under the next number, at the end, and the others keep their order.
   */
  lemma {:induction false} ApplyExactly(l: Log, op: Op, e: Entry)
    requires Valid(l)
    ensures var l' := Apply(l, op).0;
            && Ordered(l'.entries)
            && (e in l'.entries <==> (e in l.entries && !TakesDown(op, e)) || (op.Append? && e == Appended(op, l.lastSeq + 1)))
            && l'.lastSeq == l.lastSeq + (if op.Append? then 1 else 0)
  {
    ApplyValid(l, op);
    match op
    case Fetch(page, now) => FilterMembers(Unexpired(now), l.entries, e);
    case Sweep(now) => FilterMembers(Unexpired(now), l.entries, e);
    case RedactEntry(n, caller, admin) => FilterMembers(NotRedacted(n, caller, admin), l.entries, e);
    case PruneEntries(ts) => FilterMembers(NotBefore(ts), l.entries, e);
    case _ =>
  }

  /** An entry is gone after a redaction exactly when its number is the one named and the caller is an admin or its author. */
  lemma {:induction false} RedactExactly(l: Log, seqno: nat, caller: User, admin: bool, e: Entry)
    requires Valid(l) && e in l.entries
    ensures e !in Redact(l, seqno, caller, admin).entries <==> e.seqno == seqno && (admin || e.author == caller)
    ensures Ordered(Redact(l, seqno, caller, admin).entries) && Redact(l, seqno, caller, admin).lastSeq == l.lastSeq
  {
    ApplyExactly(l, RedactEntry(seqno, caller, admin), e);
  }

  /** And the answer, whether anything was removed, is whether there was such an entry. */
  lemma {:induction false} RedactAnswers(l: Log, seqno: nat, caller: User, admin: bool)
    ensures |Redact(l, seqno, caller, admin).entries| < |l.entries| <==>
            exists e :: e in l.entries && e.seqno == seqno && (admin || e.author == caller)
  {
    FilterShortens(NotRedacted(seqno, caller, admin), l.entries);
  }

  /** Over any run, an entry once there is still there exactly unless some request took it down. */
  lemma {:induction false} SurvivesExactly(l: Log, ops: seq<Op>, e: Entry)
    requires Valid(l) && e in l.entries
    ensures e in ApplyAll(l, ops).entries <==> forall i :: 0 <= i < |ops| ==> !TakesDown(ops[i], e)
  {
    if ops != [] {
      var init := ops[..|ops| - 1];
      SurvivesExactly(l, init, e);
      RunValid(l, init);
      ApplyExactly(ApplyAll(l, init), ops[|ops| - 1], e);
      assert forall i :: 0 <= i < |init| ==> init[i] == ops[i];
    }
  }

  /** The entry was appended by the `i`th request, under the number it got then. */
  predicate AppendedAt(l: Log, ops: seq<Op>, i: nat, e: Entry) {
    i < |ops| && ops[i].Append? && e == Appended(ops[i], ApplyAll(l, ops[..i]).lastSeq + 1)
  }

  lemma {:induction false} AppendedEarlier(l: Log, ops: seq<Op>, i: nat, e: Entry)
    requires ops != [] && AppendedAt(l, ops[..|ops| - 1], i, e)
    ensures AppendedAt(l, ops, i, e)
  {
    assert ops[..|ops| - 1][..i] == ops[..i];
  }

  /** And whatever is there was there at the start, or was appended in the run as it is. */
  lemma {:induction false} NothingAppears(l: Log, ops: seq<Op>, e: Entry)
    requires Valid(l) && e in ApplyAll(l, ops).entries
    ensures e in l.entries || exists i :: AppendedAt(l, ops, i, e)
  {
    if ops != [] {
      var init := ops[..|ops| - 1];
      RunValid(l, init);
      ApplyExactly(ApplyAll(l, init), ops[|ops| - 1], e);
      if e !in ApplyAll(l, init).entries {
        assert AppendedAt(l, ops, |ops| - 1, e);
      } else {
        NothingAppears(l, init, e);
        if e !in l.entries {
          var i :| AppendedAt(l, init, i, e);
          AppendedEarlier(l, ops, i, e);
        }
      }
    }
  }

  /** The places of the entries an unread count is about: later than a time, by others, and not expired. */
  ghost function UnreadAt(es: seq<Entry>, afterTs: nat, exclude: User, now: nat): (places: set<nat>) {
    set i: nat | i < |es| && es[i].ts > afterTs && es[i].author != exclude && (es[i].expiresAt.None? || now <= es[i].expiresAt.value)
  }

  /** The count is their number. */
  lemma {:induction false} CountExactly(es: seq<Entry>, afterTs: nat, exclude: User, now: nat)
    ensures CountUnread(es, afterTs, exclude, now) == |UnreadAt(es, afterTs, exclude, now)|
  {
    if es == [] {
      assert UnreadAt(es, afterTs, exclude, now) == {};
    } else {
      var n := |es| - 1;
      CountExactly(es[..n], afterTs, exclude, now);
      assert UnreadAt(es, afterTs, exclude, now) ==
             UnreadAt(es[..n], afterTs, exclude, now) + (if Unread(afterTs, exclude, now)(es[n]) then {n} else {});
    }
  }
}
