/**
 The same history log kept in SQL tables (relay/src/pg.rs): rows keyed by sequence number,
 signed 64-bit columns, and pages asked for with `LIMIT n + 1`. The in-memory log is what it refines.
 */
module PgHistory {
  import opened Common
  import opened Seqs
  import opened History
  import opened Sql

  datatype Row = Row(ts: int, expiresAt: Option<int>, payload: Bytes, author: User)

  /** One log's row of `history_counters` and its rows of `history`. */
  datatype Table = Table(counter: nat, rows: map<nat, Row>)

  function ToRow(ts: nat, expiresAt: Option<nat>, payload: Bytes, author: User): (r: Row) {
    Row(AsI64(ts), if expiresAt.Some? then Some(AsI64(expiresAt.value)) else None, payload, author)
  }

  function ToEntry(seqno: nat, r: Row): (e: Entry) {
    Entry(seqno, AsU64(r.ts), if r.expiresAt.Some? then Some(AsU64(r.expiresAt.value)) else None, r.payload, r.author)
  }

  // ------------------------------------------------------------------------ the queries

  function DropExpired(now: int): (nat, Row) -> bool {
    (k: nat, r: Row) => !(r.expiresAt.Some? && r.expiresAt.value < now)
  }
  function KeyAbove(n: int): (nat, Row) -> bool { (k: nat, r: Row) => k > n }
  function KeyBelow(n: int): (nat, Row) -> bool { (k: nat, r: Row) => k < n }
  function CountedRow(afterTs: int, exclude: User, now: int): (nat, Row) -> bool {
    (k: nat, r: Row) => r.ts > afterTs && r.author != exclude && (r.expiresAt.None? || r.expiresAt.value >= now)
  }
  function NotRedactedRow(seqno: int, caller: User, admin: bool): (nat, Row) -> bool {
    (k: nat, r: Row) => !(k == seqno && (admin || r.author == caller))
  }
  function NotBeforeRow(ts: int): (nat, Row) -> bool { (k: nat, r: Row) => !(r.ts < ts) }

  /** A page: one row more than asked for tells whether anything was left out. */
  function QueryPage(t: Table, page: Page): (r: (seq<Entry>, bool)) {
    match page
    case After(after, limit) =>
      var rows := Limit(Ascending(Where(t.rows, KeyAbove(AsI64(after))), ToEntry, t.counter + 1), limit + 1);
      var more := |rows| > limit;
      (Limit(rows, limit), after == 0 && !more)
    case Before(before, limit) =>
      var rows := Limit(Descending(Where(t.rows, KeyBelow(AsI64(before))), ToEntry, t.counter + 1), limit + 1);
      var more := |rows| > limit;
      (Reverse(Limit(rows, limit)), !more)
  }

  function QueryApply(t: Table, op: Op): (r: (Table, Obs)) {
    match op
    case Append(author, ts, expiresAt, payload) =>
      (Table(t.counter + 1, t.rows[t.counter + 1 := ToRow(ts, expiresAt, payload, author)]), Assigned(t.counter + 1))
    case Fetch(page, now) =>
      var t' := t.(rows := Where(t.rows, DropExpired(AsI64(now))));
      var out := QueryPage(t', page);
      (t', Paged(out.0, out.1))
    case Sweep(now) => (t.(rows := Where(t.rows, DropExpired(AsI64(now)))), Done)
    case Count(afterTs, exclude, now) =>
      (t, Counted(|Ascending(Where(t.rows, CountedRow(AsI64(afterTs), exclude, AsI64(now))), ToEntry, t.counter + 1)|))
    case RedactEntry(seqno, caller, admin) => (t.(rows := Where(t.rows, NotRedactedRow(AsI64(seqno), caller, admin))), Done)
    case PruneEntries(beforeTs) => (t.(rows := Where(t.rows, NotBeforeRow(AsI64(beforeTs)))), Done)
  }

  function QueryAll(t: Table, ops: seq<Op>): (r: Table) {
    if ops == [] then t else QueryApply(QueryAll(t, ops[..|ops| - 1]), ops[|ops| - 1]).0
  }

  function QueryObserve(t: Table, ops: seq<Op>): (r: seq<Obs>)
    ensures |r| == |ops|
  {
    if ops == [] then []
    else
      var init := ops[..|ops| - 1];
      QueryObserve(t, init) + [QueryApply(QueryAll(t, init), ops[|ops| - 1]).1]
  }

  // ------------------------------------------------------------------ the log a table holds

  /** Every key was handed out by the counter, and every column survived the cast to signed. */
  ghost predicate Sound(t: Table) {
    t.counter <= I64_MAX && forall k :: k in t.rows ==> SoundRow(t.counter, k, t.rows[k])
  }

  ghost predicate SoundRow(counter: nat, k: nat, r: Row) {
    1 <= k <= counter && 0 <= r.ts <= I64_MAX && (r.expiresAt.Some? ==> 0 <= r.expiresAt.value <= I64_MAX)
  }

  function LogOf(t: Table): (l: Log) { Log(t.counter, Ascending(t.rows, ToEntry, t.counter + 1)) }

  /** A request made of unsigned 64-bit numbers, for a page of at least one. */
  predicate Words(op: Op) {
    match op
    case Append(author, ts, expiresAt, payload) => ts < U64 && (expiresAt.Some? ==> expiresAt.value < U64)
    case Fetch(page, now) => now < U64 && BoundOf(page) < U64 && page.limit >= 1
    case Sweep(now) => now < U64
    case Count(afterTs, exclude, now) => afterTs < U64 && now < U64
    case RedactEntry(seqno, caller, admin) => seqno < U64
    case PruneEntries(beforeTs) => beforeTs < U64
  }

  function BoundOf(page: Page): (n: nat) { if page.After? then page.after else page.before }

  /** A request whose times and bounds fit a signed column. */
  predicate InRange(op: Op) {
    Words(op) &&
    match op
    case Append(author, ts, expiresAt, payload) => ts <= I64_MAX && (expiresAt.Some? ==> expiresAt.value <= I64_MAX)
    case Fetch(page, now) => now <= I64_MAX && BoundOf(page) <= I64_MAX
    case Sweep(now) => now <= I64_MAX
    case Count(afterTs, exclude, now) => afterTs <= I64_MAX && now <= I64_MAX
    case RedactEntry(seqno, caller, admin) => true
    case PruneEntries(beforeTs) => beforeTs <= I64_MAX
  }

  /** A clock past the column makes nothing expire in the tables, and everything that can in memory. */
  ghost predicate ClockFits(rows: map<nat, Row>, now: nat) {
    now <= I64_MAX || forall k :: k in rows ==> rows[k].expiresAt.None?
  }

  /** A count past the column, in either number, takes in rows the in-memory one leaves out: there must be none. */
  ghost predicate CountFits(rows: map<nat, Row>, afterTs: nat, exclude: User, now: nat) {
    forall k :: k in rows && rows[k].author != exclude ==>
      && (afterTs > I64_MAX ==> rows[k].expiresAt.Some? && rows[k].expiresAt.value < AsI64(now))
      && (now > I64_MAX ==> rows[k].ts <= AsI64(afterTs) || rows[k].expiresAt.None?)
  }

  /**
   Whether the stores agree on a request: its numbers fit the columns, or the table holds nothing the
   cast would treat differently — no row to prune or to page, none that expires, none to count.
   */
  ghost predicate Fits(t: Table, op: Op) {
    match op
    case Append(author, ts, expiresAt, payload) => InRange(op)
    case Fetch(page, now) =>
      ClockFits(t.rows, now) && (BoundOf(page) <= I64_MAX || Where(t.rows, DropExpired(AsI64(now))) == map[])
    case Sweep(now) => ClockFits(t.rows, now)
    case Count(afterTs, exclude, now) => CountFits(t.rows, afterTs, exclude, now)
    case RedactEntry(seqno, caller, admin) => true
    case PruneEntries(beforeTs) => beforeTs <= I64_MAX || t.rows == map[]
  }

  /** The order is by sequence number, and every row below `n` is there. */
  lemma {:induction false} AscendingOrdered(rows: map<nat, Row>, n: nat)
    ensures Ordered(Ascending(rows, ToEntry, n))
    ensures forall e :: e in Ascending(rows, ToEntry, n) <==> e.seqno < n && e.seqno in rows && e == ToEntry(e.seqno, rows[e.seqno])
  {
    if n > 0 { AscendingOrdered(rows, n - 1); }
  }

  // ------------------------------------------------------------------------- refinement

  /** The forward query is the in-memory forward page. */
  lemma {:induction false} ForwardQuery(t: Table, after: nat, limit: nat)
    requires after <= I64_MAX
    ensures QueryPage(t, After(after, limit)) == ReadPage(LogOf(t).entries, After(after, limit))
  {
    WhereIsFilter(t.rows, ToEntry, KeyAbove(after), Newer(after), t.counter + 1);
    LimitTwice(Filter(Newer(after), LogOf(t).entries), limit);
  }

  /** The backward query — descending, one row extra, cut and reversed — is the in-memory one. */
  lemma {:induction false} BackwardQuery(t: Table, before: nat, limit: nat)
    requires before <= I64_MAX
    ensures QueryPage(t, Before(before, limit)) == ReadPage(LogOf(t).entries, Before(before, limit))
  {
    WhereIsFilter(t.rows, ToEntry, KeyBelow(before), Older(before), t.counter + 1);
    DescendingIsReversed(Where(t.rows, KeyBelow(before)), ToEntry, t.counter + 1);
    LastOfReversed(Filter(Older(before), LogOf(t).entries), limit);
  }

  lemma {:induction false} AppendRefines(t: Table, author: User, ts: nat, expiresAt: Option<nat>, payload: Bytes)
    requires Sound(t) && t.counter < I64_MAX && InRange(Append(author, ts, expiresAt, payload))
    ensures var t' := QueryApply(t, Append(author, ts, expiresAt, payload)).0;
            Sound(t') && LogOf(t') == Add(LogOf(t), author, ts, expiresAt, payload)
  {
    var k := t.counter + 1;
    var row := ToRow(ts, expiresAt, payload, author);
    AscendingSame(t.rows[k := row], t.rows, ToEntry, k);
    assert ToEntry(k, row) == Entry(k, ts, expiresAt, payload, author);
  }

  /** A deletion that agrees with the in-memory condition keeps exactly the same entries. */
  lemma {:induction false} DeleteRefines(t: Table, p: (nat, Row) -> bool, q: Entry -> bool)
    requires Sound(t) && Agree(t.rows, ToEntry, p, q)
    ensures var t' := t.(rows := Where(t.rows, p));
            Sound(t') && LogOf(t') == LogOf(t).(entries := Filter(q, LogOf(t).entries))
  {
    WhereIsFilter(t.rows, ToEntry, p, q, t.counter + 1);
  }

  lemma {:induction false} SweepRefines(t: Table, now: nat)
    requires Sound(t) && now < U64 && ClockFits(t.rows, now)
    ensures var t' := t.(rows := Where(t.rows, DropExpired(AsI64(now)))); Sound(t') && LogOf(t') == Purge(LogOf(t), now)
  {
    DeleteRefines(t, DropExpired(AsI64(now)), Unexpired(now));
  }

  lemma {:induction false} NoRows(t: Table)
    requires t.rows == map[]
    ensures LogOf(t).entries == []
  {
    AscendingEmpty(t.rows, ToEntry, t.counter + 1);
  }

  lemma {:induction false} EmptyAfter(t: Table, after: nat, limit: nat)
    requires t.rows == map[]
    ensures QueryPage(t, After(after, limit)) == ([], after == 0)
  {
    var rows := Where(t.rows, KeyAbove(AsI64(after)));
    assert Ascending(rows, ToEntry, t.counter + 1) == [] by { AscendingEmpty(rows, ToEntry, t.counter + 1); }
  }

  lemma {:induction false} EmptyBefore(t: Table, before: nat, limit: nat)
    requires t.rows == map[]
    ensures QueryPage(t, Before(before, limit)) == ([], true)
  {
    var rows := Where(t.rows, KeyBelow(AsI64(before)));
    assert Descending(rows, ToEntry, t.counter + 1) == [] by {
      AscendingEmpty(rows, ToEntry, t.counter + 1);
      DescendingIsReversed(rows, ToEntry, t.counter + 1);
    }
  }

  /** An empty log answers every page alike. */
  lemma {:induction false} EmptyPage(t: Table, page: Page)
    requires t.rows == map[]
    ensures QueryPage(t, page) == ReadPage(LogOf(t).entries, page)
  {
    NoRows(t);
    match page
    case After(after, limit) => EmptyAfter(t, after, limit);
    case Before(before, limit) => EmptyBefore(t, before, limit);
  }

  lemma {:induction false} FetchRefines(t: Table, page: Page, now: nat)
    requires Sound(t) && Words(Fetch(page, now)) && Fits(t, Fetch(page, now))
    ensures var r := QueryApply(t, Fetch(page, now));
            Sound(r.0) && LogOf(r.0) == Purge(LogOf(t), now) && r.1 == Apply(LogOf(t), Fetch(page, now)).1
  {
    SweepRefines(t, now);
    var t' := t.(rows := Where(t.rows, DropExpired(AsI64(now))));
    if t'.rows == map[] {
      EmptyPage(t', page);
    } else {
      match page
      case After(after, limit) => ForwardQuery(t', after, limit);
      case Before(before, limit) => BackwardQuery(t', before, limit);
    }
  }

  lemma {:induction false} PruneRefines(t: Table, ts: nat)
    requires Sound(t) && ts < U64 && Fits(t, PruneEntries(ts))
    ensures var t' := QueryApply(t, PruneEntries(ts)).0; Sound(t') && LogOf(t') == Prune(LogOf(t), ts)
  {
    DeleteRefines(t, NotBeforeRow(AsI64(ts)), NotBefore(ts));
  }

  lemma {:induction false} CountRefines(t: Table, afterTs: nat, exclude: User, now: nat)
    requires Sound(t) && Words(Count(afterTs, exclude, now)) && Fits(t, Count(afterTs, exclude, now))
    ensures QueryApply(t, Count(afterTs, exclude, now)).1 == Apply(LogOf(t), Count(afterTs, exclude, now)).1
  {
    WhereIsFilter(t.rows, ToEntry, CountedRow(AsI64(afterTs), exclude, AsI64(now)), Unread(afterTs, exclude, now), t.counter + 1);
  }

  /** Each request: the same answer, and the table still holds the in-memory log. */
  lemma {:induction false} QueryRefines(t: Table, op: Op)
    requires Sound(t) && Words(op) && Fits(t, op) && (op.Append? ==> t.counter < I64_MAX)
    ensures Sound(QueryApply(t, op).0)
    ensures LogOf(QueryApply(t, op).0) == Apply(LogOf(t), op).0
    ensures QueryApply(t, op).1 == Apply(LogOf(t), op).1
  {
    match op
    case Append(author, ts, expiresAt, payload) => AppendRefines(t, author, ts, expiresAt, payload);
    case Fetch(page, now) => FetchRefines(t, page, now);
    case Sweep(now) => SweepRefines(t, now);
    case Count(afterTs, exclude, now) => CountRefines(t, afterTs, exclude, now);
    case RedactEntry(n, caller, admin) =>
      DeleteRefines(t, NotRedactedRow(AsI64(n), caller, admin), NotRedacted(n, caller, admin));
    case PruneEntries(ts) => PruneRefines(t, ts);
  }

  /** Every request of a run fits the table it meets. */
  ghost predicate AllFit(t: Table, ops: seq<Op>) {
    ops == [] ||
    (AllFit(t, ops[..|ops| - 1]) && Words(ops[|ops| - 1]) && Fits(QueryAll(t, ops[..|ops| - 1]), ops[|ops| - 1]))
  }

  /** Over whole runs the tables and the in-memory log cannot be told apart. */
  lemma {:induction false} TablesRefineMemory(t: Table, ops: seq<Op>)
    requires Sound(t) && AllFit(t, ops) && ApplyAll(LogOf(t), ops).lastSeq <= I64_MAX
    ensures Sound(QueryAll(t, ops)) && LogOf(QueryAll(t, ops)) == ApplyAll(LogOf(t), ops)
    ensures QueryObserve(t, ops) == Observe(LogOf(t), ops)
  {
    if ops != [] {
      var init, last := ops[..|ops| - 1], ops[|ops| - 1];
      TablesRefineMemory(t, init);
      QueryRefines(QueryAll(t, init), last);
    }
  }

  ghost predicate AllInRange(ops: seq<Op>) { forall i :: 0 <= i < |ops| ==> InRange(ops[i]) }

  /** What is in range fits every table. */
  lemma {:induction false} InRangeFits(t: Table, op: Op)
    requires InRange(op)
    ensures Fits(t, op)
  {
  }

  lemma {:induction false} FitsThenInRange(t: Table, op: Op, more: seq<Op>)
    requires Words(op) && Fits(t, op) && AllInRange(more)
    ensures AllFit(t, [op] + more)
  {
    var ops := [op] + more;
    if more == [] {
      var init := ops[..|ops| - 1];
      assert init == [] && AllFit(t, init) && QueryAll(t, init) == t && ops[|ops| - 1] == op;
    } else {
      FitsThenInRange(t, op, more[..|more| - 1]);
      assert ops[..|ops| - 1] == [op] + more[..|more| - 1] && ops[|ops| - 1] == more[|more| - 1];
      InRangeFits(QueryAll(t, ops[..|ops| - 1]), more[|more| - 1]);
    }
  }

  // ------------------------------------------------------- what the signed columns cost

  ghost predicate SameAnswers(t: Table, ops: seq<Op>) { QueryObserve(t, ops) == Observe(LogOf(t), ops) }

  /** After `op`, no requests that fit the columns tell the tables from the in-memory log. */
  ghost predicate Indistinguishable(t: Table, op: Op) {
    forall more :: AllInRange(more) && ApplyAll(LogOf(t), [op] + more).lastSeq <= I64_MAX ==> SameAnswers(t, [op] + more)
  }

  lemma {:induction false} Snoc(t: Table, ops: seq<Op>, op: Op)
    ensures QueryAll(t, ops + [op]) == QueryApply(QueryAll(t, ops), op).0
    ensures QueryObserve(t, ops + [op]) == QueryObserve(t, ops) + [QueryApply(QueryAll(t, ops), op).1]
    ensures ApplyAll(LogOf(t), ops + [op]) == Apply(ApplyAll(LogOf(t), ops), op).0
    ensures Observe(LogOf(t), ops + [op]) == Observe(LogOf(t), ops) + [Apply(ApplyAll(LogOf(t), ops), op).1]
  {
    assert (ops + [op])[..|ops + [op]| - 1] == ops;
  }

  /** The last of three answers. */
  lemma {:induction false} ThirdAnswer(t: Table, a: Op, b: Op, c: Op)
    ensures QueryObserve(t, [a, b, c])[2] == QueryApply(QueryApply(QueryApply(t, a).0, b).0, c).1
    ensures Observe(LogOf(t), [a, b, c])[2] == Apply(Apply(Apply(LogOf(t), a).0, b).0, c).1
    ensures ApplyAll(LogOf(t), [a, b, c]) == Apply(Apply(Apply(LogOf(t), a).0, b).0, c).0
  {
    Snoc(t, [], a);
    Snoc(t, [a], b);
    Snoc(t, [a, b], c);
    assert [] + [a] == [a] && [a] + [b] == [a, b] && [a, b] + [c] == [a, b, c];
  }

  lemma {:induction false} ThenTellsApart(t: Table, op: Op, more: seq<Op>)
    requires AllInRange(more) && !SameAnswers(t, [op] + more) && ApplyAll(LogOf(t), [op] + more).lastSeq <= I64_MAX
    ensures !Indistinguishable(t, op)
  {
  }

  /** In memory an entry appended outside the range is still there for a reader. */
  lemma {:induction false} MemoryKeeps(l: Log, author: User, ts: nat, expiresAt: Option<nat>, payload: Bytes)
    ensures var l1 := Prune(Add(l, author, ts, expiresAt, payload), 0);
            var out := Apply(l1, Fetch(After(l.lastSeq, 1), 0)).1;
            out.Paged? && out.entries != []
  {
    var e := Entry(l.lastSeq + 1, ts, expiresAt, payload, author);
    var es := l.entries + [e];
    FilterMembers(NotBefore(0), es, e);
    var l1 := Prune(Add(l, author, ts, expiresAt, payload), 0);
    FilterMembers(Unexpired(0), l1.entries, e);
    FilterMembers(Newer(l.lastSeq), Purge(l1, 0).entries, e);
  }

  /** In the tables the cast makes it look long past, and the next read deletes it. */
  lemma {:induction false} TableLoses(t: Table, author: User, ts: nat, expiresAt: Option<nat>, payload: Bytes)
    requires Sound(t)
    requires I64_MAX < ts < U64 || (expiresAt.Some? && I64_MAX < expiresAt.value < U64)
    ensures var t1 := QueryApply(QueryApply(t, Append(author, ts, expiresAt, payload)).0, PruneEntries(0)).0;
            forall k :: k in Where(t1.rows, DropExpired(0)) ==> k <= t.counter
  {
    var row := ToRow(ts, expiresAt, payload, author);
    assert row.ts < 0 || (row.expiresAt.Some? && row.expiresAt.value < 0);
  }

  lemma {:induction false} NothingAbove(t: Table, after: nat)
    requires after <= I64_MAX && forall k :: k in t.rows ==> k <= after
    ensures QueryPage(t, After(after, 1)).0 == []
  {
    AscendingEmpty(Where(t.rows, KeyAbove(after)), ToEntry, t.counter + 1);
  }

  lemma {:induction false} TableForgets(t: Table, author: User, ts: nat, expiresAt: Option<nat>, payload: Bytes)
    requires Sound(t)
    requires I64_MAX < ts < U64 || (expiresAt.Some? && I64_MAX < expiresAt.value < U64)
    ensures var t1 := QueryApply(QueryApply(t, Append(author, ts, expiresAt, payload)).0, PruneEntries(0)).0;
            var out := QueryApply(t1, Fetch(After(t.counter, 1), 0)).1;
            out.Paged? && out.entries == []
  {
    TableLoses(t, author, ts, expiresAt, payload);
    var t1 := QueryApply(QueryApply(t, Append(author, ts, expiresAt, payload)).0, PruneEntries(0)).0;
    NothingAbove(t1.(rows := Where(t1.rows, DropExpired(0))), t.counter);
  }

  /** Prune nothing, then ask for what came after. */
  function Probe(n: nat): (ops: seq<Op>) { [PruneEntries(0), Fetch(After(n, 1), 0)] }

  lemma {:induction false} MemoryAnswers(t: Table, op: Op)
    requires op.Append?
    ensures var out := Observe(LogOf(t), [op] + Probe(t.counter)); out[2].Paged? && out[2].entries != []
    ensures ApplyAll(LogOf(t), [op] + Probe(t.counter)).lastSeq == t.counter + 1
  {
    assert [op] + Probe(t.counter) == [op, PruneEntries(0), Fetch(After(t.counter, 1), 0)];
    ThirdAnswer(t, op, PruneEntries(0), Fetch(After(t.counter, 1), 0));
    MemoryKeeps(LogOf(t), op.author, op.ts, op.expiresAt, op.payload);
  }

  lemma {:induction false} TableAnswers(t: Table, op: Op)
    requires Sound(t) && op.Append?
    requires I64_MAX < op.ts < U64 || (op.expiresAt.Some? && I64_MAX < op.expiresAt.value < U64)
    ensures var out := QueryObserve(t, [op] + Probe(t.counter)); out[2].Paged? && out[2].entries == []
  {
    assert [op] + Probe(t.counter) == [op, PruneEntries(0), Fetch(After(t.counter, 1), 0)];
    ThirdAnswer(t, op, PruneEntries(0), Fetch(After(t.counter, 1), 0));
    TableForgets(t, op.author, op.ts, op.expiresAt, op.payload);
  }

  /** A message one store serves and the other silently deletes. */
  lemma {:induction false} AppendTellsApart(t: Table, op: Op)
    requires Sound(t) && t.counter < I64_MAX && op.Append? && Words(op) && !InRange(op)
    ensures !Indistinguishable(t, op)
  {
    assert !SameAnswers(t, [op] + Probe(t.counter)) && ApplyAll(LogOf(t), [op] + Probe(t.counter)).lastSeq <= I64_MAX by {
      MemoryAnswers(t, op);
      TableAnswers(t, op);
    }
    assert AllInRange(Probe(t.counter));
    ThenTellsApart(t, op, Probe(t.counter));
  }

  // ------------------------------------------------------ logs that differ, answers that differ

  lemma {:induction false} FirstAnswer(t: Table, op: Op)
    ensures QueryObserve(t, [op] + [])[0] == QueryApply(t, op).1 && Observe(LogOf(t), [op] + [])[0] == Apply(LogOf(t), op).1
    ensures ApplyAll(LogOf(t), [op] + []) == Apply(LogOf(t), op).0
  {
    Snoc(t, [], op);
    assert [] + [op] == [op] + [];
  }

  lemma {:induction false} AnswerTellsApart(t: Table, op: Op)
    requires QueryApply(t, op).1 != Apply(LogOf(t), op).1 && Apply(LogOf(t), op).0.lastSeq <= I64_MAX
    ensures !Indistinguishable(t, op)
  {
    FirstAnswer(t, op);
    var more: seq<Op> := [];
    assert AllInRange(more) && !SameAnswers(t, [op] + more);
  }

  /** The whole log, as a reader at time zero sees it. */
  function Whole(n: nat): (op: Op) { Fetch(After(0, n + 1), 0) }

  lemma {:induction false} WholeShows(l: Log, n: nat)
    requires |l.entries| <= n && forall e :: e in l.entries ==> e.seqno >= 1
    ensures Apply(l, Whole(n)).1 == Paged(l.entries, true)
  {
    var es := l.entries;
    assert Living(es, 0) == es by { FilterAll(Unexpired(0), es); }
    assert Filter(Newer(0), es) == es by { FilterAll(Newer(0), es); }
    assert es[..Min(n + 1, |es|)] == es;
  }

  lemma {:induction false} SecondAnswer(t: Table, a: Op, b: Op)
    ensures QueryObserve(t, [a] + [b])[1] == QueryApply(QueryApply(t, a).0, b).1
    ensures Observe(LogOf(t), [a] + [b])[1] == Apply(Apply(LogOf(t), a).0, b).1
    ensures ApplyAll(LogOf(t), [a] + [b]) == Apply(Apply(LogOf(t), a).0, b).0
  {
    Snoc(t, [], a);
    Snoc(t, [a], b);
    assert [] + [a] == [a];
  }

  lemma {:induction false} Numbered(t: Table)
    requires Sound(t)
    ensures forall e :: e in LogOf(t).entries ==> 1 <= e.seqno <= t.counter
  {
    AscendingOrdered(t.rows, t.counter + 1);
  }

  lemma {:induction false} TableShows(t: Table, n: nat)
    requires Sound(t) && |LogOf(t).entries| <= n
    ensures QueryApply(t, Whole(n)).1 == Paged(LogOf(t).entries, true)
  {
    Numbered(t);
    QueryRefines(t, Whole(n));
    WholeShows(LogOf(t), n);
  }

  lemma {:induction false} ShownHere(t: Table, op: Op, n: nat)
    requires Sound(QueryApply(t, op).0) && |LogOf(QueryApply(t, op).0).entries| <= n
    ensures QueryObserve(t, [op] + [Whole(n)])[1] == Paged(LogOf(QueryApply(t, op).0).entries, true)
  {
    SecondAnswer(t, op, Whole(n));
    TableShows(QueryApply(t, op).0, n);
  }

  lemma {:induction false} ShownThere(t: Table, op: Op, n: nat)
    requires var l := Apply(LogOf(t), op).0; |l.entries| <= n && forall e :: e in l.entries ==> e.seqno >= 1
    ensures var l := Apply(LogOf(t), op).0;
            Observe(LogOf(t), [op] + [Whole(n)])[1] == Paged(l.entries, true) && ApplyAll(LogOf(t), [op] + [Whole(n)]).lastSeq == l.lastSeq
  {
    SecondAnswer(t, op, Whole(n));
    WholeShows(Apply(LogOf(t), op).0, n);
  }

  /** If a request leaves the two logs different, reading them shows it. */
  lemma {:induction false} StateTellsApart(t: Table, op: Op, t': Table, l': Log)
    requires t' == QueryApply(t, op).0 && l' == Apply(LogOf(t), op).0
    requires Sound(t') && l'.lastSeq == t'.counter && (forall e :: e in l'.entries ==> e.seqno >= 1)
    requires LogOf(t').entries != l'.entries
    ensures !Indistinguishable(t, op)
  {
    var n := |LogOf(t').entries| + |l'.entries|;
    var ops := [op] + [Whole(n)];
    assert !SameAnswers(t, ops) && ApplyAll(LogOf(t), ops).lastSeq <= I64_MAX by {
      ShownHere(t, op, n);
      ShownThere(t, op, n);
    }
    assert AllInRange([Whole(n)]);
    ThenTellsApart(t, op, [Whole(n)]);
  }

  /** A row the tables keep and the in-memory log drops. */
  lemma {:induction false} KeptHereDroppedThere(t: Table, p: (nat, Row) -> bool, q: Entry -> bool, k: nat)
    requires Sound(t) && k in t.rows && p(k, t.rows[k]) && !q(ToEntry(k, t.rows[k]))
    ensures var t' := t.(rows := Where(t.rows, p));
            Sound(t') && LogOf(t').entries != Filter(q, LogOf(t).entries) && forall e :: e in Filter(q, LogOf(t).entries) ==> e.seqno >= 1
  {
    var e := ToEntry(k, t.rows[k]);
    AscendingOrdered(Where(t.rows, p), t.counter + 1);
    FilterMembers(q, LogOf(t).entries, e);
    Numbered(t);
    FilterSubset(q, LogOf(t).entries);
  }

  lemma {:induction false} ClockTellsApart(t: Table, op: Op)
    requires Sound(t) && Words(op) && (op.Sweep? || op.Fetch?) && !ClockFits(t.rows, op.now)
    ensures !Indistinguishable(t, op)
  {
    var k :| k in t.rows && t.rows[k].expiresAt.Some?;
    KeptHereDroppedThere(t, DropExpired(AsI64(op.now)), Unexpired(op.now), k);
    StateTellsApart(t, op, QueryApply(t, op).0, Apply(LogOf(t), op).0);
  }

  lemma {:induction false} PruneTellsApart(t: Table, ts: nat)
    requires Sound(t) && I64_MAX < ts < U64 && t.rows != map[]
    ensures !Indistinguishable(t, PruneEntries(ts))
  {
    var k :| k in t.rows;
    KeptHereDroppedThere(t, NotBeforeRow(AsI64(ts)), NotBefore(ts), k);
    StateTellsApart(t, PruneEntries(ts), QueryApply(t, PruneEntries(ts)).0, Prune(LogOf(t), ts));
  }

  lemma {:induction false} FilterFewer(p: Entry -> bool, q: Entry -> bool, es: seq<Entry>)
    requires forall e :: e in es && p(e) ==> q(e)
    ensures |Filter(p, es)| <= |Filter(q, es)|
    ensures (exists e :: e in es && q(e) && !p(e)) ==> |Filter(p, es)| < |Filter(q, es)|
  {
    if es != [] {
      FilterFewer(p, q, es[..|es| - 1]);
      assert es == es[..|es| - 1] + [es[|es| - 1]];
    }
  }

  /** The rows a count takes in, as a condition on entries. */
  function CountedEntry(afterTs: int, exclude: User, now: int): Entry -> bool {
    (e: Entry) => e.ts > afterTs && e.author != exclude && (e.expiresAt.None? || e.expiresAt.value >= now)
  }

  /** A row of another's that the cast counts and the number itself does not. */
  predicate Miscounted(r: Row, afterTs: nat, exclude: User, now: nat) {
    r.author != exclude &&
    ((afterTs > I64_MAX && !(r.expiresAt.Some? && r.expiresAt.value < AsI64(now))) ||
     (now > I64_MAX && r.ts > AsI64(afterTs) && r.expiresAt.Some?))
  }

  lemma {:induction false} SoundEntries(t: Table, e: Entry)
    requires Sound(t) && e in LogOf(t).entries
    ensures e.seqno in t.rows && e == ToEntry(e.seqno, t.rows[e.seqno])
    ensures 1 <= e.seqno <= t.counter && e.ts <= I64_MAX && (e.expiresAt.Some? ==> e.expiresAt.value <= I64_MAX)
  {
    AscendingOrdered(t.rows, t.counter + 1);
  }

  /** Whatever the number itself counts, the cast does too. */
  lemma {:induction false} CastCountsMore(e: Entry, afterTs: nat, exclude: User, now: nat)
    requires e.ts <= I64_MAX && (e.expiresAt.Some? ==> e.expiresAt.value <= I64_MAX) && afterTs < U64 && now < U64
    requires Unread(afterTs, exclude, now)(e)
    ensures CountedEntry(AsI64(afterTs), exclude, AsI64(now))(e)
  {
  }

  lemma {:induction false} MiscountedShows(k: nat, r: Row, afterTs: nat, exclude: User, now: nat)
    requires SoundRow(k, k, r) && Miscounted(r, afterTs, exclude, now) && afterTs < U64 && now < U64
    ensures CountedEntry(AsI64(afterTs), exclude, AsI64(now))(ToEntry(k, r)) && !Unread(afterTs, exclude, now)(ToEntry(k, r))
  {
  }

  lemma {:induction false} CountsDiffer(t: Table, afterTs: nat, exclude: User, now: nat)
    requires Sound(t) && afterTs < U64 && now < U64 && !CountFits(t.rows, afterTs, exclude, now)
    ensures CountUnread(LogOf(t).entries, afterTs, exclude, now) <
            |Filter(CountedEntry(AsI64(afterTs), exclude, AsI64(now)), LogOf(t).entries)|
  {
    var here, there, es := CountedEntry(AsI64(afterTs), exclude, AsI64(now)), Unread(afterTs, exclude, now), LogOf(t).entries;
    var k :| k in t.rows && Miscounted(t.rows[k], afterTs, exclude, now);
    MiscountedShows(k, t.rows[k], afterTs, exclude, now);
    assert ToEntry(k, t.rows[k]) in es by { AscendingOrdered(t.rows, t.counter + 1); }
    forall e | e in es && there(e) ensures here(e) {
      SoundEntries(t, e);
      CastCountsMore(e, afterTs, exclude, now);
    }
    FilterFewer(there, here, es);
  }

  lemma {:induction false} CountTellsApart(t: Table, afterTs: nat, exclude: User, now: nat)
    requires Sound(t) && Words(Count(afterTs, exclude, now)) && !CountFits(t.rows, afterTs, exclude, now)
    ensures !Indistinguishable(t, Count(afterTs, exclude, now))
  {
    CountsDiffer(t, afterTs, exclude, now);
    WhereIsFilter(t.rows, ToEntry, CountedRow(AsI64(afterTs), exclude, AsI64(now)),
                  CountedEntry(AsI64(afterTs), exclude, AsI64(now)), t.counter + 1);
    AnswerTellsApart(t, Count(afterTs, exclude, now));
  }

  lemma {:induction false} SomeEntry(t: Table)
    requires Sound(t) && t.rows != map[]
    ensures LogOf(t).entries != []
  {
    var k :| k in t.rows;
    AscendingOrdered(t.rows, t.counter + 1);
    assert ToEntry(k, t.rows[k]) in LogOf(t).entries;
  }

  /** A bound past the column turns a forward page into the start of the log ... */
  lemma {:induction false} ForwardApart(t: Table, after: nat, limit: nat)
    requires Sound(t) && t.rows != map[] && I64_MAX < after < U64 && limit >= 1
    ensures QueryPage(t, After(after, limit)).0 != [] && ReadPage(LogOf(t).entries, After(after, limit)).0 == []
  {
    SomeEntry(t);
    Numbered(t);
    FilterNone(Newer(after), LogOf(t).entries);
    assert Where(t.rows, KeyAbove(AsI64(after))) == t.rows;
  }

  /** ... and a backward one into nothing. */
  lemma {:induction false} BackwardApart(t: Table, before: nat, limit: nat)
    requires Sound(t) && t.rows != map[] && I64_MAX < before < U64 && limit >= 1
    ensures QueryPage(t, Before(before, limit)).0 == [] && ReadPage(LogOf(t).entries, Before(before, limit)).0 != []
  {
    SomeEntry(t);
    Numbered(t);
    FilterAll(Older(before), LogOf(t).entries);
    NothingBelow(t, before, limit);
  }

  lemma {:induction false} NothingBelow(t: Table, before: nat, limit: nat)
    requires I64_MAX < before < U64
    ensures QueryPage(t, Before(before, limit)).0 == []
  {
    var rows := Where(t.rows, KeyBelow(AsI64(before)));
    assert Descending(rows, ToEntry, t.counter + 1) == [] by {
      AscendingEmpty(rows, ToEntry, t.counter + 1);
      DescendingIsReversed(rows, ToEntry, t.counter + 1);
    }
  }

  lemma {:induction false} PageTellsApart(t: Table, page: Page, now: nat)
    requires Sound(t) && Words(Fetch(page, now)) && ClockFits(t.rows, now)
    requires BoundOf(page) > I64_MAX && Where(t.rows, DropExpired(AsI64(now))) != map[]
    ensures !Indistinguishable(t, Fetch(page, now))
  {
    SweepRefines(t, now);
    var t' := t.(rows := Where(t.rows, DropExpired(AsI64(now))));
    match page {
      case After(after, limit) => ForwardApart(t', after, limit);
      case Before(before, limit) => BackwardApart(t', before, limit);
    }
    AnswerTellsApart(t, Fetch(page, now));
  }

  /**
   Exactly on which requests the two stores agree for good, for every table that holds no cast number
   and every request: an append whose timestamp and expiry fit a signed column; a prune, page, sweep or
   count whose numbers fit it, or that meets no row the cast would treat differently; and any redaction.
   A client chooses the numbers of an append, a prune and a count, and the relay passes them on as they are.
   */
  lemma {:induction false} AgreesExactly(t: Table, op: Op)
    requires Sound(t) && Words(op) && (op.Append? ==> t.counter < I64_MAX)
    ensures Indistinguishable(t, op) <==> Fits(t, op)
  {
    if Fits(t, op) {
      forall more | AllInRange(more) && ApplyAll(LogOf(t), [op] + more).lastSeq <= I64_MAX
        ensures SameAnswers(t, [op] + more)
      {
        FitsThenInRange(t, op, more);
        TablesRefineMemory(t, [op] + more);
      }
    } else {
      match op
      case Append(author, ts, expiresAt, payload) => AppendTellsApart(t, op);
      case Fetch(page, now) => if ClockFits(t.rows, now) { PageTellsApart(t, page, now); } else { ClockTellsApart(t, op); }
      case Sweep(now) => ClockTellsApart(t, op);
      case Count(afterTs, exclude, now) => CountTellsApart(t, afterTs, exclude, now);
      case PruneEntries(ts) => PruneTellsApart(t, ts);
    }
  }

  // --------------------------------------------------------- tables that hold a cast number

  /** Any table the store can hold: keys the counter handed out, and signed columns. */
  ghost predicate Stored(t: Table) {
    t.counter <= I64_MAX &&
    forall k :: k in t.rows ==>
      && 1 <= k <= t.counter && t.rows[k].ts <= I64_MAX && (t.rows[k].expiresAt.Some? ==> t.rows[k].expiresAt.value <= I64_MAX)
  }

  /** A number that did not survive the cast. */
  predicate Cast(r: Row) { r.ts < 0 || (r.expiresAt.Some? && r.expiresAt.value < 0) }

  lemma {:induction false} FirstNewer(es: seq<Entry>, e: Entry)
    requires Ordered(es) && e in es && e.seqno >= 1
    ensures var later := Filter(Newer(e.seqno - 1), es); later != [] && later[0].seqno == e.seqno
  {
    var later := Filter(Newer(e.seqno - 1), es);
    FilterMembers(Newer(e.seqno - 1), es, e);
    FilterMembers(Newer(e.seqno - 1), es, later[0]);
    FilterOrdered(Newer(e.seqno - 1), es);
    var i :| 0 <= i < |later| && later[i] == e;
  }

  /** In memory the entry is the first one after its predecessor's number, and nothing prunes or expires it at time zero. */
  lemma {:induction false} MemoryServes(l: Log, e: Entry)
    requires Ordered(l.entries) && e in l.entries && e.seqno >= 1
    ensures var (l', out) := Apply(Apply(l, PruneEntries(0)).0, Fetch(After(e.seqno - 1, 1), 0));
            l'.lastSeq == l.lastSeq && out.Paged? && |out.entries| == 1 && out.entries[0].seqno == e.seqno
  {
    PruneZero(l);
    PurgeZero(l);
    FirstNewer(l.entries, e);
  }

  lemma {:induction false} PruneZero(l: Log)
    ensures Apply(l, PruneEntries(0)).0 == l
  {
    FilterAll(NotBefore(0), l.entries);
  }

  lemma {:induction false} PurgeZero(l: Log)
    ensures Purge(l, 0) == l
  {
    FilterAll(Unexpired(0), l.entries);
  }

  lemma {:induction false} NoSuchEntry(t: Table, k: nat)
    requires k !in t.rows && 1 <= k <= I64_MAX
    ensures forall e :: e in QueryPage(t, After(k - 1, 1)).0 ==> e.seqno != k
  {
    var es := LogOf(t).entries;
    assert forall e :: e in es ==> e.seqno != k by { AscendingOrdered(t.rows, t.counter + 1); }
    ForwardQuery(t, k - 1, 1);
    forall e | e in QueryPage(t, After(k - 1, 1)).0 ensures e.seqno != k { FilterMembers(Newer(k - 1), es, e); }
  }

  /** The tables lose the row to the same two requests. */
  lemma {:induction false} TableDrops(t: Table, k: nat)
    requires Stored(t) && k in t.rows && Cast(t.rows[k])
    ensures var out := QueryApply(QueryApply(t, PruneEntries(0)).0, Fetch(After(k - 1, 1), 0)).1;
            out.Paged? && forall e :: e in out.entries ==> e.seqno != k
  {
    var t1 := QueryApply(t, PruneEntries(0)).0;
    NoSuchEntry(t1.(rows := Where(t1.rows, DropExpired(0))), k);
  }

  lemma {:induction false} RowIsEntry(t: Table, k: nat)
    requires Stored(t) && k in t.rows
    ensures Ordered(LogOf(t).entries) && ToEntry(k, t.rows[k]) in LogOf(t).entries
  {
    AscendingOrdered(t.rows, t.counter + 1);
  }

  lemma {:induction false} CastServed(t: Table, k: nat)
    requires Stored(t) && k in t.rows
    ensures var out := Observe(LogOf(t), [PruneEntries(0)] + [Fetch(After(k - 1, 1), 0)])[1];
            out.Paged? && |out.entries| == 1 && out.entries[0].seqno == k
    ensures ApplyAll(LogOf(t), [PruneEntries(0)] + [Fetch(After(k - 1, 1), 0)]).lastSeq == t.counter
  {
    RowIsEntry(t, k);
    MemoryServes(LogOf(t), ToEntry(k, t.rows[k]));
    SecondAnswer(t, PruneEntries(0), Fetch(After(k - 1, 1), 0));
  }

  lemma {:induction false} CastDropped(t: Table, k: nat)
    requires Stored(t) && k in t.rows && Cast(t.rows[k])
    ensures var out := QueryObserve(t, [PruneEntries(0)] + [Fetch(After(k - 1, 1), 0)])[1];
            out.Paged? && forall e :: e in out.entries ==> e.seqno != k
  {
    SecondAnswer(t, PruneEntries(0), Fetch(After(k - 1, 1), 0));
    TableDrops(t, k);
  }

  lemma {:induction false} CastTellsApart(t: Table, k: nat)
    requires Stored(t) && k in t.rows && Cast(t.rows[k])
    ensures !SameAnswers(t, Probe(k - 1)) && AllInRange(Probe(k - 1)) && ApplyAll(LogOf(t), Probe(k - 1)).lastSeq == t.counter
  {
    assert Probe(k - 1) == [PruneEntries(0)] + [Fetch(After(k - 1, 1), 0)];
    CastServed(t, k);
    CastDropped(t, k);
  }

  lemma {:induction false} AllInRangeFit(t: Table, ops: seq<Op>)
    requires AllInRange(ops)
    ensures AllFit(t, ops)
  {
    if ops != [] {
      AllInRangeFit(t, ops[..|ops| - 1]);
      InRangeFits(QueryAll(t, ops[..|ops| - 1]), ops[|ops| - 1]);
    }
  }

  /** For every table: requests that fit the columns never tell it from the in-memory log exactly when it holds no cast number. */
  lemma {:induction false} TableAgreesExactly(t: Table)
    requires Stored(t)
    ensures (forall ops :: AllInRange(ops) && ApplyAll(LogOf(t), ops).lastSeq <= I64_MAX ==> SameAnswers(t, ops)) <==>
            (forall k :: k in t.rows ==> !Cast(t.rows[k]))
  {
    if k :| k in t.rows && Cast(t.rows[k]) {
      CastTellsApart(t, k);
    } else {
      assert Sound(t);
      forall ops | AllInRange(ops) && ApplyAll(LogOf(t), ops).lastSeq <= I64_MAX ensures SameAnswers(t, ops) {
        AllInRangeFit(t, ops);
        TablesRefineMemory(t, ops);
      }
    }
  }
}
