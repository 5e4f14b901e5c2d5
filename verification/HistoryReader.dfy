/**
 A device reading a channel through pages (client/src/lib/controller.js, client/src/lib/log.js)
 while others append, redact, prune and let entries expire. A fetch reads the cursor when it asks,
 the log when it is served, and the cursors again when its reply is folded in; several may be under
 way at once.
 */
module HistoryReader {
  import opened Common
  import opened Seqs
  import opened History

  /** The working copy's cursors, and the relay's entries folded in, in order of arrival. */
  datatype Reader = Reader(oldest: Option<nat>, newest: nat, complete: bool, got: seq<Entry>)

  const UNOPENED := Reader(None, 0, false, [])

  const HISTORY_PAGE_MAX := 200
  const HISTORY_PAGE_DEFAULT := 50
  const MAX_SAFE_INTEGER := 0x1F_FFFF_FFFF_FFFF

  /** The relay clamps the page size it is asked for. */
  function PageLimit(asked: Option<nat>): (limit: nat)
    ensures asked.None? ==> limit == HISTORY_PAGE_DEFAULT
    ensures asked.Some? ==> (asked.value == 0 ==> limit == 1) && (asked.value > HISTORY_PAGE_MAX ==> limit == HISTORY_PAGE_MAX)
    ensures asked.Some? && 1 <= asked.value <= HISTORY_PAGE_MAX ==> limit == asked.value
  {
    Max(1, Min(if asked.Some? then asked.value else HISTORY_PAGE_DEFAULT, HISTORY_PAGE_MAX))
  }

  /** An entry already there is not added again, but still moves the cursors. */
  function AddEntry(r: Reader, e: Entry): (r': Reader) {
    Reader(Some(if r.oldest.None? then e.seqno else Min(r.oldest.value, e.seqno)), Max(r.newest, e.seqno),
           r.complete, if e in r.got then r.got else r.got + [e])
  }

  function AddEntries(r: Reader, items: seq<Entry>): (r': Reader) {
    if items == [] then r else AddEntry(AddEntries(r, items[..|items| - 1]), items[|items| - 1])
  }

  type Reply = (seq<Entry>, bool)

  /** Folding a reply: only what the device can open, and only a backward page's `complete` counts. */
  function Fold(readable: Entry -> bool, r: Reader, page: Page, reply: Reply): (r': Reader) {
    var r' := AddEntries(r, Filter(readable, reply.0));
    r'.(complete := r.complete || (page.Before? && reply.1))
  }

  function Cursor(r: Reader): (before: nat) {
    if r.oldest.Some? then r.oldest.value else MAX_SAFE_INTEGER
  }

  /** A fetch under way. `top` is not in the reply: it is the log's counter when it was served. */
  datatype Fetch = Asked(page: Page) | Answered(page: Page, reply: Reply, top: nat)

  /** The relay's log, one device reading it, and the fetches it has under way. */
  datatype Scene = Scene(log: Log, reader: Reader, pending: map<nat, Fetch>)

  datatype Event =
    | Other(op: Op)
    | AskOlder(id: nat, asked: Option<nat>)
    | AskNewer(id: nat, asked: Option<nat>)
    | Serve(id: nat, now: nat)
    | FoldReply(id: nat)
    | Lose(id: nat)

  function Ask(s: Scene, id: nat, page: Page): (s': Scene) {
    if id in s.pending then s else s.(pending := s.pending[id := Asked(page)])
  }

  function Next(readable: Entry -> bool, s: Scene, ev: Event): (s': Scene) {
    match ev
    case Other(op) => s.(log := Apply(s.log, op).0)
    case AskOlder(id, asked) => if s.reader.complete then s else Ask(s, id, Before(Cursor(s.reader), PageLimit(asked)))
    case AskNewer(id, asked) => Ask(s, id, After(s.reader.newest, PageLimit(asked)))
    case Serve(id, now) =>
      if id in s.pending && s.pending[id].Asked? then
        var log := Purge(s.log, now);
        Scene(log, s.reader, s.pending[id := Answered(s.pending[id].page, ReadPage(log.entries, s.pending[id].page), log.lastSeq)])
      else s
    case FoldReply(id) =>
      if id in s.pending && s.pending[id].Answered? then
        Scene(s.log, Fold(readable, s.reader, s.pending[id].page, s.pending[id].reply), s.pending - {id})
      else s
    case Lose(id) => s.(pending := s.pending - {id})
  }

  function Run(readable: Entry -> bool, s: Scene, events: seq<Event>): (s': Scene) {
    if events == [] then s else Next(readable, Run(readable, s, events[..|events| - 1]), events[|events| - 1])
  }

  // ----------------------------------------------------------------------- what is held

  /** The cursors bound what was folded in, and nothing is there twice. */
  ghost predicate Bounded(r: Reader) {
    && (r.oldest.None? ==> r.newest == 0 && r.got == [])
    && (r.oldest.Some? ==> 1 <= r.oldest.value <= r.newest)
    && (forall e :: e in r.got ==> r.oldest.Some? && r.oldest.value <= e.seqno <= r.newest)
    && (forall i, j :: 0 <= i < j < |r.got| ==> r.got[i] != r.got[j])
  }

  /** The numbers a reader claims to hold: between its cursors, and below them once complete. */
  predicate Spans(r: Reader, n: nat) {
    n <= r.newest && (r.complete || (r.oldest.Some? && r.oldest.value <= n))
  }

  /** Nothing readable is missing from them. */
  ghost predicate Covers(readable: Entry -> bool, es: seq<Entry>, r: Reader) {
    forall e :: e in es && readable(e) && Spans(r, e.seqno) ==> e in r.got
  }

  // --------------------------------------------------------------------- folding a reply

  lemma {:induction false} AddEntriesEffect(r: Reader, items: seq<Entry>)
    requires Ordered(items)
    ensures var r' := AddEntries(r, items);
            && r'.complete == r.complete && (items == [] ==> r' == r)
            && (items != [] ==>
                  && r'.oldest == Some(if r.oldest.None? then items[0].seqno else Min(r.oldest.value, items[0].seqno))
                  && r'.newest == Max(r.newest, items[|items| - 1].seqno))
  {
    if items != [] { AddEntriesEffect(r, items[..|items| - 1]); }
  }

  lemma {:induction false} AddEntriesHolds(r: Reader, items: seq<Entry>, e: Entry)
    ensures e in AddEntries(r, items).got <==> e in r.got || e in items
  {
    if items != [] {
      AddEntriesHolds(r, items[..|items| - 1], e);
      assert items == items[..|items| - 1] + [items[|items| - 1]];
    }
  }

  lemma {:induction false} AddEntryBounded(r: Reader, e: Entry)
    requires Bounded(r) && e.seqno >= 1
    ensures Bounded(AddEntry(r, e))
  {
  }

  lemma {:induction false} AddEntriesBounded(r: Reader, items: seq<Entry>)
    requires Bounded(r) && forall i :: 0 <= i < |items| ==> items[i].seqno >= 1
    ensures Bounded(AddEntries(r, items))
  {
    if items != [] {
      AddEntriesBounded(r, items[..|items| - 1]);
      AddEntryBounded(AddEntries(r, items[..|items| - 1]), items[|items| - 1]);
    }
  }

  /** What a reply says of entries numbered up to `top`, however the log changes afterwards. */
  ghost predicate Vouches(es: seq<Entry>, page: Page, reply: Reply, top: nat) {
    && Ordered(reply.0) && (forall e :: e in reply.0 ==> 1 <= e.seqno <= top)
    && match page
       case Before(b, _) =>
         && (b == MAX_SAFE_INTEGER || b <= top + 1)
         && (!reply.1 ==> reply.0 != [])
         && (forall e :: e in reply.0 ==> e.seqno < b)
         && (forall e :: e in es ==> VouchedOlder(b, reply, top, e))
       case After(a, _) =>
         && (forall e :: e in reply.0 ==> a < e.seqno)
         && (forall e :: e in es ==> VouchedNewer(a, reply, e))
  }

  predicate VouchedOlder(b: nat, reply: Reply, top: nat, e: Entry) {
    e.seqno < b && e.seqno <= top && (reply.1 || (reply.0 != [] && reply.0[0].seqno <= e.seqno)) ==> e in reply.0
  }

  predicate VouchedNewer(a: nat, reply: Reply, e: Entry) {
    reply.0 != [] && a < e.seqno <= reply.0[|reply.0| - 1].seqno ==> e in reply.0
  }

  /** A bound read off these cursors, or off earlier ones: cursors only widen. */
  predicate AskedEarlier(r: Reader, page: Page) {
    match page
    case Before(b, _) => b == MAX_SAFE_INTEGER || (r.oldest.Some? && r.oldest.value <= b <= r.newest)
    case After(a, _) => a <= r.newest
  }

  /**
   Whether a reply's bound still fits the cursors it is folded into: a reply asked for before there
   were any cursors must not meet cursors another fetch has set since, unless nothing can lie between.
   */
  predicate BoundFits(r: Reader, page: Page) {
    || (r.oldest.None? && !r.complete)
    || match page
       case Before(b, _) => b != MAX_SAFE_INTEGER
       case After(a, _) => r.complete || (r.oldest.Some? && r.oldest.value <= a + 2)
  }

  /** The numbers involved in a fold. */
  lemma {:induction false} FoldNumbers(readable: Entry -> bool, r: Reader, page: Page, reply: Reply, e: Entry)
    requires Ordered(reply.0)
    ensures var r', items := Fold(readable, r, page, reply), Filter(readable, reply.0);
            && (e in r'.got <==> e in r.got || (e in reply.0 && readable(e)))
            && (items == [] ==> r'.oldest == r.oldest && r'.newest == r.newest)
            && (items != [] ==>
                  && items[0] in reply.0 && items[|items| - 1] in reply.0
                  && reply.0[0].seqno <= items[0].seqno && items[|items| - 1].seqno <= reply.0[|reply.0| - 1].seqno
                  && r'.oldest == Some(if r.oldest.None? then items[0].seqno else Min(r.oldest.value, items[0].seqno))
                  && r'.newest == Max(r.newest, items[|items| - 1].seqno))
  {
    var items := Filter(readable, reply.0);
    FilterOrdered(readable, reply.0);
    AddEntriesEffect(r, items);
    AddEntriesHolds(r, items, e);
    FilterMembers(readable, reply.0, e);
    if items != [] {
      assert items[0] in reply.0 && items[|items| - 1] in reply.0;
    }
  }

  /** One entry across the fold of a backward reply that fits. */
  lemma {:induction false} OlderCovers(readable: Entry -> bool, r: Reader, page: Page, reply: Reply, top: nat, e: Entry)
    requires Ordered(reply.0) && readable(e) && (r.oldest.None? ==> r.newest == 0) && r.newest + 2 < MAX_SAFE_INTEGER
    requires page.Before? && AskedEarlier(r, page) && BoundFits(r, page)
    requires page.before == MAX_SAFE_INTEGER || page.before <= top + 1
    requires forall x :: x in reply.0 ==> x.seqno < page.before && x.seqno <= top
    requires VouchedOlder(page.before, reply, top, e) && (Spans(r, e.seqno) ==> e in r.got)
    ensures Spans(Fold(readable, r, page, reply), e.seqno) ==> e in Fold(readable, r, page, reply).got || e.seqno == 0
  {
    FoldNumbers(readable, r, page, reply, e);
  }

  /** One entry across the fold of a forward reply that fits. */
  lemma {:induction false} NewerCovers(readable: Entry -> bool, r: Reader, page: Page, reply: Reply, e: Entry)
    requires Ordered(reply.0) && readable(e) && (r.oldest.None? ==> r.newest == 0)
    requires page.After? && AskedEarlier(r, page) && BoundFits(r, page)
    requires forall x :: x in reply.0 ==> page.after < x.seqno
    requires VouchedNewer(page.after, reply, e) && (Spans(r, e.seqno) ==> e in r.got)
    ensures Spans(Fold(readable, r, page, reply), e.seqno) ==> e in Fold(readable, r, page, reply).got || e.seqno == 0
  {
    FoldNumbers(readable, r, page, reply, e);
  }

  /** Folding a reply whose bound fits keeps the reader exact, whatever happened to the log since it was served. */
  lemma {:induction false} FoldKeeps(readable: Entry -> bool, es: seq<Entry>, r: Reader, page: Page, reply: Reply, top: nat)
    requires Bounded(r) && Covers(readable, es, r) && Vouches(es, page, reply, top) && r.newest + 2 < MAX_SAFE_INTEGER
    requires AskedEarlier(r, page) && BoundFits(r, page) && forall e :: e in es ==> e.seqno >= 1
    ensures Covers(readable, es, Fold(readable, r, page, reply))
  {
    forall e | e in es && readable(e) && Spans(Fold(readable, r, page, reply), e.seqno)
      ensures e in Fold(readable, r, page, reply).got
    {
      if page.Before? {
        OlderCovers(readable, r, page, reply, top, e);
      } else {
        NewerCovers(readable, r, page, reply, e);
      }
    }
  }

  lemma {:induction false} FoldBounded(readable: Entry -> bool, r: Reader, page: Page, reply: Reply)
    requires Bounded(r) && forall e :: e in reply.0 ==> e.seqno >= 1
    ensures Bounded(Fold(readable, r, page, reply))
  {
    var items := Filter(readable, reply.0);
    FilterSubset(readable, reply.0);
    assert forall i :: 0 <= i < |items| ==> items[i] in items;
    AddEntriesBounded(r, items);
  }

  // ------------------------------------------------------- exactly when a fold is safe

  function Everything(): Entry -> bool { (e: Entry) => true }

  /** A log `es` that a log `served`, with its counter at `top`, may have become. */
  ghost predicate Became(served: seq<Entry>, top: nat, es: seq<Entry>, page: Page) {
    && Ordered(served) && (forall e :: e in served ==> 1 <= e.seqno <= top)
    && (forall e :: e in es ==> 1 <= e.seqno && (e in served || e.seqno > top))
    && (page.Before? ==> page.before == MAX_SAFE_INTEGER || page.before <= top + 1)
  }

  /** Whatever the log was when it was asked and has become since, the fold leaves no hole. */
  ghost predicate AlwaysSafe(r: Reader, page: Page) {
    forall served, top, es :: Became(served, top, es, page) && Covers(Everything(), es, r) ==>
      Covers(Everything(), es, Fold(Everything(), r, page, ReadPage(served, page)))
  }

  lemma {:induction false} ServedOlder(served: seq<Entry>, top: nat, es: seq<Entry>, b: nat, limit: nat)
    requires Became(served, top, es, Before(b, limit)) && limit >= 1
    ensures Vouches(es, Before(b, limit), ReadPage(served, Before(b, limit)), top)
  {
    BackwardPage(served, b, limit);
    CompleteMeansNothingOlder(served, b, limit);
    var reply := ReadPage(served, Before(b, limit));
    forall e | e in es ensures VouchedOlder(b, reply, top, e) {}
  }

  lemma {:induction false} ServedNewer(served: seq<Entry>, top: nat, es: seq<Entry>, a: nat, limit: nat)
    requires Became(served, top, es, After(a, limit)) && limit >= 1
    ensures Vouches(es, After(a, limit), ReadPage(served, After(a, limit)), top)
  {
    ForwardPage(served, a, limit);
    var reply := ReadPage(served, After(a, limit));
    forall e | e in es ensures VouchedNewer(a, reply, e) {
      if reply.0 != [] { assert reply.0[|reply.0| - 1] in reply.0; }
    }
  }

  lemma {:induction false} ServedVouches(served: seq<Entry>, top: nat, es: seq<Entry>, page: Page)
    requires Became(served, top, es, page) && page.limit >= 1
    ensures Vouches(es, page, ReadPage(served, page), top)
  {
    match page
    case Before(b, limit) => ServedOlder(served, top, es, b, limit);
    case After(a, limit) => ServedNewer(served, top, es, a, limit);
  }

  /** `n` entries numbered from `from`. */
  function Numbered(from: nat, n: nat): (es: seq<Entry>)
    ensures |es| == n && forall i :: 0 <= i < n ==> es[i].seqno == from + i
  {
    seq(n, i requires 0 <= i < n => Entry(from + i, 0, None, [], ""))
  }

  lemma {:induction false} NumberedTail(from: nat, n: nat)
    requires n >= 1
    ensures var es := Numbered(from, n);
            && Ordered(es) && Ordered(es[1..]) && es[0] !in es[1..] && (n >= 2 ==> es[1..][n - 2].seqno == from + n - 1)
            && forall e :: e in es ==> from <= e.seqno < from + n
  {
  }

  /** Asked for from the end, a log of more than a page gives its last page. */
  lemma {:induction false} LastPage(es: seq<Entry>, limit: nat)
    requires |es| > limit && forall e :: e in es ==> e.seqno < MAX_SAFE_INTEGER
    ensures ReadPage(es, Before(MAX_SAFE_INTEGER, limit)) == (es[|es| - limit..], false)
  {
    FilterAll(Older(MAX_SAFE_INTEGER), es);
  }

  /** An entry the reply skips over, and so do the cursors. */
  lemma {:induction false} SkipsOver(r: Reader, page: Page, reply: Reply, e: Entry)
    requires Bounded(r) && Ordered(reply.0) && reply.0 != [] && e !in reply.0
    requires if r.newest < e.seqno then e.seqno <= reply.0[|reply.0| - 1].seqno && (r.oldest.Some? || r.complete)
             else r.oldest.Some? && reply.0[0].seqno <= e.seqno < r.oldest.value
    ensures var r' := Fold(Everything(), r, page, reply); Spans(r', e.seqno) && e !in r'.got
  {
    FilterAll(Everything(), reply.0);
    FoldNumbers(Everything(), r, page, reply, e);
  }

  lemma {:induction false} Unsafe(r: Reader, page: Page, served: seq<Entry>, top: nat, es: seq<Entry>, e: Entry)
    requires Became(served, top, es, page) && Covers(Everything(), es, r) && e in es
    requires var r' := Fold(Everything(), r, page, ReadPage(served, page)); Spans(r', e.seqno) && e !in r'.got
    ensures !AlwaysSafe(r, page)
  {
  }

  /** A page of the log just past the newest cursor, asked for from the end: the first entry is left out. */
  lemma {:induction false} FirstPageSkips(r: Reader, limit: nat)
    requires Bounded(r) && limit >= 1 && r.newest + limit + 2 < MAX_SAFE_INTEGER && (r.oldest.Some? || r.complete)
    ensures !AlwaysSafe(r, Before(MAX_SAFE_INTEGER, limit))
  {
    var es, page := Numbered(r.newest + 1, limit + 1), Before(MAX_SAFE_INTEGER, limit);
    LastPage(es, limit);
    var tail := es[1..];
    NumberedTail(r.newest + 1, limit + 1);
    SkipsOver(r, page, (tail, false), es[0]);
    Unsafe(r, page, es, r.newest + limit + 1, es, es[0]);
  }

  lemma {:induction false} OneNewer(e: Entry, a: nat, limit: nat)
    requires e.seqno > a && limit >= 1
    ensures ReadPage([e], After(a, limit)).0 == [e]
  {
    FilterAll(Newer(a), [e]);
  }

  /** A catch-up reply that ends below the oldest cursor: an entry that came after it is left out. */
  lemma {:induction false} CatchUpSkips(r: Reader, a: nat, limit: nat)
    requires Bounded(r) && limit >= 1 && r.oldest.Some? && !r.complete && a + 2 < r.oldest.value
    ensures !AlwaysSafe(r, After(a, limit))
  {
    var e, late, page := Entry(a + 1, 0, None, [], ""), Entry(a + 2, 0, None, [], ""), After(a, limit);
    OneNewer(e, a, limit);
    assert late !in [e];
    SkipsOver(r, page, ReadPage([e], page), late);
    assert Became([e], a + 1, [e, late], page) && late in [e, late];
    assert Covers(Everything(), [e, late], r);
    Unsafe(r, page, [e], a + 1, [e, late], late);
  }

  /**
   For a bound the device read off its own cursors, now or earlier, folding the reply is safe for
   every log exactly when the bound fits the cursors at that moment.
   */
  lemma {:induction false} FitsExactly(r: Reader, page: Page)
    requires Bounded(r) && AskedEarlier(r, page) && page.limit >= 1 && r.newest + page.limit + 2 < MAX_SAFE_INTEGER
    ensures AlwaysSafe(r, page) <==> BoundFits(r, page)
  {
    if BoundFits(r, page) {
      forall served, top, es | Became(served, top, es, page) && Covers(Everything(), es, r)
        ensures Covers(Everything(), es, Fold(Everything(), r, page, ReadPage(served, page)))
      {
        ServedVouches(served, top, es, page);
        FoldKeeps(Everything(), es, r, page, ReadPage(served, page), top);
      }
    } else {
      match page
      case Before(b, limit) => FirstPageSkips(r, limit);
      case After(a, limit) => CatchUpSkips(r, a, limit);
    }
  }

  // ----------------------------------------------------------------------- every run

  ghost predicate PendingOk(log: Log, r: Reader, f: Fetch) {
    && AskedEarlier(r, f.page) && f.page.limit >= 1
    && (f.page.Before? && f.page.before != MAX_SAFE_INTEGER ==> f.page.before <= log.lastSeq)
    && (f.Answered? ==> f.top <= log.lastSeq && Vouches(log.entries, f.page, f.reply, f.top))
  }

  ghost predicate Inv(readable: Entry -> bool, s: Scene) {
    && Valid(s.log) && Bounded(s.reader) && s.reader.newest <= s.log.lastSeq
    && Covers(readable, s.log.entries, s.reader)
    && forall id :: id in s.pending ==> PendingOk(s.log, s.reader, s.pending[id])
  }

  /** Every reply was folded while its bound fitted the cursors. */
  predicate FittingRun(readable: Entry -> bool, s: Scene, events: seq<Event>) {
    events == [] ||
    (FittingRun(readable, s, events[..|events| - 1]) && Fitting(Run(readable, s, events[..|events| - 1]), events[|events| - 1]))
  }

  predicate Fitting(s: Scene, ev: Event) {
    ev.FoldReply? && ev.id in s.pending && s.pending[ev.id].Answered? ==> BoundFits(s.reader, s.pending[ev.id].page)
  }

  /** Whatever a request does to the log, what is there was there before or is newly numbered. */
  lemma {:induction false} OnlyDrops(l: Log, op: Op, e: Entry)
    requires e in Apply(l, op).0.entries
    ensures e in l.entries || e.seqno == l.lastSeq + 1
  {
    match op
    case Fetch(page, now) => FilterMembers(Unexpired(now), l.entries, e);
    case Sweep(now) => FilterMembers(Unexpired(now), l.entries, e);
    case RedactEntry(n, caller, admin) => FilterMembers(NotRedacted(n, caller, admin), l.entries, e);
    case PruneEntries(ts) => FilterMembers(NotBefore(ts), l.entries, e);
    case _ =>
  }

  lemma {:induction false} VouchesKept(es: seq<Entry>, es': seq<Entry>, lastSeq: nat, page: Page, reply: Reply, top: nat)
    requires Vouches(es, page, reply, top) && top <= lastSeq && forall e :: e in es' ==> e in es || e.seqno > lastSeq
    ensures Vouches(es', page, reply, top)
  {
    if page.After? {
      forall e | e in es' ensures VouchedNewer(page.after, reply, e) {
        if reply.0 != [] { assert reply.0[|reply.0| - 1] in reply.0; }
      }
    }
  }

  lemma {:induction false} OtherKeeps(readable: Entry -> bool, s: Scene, op: Op)
    requires Inv(readable, s)
    ensures Inv(readable, s.(log := Apply(s.log, op).0)) && s.log.lastSeq <= Apply(s.log, op).0.lastSeq
  {
    ApplyValid(s.log, op);
    var log := Apply(s.log, op).0;
    forall e | e in log.entries ensures e in s.log.entries || e.seqno > s.log.lastSeq { OnlyDrops(s.log, op, e); }
    forall id | id in s.pending ensures PendingOk(log, s.reader, s.pending[id]) {
      var f := s.pending[id];
      if f.Answered? { VouchesKept(s.log.entries, log.entries, s.log.lastSeq, f.page, f.reply, f.top); }
    }
  }

  lemma {:induction false} ServeKeeps(readable: Entry -> bool, s: Scene, id: nat, now: nat)
    requires Inv(readable, s)
    ensures Inv(readable, Next(readable, s, Serve(id, now)))
  {
    if id in s.pending && s.pending[id].Asked? {
      OtherKeeps(readable, s, Sweep(now));
      var log := Purge(s.log, now);
      ServedVouches(log.entries, log.lastSeq, log.entries, s.pending[id].page);
    }
  }

  /** Cursors only widen, so a bound stays one that was read off them. */
  lemma {:induction false} FoldWidens(readable: Entry -> bool, r: Reader, page: Page, reply: Reply, other: Page)
    requires Ordered(reply.0) && AskedEarlier(r, other)
    ensures AskedEarlier(Fold(readable, r, page, reply), other) && r.newest <= Fold(readable, r, page, reply).newest
  {
    FoldNumbers(readable, r, page, reply, Entry(0, 0, None, [], ""));
  }

  lemma {:induction false} ReaderFolded(readable: Entry -> bool, log: Log, r: Reader, f: Fetch)
    requires Valid(log) && Bounded(r) && r.newest <= log.lastSeq && Covers(readable, log.entries, r)
    requires f.Answered? && PendingOk(log, r, f) && BoundFits(r, f.page) && log.lastSeq + 2 < MAX_SAFE_INTEGER
    ensures var r' := Fold(readable, r, f.page, f.reply); Bounded(r') && r'.newest <= log.lastSeq && Covers(readable, log.entries, r')
  {
    FoldKeeps(readable, log.entries, r, f.page, f.reply, f.top);
    FoldBounded(readable, r, f.page, f.reply);
    FoldNumbers(readable, r, f.page, f.reply, Entry(0, 0, None, [], ""));
  }

  lemma {:induction false} FoldReplyKeeps(readable: Entry -> bool, s: Scene, id: nat)
    requires Inv(readable, s) && Fitting(s, FoldReply(id)) && s.log.lastSeq + 2 < MAX_SAFE_INTEGER
    ensures Inv(readable, Next(readable, s, FoldReply(id)))
  {
    if id in s.pending && s.pending[id].Answered? {
      var f := s.pending[id];
      ReaderFolded(readable, s.log, s.reader, f);
      var r' := Fold(readable, s.reader, f.page, f.reply);
      forall i | i in s.pending ensures PendingOk(s.log, r', s.pending[i]) {
        FoldWidens(readable, s.reader, f.page, f.reply, s.pending[i].page);
      }
    }
  }

  lemma {:induction false} NextKeeps(readable: Entry -> bool, s: Scene, ev: Event)
    requires Inv(readable, s) && Fitting(s, ev) && s.log.lastSeq + 2 < MAX_SAFE_INTEGER
    ensures Inv(readable, Next(readable, s, ev))
  {
    match ev
    case Other(op) => OtherKeeps(readable, s, op);
    case Serve(id, now) => ServeKeeps(readable, s, id, now);
    case FoldReply(id) => FoldReplyKeeps(readable, s, id);
    case _ =>
  }

  lemma {:induction false} LastSeqGrows(readable: Entry -> bool, s: Scene, ev: Event)
    ensures s.log.lastSeq <= Next(readable, s, ev).log.lastSeq
  {
  }

  /**
   Reading is exact at every moment of every run in which replies are folded while they fit: however
   appends, redactions, pruning, expiry, paging back and catching up interleave, nothing is held
   twice, and every readable entry the log still holds between the cursors — or below them, once the
   start was reached — is one the device has.
   */
  lemma {:induction false} ReadingIsExact(readable: Entry -> bool, s: Scene, events: seq<Event>)
    requires Inv(readable, s) && FittingRun(readable, s, events) && Run(readable, s, events).log.lastSeq + 2 < MAX_SAFE_INTEGER
    ensures Inv(readable, Run(readable, s, events))
  {
    if events != [] {
      var init := events[..|events| - 1];
      LastSeqGrows(readable, Run(readable, s, init), events[|events| - 1]);
      ReadingIsExact(readable, s, init);
      NextKeeps(readable, Run(readable, s, init), events[|events| - 1]);
    }
  }

  /** The entry was in the log at some moment of the run. */
  ghost predicate Once(readable: Entry -> bool, s: Scene, events: seq<Event>, e: Entry) {
    exists k :: 0 <= k <= |events| && e in Run(readable, s, events[..k]).log.entries
  }

  lemma {:induction false} OnceStill(readable: Entry -> bool, s: Scene, events: seq<Event>, e: Entry)
    requires events != [] && Once(readable, s, events[..|events| - 1], e)
    ensures Once(readable, s, events, e)
  {
    var init := events[..|events| - 1];
    var k :| 0 <= k <= |init| && e in Run(readable, s, init[..k]).log.entries;
    assert init[..k] == events[..k];
  }

  /** What is held can be opened and was in the log once, and so was whatever is on its way. */
  ghost predicate Genuine(readable: Entry -> bool, s: Scene, events: seq<Event>) {
    var now := Run(readable, s, events);
    && (forall e :: e in now.reader.got ==> readable(e) && Once(readable, s, events, e))
    && (forall id, e :: id in now.pending && now.pending[id].Answered? && e in now.pending[id].reply.0 ==> Once(readable, s, events, e))
  }

  lemma {:induction false} PageFromLog(es: seq<Entry>, page: Page, e: Entry)
    requires e in ReadPage(es, page).0
    ensures e in es
  {
    match page
    case After(after, limit) => FilterMembers(Newer(after), es, e);
    case Before(before, limit) => FilterMembers(Older(before), es, e);
  }

  lemma {:induction false} AddedIs(r: Reader, items: seq<Entry>, e: Entry)
    ensures e in AddEntries(r, items).got <==> e in r.got || e in items
  {
    if items != [] {
      AddedIs(r, items[..|items| - 1], e);
      assert items == items[..|items| - 1] + [items[|items| - 1]];
    }
  }

  lemma {:induction false} FoldedIs(readable: Entry -> bool, r: Reader, page: Page, reply: Reply, e: Entry)
    ensures e in Fold(readable, r, page, reply).got <==> e in r.got || (e in reply.0 && readable(e))
  {
    AddedIs(r, Filter(readable, reply.0), e);
    FilterMembers(readable, reply.0, e);
  }

  lemma {:induction false} ServedFromLog(readable: Entry -> bool, s: Scene, id: nat, now: nat, other: nat, e: Entry)
    requires var s' := Next(readable, s, Serve(id, now)); other in s'.pending && s'.pending[other].Answered? && e in s'.pending[other].reply.0
    ensures e in s.log.entries || (other in s.pending && s.pending[other].Answered? && e in s.pending[other].reply.0)
  {
    if other == id && id in s.pending && s.pending[id].Asked? {
      PageFromLog(Purge(s.log, now).entries, s.pending[id].page, e);
      FilterMembers(Unexpired(now), s.log.entries, e);
    }
  }

  lemma {:induction false} StepGenuine(readable: Entry -> bool, s: Scene, events: seq<Event>)
    requires events != [] && Genuine(readable, s, events[..|events| - 1])
    ensures Genuine(readable, s, events)
  {
    var init, ev := events[..|events| - 1], events[|events| - 1];
    var mid, now := Run(readable, s, init), Run(readable, s, events);
    forall e | e in now.reader.got ensures readable(e) && Once(readable, s, events, e) {
      if e !in mid.reader.got {
        assert ev.FoldReply? && ev.id in mid.pending && mid.pending[ev.id].Answered?;
        FoldedIs(readable, mid.reader, mid.pending[ev.id].page, mid.pending[ev.id].reply, e);
      }
      OnceStill(readable, s, events, e);
    }
    forall id, e | id in now.pending && now.pending[id].Answered? && e in now.pending[id].reply.0 ensures Once(readable, s, events, e) {
      if ev.Serve? { ServedFromLog(readable, mid, ev.id, ev.now, id, e); }
      if e in mid.log.entries { assert init[..|init|] == init; }
      OnceStill(readable, s, events, e);
    }
  }

  /** A reply is folded once, and one that was lost never. */
  lemma {:induction false} FoldedOnce(readable: Entry -> bool, s: Scene, id: nat)
    requires id in s.pending && s.pending[id].Answered?
    ensures var s' := Next(readable, s, FoldReply(id)); Next(readable, s', FoldReply(id)) == s'
    ensures var s' := Next(readable, s, Lose(id)); Next(readable, s', FoldReply(id)) == s' && s'.reader == s.reader
  {
  }

  /** In every run, racing or not, a device holds nothing it cannot open and nothing the log never held. */
  lemma {:induction false} HeldIsGenuine(readable: Entry -> bool, log: Log, events: seq<Event>)
    ensures Genuine(readable, Scene(log, UNOPENED, map[]), events)
  {
    if events != [] {
      HeldIsGenuine(readable, log, events[..|events| - 1]);
      StepGenuine(readable, Scene(log, UNOPENED, map[]), events);
    }
  }

  // -------------------------------------------------------------------- one at a time

  /** A fetch is asked for only when none is under way. */
  predicate SoloRun(readable: Entry -> bool, s: Scene, events: seq<Event>) {
    events == [] ||
    (SoloRun(readable, s, events[..|events| - 1]) &&
     var ev := events[|events| - 1];
     (ev.AskOlder? || ev.AskNewer? ==> Run(readable, s, events[..|events| - 1]).pending == map[]))
  }

  /** The one fetch under way was asked for from the cursors as they are. */
  ghost predicate Solo(s: Scene) {
    && (forall i, j :: i in s.pending && j in s.pending ==> i == j)
    && (forall i :: i in s.pending ==> Matches(s.reader, s.pending[i].page))
  }

  predicate Matches(r: Reader, page: Page) {
    page.limit >= 1 && match page
                       case Before(b, _) => b == Cursor(r) && !r.complete
                       case After(a, _) => a == r.newest
  }

  lemma {:induction false} MatchFits(r: Reader, page: Page)
    requires Matches(r, page) && Bounded(r) && r.newest + 2 < MAX_SAFE_INTEGER
    ensures BoundFits(r, page)
  {
  }

  lemma {:induction false} SoloStep(readable: Entry -> bool, s: Scene, ev: Event)
    requires Solo(s) && (ev.AskOlder? || ev.AskNewer? ==> s.pending == map[])
    ensures Solo(Next(readable, s, ev))
  {
  }

  /** A device that waits for each fetch before the next only ever folds replies that fit. */
  lemma {:induction false} SoloRunsFit(readable: Entry -> bool, s: Scene, events: seq<Event>)
    requires Inv(readable, s) && Solo(s) && SoloRun(readable, s, events)
    requires Run(readable, s, events).log.lastSeq + 2 < MAX_SAFE_INTEGER
    ensures FittingRun(readable, s, events) && Solo(Run(readable, s, events))
  {
    if events != [] {
      var init, ev := events[..|events| - 1], events[|events| - 1];
      var mid := Run(readable, s, init);
      LastSeqGrows(readable, mid, ev);
      SoloRunsFit(readable, s, init);
      ReadingIsExact(readable, s, init);
      SoloStep(readable, mid, ev);
      if ev.FoldReply? && ev.id in mid.pending { MatchFits(mid.reader, mid.pending[ev.id].page); }
    }
  }

  // -------------------------------------------------------------------- whole requests

  lemma {:induction false} Snoc(readable: Entry -> bool, s: Scene, events: seq<Event>, ev: Event)
    ensures Run(readable, s, events + [ev]) == Next(readable, Run(readable, s, events), ev)
  {
    assert (events + [ev])[..|events|] == events;
  }

  lemma {:induction false} Snoc3(readable: Entry -> bool, s: Scene, events: seq<Event>, a: Event, b: Event, c: Event)
    ensures Run(readable, s, events + [a] + [b] + [c]) ==
            Next(readable, Next(readable, Next(readable, Run(readable, s, events), a), b), c)
  {
    Snoc(readable, s, events, a);
    Snoc(readable, s, events + [a], b);
    Snoc(readable, s, events + [a] + [b], c);
  }

  /** "Load older", from the request to the folded reply, with nothing in between. */
  function OlderRequest(id: nat, asked: Option<nat>, now: nat): (events: seq<Event>) {
    [] + [AskOlder(id, asked)] + [Serve(id, now)] + [FoldReply(id)]
  }

  function LoadOlder(readable: Entry -> bool, s: Scene, asked: Option<nat>, now: nat): (s': Scene) {
    if s.reader.complete then s
    else
      var log, page := Purge(s.log, now), Before(Cursor(s.reader), PageLimit(asked));
      Scene(log, Fold(readable, s.reader, page, ReadPage(log.entries, page)), s.pending)
  }

  lemma {:induction false} AskedThenServed(readable: Entry -> bool, s: Scene, id: nat, page: Page, now: nat)
    requires id in s.pending && s.pending[id] == Asked(page)
    ensures var log := Purge(s.log, now); var reply := ReadPage(log.entries, page);
            && Next(readable, s, Serve(id, now)) == Scene(log, s.reader, s.pending[id := Answered(page, reply, log.lastSeq)])
            && Next(readable, Next(readable, s, Serve(id, now)), FoldReply(id)) ==
               Scene(log, Fold(readable, s.reader, page, reply), s.pending - {id})
  {
    var log := Purge(s.log, now);
    var f := Answered(page, ReadPage(log.entries, page), log.lastSeq);
    assert s.pending[id := f] - {id} == s.pending - {id};
  }

  lemma {:induction false} OlderRequestIs(readable: Entry -> bool, s: Scene, id: nat, asked: Option<nat>, now: nat)
    requires id !in s.pending
    ensures Run(readable, s, OlderRequest(id, asked, now)) == LoadOlder(readable, s, asked, now)
  {
    Snoc3(readable, s, [], AskOlder(id, asked), Serve(id, now), FoldReply(id));
    if !s.reader.complete {
      var page := Before(Cursor(s.reader), PageLimit(asked));
      var s1 := s.(pending := s.pending[id := Asked(page)]);
      assert Next(readable, s, AskOlder(id, asked)) == s1;
      AskedThenServed(readable, s1, id, page, now);
      assert s1.pending - {id} == s.pending;
    }
  }

  // --------------------------------------------------- two first fetches at once skip

  /** A device opens a room, and before the page is there reconnects and catches up from nothing. */
  function Race(asked: Option<nat>, now: nat): (events: seq<Event>) {
    [] + [AskOlder(1, asked)] + [AskNewer(2, asked)] + [Serve(1, now)]
       + [Serve(2, now)] + [FoldReply(1)] + [FoldReply(2)]
  }

  lemma {:induction false} RaceAsked(readable: Entry -> bool, log: Log, asked: Option<nat>, now: nat)
    ensures var s := Scene(log, UNOPENED, map[]);
            var s' := Next(readable, Next(readable, Next(readable, s, AskOlder(1, asked)), AskNewer(2, asked)), Serve(1, now));
            var older := Before(MAX_SAFE_INTEGER, PageLimit(asked));
            && s'.log == Purge(log, now) && s'.reader == UNOPENED
            && s'.pending == map[1 := Answered(older, ReadPage(Purge(log, now).entries, older), log.lastSeq), 2 := Asked(After(0, PageLimit(asked)))]
  {
    var older, newer := Before(MAX_SAFE_INTEGER, PageLimit(asked)), After(0, PageLimit(asked));
    var s1 := Scene(log, UNOPENED, map[1 := Asked(older)]);
    assert Next(readable, Scene(log, UNOPENED, map[]), AskOlder(1, asked)) == s1;
    var s2 := Scene(log, UNOPENED, map[1 := Asked(older), 2 := Asked(newer)]);
    assert Next(readable, s1, AskNewer(2, asked)) == s2;
    AskedThenServed(readable, s2, 1, older, now);
  }

  /** What the race folds: the log's last page, and then its first. */
  function RaceReader(readable: Entry -> bool, es: seq<Entry>, limit: nat): (r: Reader) {
    var older, newer := Before(MAX_SAFE_INTEGER, limit), After(0, limit);
    Fold(readable, Fold(readable, UNOPENED, older, ReadPage(es, older)), newer, ReadPage(es, newer))
  }

  lemma {:induction false} RaceFolded(readable: Entry -> bool, log: Log, limit: nat, now: nat)
    requires Living(log.entries, now) == log.entries
    ensures var older, newer := Before(MAX_SAFE_INTEGER, limit), After(0, limit);
            var s := Scene(log, UNOPENED, map[1 := Answered(older, ReadPage(log.entries, older), log.lastSeq), 2 := Asked(newer)]);
            Next(readable, Next(readable, Next(readable, s, Serve(2, now)), FoldReply(1)), FoldReply(2)) ==
            Scene(log, RaceReader(readable, log.entries, limit), map[])
  {
    var older, newer := Before(MAX_SAFE_INTEGER, limit), After(0, limit);
    var one := Answered(older, ReadPage(log.entries, older), log.lastSeq);
    var two := Answered(newer, ReadPage(log.entries, newer), log.lastSeq);
    var s := Scene(log, UNOPENED, map[1 := one, 2 := Asked(newer)]);
    AskedThenServed(readable, s, 2, newer, now);
    assert s.pending[2 := two] == map[1 := one, 2 := two];
    assert map[1 := one, 2 := two] - {1} == map[2 := two] && map[2 := two] - {2} == map[];
  }

  lemma {:induction false} RaceIs(readable: Entry -> bool, log: Log, asked: Option<nat>, now: nat)
    ensures var es := Living(log.entries, now);
            Run(readable, Scene(log, UNOPENED, map[]), Race(asked, now)) ==
            Scene(Purge(log, now), RaceReader(readable, es, PageLimit(asked)), map[])
  {
    var s := Scene(log, UNOPENED, map[]);
    var first := [] + [AskOlder(1, asked)] + [AskNewer(2, asked)] + [Serve(1, now)];
    Snoc3(readable, s, [], AskOlder(1, asked), AskNewer(2, asked), Serve(1, now));
    RaceAsked(readable, log, asked, now);
    Snoc3(readable, s, first, Serve(2, now), FoldReply(1), FoldReply(2));
    LivingLater(log.entries, now, now);
    RaceFolded(readable, Purge(log, now), PageLimit(asked), now);
  }

  /** Folding a page all of which can be opened. */
  lemma {:induction false} FoldAll(r: Reader, page: Page, reply: Reply, e: Entry)
    requires Ordered(reply.0) && reply.0 != []
    ensures var r', first, last := Fold(Everything(), r, page, reply), reply.0[0].seqno, reply.0[|reply.0| - 1].seqno;
            && r'.oldest == Some(if r.oldest.None? then first else Min(r.oldest.value, first)) && r'.newest == Max(r.newest, last)
            && r'.complete == (r.complete || (page.Before? && reply.1)) && (e in r'.got <==> e in r.got || e in reply.0)
  {
    FilterAll(Everything(), reply.0);
    FoldNumbers(Everything(), r, page, reply, e);
  }

  lemma {:induction false} RacePages(es: seq<Entry>, limit: nat)
    requires Ordered(es) && |es| > 2 * limit && limit >= 1 && forall e :: e in es ==> 1 <= e.seqno < MAX_SAFE_INTEGER
    ensures ReadPage(es, Before(MAX_SAFE_INTEGER, limit)) == (es[|es| - limit..], false)
    ensures ReadPage(es, After(0, limit)) == (es[..limit], false)
    ensures es[limit] !in es[|es| - limit..] && es[limit] !in es[..limit]
    ensures Ordered(es[|es| - limit..]) && Ordered(es[..limit])
  {
    LastPage(es, limit);
    FilterAll(Newer(0), es);
  }

  /** The first and the last page of a log of more than two leave its middle out, with the cursors around it. */
  lemma {:induction false} RaceSkips(es: seq<Entry>, limit: nat)
    requires Ordered(es) && |es| > 2 * limit && limit >= 1 && forall e :: e in es ==> 1 <= e.seqno < MAX_SAFE_INTEGER
    ensures var r := RaceReader(Everything(), es, limit);
            r.oldest == Some(es[0].seqno) && !r.complete && es[limit] !in r.got && Spans(r, es[limit].seqno)
  {
    RacePages(es, limit);
    var last, first, e := es[|es| - limit..], es[..limit], es[limit];
    var older, newer := Before(MAX_SAFE_INTEGER, limit), After(0, limit);
    FoldAll(UNOPENED, older, (last, false), e);
    FoldAll(Fold(Everything(), UNOPENED, older, (last, false)), newer, (first, false), e);
    assert es[0].seqno < es[limit].seqno < es[|es| - limit].seqno <= es[|es| - 1].seqno && es[limit - 1].seqno < es[|es| - 1].seqno;
  }

  /** Asking below the first entry finds nothing, and says the start was reached. */
  lemma {:induction false} BelowTheStart(es: seq<Entry>, limit: nat)
    requires Ordered(es) && es != []
    ensures ReadPage(es, Before(es[0].seqno, limit)) == ([], true)
  {
    assert forall i :: 0 <= i < |es| ==> es[0].seqno <= es[i].seqno;
    FilterNone(Older(es[0].seqno), es);
  }

  /**
   So for every log of more than two pages, two first fetches at once lose its middle for the session:
   the cursors span it, the next request for older entries reports the start reached, and an entry the
   device could open is not held. The code's page is 50.
   */
  lemma {:induction false} RacingFetchesSkip(log: Log, asked: Option<nat>, now: nat)
    requires Valid(log) && log.lastSeq < MAX_SAFE_INTEGER && |Living(log.entries, now)| > 2 * PageLimit(asked)
    ensures var es := Living(log.entries, now);
            var end := Run(Everything(), Scene(log, UNOPENED, map[]), Race(asked, now) + OlderRequest(3, asked, now));
            end.log.entries == es && end.reader.complete && Spans(end.reader, es[PageLimit(asked)].seqno) &&
            es[PageLimit(asked)] !in end.reader.got
  {
    var es, limit, s := Living(log.entries, now), PageLimit(asked), Scene(log, UNOPENED, map[]);
    FilterOrdered(Unexpired(now), log.entries);
    RaceIs(Everything(), log, asked, now);
    RaceSkips(es, limit);
    var mid := Run(Everything(), s, Race(asked, now));
    RunConcat(Everything(), s, Race(asked, now), OlderRequest(3, asked, now));
    OlderRequestIs(Everything(), mid, 3, asked, now);
    LivingLater(log.entries, now, now);
    BelowTheStart(es, limit);
    FoldNumbers(Everything(), mid.reader, Before(es[0].seqno, limit), ([], true), es[limit]);
  }

  lemma {:induction false} RunConcat(readable: Entry -> bool, s: Scene, a: seq<Event>, b: seq<Event>)
    ensures Run(readable, s, a + b) == Run(readable, Run(readable, s, a), b)
  {
    if b == [] {
      assert a + b == a;
    } else {
      RunConcat(readable, s, a, b[..|b| - 1]);
      assert (a + b)[..|a + b| - 1] == a + b[..|b| - 1];
    }
  }

  // ------------------------------------------------------------------ the whole walk back

  /** Cursors only widen, and an old entry still there was there all along. */
  lemma {:induction false} NextMonotone(readable: Entry -> bool, s: Scene, ev: Event)
    requires Inv(readable, s)
    ensures s.reader.newest <= Next(readable, s, ev).reader.newest
    ensures forall e :: e in Next(readable, s, ev).log.entries && e.seqno <= s.log.lastSeq ==> e in s.log.entries
  {
    match ev
    case Other(op) =>
      forall e | e in Apply(s.log, op).0.entries && e.seqno <= s.log.lastSeq ensures e in s.log.entries {
        OnlyDrops(s.log, op, e);
      }
    case Serve(id, now) => FilterSubset(Unexpired(now), s.log.entries);
    case FoldReply(id) =>
      if id in s.pending && s.pending[id].Answered? {
        FoldWidens(readable, s.reader, s.pending[id].page, s.pending[id].reply, After(0, 1));
      }
    case _ =>
  }

  lemma {:induction false} RunMonotone(readable: Entry -> bool, s: Scene, events: seq<Event>)
    requires Inv(readable, s) && FittingRun(readable, s, events) && Run(readable, s, events).log.lastSeq + 2 < MAX_SAFE_INTEGER
    ensures s.reader.newest <= Run(readable, s, events).reader.newest
    ensures s.log.lastSeq <= Run(readable, s, events).log.lastSeq
    ensures forall e :: e in Run(readable, s, events).log.entries && e.seqno <= s.log.lastSeq ==> e in s.log.entries
  {
    if events != [] {
      var init := events[..|events| - 1];
      var mid := Run(readable, s, init);
      LastSeqGrows(readable, mid, events[|events| - 1]);
      RunMonotone(readable, s, init);
      ReadingIsExact(readable, s, init);
      NextMonotone(readable, mid, events[|events| - 1]);
    }
  }

  lemma {:induction false} LastSeqRun(readable: Entry -> bool, s: Scene, events: seq<Event>)
    ensures s.log.lastSeq <= Run(readable, s, events).log.lastSeq
  {
    if events != [] {
      LastSeqRun(readable, s, events[..|events| - 1]);
      LastSeqGrows(readable, Run(readable, s, events[..|events| - 1]), events[|events| - 1]);
    }
  }

  lemma {:induction false} ReachesNewest(readable: Entry -> bool, page: Page, reply: Reply, e: Entry)
    requires Ordered(reply.0) && readable(e)
    requires e in reply.0 || (reply.0 != [] && e.seqno < reply.0[0].seqno && Fold(readable, UNOPENED, page, reply).oldest.Some?)
    ensures e.seqno <= Fold(readable, UNOPENED, page, reply).newest
  {
    FoldNumbers(readable, UNOPENED, page, reply, e);
    FilterMembers(readable, reply.0, e);
    FilterOrdered(readable, reply.0);
  }

  /** Opening a room: the first page, if any of it is readable, starts at the log's very end. */
  lemma {:induction false} FirstPageReaches(readable: Entry -> bool, log: Log, asked: Option<nat>, now: nat, e: Entry)
    requires Valid(log) && log.lastSeq < MAX_SAFE_INTEGER && e in Living(log.entries, now) && readable(e)
    requires var r := LoadOlder(readable, Scene(log, UNOPENED, map[]), asked, now).reader; r.oldest.Some? || r.complete
    ensures e.seqno <= LoadOlder(readable, Scene(log, UNOPENED, map[]), asked, now).reader.newest
  {
    var es, limit := Living(log.entries, now), PageLimit(asked);
    FilterOrdered(Unexpired(now), log.entries);
    assert e.seqno < MAX_SAFE_INTEGER;
    BackwardPage(es, MAX_SAFE_INTEGER, limit);
    CompleteMeansNothingOlder(es, MAX_SAFE_INTEGER, limit);
    var page := Before(MAX_SAFE_INTEGER, limit);
    ReachesNewest(readable, page, ReadPage(es, page), e);
  }

  lemma {:induction false} OpenedInv(readable: Entry -> bool, log: Log, asked: Option<nat>, now: nat)
    requires Valid(log) && log.lastSeq + 2 < MAX_SAFE_INTEGER
    ensures Inv(readable, LoadOlder(readable, Scene(log, UNOPENED, map[]), asked, now))
  {
    var s, events := Scene(log, UNOPENED, map[]), OlderRequest(0, asked, now);
    OlderRequestIs(readable, s, 0, asked, now);
    LastSeqRun(readable, s, events);
    SoloRequest(readable, s, asked, now);
    SoloRunsFit(readable, s, events);
    ReadingIsExact(readable, s, events);
  }

  lemma {:induction false} SoloSnoc(readable: Entry -> bool, s: Scene, events: seq<Event>, ev: Event)
    ensures SoloRun(readable, s, events + [ev]) <==>
            SoloRun(readable, s, events) && (ev.AskOlder? || ev.AskNewer? ==> Run(readable, s, events).pending == map[])
  {
    assert (events + [ev])[..|events|] == events;
  }

  lemma {:induction false} SoloRequest(readable: Entry -> bool, s: Scene, asked: Option<nat>, now: nat)
    requires s.pending == map[]
    ensures SoloRun(readable, s, OlderRequest(0, asked, now))
  {
    SoloSnoc(readable, s, [], AskOlder(0, asked));
    SoloSnoc(readable, s, [] + [AskOlder(0, asked)], Serve(0, now));
    SoloSnoc(readable, s, [] + [AskOlder(0, asked)] + [Serve(0, now)], FoldReply(0));
  }

  /**
   Paging back from the newest page until `complete`, while the log changes underneath, brings
   every readable entry that was there at the start and is still there at the end.
   */
  lemma {:induction false} BackwardWalkIsExact(
    readable: Entry -> bool, log: Log, asked: Option<nat>, now: nat, events: seq<Event>, e: Entry)
    requires Valid(log)
    requires var inRoom := LoadOlder(readable, Scene(log, UNOPENED, map[]), asked, now);
             && (inRoom.reader.oldest.Some? || inRoom.reader.complete) && FittingRun(readable, inRoom, events)
             && var end := Run(readable, inRoom, events);
                && end.log.lastSeq + 2 < MAX_SAFE_INTEGER && end.reader.complete
                && e in end.log.entries && e.seqno <= log.lastSeq && readable(e)
    ensures e in Run(readable, LoadOlder(readable, Scene(log, UNOPENED, map[]), asked, now), events).reader.got
  {
    var inRoom := LoadOlder(readable, Scene(log, UNOPENED, map[]), asked, now);
    LastSeqRun(readable, inRoom, events);
    OpenedInv(readable, log, asked, now);
    RunMonotone(readable, inRoom, events);
    ReadingIsExact(readable, inRoom, events);
    FirstPageReaches(readable, log, asked, now, e);
  }

  // ---------------------------------------------------------------------------- in order

  /** The pages of a walk back, each put before the ones that came earlier. */
  function Unrolled(readable: Entry -> bool, s: Scene, events: seq<Event>): (es: seq<Entry>) {
    if events == [] then []
    else
      var init, ev := events[..|events| - 1], events[|events| - 1];
      var before, mid := Unrolled(readable, s, init), Run(readable, s, init);
      if ev.FoldReply? && ev.id in mid.pending && mid.pending[ev.id].Answered?
      then Filter(readable, mid.pending[ev.id].reply.0) + before else before
  }

  ghost predicate InOrder(r: Reader, es: seq<Entry>) {
    && Ordered(es) && (forall e :: e in es <==> e in r.got)
    && (es != [] ==> r.oldest == Some(es[0].seqno)) && (es == [] ==> r.oldest.None?)
  }

  lemma {:induction false} OrderedConcat(a: seq<Entry>, b: seq<Entry>)
    requires Ordered(a) && Ordered(b) && (b != [] ==> forall i :: 0 <= i < |a| ==> a[i].seqno < b[0].seqno)
    ensures Ordered(a + b)
  {
    assert forall j :: 0 <= j < |b| ==> b[0].seqno <= b[j].seqno;
  }

  lemma {:induction false} PrependInOrder(readable: Entry -> bool, r: Reader, page: Page, reply: Reply, es: seq<Entry>)
    requires InOrder(r, es) && page.Before? && page.before == Cursor(r) && Ordered(reply.0)
    requires forall e :: e in reply.0 ==> e.seqno < page.before
    ensures InOrder(Fold(readable, r, page, reply), Filter(readable, reply.0) + es)
  {
    var items, r' := Filter(readable, reply.0), Fold(readable, r, page, reply);
    FilterOrdered(readable, reply.0);
    FoldNumbers(readable, r, page, reply, Entry(0, 0, None, [], ""));
    assert forall i :: 0 <= i < |items| ==> items[i] in reply.0;
    OrderedConcat(items, es);
    forall e ensures e in items + es <==> e in r'.got {
      FoldNumbers(readable, r, page, reply, e);
      FilterMembers(readable, reply.0, e);
    }
  }

  /**
   A walk back one request at a time is in order: each page lies wholly below the one before it, so
   that put front to back they are what the device holds, each entry once and by rising number.
   */
  lemma {:induction false} WalkIsInOrder(readable: Entry -> bool, log: Log, events: seq<Event>)
    requires Valid(log) && SoloRun(readable, Scene(log, UNOPENED, map[]), events)
    requires Run(readable, Scene(log, UNOPENED, map[]), events).log.lastSeq + 2 < MAX_SAFE_INTEGER
    requires forall i :: 0 <= i < |events| ==> !events[i].AskNewer?
    ensures var s := Scene(log, UNOPENED, map[]);
            var end := Run(readable, s, events);
            InOrder(end.reader, Unrolled(readable, s, events)) && forall id :: id in end.pending ==> end.pending[id].page.Before?
  {
    var s := Scene(log, UNOPENED, map[]);
    if events != [] {
      var init, ev := events[..|events| - 1], events[|events| - 1];
      var mid := Run(readable, s, init);
      LastSeqGrows(readable, mid, ev);
      WalkIsInOrder(readable, log, init);
      SoloRunsFit(readable, s, init);
      ReadingIsExact(readable, s, init);
      if ev.FoldReply? && ev.id in mid.pending && mid.pending[ev.id].Answered? {
        var f := mid.pending[ev.id];
        assert PendingOk(mid.log, mid.reader, f) && Matches(mid.reader, f.page);
        PrependInOrder(readable, mid.reader, f.page, f.reply, Unrolled(readable, s, init));
      }
    }
  }

  // ----------------------------------------------------------------- does the walk end?

  lemma {:induction false} FoldStays(readable: Entry -> bool, r: Reader, page: Page, reply: Reply)
    requires !r.complete && page.Before? && Ordered(reply.0) && forall e :: e in reply.0 ==> e.seqno < Cursor(r)
    ensures Fold(readable, r, page, reply) == r <==> !reply.1 && Filter(readable, reply.0) == []
  {
    var items := Filter(readable, reply.0);
    FoldNumbers(readable, r, page, reply, Entry(0, 0, None, [], ""));
    if items == [] { AddEntriesEffect(r, items); }
  }

  /** The living entries below the cursor. */
  function Below(s: Scene, now: nat): (es: seq<Entry>) { Filter(Older(Cursor(s.reader)), Living(s.log.entries, now)) }

  /** More than a page, and the page next to the cursor holds nothing the device can open. */
  predicate Wall(readable: Entry -> bool, below: seq<Entry>, limit: nat) {
    |below| > limit && Filter(readable, below[|below| - limit..]) == []
  }

  /** The page below a bound, and whether it is a wall. */
  lemma {:induction false} PageOrWall(readable: Entry -> bool, es: seq<Entry>, b: nat, limit: nat)
    requires Ordered(es) && limit >= 1
    ensures var reply := ReadPage(es, Before(b, limit));
            && Ordered(reply.0) && (forall e :: e in reply.0 ==> e.seqno < b)
            && (!reply.1 && Filter(readable, reply.0) == [] <==> Wall(readable, Filter(Older(b), es), limit))
  {
    BackwardPage(es, b, limit);
  }

  /**
   Exactly when a request for older entries leaves the reader where it was: more than a page is
   left below the cursor, and the page holds nothing this device can open.
   */
  lemma {:induction false} StuckExactly(readable: Entry -> bool, s: Scene, asked: Option<nat>, now: nat)
    requires Ordered(s.log.entries) && !s.reader.complete
    ensures LoadOlder(readable, s, asked, now).reader == s.reader <==> Wall(readable, Below(s, now), PageLimit(asked))
  {
    var es, page := Living(s.log.entries, now), Before(Cursor(s.reader), PageLimit(asked));
    FilterOrdered(Unexpired(now), s.log.entries);
    PageOrWall(readable, es, Cursor(s.reader), PageLimit(asked));
    FoldStays(readable, s.reader, page, ReadPage(es, page));
  }

  /** Requests for older entries, one after another, while the log changes: posts, redactions, prunes, sweeps. */
  datatype Attempt = Change(op: Op) | TryOlder(now: nat)

  function Attempts(readable: Entry -> bool, s: Scene, asked: Option<nat>, tries: seq<Attempt>): (s': Scene) {
    if tries == [] then s
    else
      var mid := Attempts(readable, s, asked, tries[..|tries| - 1]);
      match tries[|tries| - 1]
      case Change(op) => mid.(log := Apply(mid.log, op).0)
      case TryOlder(now) => LoadOlder(readable, mid, asked, now)
  }

  /** Every request met a wall. */
  predicate WallStands(readable: Entry -> bool, s: Scene, asked: Option<nat>, tries: seq<Attempt>) {
    tries == [] ||
    (&& WallStands(readable, s, asked, tries[..|tries| - 1])
     && (tries[|tries| - 1].TryOlder? ==>
           Wall(readable, Below(Attempts(readable, s, asked, tries[..|tries| - 1]), tries[|tries| - 1].now), PageLimit(asked))))
  }

  /** The start is reached, or the cursor is lower than it was. */
  predicate Moved(was: Reader, r: Reader) { r.complete || Cursor(r) < Cursor(was) }

  lemma {:induction false} TryValid(readable: Entry -> bool, s: Scene, asked: Option<nat>, t: Attempt)
    requires Valid(s.log)
    ensures Valid(Attempts(readable, s, asked, [t]).log)
  {
    assert [t][..0] == [] && Attempts(readable, s, asked, []) == s;
    match t
    case Change(op) => ApplyValid(s.log, op);
    case TryOlder(now) => FilterOrdered(Unexpired(now), s.log.entries);
  }

  lemma {:induction false} TryMoves(readable: Entry -> bool, s: Scene, asked: Option<nat>, now: nat)
    requires Valid(s.log) && !s.reader.complete
    ensures var r' := LoadOlder(readable, s, asked, now).reader;
            if Wall(readable, Below(s, now), PageLimit(asked)) then r' == s.reader else Moved(s.reader, r')
  {
    StuckExactly(readable, s, asked, now);
    LoadOlderProgress(readable, s, asked, now);
  }

  /**
   Over any run of requests and changes to the log: the reader stays where it was as long as every request
   meets a wall, and from the first that does not it has moved for good.
   */
  lemma {:induction false} StuckWhileWalled(readable: Entry -> bool, s: Scene, asked: Option<nat>, tries: seq<Attempt>)
    requires Valid(s.log) && !s.reader.complete
    ensures var s' := Attempts(readable, s, asked, tries);
            && Valid(s'.log) && (if WallStands(readable, s, asked, tries) then s'.reader == s.reader else Moved(s.reader, s'.reader))
            && (s'.reader == s.reader <==> WallStands(readable, s, asked, tries))
  {
    if tries != [] {
      var init, last := tries[..|tries| - 1], tries[|tries| - 1];
      var mid := Attempts(readable, s, asked, init);
      StuckWhileWalled(readable, s, asked, init);
      TryValid(readable, mid, asked, last);
      assert [last][..0] == [] && Attempts(readable, mid, asked, []) == mid;
      if last.TryOlder? && !mid.reader.complete { TryMoves(readable, mid, asked, last.now); }
    }
  }

  /** Nothing is redacted or pruned. */
  predicate NothingTakenDown(tries: seq<Attempt>) {
    forall i :: 0 <= i < |tries| && tries[i].Change? ==> !tries[i].op.RedactEntry? && !tries[i].op.PruneEntries?
  }

  /** Such a wall below the cursor, none of it going to expire. */
  ghost predicate Walled(readable: Entry -> bool, s: Scene, limit: nat) {
    && Valid(s.log) && !s.reader.complete && Cursor(s.reader) <= s.log.lastSeq + 1
    && (forall e :: e in s.log.entries && e.seqno < Cursor(s.reader) ==> e.expiresAt.None?)
    && Wall(readable, Filter(Older(Cursor(s.reader)), s.log.entries), limit)
  }

  /** What expires elsewhere does not matter. */
  lemma {:induction false} WallLives(s: Scene, now: nat)
    requires forall e :: e in s.log.entries && e.seqno < Cursor(s.reader) ==> e.expiresAt.None?
    ensures Below(s, now) == Filter(Older(Cursor(s.reader)), s.log.entries)
  {
    var below := Filter(Older(Cursor(s.reader)), s.log.entries);
    FilterCommutes(Older(Cursor(s.reader)), Unexpired(now), s.log.entries);
    FilterSubset(Older(Cursor(s.reader)), s.log.entries);
    FilterAll(Unexpired(now), below);
  }

  lemma {:induction false} WallAfterPurge(readable: Entry -> bool, s: Scene, limit: nat, now: nat)
    requires Walled(readable, s, limit)
    ensures Walled(readable, s.(log := Purge(s.log, now)), limit)
  {
    WallLives(s, now);
    FilterOrdered(Unexpired(now), s.log.entries);
  }

  lemma {:induction false} WallAfterTry(readable: Entry -> bool, s: Scene, asked: Option<nat>, now: nat)
    requires Walled(readable, s, PageLimit(asked))
    ensures LoadOlder(readable, s, asked, now) == s.(log := Purge(s.log, now))
  {
    WallLives(s, now);
    StuckExactly(readable, s, asked, now);
  }

  lemma {:induction false} PostIsAbove(l: Log, n: nat, e: Entry)
    requires e.seqno == l.lastSeq + 1 && n <= l.lastSeq + 1
    ensures Filter(Older(n), l.entries + [e]) == Filter(Older(n), l.entries)
  {
    FilterConcat(Older(n), l.entries, [e]);
    FilterNone(Older(n), [e]);
  }

  lemma {:induction false} WallAfterPost(readable: Entry -> bool, s: Scene, limit: nat, author: User, ts: nat, expiresAt: Option<nat>, payload: Bytes)
    requires Walled(readable, s, limit)
    ensures Walled(readable, s.(log := Add(s.log, author, ts, expiresAt, payload)), limit)
  {
    PostIsAbove(s.log, Cursor(s.reader), Entry(s.log.lastSeq + 1, ts, expiresAt, payload, author));
    ApplyValid(s.log, Append(author, ts, expiresAt, payload));
  }

  lemma {:induction false} WallAfterChange(readable: Entry -> bool, s: Scene, limit: nat, op: Op)
    requires Walled(readable, s, limit) && !op.RedactEntry? && !op.PruneEntries?
    ensures Walled(readable, s.(log := Apply(s.log, op).0), limit)
  {
    match op
    case Append(author, ts, expiresAt, payload) => WallAfterPost(readable, s, limit, author, ts, expiresAt, payload);
    case Fetch(page, now) => WallAfterPurge(readable, s, limit, now);
    case Sweep(now) => WallAfterPurge(readable, s, limit, now);
    case Count(afterTs, exclude, now) =>
  }

  /**
   A wall that will not expire and is not taken down stays for good: however often the device asks again,
   and whatever is posted or expires elsewhere, the reader does not move.
   */
  lemma {:induction false} StuckForever(readable: Entry -> bool, s: Scene, asked: Option<nat>, tries: seq<Attempt>)
    requires Walled(readable, s, PageLimit(asked)) && NothingTakenDown(tries)
    ensures var s' := Attempts(readable, s, asked, tries); s'.reader == s.reader && Walled(readable, s', PageLimit(asked))
  {
    if tries != [] {
      var mid := Attempts(readable, s, asked, tries[..|tries| - 1]);
      StuckForever(readable, s, asked, tries[..|tries| - 1]);
      match tries[|tries| - 1]
      case Change(op) => WallAfterChange(readable, mid, PageLimit(asked), op);
      case TryOlder(now) =>
        WallAfterTry(readable, mid, asked, now);
        WallAfterPurge(readable, mid, PageLimit(asked), now);
    }
  }

  /** A device that can open the first entry of a log and the last, but none between. */
  function Ends(n: nat): Entry -> bool { (e: Entry) => e.seqno == 1 || e.seqno == n }

  /** A page and two more. */
  function Damaged(limit: nat): (log: Log) { Log(limit + 2, Numbered(1, limit + 2)) }

  /** The reader that has opened the last of them. */
  function AtTheWall(limit: nat): (r: Reader) {
    Reader(Some(limit + 2), limit + 2, false, [Numbered(1, limit + 2)[limit + 1]])
  }

  lemma {:induction false} OnlyLast(es: seq<Entry>, n: nat)
    requires es != [] && es[|es| - 1].seqno == n && forall i :: 0 <= i < |es| - 1 ==> 1 < es[i].seqno < n
    ensures Filter(Ends(n), es) == [es[|es| - 1]]
  {
    FilterNone(Ends(n), es[..|es| - 1]);
  }

  lemma {:induction false} OpensLast(limit: nat)
    requires 1 <= limit <= HISTORY_PAGE_MAX
    ensures var es, page := Numbered(1, limit + 2), Before(MAX_SAFE_INTEGER, limit);
            Fold(Ends(limit + 2), UNOPENED, page, ReadPage(es, page)) == AtTheWall(limit)
  {
    var es := Numbered(1, limit + 2);
    LastPage(es, limit);
    OnlyLast(es[2..], limit + 2);
    assert [es[limit + 1]][..0] == [];
    assert AddEntries(UNOPENED, [es[limit + 1]]) == AtTheWall(limit);
  }

  lemma {:induction false} BelowTheWall(limit: nat)
    requires limit >= 1
    ensures Wall(Ends(limit + 2), Filter(Older(limit + 2), Numbered(1, limit + 2)), limit)
  {
    var es := Numbered(1, limit + 2);
    var init := es[..limit + 1];
    assert Filter(Older(limit + 2), es) == init by {
      assert es == init + [es[limit + 1]];
      FilterConcat(Older(limit + 2), init, [es[limit + 1]]);
      FilterAll(Older(limit + 2), init);
      FilterNone(Older(limit + 2), [es[limit + 1]]);
    }
    FilterNone(Ends(limit + 2), init[1..]);
  }

  lemma {:induction false} DamagedWalled(limit: nat)
    requires limit >= 1
    ensures Walled(Ends(limit + 2), Scene(Damaged(limit), AtTheWall(limit), map[]), limit)
  {
    BelowTheWall(limit);
  }

  lemma {:induction false} DamagedOpens(asked: Option<nat>)
    ensures var limit := PageLimit(asked);
            LoadOlder(Ends(limit + 2), Scene(Damaged(limit), UNOPENED, map[]), asked, 0) == Scene(Damaged(limit), AtTheWall(limit), map[])
  {
    var limit := PageLimit(asked);
    assert Purge(Damaged(limit), 0) == Damaged(limit) by { FilterAll(Unexpired(0), Damaged(limit).entries); }
    OpensLast(limit);
  }

  /**
   Such a device is stuck once it has read the last entry: the first one, which it could open, is
   out of reach for good.
   */
  lemma {:induction false} DamagedPageHidesTheRest(asked: Option<nat>, tries: seq<Attempt>)
    requires NothingTakenDown(tries)
    ensures var limit := PageLimit(asked);
            var first := Damaged(limit).entries[0];
            var s := LoadOlder(Ends(limit + 2), Scene(Damaged(limit), UNOPENED, map[]), asked, 0);
            Ends(limit + 2)(first) && first !in Attempts(Ends(limit + 2), s, asked, tries).reader.got
  {
    var limit := PageLimit(asked);
    DamagedOpens(asked);
    DamagedWalled(limit);
    StuckForever(Ends(limit + 2), Scene(Damaged(limit), AtTheWall(limit), map[]), asked, tries);
  }

  /** Otherwise it makes progress: the start is reached, or the cursor moves down. */
  lemma {:induction false} LoadOlderProgress(readable: Entry -> bool, s: Scene, asked: Option<nat>, now: nat)
    requires Ordered(s.log.entries) && !s.reader.complete
    ensures var r' := LoadOlder(readable, s, asked, now).reader;
            r' == s.reader || r'.complete || (r'.oldest.Some? && r'.oldest.value < Cursor(s.reader))
  {
    var es, page := Living(s.log.entries, now), Before(Cursor(s.reader), PageLimit(asked));
    FilterOrdered(Unexpired(now), s.log.entries);
    BackwardPage(es, Cursor(s.reader), PageLimit(asked));
    var reply := ReadPage(es, page);
    FoldStays(readable, s.reader, page, reply);
    FoldNumbers(readable, s.reader, page, reply, Entry(0, 0, None, [], ""));
  }

  /** How many backward replies a run folded in. */
  function Loads(readable: Entry -> bool, s: Scene, events: seq<Event>): (n: nat) {
    if events == [] then 0
    else
      var init, ev := events[..|events| - 1], events[|events| - 1];
      var mid := Run(readable, s, init);
      Loads(readable, s, init) +
      if ev.FoldReply? && ev.id in mid.pending && mid.pending[ev.id].Answered? && mid.pending[ev.id].page.Before? then 1 else 0
  }

  /** Folding a reply that matches, all of which can be opened: a backward one lowers the cursor or reaches the start. */
  lemma {:induction false} FoldLowers(r: Reader, page: Page, reply: Reply, es: seq<Entry>, top: nat)
    requires Bounded(r) && Matches(r, page) && Vouches(es, page, reply, top) && r.oldest.Some? && !r.complete
    ensures var r' := Fold(Everything(), r, page, reply);
            r'.complete || (r'.oldest.Some? && r'.oldest.value + (if page.Before? then 1 else 0) <= r.oldest.value)
  {
    FilterAll(Everything(), reply.0);
    FoldNumbers(Everything(), r, page, reply, Entry(0, 0, None, [], ""));
  }

  /** For a device that can open every entry and asks one thing at a time the walk ends: each backward reply
      moves the cursor below where it was, whatever happens in between, until the start is reached. */
  lemma {:induction false} WalkEnds(s: Scene, events: seq<Event>)
    requires Inv(Everything(), s) && Solo(s) && SoloRun(Everything(), s, events) && s.reader.oldest.Some?
    requires Run(Everything(), s, events).log.lastSeq + 2 < MAX_SAFE_INTEGER
    ensures var r := Run(Everything(), s, events).reader;
            r.complete || (r.oldest.Some? && 1 <= r.oldest.value && r.oldest.value + Loads(Everything(), s, events) <= s.reader.oldest.value)
    ensures Loads(Everything(), s, events) >= s.reader.oldest.value ==> Run(Everything(), s, events).reader.complete
  {
    if events != [] {
      var init, ev := events[..|events| - 1], events[|events| - 1];
      var mid := Run(Everything(), s, init);
      LastSeqGrows(Everything(), mid, ev);
      WalkEnds(s, init);
      SoloRunsFit(Everything(), s, init);
      ReadingIsExact(Everything(), s, init);
      SoloRunsFit(Everything(), s, events);
      ReadingIsExact(Everything(), s, events);
      if ev.FoldReply? && ev.id in mid.pending && mid.pending[ev.id].Answered? {
        var f := mid.pending[ev.id];
        assert PendingOk(mid.log, mid.reader, f) && Matches(mid.reader, f.page);
        if !mid.reader.complete { FoldLowers(mid.reader, f.page, f.reply, mid.log.entries, f.top); }
      }
    }
  }
}
