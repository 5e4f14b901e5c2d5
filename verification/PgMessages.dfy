/**
 A group's message log in SQL (relay/src/pg.rs): the group's row carries `last_seq` and `epoch`,
 and a conditional UPDATE accepts a commit. It refines the in-memory log of `GroupLog`.
 */
module PgMessages {
  import opened Common
  import opened Seqs
  import opened Sql
  import GroupLog

  type Thread = GroupLog.Thread<Bytes>
  type Message = GroupLog.Message<Bytes>

  datatype Row = Row(epoch: int, sender: User, payload: Bytes)

  /** The group's row in `groups` and its rows in `messages`. */
  datatype Table = Table(lastSeq: nat, epoch: int, messages: map<nat, Row>)

  function ToMessage(seqno: nat, r: Row): (m: Message) { GroupLog.Message(seqno, AsU64(r.epoch), r.sender, r.payload) }

  function Insert(t: Table, epoch: nat, sender: User, payload: Bytes): (t': Table) {
    t.(lastSeq := t.lastSeq + 1, messages := t.messages[t.lastSeq + 1 := Row(AsI64(epoch), sender, payload)])
  }

  /**
   `append_message`. The UPDATE's `$2 - 1` is evaluated in signed 64-bit arithmetic, which
   fails for the smallest value; a group without a row is a group that does not exist.
   */
  function QueryAppend(g: Option<Table>, epoch: nat, sender: User, payload: Bytes, commit: bool)
    : (r: (Option<Table>, Result<nat>))
  {
    if commit then
      if AsI64(epoch) == -I64_MAX - 1 then (g, Err(Backend))
      else if g.Some? && g.value.epoch == AsI64(epoch) - 1 then
        (Some(Insert(g.value, epoch, sender, payload).(epoch := AsI64(epoch))), Ok(g.value.lastSeq + 1))
      else (g, Err(if g.Some? then EpochConflict else NoSuchGroup))
    else if g.Some? then
      (Some(Insert(g.value, epoch, sender, payload)), Ok(g.value.lastSeq + 1))
    else (g, Err(NoSuchGroup))
  }

  function KeyAbove(n: int): (nat, Row) -> bool { (k: nat, r: Row) => k > n }

  /** `messages_after`; the cursor is cast without being clamped. */
  function QueryAfter(g: Option<Table>, after: nat): (r: Result<seq<Message>>) {
    if g.None? then Err(NoSuchGroup)
    else Ok(Ascending(Where(g.value.messages, KeyAbove(AsI64(after))), ToMessage, g.value.lastSeq + 1))
  }

  // ------------------------------------------------------------------ the in-memory store

  function MemoryAppend(g: Option<Thread>, epoch: nat, sender: User, payload: Bytes, commit: bool)
    : (r: (Option<Thread>, Result<nat>))
  {
    if g.None? then (g, Err(NoSuchGroup))
    else
      var (t, out) := GroupLog.Append(g.value, epoch, sender, payload, commit);
      (Some(t), out)
  }

  function MemoryAfter(g: Option<Thread>, after: nat): (r: Result<seq<Message>>) {
    if g.None? then Err(NoSuchGroup) else Ok(GroupLog.After(g.value, after))
  }

  // -------------------------------------------------------------------------- refinement

  /** Every number up to `last_seq` has its row, and the epoch never left the column's range. */
  ghost predicate Sound(t: Table) {
    0 <= t.epoch && forall k :: k in t.messages <==> 1 <= k <= t.lastSeq
  }

  function ThreadOf(t: Table): (r: Thread) {
    GroupLog.Thread(AsU64(t.epoch), Ascending(t.messages, ToMessage, t.lastSeq + 1))
  }

  function GroupOf(g: Option<Table>): (r: Option<Thread>) {
    if g.None? then None else Some(ThreadOf(g.value))
  }

  /** The log read out of the rows is numbered 1, 2, 3, ... */
  lemma {:induction false} RowsAreDense(rows: map<nat, Row>, n: nat)
    requires n >= 1 && 0 !in rows && forall k :: 1 <= k < n ==> k in rows
    ensures var log := Ascending(rows, ToMessage, n);
            |log| == n - 1 && forall i :: 0 <= i < |log| ==> log[i].seqno == i + 1
  {
    if n > 1 { RowsAreDense(rows, n - 1); }
  }

  lemma {:induction false} InsertExtends(t: Table, epoch: nat, sender: User, payload: Bytes)
    requires Sound(t) && epoch < U64
    ensures Sound(Insert(t, epoch, sender, payload))
    ensures ThreadOf(Insert(t, epoch, sender, payload)).log ==
            ThreadOf(t).log + [GroupLog.Message(t.lastSeq + 1, epoch, sender, payload)]
    ensures |ThreadOf(t).log| == t.lastSeq
  {
    var k := t.lastSeq + 1;
    RowsAreDense(t.messages, k);
    AscendingSame(t.messages[k := Row(AsI64(epoch), sender, payload)], t.messages, ToMessage, k);
    assert AsU64(AsI64(epoch)) == epoch;
  }

  /** The one request the two stores answer differently. */
  predicate Overflows(epoch: nat, commit: bool) { commit && epoch == I64_MAX + 1 }

  /**
   One append: the table goes on holding the in-memory log, and the answers agree exactly
   unless a commit names epoch 2^63, which the database rejects as an arithmetic error.
   */
  lemma {:induction false} AppendRefines(g: Option<Table>, epoch: nat, sender: User, payload: Bytes, commit: bool)
    requires g.Some? ==> Sound(g.value) && g.value.epoch < I64_MAX
    requires epoch < U64
    ensures var (g', out) := QueryAppend(g, epoch, sender, payload, commit);
            var (m', expected) := MemoryAppend(GroupOf(g), epoch, sender, payload, commit);
            && (g'.Some? ==> Sound(g'.value)) && GroupOf(g') == m'
            && (out == expected <==> !Overflows(epoch, commit))
            && (g'.Some? ==> g.Some? && g'.value.epoch <= g.value.epoch + 1)
  {
    if g.Some? { InsertExtends(g.value, epoch, sender, payload); }
  }

  /** Reading after a cursor: the same answer exactly for cursors that fit the column. */
  lemma {:induction false} AfterRefines(t: Table, after: nat)
    requires Sound(t) && after < U64 && t.lastSeq <= I64_MAX
    ensures QueryAfter(Some(t), after) == MemoryAfter(Some(ThreadOf(t)), after) <==> after <= I64_MAX || t.lastSeq == 0
  {
    RowsAreDense(t.messages, t.lastSeq + 1);
    GroupLog.AfterIsSuffix(ThreadOf(t), after);
    var newer := (m: Message) => m.seqno > after;
    if after <= I64_MAX {
      WhereIsFilter(t.messages, ToMessage, KeyAbove(after), newer, t.lastSeq + 1);
    } else {
      assert Where(t.messages, KeyAbove(AsI64(after))) == t.messages;
    }
  }

  type Request = GroupLog.Request<Bytes>

  function QueryAll(g: Option<Table>, requests: seq<Request>): (r: Option<Table>) {
    if requests == [] then g
    else
      var last := requests[|requests| - 1];
      QueryAppend(QueryAll(g, requests[..|requests| - 1]), last.epoch, last.sender, last.payload, last.commit).0
  }

  function QueryAnswers(g: Option<Table>, requests: seq<Request>): (r: seq<Result<nat>>)
    ensures |r| == |requests|
  {
    if requests == [] then []
    else
      var init, last := requests[..|requests| - 1], requests[|requests| - 1];
      QueryAnswers(g, init) + [QueryAppend(QueryAll(g, init), last.epoch, last.sender, last.payload, last.commit).1]
  }

  function MemoryAnswers(t: Thread, requests: seq<Request>): (r: seq<Result<nat>>)
    ensures |r| == |requests|
  {
    if requests == [] then []
    else
      var init, last := requests[..|requests| - 1], requests[|requests| - 1];
      MemoryAnswers(t, init) + [GroupLog.Append(GroupLog.AppendAll(t, init), last.epoch, last.sender, last.payload, last.commit).1]
  }

  /**
   Over any run of sends — refused, accepted, committing or not — the rows are the in-memory log, and
   each answer is the in-memory one exactly unless it answers a commit that names epoch 2^63.
   */
  lemma {:induction false} RowsRefineLog(t: Table, requests: seq<Request>)
    requires Sound(t) && t.epoch + |requests| <= I64_MAX
    requires forall i :: 0 <= i < |requests| ==> requests[i].epoch < U64
    ensures var g := QueryAll(Some(t), requests);
            && g.Some? && Sound(g.value) && g.value.epoch <= t.epoch + |requests|
            && ThreadOf(g.value) == GroupLog.AppendAll(ThreadOf(t), requests)
    ensures var here, there := QueryAnswers(Some(t), requests), MemoryAnswers(ThreadOf(t), requests);
            forall i :: 0 <= i < |requests| ==> (here[i] == there[i] <==> !Overflows(requests[i].epoch, requests[i].commit))
  {
    if requests != [] {
      var init, last := requests[..|requests| - 1], requests[|requests| - 1];
      RowsRefineLog(t, init);
      AppendRefines(QueryAll(Some(t), init), last.epoch, last.sender, last.payload, last.commit);
    }
  }
}
