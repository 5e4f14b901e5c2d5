/** The SQL store's methods as they run (relay/src/pg.rs): rows changed by UPDATE, INSERT and DELETE. */
module PgStore {
  import opened Common
  import opened Sql
  import History
  import PgHistory
  import PgMessages

  type Hid = string

  /** The first and last `n` turned around, the middle as it was. */
  ghost function Turned(s: seq<History.Entry>, n: nat): (r: seq<History.Entry>)
    ensures |r| == |s| && forall i :: 0 <= i < |s| ==> r[i] == if i < n || |s| - n <= i then s[|s| - 1 - i] else s[i]
  {
    seq(|s|, i requires 0 <= i < |s| => if i < n || |s| - n <= i then s[|s| - 1 - i] else s[i])
  }

  lemma {:induction false} TurnOneMore(s: seq<History.Entry>, n: nat)
    requires 2 * n + 1 < |s|
    ensures Turned(s, n + 1) == Turned(s, n)[n := s[|s| - 1 - n]][|s| - 1 - n := s[n]]
  {
  }

  /** `entries.reverse()`: rows come newest first and are handed out oldest first, swapped from the two ends inward. */
  method OldestFirst(rows: array<History.Entry>)
    modifies rows
    ensures rows[..] == Reverse(old(rows[..]))
  {
    ghost var was := rows[..];
    var n := 0;
    assert Turned(was, 0) == was;
    while 2 * n + 1 < rows.Length
      invariant 2 * n <= rows.Length + 1 && rows[..] == Turned(was, n)
    {
      var last := rows.Length - 1 - n;
      assert rows[n] == rows[..][n] && rows[last] == rows[..][last];
      TurnOneMore(was, n);
      var row := rows[n];
      rows[n] := rows[last];
      rows[last] := row;
      n := n + 1;
    }
    assert Turned(was, n) == Reverse(was);
  }

  class Database {
    var groups: map<Group, PgMessages.Table>
    var logs: map<(Group, Hid), PgHistory.Table>

    function GroupRow(g: Group): (t: Option<PgMessages.Table>)
      reads this
    {
      if g in groups then Some(groups[g]) else None
    }

    /** A log without a counter row has handed out nothing. */
    function LogTable(g: Group, hid: Hid): (t: PgHistory.Table)
      reads this
    {
      if (g, hid) in logs then logs[(g, hid)] else PgHistory.Table(0, map[])
    }

    /** One transaction: the conditional UPDATE allocates the number, then the row goes in. */
    method AppendMessage(g: Group, epoch: nat, sender: User, payload: Bytes, commit: bool) returns (r: Result<nat>)
      modifies this`groups
      ensures var (row, out) := PgMessages.QueryAppend(old(GroupRow(g)), epoch, sender, payload, commit);
              GroupRow(g) == row && r == out
      ensures forall h :: h != g ==> GroupRow(h) == old(GroupRow(h))
    {
      if commit {
        if AsI64(epoch) == -I64_MAX - 1 { return Err(Backend); }
        if g !in groups { return Err(NoSuchGroup); }
        if groups[g].epoch != AsI64(epoch) - 1 { return Err(EpochConflict); }
        groups := groups[g := groups[g].(lastSeq := groups[g].lastSeq + 1, epoch := AsI64(epoch))];
      } else {
        if g !in groups { return Err(NoSuchGroup); }
        groups := groups[g := groups[g].(lastSeq := groups[g].lastSeq + 1)];
      }
      var seqno := groups[g].lastSeq;
      groups := groups[g := groups[g].(messages := groups[g].messages[seqno := PgMessages.Row(AsI64(epoch), sender, payload)])];
      return Ok(seqno);
    }

    /** The counter upsert, then the row. */
    method AppendHistory(g: Group, hid: Hid, author: User, ts: nat, expiresAt: Option<nat>, payload: Bytes) returns (r: Result<nat>)
      modifies this`logs
      ensures g !in groups ==> r == Err(NoSuchGroup) && logs == old(logs)
      ensures g in groups ==>
                var (t, out) := PgHistory.QueryApply(old(LogTable(g, hid)), History.Append(author, ts, expiresAt, payload));
                logs == old(logs)[(g, hid) := t] && r == Ok(out.seqno)
    {
      if g !in groups { return Err(NoSuchGroup); }
      var t := LogTable(g, hid);
      t := t.(counter := t.counter + 1);
      t := t.(rows := t.rows[t.counter := PgHistory.ToRow(ts, expiresAt, payload, author)]);
      logs := logs[(g, hid) := t];
      return Ok(t.counter);
    }

    /** Delete what expired, select one row too many, cut, and turn a backward page around. */
    method HistoryPage(g: Group, hid: Hid, page: History.Page, now: nat) returns (r: Result<(seq<History.Entry>, bool)>)
      modifies this`logs
      ensures g !in groups ==> r == Err(NoSuchGroup) && logs == old(logs)
      ensures g in groups ==>
                var (t, out) := PgHistory.QueryApply(old(LogTable(g, hid)), History.Fetch(page, now));
                logs == old(logs)[(g, hid) := t] && r == Ok((out.entries, out.complete))
    {
      if g !in groups { return Err(NoSuchGroup); }
      var t := LogTable(g, hid);
      t := t.(rows := Where(t.rows, PgHistory.DropExpired(AsI64(now))));
      logs := logs[(g, hid) := t];
      var rows, limit;
      match page {
        case After(after, n) =>
          limit := n;
          rows := Limit(Ascending(Where(t.rows, PgHistory.KeyAbove(AsI64(after))), PgHistory.ToEntry, t.counter + 1), limit + 1);
        case Before(before, n) =>
          limit := n;
          rows := Limit(Descending(Where(t.rows, PgHistory.KeyBelow(AsI64(before))), PgHistory.ToEntry, t.counter + 1), limit + 1);
      }
      var more := |rows| > limit;
      var taken := Limit(rows, limit);
      var complete := !more && (page.After? ==> page.after == 0);
      if page.After? { return Ok((taken, complete)); }
      var entries := new History.Entry[|taken|](i requires 0 <= i < |taken| => taken[i]);
      assert entries[..] == taken;
      OldestFirst(entries);
      return Ok((entries[..], complete));
    }
  }
}
