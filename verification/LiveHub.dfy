/**
 The hub as the relay runs it (relay/src/server.rs): maps changed in place under its lock, one
 subscriber after another. Each method is the step of `Delivery` it stands for.
 */
module LiveHub {
  import opened Common
  import opened GroupLog
  import opened Delivery

  /** A user's subscription is on a connection that user authenticated on. */
  ghost predicate Owned(subs: map<User, Subscription>) { forall u :: u in subs ==> subs[u].conn.user == u }

  /** The queue of `c` once every subscriber but those in `left` has been offered the item. */
  function SoFar(all: map<User, Subscription>, left: set<User>, sender: User, item: Item, c: Conn, q: Queue): (r: Queue) {
    if c.user != sender && c.user in all && c.user !in left && all[c.user].conn == c && HasRoom(q)
    then q.(items := q.items + [item]) else q
  }

  /** The retain loop over a group's subscribers, in whatever order the map yields them. */
  method OfferAll(all: map<User, Subscription>, before: map<Conn, Queue>, sender: User, item: Item)
    returns (kept: map<User, Subscription>, queues: map<Conn, Queue>)
    requires Owned(all)
    ensures kept == Kept(all, before, sender) && queues == Offered(all, before, sender, item)
  {
    var left := all.Keys;
    kept, queues := all, before;
    while left != {}
      invariant left <= all.Keys && kept.Keys <= all.Keys && queues.Keys == before.Keys
      invariant forall u :: u in kept ==> kept[u] == all[u]
      invariant forall u :: u in all && u in left ==> u in kept
      invariant forall u :: u in all && u !in left ==>
        (u in kept <==> u == sender || (all[u].conn in before && HasRoom(before[all[u].conn])))
      invariant forall c :: c in before ==> queues[c] == SoFar(all, left, sender, item, c, before[c])
      decreases |left|
    {
      var u :| u in left;
      left := left - {u};
      if u != sender {
        var c := all[u].conn;
        assert c.user == u && (c in before ==> queues[c] == before[c]);
        if c in queues && HasRoom(queues[c]) {
          queues := queues[c := queues[c].(items := queues[c].items + [item])];
        } else {
          kept := kept - {u};
        }
      }
    }
  }

  /** The loop over every group's subscribers when a connection closes: only what it still owns goes. */
  method DropOwned(before: map<Group, map<User, Subscription>>, conn: Conn) returns (subs: map<Group, map<User, Subscription>>)
    ensures subs.Keys == before.Keys
    ensures forall g :: g in before ==> subs[g] == WithoutOwned(before[g], conn)
  {
    subs := before;
    var left := before.Keys;
    while left != {}
      invariant left <= before.Keys == subs.Keys
      invariant forall g :: g in before ==> subs[g] == if g in left then before[g] else WithoutOwned(before[g], conn)
      decreases |left|
    {
      var g :| g in left;
      left := left - {g};
      if conn.user in subs[g] && subs[g][conn.user].conn == conn {
        subs := subs[g := subs[g] - {conn.user}];
      }
    }
  }

  function WithoutOwned(subs: map<User, Subscription>, conn: Conn): (r: map<User, Subscription>) {
    if conn.user in subs && subs[conn.user].conn == conn then subs - {conn.user} else subs
  }

  /** One `send` after another. */
  method SendAll(before: Queue, items: seq<Item>) returns (q: Queue)
    ensures q == Send(before, items)
  {
    q := before;
    for i := 0 to |items|
      invariant q == Send(before, items[..i])
    {
      assert items[..i + 1] == items[..i] + [items[i]];
      q := Send(q, [items[i]]);
    }
    assert items[..|items|] == items;
  }

  class HubServer {
    var threads: map<Group, Thread<Bytes>>
    var sending: map<Group, InFlight>
    var subs: map<Group, map<User, Subscription>>
    var queues: map<Conn, Queue>
    var acks: set<(Conn, Group, nat)>

    ghost function Model(): (h: Delivery.Hub)
      reads this
    {
      Delivery.Hub(threads, sending, subs, queues, acks)
    }

    ghost predicate Valid()
      reads this
    {
      forall g :: g in subs ==> Owned(subs[g])
    }

    constructor ()
      ensures Valid() && Model() == Delivery.EMPTY
    {
      threads, sending, subs, queues, acks := map[], map[], map[], map[], {};
    }

    /** The second half of Send: fan out under the hub lock and release the group's send lock. */
    method FanOut(g: Group)
      requires Valid()
      modifies this
      ensures Valid() && Model() == DoFanOut(old(Model()), g)
    {
      if g !in sending { return; }
      var flight := sending[g];
      if g in subs {
        var kept, offered := OfferAll(subs[g], queues, flight.post.sender, Msg(g, flight.post));
        subs := subs[g := kept];
        queues := offered;
      }
      sending := sending - {g};
      acks := acks + {(flight.conn, g, flight.post.seqno)};
    }

    /** The first half: append under the group's send lock, which is held until the fan-out. */
    method AppendPost(conn: Conn, g: Group, epoch: nat, payload: Bytes, commit: bool) returns (r: Result<nat>)
      requires Valid() && g !in sending && conn in queues
      modifies this
      ensures Valid() && Model() == DoAppend(old(Model()), conn, g, epoch, payload, commit)
      ensures r.Ok? <==> g in old(threads) && Append(old(threads)[g], epoch, conn.user, payload, commit).1.Ok?
    {
      if g !in threads { return Err(NoSuchGroup); }
      var (t, out) := Append(threads[g], epoch, conn.user, payload, commit);
      if out.Ok? {
        threads := threads[g := t];
        sending := sending[g := InFlight(conn, t.log[|t.log| - 1])];
      }
      return out;
    }

    /** Register and backfill under one hold of the lock. */
    method Subscribe(conn: Conn, g: Group, after: nat)
      requires Valid()
      modifies this
      ensures Valid() && Model() == DoSubscribe(old(Model()), conn, g, after)
    {
      if g !in threads || conn !in queues { return; }
      var backlog := After(threads[g], after);
      var before := if g in subs then subs[g] else map[];
      var fanned := if g in sending && |threads[g].log| > 0 then |threads[g].log| - 1 else |threads[g].log|;
      subs := subs[g := before[conn.user := Subscription(conn, Session(|queues[conn].items|, after, |threads[g].log|, fanned))]];
      var q := SendAll(queues[conn], Catchup(g, backlog));
      queues := queues[conn := q];
    }

    method Teardown(conn: Conn)
      requires Valid()
      modifies this
      ensures Valid() && Model() == DoTeardown(old(Model()), conn)
    {
      subs := DropOwned(subs, conn);
      assert subs == DoTeardown(old(Model()), conn).subs;
      if conn in queues { queues := queues[conn := queues[conn].(open := false)]; }
    }
  }
}
