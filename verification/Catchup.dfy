/**
 What one client ends up holding of one group, through any number of connections, full
 queues, dropped subscriptions and lost connections. The client keeps a cursor: the highest
 sequence number it has been sent, or been told its own message got
 (client/src/lib/controller.js), and resubscribes from it.
 */
module Catchup {
  import opened Common
  import opened Seqs
  import opened GroupLog
  import opened Delivery

  /** The client's side: its current connection, how much it has read of it, and what it has seen. */
  datatype View = View(conn: Option<Conn>, got: nat, cursor: nat, seen: set<nat>)

  datatype World = World(hub: Hub, view: View)

  datatype Move = Relay(step: Step) | Connect(conn: Conn) | Receive

  const START := World(EMPTY, View(None, 0, 0, {}))

  function LogOf(h: Hub, g: Group): (r: seq<Post>) {
    if g in h.threads then h.threads[g].log else []
  }

  /** The client subscribes to `g` only from its cursor, as it was when it asked. */
  predicate Asks(g: Group, v: View, s: Step) {
    s.Subscribe? && s.group == g && Some(s.conn) == v.conn ==> s.after <= v.cursor
  }

  function Move1(u: User, g: Group, w: World, m: Move): (r: World) {
    match m
    case Relay(s) => if Asks(g, w.view, s) then w.(hub := Next(w.hub, s)) else w
    case Connect(c) =>
      if c.user == u && c !in w.hub.queues
      then World(Next(w.hub, Open(c)), w.view.(conn := Some(c), got := 0)) else w
    case Receive =>
      if w.view.conn.Some? && w.view.conn.value in w.hub.queues
      then
        var q := w.hub.queues[w.view.conn.value];
        if w.view.got < q.taken <= |q.items| then w.(view := Read(g, w.view, q.items[w.view.got])) else w
      else w
  }

  /** Every stored post advances the resume point, and so does the answer to one's own send. */
  function Read(g: Group, v: View, item: Item): (r: View) {
    var v' := v.(got := v.got + 1);
    if item.Msg? && item.group == g
    then v'.(seen := v.seen + {item.post.seqno}, cursor := Max(v.cursor, item.post.seqno))
    else if item.Ack? && item.group == g then v'.(cursor := Max(v.cursor, item.seqno))
    else v'
  }

  function Moves(u: User, g: Group, w: World, moves: seq<Move>): (r: World) {
    if moves == [] then w else Move1(u, g, Moves(u, g, w, moves[..|moves| - 1]), moves[|moves| - 1])
  }

  /** The client holds post number `t`, or wrote it. */
  predicate Covered(u: User, log: seq<Post>, v: View, t: nat) {
    t in v.seen || (1 <= t <= |log| && log[t - 1].sender == u)
  }

  /** Post number `t` of `g` lies in `items[lo..hi]`. */
  ghost predicate Waits(g: Group, items: seq<Item>, lo: nat, hi: nat, t: nat) {
    exists p :: lo <= p < hi <= |items| && items[p].Msg? && items[p].group == g && items[p].post.seqno == t
  }

  /** Everything before `n` is held, or comes earlier in the queue than position `hi`. */
  ghost predicate Ready(u: User, g: Group, log: seq<Post>, v: View, items: seq<Item>, hi: nat, n: nat) {
    forall t :: 1 <= t < n ==> Covered(u, log, v, t) || Waits(g, items, v.got, hi, t)
  }

  /** The sequence number an item moves the cursor to, if any. */
  function Mark(g: Group, item: Item): (n: Option<nat>) {
    if item.Msg? && item.group == g then Some(item.post.seqno)
    else if item.Ack? && item.group == g then Some(item.seqno)
    else None
  }

  /** An item at position `p` is genuine and leaves no gap behind it. */
  ghost predicate ItemOk(u: User, g: Group, log: seq<Post>, v: View, items: seq<Item>, p: nat)
    requires p < |items|
  {
    var n := Mark(g, items[p]);
    n.Some? ==>
      && 1 <= n.value <= |log|
      && (items[p].Msg? ==> items[p].post == log[n.value - 1])
      && (items[p].Ack? ==> log[n.value - 1].sender == u)
      && Ready(u, g, log, v, items, p, n.value)
  }

  ghost predicate QueueOk(u: User, g: Group, log: seq<Post>, v: View, items: seq<Item>) {
    && v.got <= |items|
    && (forall p :: v.got <= p < |items| ==> ItemOk(u, g, log, v, items, p))
    && (forall p :: 0 <= p < v.got && items[p].Msg? && items[p].group == g ==> items[p].post.seqno in v.seen)
  }

  predicate SubscribedOn(h: Hub, g: Group, c: Conn) {
    g in h.subs && c.user in h.subs[g] && h.subs[g][c.user].conn == c
  }

  ghost predicate CoveredSoFar(u: User, g: Group, w: World) {
    && w.view.cursor <= |LogOf(w.hub, g)|
    && forall t :: 1 <= t <= w.view.cursor ==> Covered(u, LogOf(w.hub, g), w.view, t)
  }

  /** The acknowledgements still to be queued for the client's own posts leave no gap either. */
  ghost predicate AcksOk(u: User, g: Group, w: World, c: Conn)
    requires c in w.hub.queues
  {
    var log, items := LogOf(w.hub, g), w.hub.queues[c].items;
    && (forall n :: (c, g, n) in w.hub.acks ==>
          1 <= n <= |log| && log[n - 1].sender == u && Ready(u, g, log, w.view, items, |items|, n))
    && (g in w.hub.sending && w.hub.sending[g].conn == c ==>
          w.hub.sending[g].post.sender == u && Ready(u, g, log, w.view, items, |items|, |log|))
  }

  ghost predicate ConnOk(u: User, g: Group, w: World, c: Conn) {
    && c.user == u && c in w.hub.queues
    && QueueOk(u, g, LogOf(w.hub, g), w.view, w.hub.queues[c].items)
    && (SubscribedOn(w.hub, g, c) ==> w.hub.subs[g][u].session.after <= w.view.cursor)
    && (w.hub.queues[c].open ==> AcksOk(u, g, w, c))
  }

  ghost predicate Known(h: Hub) {
    && (forall a :: a in h.acks ==> a.0 in h.queues)
    && (forall g :: g in h.sending ==> h.sending[g].conn in h.queues)
  }

  /** The client's side of the invariant. */
  ghost predicate Good(u: User, g: Group, w: World) {
    && CoveredSoFar(u, g, w)
    && (w.view.conn.Some? ==> ConnOk(u, g, w, w.view.conn.value))
  }

  ghost predicate Sound(u: User, g: Group, w: World) { Inv(w.hub) && Known(w.hub) && Good(u, g, w) }

  // ------------------------------------------------------------------ carrying facts over

  lemma {:induction false} ReadyGrows(u: User, g: Group, log: seq<Post>, log': seq<Post>, v: View,
                                      items: seq<Item>, items': seq<Item>, hi: nat, hi': nat, n: nat)
    requires Ready(u, g, log, v, items, hi, n) && log <= log' && items <= items'
    requires hi <= hi' <= |items'| && hi <= |items|
    ensures Ready(u, g, log', v, items', hi', n)
  {
    forall t | 1 <= t < n ensures Covered(u, log', v, t) || Waits(g, items', v.got, hi', t) {
      if !Covered(u, log, v, t) {
        assert Waits(g, items, v.got, hi, t);
        var p :| v.got <= p < hi <= |items| && items[p].Msg? && items[p].group == g && items[p].post.seqno == t;
        assert items'[p] == items[p];
      }
    }
  }

  lemma {:induction false} QueueGrows(u: User, g: Group, log: seq<Post>, log': seq<Post>, v: View,
                                      items: seq<Item>, items': seq<Item>)
    requires QueueOk(u, g, log, v, items) && log <= log' && items <= items'
    requires forall p :: |items| <= p < |items'| ==> ItemOk(u, g, log', v, items', p)
    ensures QueueOk(u, g, log', v, items')
  {
    forall p | v.got <= p < |items'| ensures ItemOk(u, g, log', v, items', p) {
      if p < |items| {
        assert ItemOk(u, g, log, v, items, p) && items'[p] == items[p];
        var n := Mark(g, items[p]);
        if n.Some? { ReadyGrows(u, g, log, log', v, items, items', p, p, n.value); }
      }
    }
  }

  /** While subscribed on the live connection, every fanned-out post is held or waiting. */
  lemma {:induction false} UpToDate(u: User, g: Group, w: World, c: Conn)
    requires Sound(u, g, w) && w.view.conn == Some(c)
    requires w.hub.queues[c].open && SubscribedOn(w.hub, g, c)
    ensures g in w.hub.threads
    ensures var items := w.hub.queues[c].items;
            Ready(u, g, LogOf(w.hub, g), w.view, items, |items|, Fanned(w.hub, g) + 1)
  {
    var h, v := w.hub, w.view;
    assert SessionOk(h, g, u);
    var log, items := h.threads[g].log, h.queues[c].items;
    forall t | 1 <= t < Fanned(h, g) + 1 ensures Covered(u, log, v, t) || Waits(g, items, v.got, |items|, t) {
      if t <= v.cursor {
        assert Covered(u, LogOf(h, g), v, t);
      } else {
        FannedIsHeldOrWaiting(u, g, h.threads[g], v, items, h.subs[g][u].session, Fanned(h, g), t);
      }
    }
  }

  lemma {:induction false} FannedIsHeldOrWaiting(u: User, g: Group, th: Thread<Bytes>, v: View, items: seq<Item>,
                                                 s: Session, fanned: nat, t: nat)
    requires Dense(th) && QueueOk(u, g, th.log, v, items) && s.start <= |items|
    requires s.from <= s.served <= |th.log| && s.from <= fanned <= |th.log|
    requires Posts(g, items[s.start..]) == Due(th.log, u, s, fanned) && s.after < t <= fanned
    ensures Covered(u, th.log, v, t) || Waits(g, items, v.got, |items|, t)
  {
    DueGapFree(th.log, u, s, fanned);
    if th.log[t - 1].sender != u { HeldOrWaiting(u, g, th.log, v, items, s.start, th.log[t - 1]); }
  }

  lemma {:induction false} HeldOrWaiting(u: User, g: Group, log: seq<Post>, v: View, items: seq<Item>, start: nat, m: Post)
    requires QueueOk(u, g, log, v, items) && start <= |items| && m in Posts(g, items[start..])
    ensures m.seqno in v.seen || Waits(g, items, v.got, |items|, m.seqno)
  {
    var p := PostAt(g, items[start..], m);
    assert items[start + p] == Msg(g, m);
  }

  lemma {:induction false} PostAt(g: Group, items: seq<Item>, m: Post) returns (p: nat)
    requires m in Posts(g, items)
    ensures p < |items| && items[p] == Msg(g, m)
  {
    var last := items[|items| - 1];
    if last == Msg(g, m) {
      p := |items| - 1;
    } else {
      p := PostAt(g, items[..|items| - 1], m);
    }
  }

  /** The client's side after a relay step, from what the step did to its log, queue and subscription. */
  lemma {:induction false} Carry(u: User, g: Group, w: World, r: Hub, c: Conn)
    requires Good(u, g, w) && w.view.conn == Some(c) && LogOf(w.hub, g) <= LogOf(r, g)
    requires c in r.queues && w.hub.queues[c].items <= r.queues[c].items
    requires forall p :: |w.hub.queues[c].items| <= p < |r.queues[c].items|
                         ==> ItemOk(u, g, LogOf(r, g), w.view, r.queues[c].items, p)
    requires SubscribedOn(r, g, c) ==> r.subs[g][u].session.after <= w.view.cursor
    requires r.queues[c].open ==> AcksOk(u, g, w.(hub := r), c)
    ensures Good(u, g, w.(hub := r))
  {
    QueueGrows(u, g, LogOf(w.hub, g), LogOf(r, g), w.view, w.hub.queues[c].items, r.queues[c].items);
    StillCovered(u, g, w, r);
  }

  lemma {:induction false} StillCovered(u: User, g: Group, w: World, r: Hub)
    requires CoveredSoFar(u, g, w) && LogOf(w.hub, g) <= LogOf(r, g)
    ensures CoveredSoFar(u, g, w.(hub := r))
  {
    forall t | 1 <= t <= w.view.cursor ensures Covered(u, LogOf(r, g), w.view, t) {
      assert Covered(u, LogOf(w.hub, g), w.view, t);
    }
  }

  lemma {:induction false} AcksCarry(u: User, g: Group, w: World, r: Hub, c: Conn)
    requires c in w.hub.queues && AcksOk(u, g, w, c)
    requires c in r.queues && w.hub.queues[c].items <= r.queues[c].items && LogOf(w.hub, g) <= LogOf(r, g)
    requires forall n :: (c, g, n) in r.acks ==> (c, g, n) in w.hub.acks
    requires g in r.sending && r.sending[g].conn == c ==>
               g in w.hub.sending && w.hub.sending[g] == r.sending[g] && LogOf(r, g) == LogOf(w.hub, g)
    ensures AcksOk(u, g, w.(hub := r), c)
  {
    var log, log', items, items' := LogOf(w.hub, g), LogOf(r, g), w.hub.queues[c].items, r.queues[c].items;
    forall n | (c, g, n) in r.acks ensures Ready(u, g, log', w.view, items', |items'|, n) {
      ReadyGrows(u, g, log, log', w.view, items, items', |items|, |items'|, n);
    }
    if g in r.sending && r.sending[g].conn == c {
      ReadyGrows(u, g, log, log', w.view, items, items', |items|, |items'|, |log|);
    }
  }

  // -------------------------------------------------------------------- relay steps

  /** Steps that neither write to group `g` nor bring its posts or answers to a queue. */
  predicate Minor(s: Step, g: Group) {
    !((s.AppendPost? || s.FanOut? || s.Acknowledge? || s.Subscribe?) && s.group == g)
  }

  /** What a minor step may do to a connection's queue and to its group `g`. */
  ghost predicate MinorEffect(h: Hub, r: Hub, g: Group, c: Conn) {
    && LogOf(r, g) == LogOf(h, g)
    && (g in r.sending <==> g in h.sending) && (g in h.sending ==> r.sending[g] == h.sending[g])
    && (forall n :: (c, g, n) in r.acks ==> (c, g, n) in h.acks)
    && (c in h.queues ==>
          && c in r.queues && h.queues[c].items <= r.queues[c].items
          && (r.queues[c].open ==> h.queues[c].open)
          && (forall p :: |h.queues[c].items| <= p < |r.queues[c].items| ==> Mark(g, r.queues[c].items[p]).None?))
    && (SubscribedOn(r, g, c) ==>
          r.subs[g][c.user].session.after == 0 || (SubscribedOn(h, g, c) && r.subs[g][c.user] == h.subs[g][c.user]))
  }

  lemma {:induction false} MinorStep(h: Hub, s: Step, g: Group, c: Conn)
    requires Inv(h) && Minor(s, g)
    ensures MinorEffect(h, Next(h, s), g, c)
  {
    match s
    case Subscribe(c', g', after) => MinorSubscribe(h, c', g', after, g, c);
    case FanOut(g') => if g' in h.sending { MinorBroadcast(h, g', h.sending[g'].post.sender, Msg(g', h.sending[g'].post), g, c); }
    case Ephemeral(c', g') => MinorBroadcast(h, g', c'.user, Eph(g', c'.user), g, c);
    case Teardown(c') => MinorTeardown(h, c', g, c);
    case AppendPost(c', g', epoch, payload, commit) =>
    case Create(c', g') => MinorCreate(h, c', g', g, c);
    case Disallow(g', u) => MinorDisallow(h, g', u, g, c);
    case Acknowledge(c', g', n) =>
      if (c', g', n) in h.acks && c' in h.queues { MinorPush(h, c', Ack(g', n), h.acks - {(c', g', n)}, g, c); }
    case Answer(c') => if c' in h.queues { MinorPush(h, c', Reply, h.acks, g, c); }
    case _ => MinorRest(h, s, g, c);
  }

  lemma {:induction false} MinorCreate(h: Hub, c': Conn, g': Group, g: Group, c: Conn)
    requires Inv(h)
    ensures MinorEffect(h, DoCreate(h, c', g'), g, c)
  {}

  lemma {:induction false} MinorDisallow(h: Hub, g': Group, u: User, g: Group, c: Conn)
    ensures MinorEffect(h, Next(h, Disallow(g', u)), g, c)
  {}

  lemma {:induction false} MinorPush(h: Hub, c': Conn, item: Item, acks: set<(Conn, Group, nat)>, g: Group, c: Conn)
    requires c' in h.queues && Mark(g, item).None? && acks <= h.acks
    ensures MinorEffect(h, PutQueue(h.(acks := acks), c', [item]), g, c)
  {}

  lemma {:induction false} MinorRest(h: Hub, s: Step, g: Group, c: Conn)
    requires s.Open? || s.Drain? || s.Close?
    ensures MinorEffect(h, Next(h, s), g, c)
  {}

  lemma {:induction false} MinorTeardown(h: Hub, c': Conn, g: Group, c: Conn)
    ensures MinorEffect(h, DoTeardown(h, c'), g, c)
  {}

  lemma {:induction false} MinorBroadcast(h: Hub, g': Group, sender: User, item: Item, g: Group, c: Conn)
    requires Mark(g, item).None?
    ensures MinorEffect(h, Broadcast(h, g', sender, item), g, c)
  {}

  lemma {:induction false} MinorSubscribe(h: Hub, c': Conn, g': Group, after: nat, g: Group, c: Conn)
    requires g' != g
    ensures MinorEffect(h, DoSubscribe(h, c', g', after), g, c)
  {
    CatchupMarks(g', g, After(OrEmpty(h, g'), after));
  }

  function OrEmpty(h: Hub, g: Group): (t: Thread<Bytes>) {
    if g in h.threads then h.threads[g] else Thread(0, [])
  }

  lemma {:induction false} CatchupMarks(g: Group, g': Group, backlog: seq<Post>)
    requires g != g'
    ensures forall i :: 0 <= i < |Catchup(g, backlog)| ==> Mark(g', Catchup(g, backlog)[i]).None?
  {
    ItemsAre(g, backlog);
  }

  lemma {:induction false} KnownKept(h: Hub, s: Step)
    requires Known(h)
    ensures Known(Next(h, s))
    ensures h.queues.Keys <= Next(h, s).queues.Keys
  {}

  lemma {:induction false} MinorKeeps(u: User, g: Group, w: World, s: Step)
    requires Sound(u, g, w) && Minor(s, g)
    ensures Good(u, g, w.(hub := Next(w.hub, s)))
  {
    var r := Next(w.hub, s);
    if w.view.conn.Some? {
      var c := w.view.conn.value;
      MinorStep(w.hub, s, g, c);
      if r.queues[c].open { AcksCarry(u, g, w, r, c); }
      Carry(u, g, w, r, c);
    } else {
      MinorStep(w.hub, s, g, Conn(u, 0));
    }
  }

  /** The condition under which acting on an acknowledgement is safe: one sends only while subscribed. */
  predicate SendsSubscribed(g: Group, w: World, m: Move) {
    m.Relay? && m.step.AppendPost? && m.step.group == g && w.view.conn == Some(m.step.conn)
    ==> SubscribedOn(w.hub, g, m.step.conn)
  }

  lemma {:induction false} AppendGood(u: User, g: Group, w: World, s: Step)
    requires Sound(u, g, w) && s.AppendPost? && s.group == g && SendsSubscribed(g, w, Relay(s))
    ensures Good(u, g, w.(hub := Next(w.hub, s)))
  {
    var h, r := w.hub, Next(w.hub, s);
    if r != h {
      StillCovered(u, g, w, r);
      if w.view.conn.Some? {
        var c := w.view.conn.value;
        if r.queues[c].open { AppendAcks(u, g, w, s, c); }
        Carry(u, g, w, r, c);
      }
    }
  }

  lemma {:induction false} AppendAcks(u: User, g: Group, w: World, s: Step, c: Conn)
    requires Sound(u, g, w) && s.AppendPost? && s.group == g && SendsSubscribed(g, w, Relay(s))
    requires w.view.conn == Some(c) && Next(w.hub, s) != w.hub && w.hub.queues[c].open
    ensures AcksOk(u, g, w.(hub := Next(w.hub, s)), c)
  {
    var h, r := w.hub, Next(w.hub, s);
    var log, items := LogOf(h, g), h.queues[c].items;
    AcksCarry(u, g, w, r.(sending := h.sending), c);
    if s.conn == c {
      UpToDate(u, g, w, c);
      ReadyGrows(u, g, log, LogOf(r, g), w.view, items, items, |items|, |items|, |log| + 1);
    }
  }

  lemma {:induction false} SubscribeGood(u: User, g: Group, w: World, c': Conn, after: nat)
    requires Sound(u, g, w) && Asks(g, w.view, Subscribe(c', g, after))
    ensures Good(u, g, w.(hub := DoSubscribe(w.hub, c', g, after)))
  {
    var h, r := w.hub, DoSubscribe(w.hub, c', g, after);
    if w.view.conn.Some? {
      var c := w.view.conn.value;
      if r != h && c' == c && h.queues[c].open {
        forall p | |h.queues[c].items| <= p < |r.queues[c].items|
          ensures ItemOk(u, g, LogOf(r, g), w.view, r.queues[c].items, p)
        {
          BacklogItem(u, g, h.threads[g], w.view, h.queues[c].items, after, p);
        }
      }
      if r.queues[c].open { AcksCarry(u, g, w, r, c); }
      Carry(u, g, w, r, c);
    }
  }

  /** Each backlog entry follows the one before it, and the first follows the cursor. */
  lemma {:induction false} BacklogItem(u: User, g: Group, t: Thread<Bytes>, v: View, items: seq<Item>, after: nat, p: nat)
    requires Dense(t) && v.got <= |items| && after <= v.cursor <= |t.log|
    requires forall n :: 1 <= n <= v.cursor ==> Covered(u, t.log, v, n)
    requires |items| <= p < |items + Catchup(g, After(t, after))|
    ensures ItemOk(u, g, t.log, v, items + Catchup(g, After(t, after)), p)
  {
    if p > |items| {
      var all, k := items + Catchup(g, After(t, after)), p - |items| - 1;
      BacklogAt(g, t, items, after, k);
      forall i | 1 <= i < after + k + 1 ensures Covered(u, t.log, v, i) || Waits(g, all, v.got, p, i) {
        if i > after {
          BacklogAt(g, t, items, after, i - 1 - after);
          assert all[|items| + i - after].Msg?;
        }
      }
    }
  }

  /** Where the backlog's entries end up. */
  lemma {:induction false} BacklogAt(g: Group, t: Thread<Bytes>, items: seq<Item>, after: nat, k: nat)
    requires Dense(t) && after <= |t.log| && k < |After(t, after)|
    ensures after + k < |t.log|
    ensures |items + Catchup(g, After(t, after))| == |items| + 1 + |t.log| - after
    ensures (items + Catchup(g, After(t, after)))[|items| + 1 + k] == Msg(g, t.log[after + k])
  {
    AfterIsSuffix(t, after);
    ItemsAre(g, After(t, after));
    assert (items + Catchup(g, After(t, after)))[|items| + 1 + k] == AsItems(g, After(t, after))[k];
  }

  lemma {:induction false} AcknowledgeGood(u: User, g: Group, w: World, c': Conn, n: nat)
    requires Sound(u, g, w)
    ensures Good(u, g, w.(hub := Next(w.hub, Acknowledge(c', g, n))))
  {
    var h, r := w.hub, Next(w.hub, Acknowledge(c', g, n));
    if w.view.conn.Some? {
      var c := w.view.conn.value;
      if r.queues[c].open { AcksCarry(u, g, w, r, c); }
      if r != h && c' == c && h.queues[c].open {
        var items, log := h.queues[c].items, LogOf(h, g);
        ReadyGrows(u, g, log, log, w.view, items, items + [Ack(g, n)], |items|, |items|, n);
      }
      Carry(u, g, w, r, c);
    }
  }

  lemma {:induction false} FanOutGood(u: User, g: Group, w: World)
    requires Sound(u, g, w)
    ensures Good(u, g, w.(hub := DoFanOut(w.hub, g)))
  {
    if g in w.hub.sending {
      if w.view.conn.Some? {
        FanOutConn(u, g, w, w.view.conn.value);
      } else {
        StillCovered(u, g, w, DoFanOut(w.hub, g));
      }
    }
  }

  lemma {:induction false} FanOutConn(u: User, g: Group, w: World, c: Conn)
    requires Sound(u, g, w) && w.view.conn == Some(c) && g in w.hub.sending
    ensures Good(u, g, w.(hub := DoFanOut(w.hub, g)))
  {
    FanOutQueue(w.hub, g, c);
    FanOutItem(u, g, w, c);
    if w.hub.queues[c].open { FanOutAcks(u, g, w, c); }
    CarryOne(u, g, w, DoFanOut(w.hub, g), c);
  }

  /** `Carry` for a step that adds at most one item and changes no log. */
  lemma {:induction false} CarryOne(u: User, g: Group, w: World, r: Hub, c: Conn)
    requires Good(u, g, w) && w.view.conn == Some(c) && LogOf(r, g) == LogOf(w.hub, g)
    requires c in r.queues && r.queues[c].open == w.hub.queues[c].open
    requires r.queues[c].items == w.hub.queues[c].items || OneMore(u, g, w, r, c)
    requires SubscribedOn(r, g, c) ==> SubscribedOn(w.hub, g, c) && r.subs[g][u] == w.hub.subs[g][u]
    requires w.hub.queues[c].open ==> AcksOk(u, g, w.(hub := r), c)
    ensures Good(u, g, w.(hub := r))
  {
    Carry(u, g, w, r, c);
  }

  ghost predicate OneMore(u: User, g: Group, w: World, r: Hub, c: Conn)
    requires c in r.queues && c in w.hub.queues
  {
    var n := |w.hub.queues[c].items|;
    && |r.queues[c].items| == n + 1 && r.queues[c].items[..n] == w.hub.queues[c].items
    && ItemOk(u, g, LogOf(w.hub, g), w.view, r.queues[c].items, n)
  }

  /** What a fan-out does to one connection. */
  lemma {:induction false} FanOutQueue(h: Hub, g: Group, c: Conn)
    requires Inv(h) && g in h.sending && c in h.queues
    ensures var r, m := DoFanOut(h, g), h.sending[g].post;
            && c in r.queues && r.queues[c].open == h.queues[c].open && LogOf(r, g) == LogOf(h, g)
            && (r.queues[c].items == h.queues[c].items || r.queues[c].items == h.queues[c].items + [Msg(g, m)])
            && (r.queues[c] != h.queues[c] ==> SubscribedOn(h, g, c) && h.queues[c].open && m.sender != c.user)
            && (SubscribedOn(r, g, c) ==> SubscribedOn(h, g, c) && r.subs[g][c.user] == h.subs[g][c.user])
  {}

  lemma {:induction false} FanOutItem(u: User, g: Group, w: World, c: Conn)
    requires Sound(u, g, w) && w.view.conn == Some(c) && g in w.hub.sending
    ensures var r := DoFanOut(w.hub, g);
            c in r.queues && (r.queues[c].items == w.hub.queues[c].items || OneMore(u, g, w, r, c))
  {
    FanOutQueue(w.hub, g, c);
    if w.hub.queues[c].open && SubscribedOn(w.hub, g, c) { QueuedPostOk(u, g, w, c); }
  }

  lemma {:induction false} QueuedPostOk(u: User, g: Group, w: World, c: Conn)
    requires Sound(u, g, w) && w.view.conn == Some(c) && g in w.hub.sending && w.hub.queues[c].open && SubscribedOn(w.hub, g, c)
    ensures var items := w.hub.queues[c].items; ItemOk(u, g, LogOf(w.hub, g), w.view, items + [Msg(g, w.hub.sending[g].post)], |items|)
  {
    UpToDate(u, g, w, c);
    NextPostOk(u, g, w.hub.threads[g], w.view, w.hub.queues[c].items);
  }

  /** The last post of a log may be queued by whoever has everything before it. */
  lemma {:induction false} NextPostOk(u: User, g: Group, t: Thread<Bytes>, v: View, items: seq<Item>)
    requires Dense(t) && t.log != [] && Ready(u, g, t.log, v, items, |items|, |t.log|)
    ensures ItemOk(u, g, t.log, v, items + [Msg(g, t.log[|t.log| - 1])], |items|)
  {
    var items' := items + [Msg(g, t.log[|t.log| - 1])];
    ReadyGrows(u, g, t.log, t.log, v, items, items', |items|, |items|, |t.log|);
  }

  lemma {:induction false} FanOutAcks(u: User, g: Group, w: World, c: Conn)
    requires Sound(u, g, w) && w.view.conn == Some(c) && g in w.hub.sending && w.hub.queues[c].open
    ensures AcksOk(u, g, w.(hub := DoFanOut(w.hub, g)), c)
  {
    var h, r := w.hub, DoFanOut(w.hub, g);
    FanOutQueue(h, g, c);
    AcksCarry(u, g, w, r.(acks := h.acks), c);
    if h.sending[g].conn == c {
      var items, log := h.queues[c].items, LogOf(h, g);
      ReadyGrows(u, g, log, log, w.view, items, r.queues[c].items, |items|, |r.queues[c].items|, |log|);
    }
  }

  // --------------------------------------------------------------------- client moves

  lemma {:induction false} ReceiveSound(u: User, g: Group, w: World)
    requires Sound(u, g, w)
    ensures Sound(u, g, Move1(u, g, w, Receive))
  {
    var w' := Move1(u, g, w, Receive);
    if w' != w {
      var c := w.view.conn.value;
      var q, log := w.hub.queues[c], LogOf(w.hub, g);
      assert ItemOk(u, g, log, w.view, q.items, w.view.got);
      ReadCovers(u, g, log, w.view, q.items);
      ReadKeepsQueue(u, g, log, w.view, q.items);
      if q.open { ReadKeepsAcks(u, g, w, c); }
    }
  }

  lemma {:induction false} ReadCovers(u: User, g: Group, log: seq<Post>, v: View, items: seq<Item>)
    requires v.got < |items| && ItemOk(u, g, log, v, items, v.got) && v.cursor <= |log|
    requires forall t :: 1 <= t <= v.cursor ==> Covered(u, log, v, t)
    ensures var v' := Read(g, v, items[v.got]);
            v'.cursor <= |log| && v.cursor <= v'.cursor && forall t :: 1 <= t <= v'.cursor ==> Covered(u, log, v', t)
  {
    var v', n := Read(g, v, items[v.got]), Mark(g, items[v.got]);
    forall t | 1 <= t <= v'.cursor ensures Covered(u, log, v', t) {
      if t <= v.cursor {
        assert Covered(u, log, v, t);
      } else if t < n.value {
        assert Covered(u, log, v, t) || Waits(g, items, v.got, v.got, t);
      }
    }
  }

  /** Reading one more item turns what was waiting there into something held. */
  lemma {:induction false} ReadKeepsReady(u: User, g: Group, log: seq<Post>, v: View, items: seq<Item>, hi: nat, n: nat)
    requires v.got < |items| && Ready(u, g, log, v, items, hi, n)
    ensures Ready(u, g, log, Read(g, v, items[v.got]), items, hi, n)
  {
    var v' := Read(g, v, items[v.got]);
    forall t | 1 <= t < n ensures Covered(u, log, v', t) || Waits(g, items, v'.got, hi, t) {
      if !Covered(u, log, v, t) {
        var p :| v.got <= p < hi <= |items| && items[p].Msg? && items[p].group == g && items[p].post.seqno == t;
      }
    }
  }

  lemma {:induction false} ReadKeepsQueue(u: User, g: Group, log: seq<Post>, v: View, items: seq<Item>)
    requires QueueOk(u, g, log, v, items) && v.got < |items|
    ensures QueueOk(u, g, log, Read(g, v, items[v.got]), items)
  {
    var v' := Read(g, v, items[v.got]);
    forall p | v'.got <= p < |items| ensures ItemOk(u, g, log, v', items, p) {
      assert ItemOk(u, g, log, v, items, p);
      var n := Mark(g, items[p]);
      if n.Some? { ReadKeepsReady(u, g, log, v, items, p, n.value); }
    }
  }

  lemma {:induction false} ReadKeepsAcks(u: User, g: Group, w: World, c: Conn)
    requires c in w.hub.queues && AcksOk(u, g, w, c) && w.view.got < |w.hub.queues[c].items|
    ensures AcksOk(u, g, w.(view := Read(g, w.view, w.hub.queues[c].items[w.view.got])), c)
  {
    var log, items := LogOf(w.hub, g), w.hub.queues[c].items;
    var v' := Read(g, w.view, items[w.view.got]);
    forall n | (c, g, n) in w.hub.acks ensures Ready(u, g, log, v', items, |items|, n) {
      ReadKeepsReady(u, g, log, w.view, items, |items|, n);
    }
    if g in w.hub.sending && w.hub.sending[g].conn == c {
      ReadKeepsReady(u, g, log, w.view, items, |items|, |log|);
    }
  }

  lemma {:induction false} FreshConn(h: Hub, g: Group, c: Conn)
    requires Inv(h) && c !in h.queues
    ensures !SubscribedOn(h, g, c)
  {
    if g in h.subs && c.user in h.subs[g] { assert SessionOk(h, g, c.user); }
  }

  lemma {:induction false} ConnectSound(u: User, g: Group, w: World, c: Conn)
    requires Sound(u, g, w)
    ensures Sound(u, g, Move1(u, g, w, Connect(c)))
  {
    if c.user == u && c !in w.hub.queues {
      StepKeeps(w.hub, Open(c));
      KnownKept(w.hub, Open(c));
      FreshConn(w.hub, g, c);
      forall t | 1 <= t <= w.view.cursor ensures Covered(u, LogOf(w.hub, g), w.view.(conn := Some(c), got := 0), t) {
        assert Covered(u, LogOf(w.hub, g), w.view, t);
      }
    }
  }

  lemma {:induction false} MoveSound(u: User, g: Group, w: World, m: Move)
    requires Sound(u, g, w) && SendsSubscribed(g, w, m)
    ensures Sound(u, g, Move1(u, g, w, m))
  {
    match m
    case Receive => ReceiveSound(u, g, w);
    case Connect(c) => ConnectSound(u, g, w, c);
    case Relay(s) =>
      if Asks(g, w.view, s) {
        StepKeeps(w.hub, s);
        KnownKept(w.hub, s);
        RelayGood(u, g, w, s);
      }
  }

  lemma {:induction false} RelayGood(u: User, g: Group, w: World, s: Step)
    requires Sound(u, g, w) && Asks(g, w.view, s) && SendsSubscribed(g, w, Relay(s))
    ensures Good(u, g, w.(hub := Next(w.hub, s)))
  {
    if Minor(s, g) {
      MinorKeeps(u, g, w, s);
    } else {
      match s
      case AppendPost(_, _, _, _, _) => AppendGood(u, g, w, s);
      case FanOut(_) => FanOutGood(u, g, w);
      case Acknowledge(c, _, n) => AcknowledgeGood(u, g, w, c, n);
      case Subscribe(c, _, after) => SubscribeGood(u, g, w, c, after);
    }
  }

  predicate SafeMoves(u: User, g: Group, w: World, moves: seq<Move>) {
    moves == [] ||
    (SafeMoves(u, g, w, moves[..|moves| - 1]) &&
     SendsSubscribed(g, Moves(u, g, w, moves[..|moves| - 1]), moves[|moves| - 1]))
  }

  lemma {:induction false} MovesSound(u: User, g: Group, w: World, moves: seq<Move>)
    requires Sound(u, g, w) && SafeMoves(u, g, w, moves)
    ensures Sound(u, g, Moves(u, g, w, moves))
  {
    if moves != [] {
      MovesSound(u, g, w, moves[..|moves| - 1]);
      MoveSound(u, g, Moves(u, g, w, moves[..|moves| - 1]), moves[|moves| - 1]);
    }
  }

  // -------------------------------------------------------------------- main results

  /**
   However often its queue fills, its subscription is dropped or its connection dies, a
   client that sends only while subscribed holds every post up to its cursor, or wrote it.
   */
  lemma {:induction false} NothingLost(u: User, g: Group, moves: seq<Move>, t: nat)
    requires SafeMoves(u, g, START, moves)
    ensures var w := Moves(u, g, START, moves);
            && w.view.cursor <= |LogOf(w.hub, g)|
            && (1 <= t <= w.view.cursor ==> t in w.view.seen || LogOf(w.hub, g)[t - 1].sender == u)
  {
    MovesSound(u, g, START, moves);
    var w := Moves(u, g, START, moves);
    if 1 <= t <= w.view.cursor { assert Covered(u, LogOf(w.hub, g), w.view, t); }
  }

  /** Resubscribing from the cursor brings all the rest: every logged post is then held or queued. */
  lemma {:induction false} ResubscribeBringsRest(u: User, g: Group, moves: seq<Move>, c: Conn, t: nat)
    requires SafeMoves(u, g, START, moves)
    requires var w := Moves(u, g, START, moves);
             g in w.hub.threads && w.view.conn == Some(c) && c in w.hub.queues && w.hub.queues[c].open &&
             1 <= t <= |w.hub.threads[g].log|
    ensures var w := Moves(u, g, START, moves);
            var r := DoSubscribe(w.hub, c, g, w.view.cursor);
            && c in r.queues
            && (Covered(u, LogOf(r, g), w.view, t) || Waits(g, r.queues[c].items, w.view.got, |r.queues[c].items|, t))
  {
    MovesSound(u, g, START, moves);
    var w := Moves(u, g, START, moves);
    if t <= w.view.cursor {
      assert Covered(u, LogOf(w.hub, g), w.view, t);
    } else {
      BacklogHas(g, w.hub.threads[g], w.hub.queues[c].items, w.view.cursor, w.view.got, t);
    }
  }

  lemma {:induction false} BacklogHas(g: Group, t: Thread<Bytes>, items: seq<Item>, after: nat, got: nat, n: nat)
    requires Dense(t) && got <= |items| && after < n <= |t.log|
    ensures var all := items + Catchup(g, After(t, after)); Waits(g, all, got, |all|, n)
  {
    AfterIsSuffix(t, after);
    BacklogAt(g, t, items, after, n - 1 - after);
    assert (items + Catchup(g, After(t, after)))[|items| + n - after].Msg?;
  }

  // ------------------------------------------------------- every run, whoever sends when

  predicate HoldsNoLater(v: View) { forall t <- v.seen :: t <= v.cursor }

  lemma {:induction false} MoveHoldsNoLater(u: User, g: Group, w: World, m: Move)
    requires HoldsNoLater(w.view)
    ensures HoldsNoLater(Move1(u, g, w, m).view)
  {
    var v' := Move1(u, g, w, m).view;
    forall t | t in v'.seen ensures t <= v'.cursor {
      assert t in w.view.seen ==> t <= w.view.cursor;
    }
  }

  /** Whatever it does, a client holds nothing beyond its cursor. */
  lemma {:induction false} HeldUpToCursor(u: User, g: Group, moves: seq<Move>)
    ensures HoldsNoLater(Moves(u, g, START, moves).view)
  {
    if moves != [] {
      HeldUpToCursor(u, g, moves[..|moves| - 1]);
      MoveHoldsNoLater(u, g, Moves(u, g, START, moves[..|moves| - 1]), moves[|moves| - 1]);
    }
  }

  /** What an item of group `g` says is so: a post is the one logged, an answer is for one's own. */
  ghost predicate ItemTrue(u: User, g: Group, log: seq<Post>, item: Item) {
    var n := Mark(g, item);
    n.Some? ==> 1 <= n.value <= |log| && (if item.Msg? then item.post == log[n.value - 1] else log[n.value - 1].sender == u)
  }

  /** Everything on the client's connection, and every answer on its way there, is true. */
  ghost predicate ConnTrue(u: User, g: Group, h: Hub, c: Conn) {
    && c.user == u && c in h.queues
    && (forall p :: 0 <= p < |h.queues[c].items| ==> ItemTrue(u, g, LogOf(h, g), h.queues[c].items[p]))
    && (forall n :: (c, g, n) in h.acks ==> ItemTrue(u, g, LogOf(h, g), Ack(g, n)))
    && (g in h.sending && h.sending[g].conn == c ==> h.sending[g].post.sender == u)
  }

  ghost predicate ViewTrue(u: User, g: Group, w: World) {
    && Inv(w.hub) && Known(w.hub) && w.view.cursor <= |LogOf(w.hub, g)|
    && (w.view.conn.Some? ==>
          ConnTrue(u, g, w.hub, w.view.conn.value) && w.view.got <= |w.hub.queues[w.view.conn.value].items|)
  }

  lemma {:induction false} LogOnlyGrows(h: Hub, s: Step, g: Group)
    ensures LogOf(h, g) <= LogOf(Next(h, s), g)
  {
  }

  /** A step that adds only true items to a queue and true answers leaves the connection true. */
  lemma {:induction false} ConnStaysTrue(u: User, g: Group, h: Hub, r: Hub, c: Conn)
    requires ConnTrue(u, g, h, c) && LogOf(h, g) <= LogOf(r, g) && c in r.queues && h.queues[c].items <= r.queues[c].items
    requires forall p :: |h.queues[c].items| <= p < |r.queues[c].items| ==> ItemTrue(u, g, LogOf(r, g), r.queues[c].items[p])
    requires forall n :: (c, g, n) in r.acks && (c, g, n) !in h.acks ==> ItemTrue(u, g, LogOf(r, g), Ack(g, n))
    requires g in r.sending && r.sending[g].conn == c ==> r.sending[g].post.sender == u
    ensures ConnTrue(u, g, r, c)
  {
    forall p | 0 <= p < |r.queues[c].items| ensures ItemTrue(u, g, LogOf(r, g), r.queues[c].items[p]) {
      if p < |h.queues[c].items| {
        assert r.queues[c].items[p] == h.queues[c].items[p] && ItemTrue(u, g, LogOf(h, g), h.queues[c].items[p]);
      }
    }
    forall n | (c, g, n) in r.acks ensures ItemTrue(u, g, LogOf(r, g), Ack(g, n)) {
      if (c, g, n) in h.acks { assert ItemTrue(u, g, LogOf(h, g), Ack(g, n)); }
    }
  }

  /** `ConnStaysTrue` for a step that queues at most the last post, and answers it. */
  lemma {:induction false} ConnGainsPost(u: User, g: Group, h: Hub, r: Hub, c: Conn, m: Post)
    requires ConnTrue(u, g, h, c) && LogOf(r, g) == LogOf(h, g) && c in r.queues && g !in r.sending
    requires r.queues[c].items == h.queues[c].items || r.queues[c].items == h.queues[c].items + [Msg(g, m)]
    requires 1 <= m.seqno <= |LogOf(h, g)| && m == LogOf(h, g)[m.seqno - 1]
    requires forall n :: (c, g, n) in r.acks && (c, g, n) !in h.acks ==> n == m.seqno && m.sender == u
    ensures ConnTrue(u, g, r, c)
  {
    ConnStaysTrue(u, g, h, r, c);
  }

  lemma {:induction false} FanOutTrue(u: User, g: Group, h: Hub, c: Conn)
    requires Inv(h) && ConnTrue(u, g, h, c)
    ensures ConnTrue(u, g, DoFanOut(h, g), c)
  {
    if g in h.sending {
      FanOutQueue(h, g, c);
      FanOutAnswers(h, g);
      ConnGainsPost(u, g, h, DoFanOut(h, g), c, h.sending[g].post);
    }
  }

  lemma {:induction false} FanOutAnswers(h: Hub, g: Group)
    requires Inv(h) && g in h.sending
    ensures var r, m := DoFanOut(h, g), h.sending[g].post;
            && g !in r.sending && r.acks == h.acks + {(h.sending[g].conn, g, m.seqno)}
            && m.seqno == |LogOf(h, g)| > 0 && m == LogOf(h, g)[m.seqno - 1]
  {
    assert Dense(h.threads[g]);
  }

  lemma {:induction false} BacklogTrue(u: User, g: Group, t: Thread<Bytes>, items: seq<Item>, after: nat, p: nat)
    requires Dense(t) && |items| <= p < |items + Catchup(g, After(t, after))|
    ensures ItemTrue(u, g, t.log, (items + Catchup(g, After(t, after)))[p])
  {
    if p > |items| {
      var k := p - |items| - 1;
      AfterIsSuffix(t, after);
      assert |Catchup(g, After(t, after))| == 1 + |After(t, after)|;
      BacklogAt(g, t, items, after, k);
      LoggedIsTrue(u, g, t, after + k);
    }
  }

  lemma {:induction false} LoggedIsTrue(u: User, g: Group, t: Thread<Bytes>, i: nat)
    requires Dense(t) && i < |t.log|
    ensures ItemTrue(u, g, t.log, Msg(g, t.log[i]))
  {
  }

  lemma {:induction false} SubscribeTrue(u: User, g: Group, h: Hub, c: Conn, c': Conn, after: nat)
    requires Inv(h) && ConnTrue(u, g, h, c)
    ensures ConnTrue(u, g, DoSubscribe(h, c', g, after), c)
  {
    var r, items := DoSubscribe(h, c', g, after), h.queues[c].items;
    if r != h && c' == c && h.queues[c].open {
      assert r.queues[c].items == items + Catchup(g, After(h.threads[g], after));
      forall p | |items| <= p < |r.queues[c].items| ensures ItemTrue(u, g, LogOf(r, g), r.queues[c].items[p]) {
        BacklogTrue(u, g, h.threads[g], items, after, p);
      }
    } else {
      assert r.queues[c] == h.queues[c];
    }
    ConnStaysTrue(u, g, h, r, c);
  }

  lemma {:induction false} StepTrue(u: User, g: Group, h: Hub, s: Step, c: Conn)
    requires Inv(h) && ConnTrue(u, g, h, c)
    ensures ConnTrue(u, g, Next(h, s), c)
  {
    if Minor(s, g) {
      MinorStep(h, s, g, c);
      ConnStaysTrue(u, g, h, Next(h, s), c);
    } else {
      match s
      case AppendPost(_, _, _, _, _) => ConnStaysTrue(u, g, h, Next(h, s), c);
      case Acknowledge(_, _, _) => ConnStaysTrue(u, g, h, Next(h, s), c);
      case FanOut(_) => FanOutTrue(u, g, h, c);
      case Subscribe(c', _, after) => SubscribeTrue(u, g, h, c, c', after);
    }
  }

  lemma {:induction false} MoveTrue(u: User, g: Group, w: World, m: Move)
    requires ViewTrue(u, g, w)
    ensures ViewTrue(u, g, Move1(u, g, w, m))
  {
    match m
    case Receive =>
      if NextItem(w).Some? { assert ItemTrue(u, g, LogOf(w.hub, g), NextItem(w).value); }
    case Connect(c) =>
      StepKeeps(w.hub, Open(c));
      KnownKept(w.hub, Open(c));
      if c.user != u || c in w.hub.queues { assert Move1(u, g, w, m) == w; }
    case Relay(s) =>
      StepKeeps(w.hub, s);
      KnownKept(w.hub, s);
      LogOnlyGrows(w.hub, s, g);
      if w.view.conn.Some? {
        StepTrue(u, g, w.hub, s, w.view.conn.value);
        ItemsOnlyGrow(w.hub, s, w.view.conn.value);
      }
  }

  lemma {:induction false} ItemsOnlyGrow(h: Hub, s: Step, c: Conn)
    requires c in h.queues
    ensures c in Next(h, s).queues && h.queues[c].items <= Next(h, s).queues[c].items
  {
  }

  lemma {:induction false} MovesTrue(u: User, g: Group, moves: seq<Move>)
    ensures ViewTrue(u, g, Moves(u, g, START, moves))
  {
    if moves != [] {
      MovesTrue(u, g, moves[..|moves| - 1]);
      MoveTrue(u, g, Moves(u, g, START, moves[..|moves| - 1]), moves[|moves| - 1]);
    }
  }

  /** The item the client would read next, if the relay has written one. */
  function NextItem(w: World): (r: Option<Item>) {
    if w.view.conn.Some? && w.view.conn.value in w.hub.queues
    then
      var q := w.hub.queues[w.view.conn.value];
      if w.view.got < q.taken <= |q.items| then Some(q.items[w.view.got]) else None
    else None
  }

  /** Nobody but the client posted from `from` to before `to`. */
  predicate OnlyOwn(u: User, log: seq<Post>, from: nat, to: int) {
    forall i :: from <= i < to && i < |log| ==> log[i].sender == u
  }

  /** One item read: everything up to the cursor is still held exactly if only one's own posts were jumped over. */
  lemma {:induction false} ReadSkipsExactly(u: User, g: Group, log: seq<Post>, v: View, item: Item)
    requires v.cursor <= |log| && HoldsNoLater(v) && ItemTrue(u, g, log, item) && Mark(g, item).Some?
    requires forall t :: 1 <= t <= v.cursor ==> Covered(u, log, v, t)
    ensures (forall t :: 1 <= t <= Read(g, v, item).cursor ==> Covered(u, log, Read(g, v, item), t)) <==>
            OnlyOwn(u, log, v.cursor, Mark(g, item).value - 1)
  {
    var v', n := Read(g, v, item), Mark(g, item).value;
    forall i | v.cursor <= i < n - 1 ensures Covered(u, log, v', i + 1) <==> log[i].sender == u {}
    if OnlyOwn(u, log, v.cursor, n - 1) {
      forall t | 1 <= t <= v'.cursor ensures Covered(u, log, v', t) {
        if t <= v.cursor { assert Covered(u, log, v, t); } else if t < n { assert log[t - 1].sender == u; }
      }
    } else {
      var i :| v.cursor <= i < n - 1 && i < |log| && log[i].sender != u;
      assert !Covered(u, log, v', i + 1);
    }
  }

  /**
   In any run, from any moment at which it holds everything up to its cursor, a client that reads the answer
   to a send holds everything up to its new cursor exactly when every post from the old cursor up to the one
   answered is its own — subscribed, dropped without knowing it, or never subscribed, and whatever it has read.
   */
  lemma {:induction false} AckSkips(u: User, g: Group, moves: seq<Move>, n: nat)
    requires var w := Moves(u, g, START, moves); CoveredSoFar(u, g, w) && NextItem(w) == Some(Ack(g, n))
    ensures var w := Moves(u, g, START, moves);
            && 1 <= n <= |LogOf(w.hub, g)| && LogOf(w.hub, g)[n - 1].sender == u
            && (CoveredSoFar(u, g, Move1(u, g, w, Receive)) <==> OnlyOwn(u, LogOf(w.hub, g), w.view.cursor, n))
  {
    MovesTrue(u, g, moves);
    HeldUpToCursor(u, g, moves);
    AckRead(u, g, Moves(u, g, START, moves), n);
  }

  lemma {:induction false} AckRead(u: User, g: Group, w: World, n: nat)
    requires ViewTrue(u, g, w) && HoldsNoLater(w.view) && CoveredSoFar(u, g, w) && NextItem(w) == Some(Ack(g, n))
    ensures 1 <= n <= |LogOf(w.hub, g)| && LogOf(w.hub, g)[n - 1].sender == u
    ensures CoveredSoFar(u, g, Move1(u, g, w, Receive)) <==> OnlyOwn(u, LogOf(w.hub, g), w.view.cursor, n)
  {
    var log := LogOf(w.hub, g);
    assert ItemTrue(u, g, log, Ack(g, n));
    ReadSkipsExactly(u, g, log, w.view, Ack(g, n));
    OwnToo(u, log, w.view.cursor, n);
    assert Move1(u, g, w, Receive) == w.(view := Read(g, w.view, Ack(g, n)));
  }

  lemma {:induction false} OwnToo(u: User, log: seq<Post>, from: nat, n: nat)
    requires 1 <= n <= |log| && log[n - 1].sender == u
    ensures OnlyOwn(u, log, from, n - 1) <==> OnlyOwn(u, log, from, n)
  {
  }

  /** A read that jumps over nothing but the client's own posts. */
  predicate ReadsNext(u: User, g: Group, w: World) {
    NextItem(w).Some? && Mark(g, NextItem(w).value).Some? ==>
      OnlyOwn(u, LogOf(w.hub, g), w.view.cursor, Mark(g, NextItem(w).value).value - 1)
  }

  predicate AllReadNext(u: User, g: Group, moves: seq<Move>) {
    moves == [] ||
    (AllReadNext(u, g, moves[..|moves| - 1]) &&
     (moves[|moves| - 1].Receive? ==> ReadsNext(u, g, Moves(u, g, START, moves[..|moves| - 1]))))
  }

  ghost predicate CoveredThroughout(u: User, g: Group, moves: seq<Move>) {
    CoveredSoFar(u, g, Moves(u, g, START, moves)) && (moves == [] || CoveredThroughout(u, g, moves[..|moves| - 1]))
  }

  lemma {:induction false} MoveCovers(u: User, g: Group, w: World, m: Move)
    requires ViewTrue(u, g, w) && HoldsNoLater(w.view) && CoveredSoFar(u, g, w)
    ensures CoveredSoFar(u, g, Move1(u, g, w, m)) <==> (m.Receive? ==> ReadsNext(u, g, w))
  {
    var log := LogOf(w.hub, g);
    match m
    case Relay(s) =>
      LogOnlyGrows(w.hub, s, g);
      StillCovered(u, g, w, Next(w.hub, s));
    case Connect(c) =>
      var w' := Move1(u, g, w, m);
      forall t | 1 <= t <= w'.view.cursor ensures Covered(u, LogOf(w'.hub, g), w'.view, t) { assert Covered(u, log, w.view, t); }
    case Receive =>
      if NextItem(w).Some? {
        var item := NextItem(w).value;
        assert ItemTrue(u, g, log, item);
        if Mark(g, item).Some? { ReadSkipsExactly(u, g, log, w.view, item); } else { ReadOther(u, g, w, item); }
      }
  }

  lemma {:induction false} ReadOther(u: User, g: Group, w: World, item: Item)
    requires CoveredSoFar(u, g, w) && Mark(g, item).None?
    ensures CoveredSoFar(u, g, w.(view := Read(g, w.view, item)))
  {
    forall t | 1 <= t <= w.view.cursor ensures Covered(u, LogOf(w.hub, g), Read(g, w.view, item), t) {
      assert Covered(u, LogOf(w.hub, g), w.view, t);
    }
  }

  /** So, for every run: a client never has a gap below its cursor exactly if no read jumps over another's post. */
  lemma {:induction false} CoveredExactly(u: User, g: Group, moves: seq<Move>)
    ensures CoveredThroughout(u, g, moves) <==> AllReadNext(u, g, moves)
  {
    if moves != [] {
      var init := moves[..|moves| - 1];
      CoveredExactly(u, g, init);
      MovesTrue(u, g, init);
      HeldUpToCursor(u, g, init);
      if CoveredThroughout(u, g, init) { MoveCovers(u, g, Moves(u, g, START, init), moves[|moves| - 1]); }
    }
  }

  // ------------------------------------------------- sending without a subscription

  /** A whole send by `c`: append, fan-out, answer, and the answer written to the socket. */
  function SendSteps(c: Conn, g: Group, epoch: nat, payload: Bytes, n: nat): (r: seq<Step>) {
    [AppendPost(c, g, epoch, payload, false), FanOut(g), Acknowledge(c, g, n), Drain(c)]
  }

  lemma {:induction false} RunFour(h: Hub, a: Step, b: Step, c: Step, d: Step)
    ensures Run(h, [a, b, c, d]) == Next(Next(Next(Next(h, a), b), c), d)
  {
    assert [a][..0] == [] && Run(h, [a]) == Next(h, a);
    assert [a, b][..1] == [a] && Run(h, [a, b]) == Next(Next(h, a), b);
    assert [a, b, c][..2] == [a, b] && Run(h, [a, b, c]) == Next(Next(Next(h, a), b), c);
    assert [a, b, c, d][..3] == [a, b, c];
  }

  lemma {:induction false} AppendThenFanOut(h: Hub, c: Conn, g: Group, epoch: nat, payload: Bytes)
    requires g in h.threads && g !in h.sending && c in h.queues
    ensures var n := |h.threads[g].log| + 1;
            var r := Next(Next(h, AppendPost(c, g, epoch, payload, false)), FanOut(g));
            && g in r.threads && r.threads[g].log == h.threads[g].log + [Message(n, epoch, c.user, payload)]
            && g !in r.sending && (c, g, n) in r.acks && c in r.queues && r.queues[c] == h.queues[c]
  {}

  lemma {:induction false} WholeSend(h: Hub, c: Conn, g: Group, epoch: nat, payload: Bytes)
    requires g in h.threads && g !in h.sending && c in h.queues && h.queues[c].open
    requires h.queues[c].taken == |h.queues[c].items|
    ensures var n := |h.threads[g].log| + 1;
            var r := Run(h, SendSteps(c, g, epoch, payload, n));
            && g in r.threads && g !in r.sending && LogOf(r, g) == h.threads[g].log + [Message(n, epoch, c.user, payload)]
            && c in r.queues
            && r.queues[c] == Queue(h.queues[c].items + [Ack(g, n)], h.queues[c].taken + 1, true)
  {
    var n := |h.threads[g].log| + 1;
    var s := SendSteps(c, g, epoch, payload, n);
    RunFour(h, s[0], s[1], s[2], s[3]);
    AppendThenFanOut(h, c, g, epoch, payload);
  }

  /** The client sends, and reads the answer. */
  function SendAndRead(u: User, g: Group, w: World, c: Conn, epoch: nat, payload: Bytes): (r: World) {
    Move1(u, g, w.(hub := Run(w.hub, SendSteps(c, g, epoch, payload, |LogOf(w.hub, g)| + 1))), Receive)
  }

  /** A client that has read everything on its open connection, to a group nobody else is sending to. */
  predicate Idle(g: Group, w: World, c: Conn) {
    && w.view.conn == Some(c) && g in w.hub.threads && g !in w.hub.sending && c in w.hub.queues
    && w.hub.queues[c].open && w.view.got == w.hub.queues[c].taken == |w.hub.queues[c].items|
  }

  lemma {:induction false} SendAndReadIs(u: User, g: Group, w: World, c: Conn, epoch: nat, payload: Bytes)
    requires Idle(g, w, c)
    ensures var n := |LogOf(w.hub, g)| + 1;
            var w' := SendAndRead(u, g, w, c, epoch, payload);
            && g in w'.hub.threads && g !in w'.hub.sending
            && LogOf(w'.hub, g) == LogOf(w.hub, g) + [Message(n, epoch, c.user, payload)]
            && w'.view == w.view.(got := w.view.got + 1, cursor := Max(w.view.cursor, n))
            && c in w'.hub.queues && w'.hub.queues[c].items == w.hub.queues[c].items + [Ack(g, n)]
  {
    var n := |LogOf(w.hub, g)| + 1;
    WholeSend(w.hub, c, g, epoch, payload);
    var r := Run(w.hub, SendSteps(c, g, epoch, payload, n));
    assert r.queues[c].items[w.view.got] == Ack(g, n);
  }

  /**
   A client that has read everything on its connection and sends: once it reads the answer, its cursor is
   at the end of the log, and it holds everything up to there exactly when nobody else had posted beyond
   the old cursor.
   */
  lemma {:induction false} SendSkips(u: User, g: Group, moves: seq<Move>, c: Conn, epoch: nat, payload: Bytes)
    requires CoveredSoFar(u, g, Moves(u, g, START, moves)) && Idle(g, Moves(u, g, START, moves), c)
    ensures var w := Moves(u, g, START, moves);
            var w' := SendAndRead(u, g, w, c, epoch, payload);
            && w'.view.cursor == |LogOf(w'.hub, g)| == |LogOf(w.hub, g)| + 1
            && (CoveredSoFar(u, g, w') <==> OnlyOwn(u, LogOf(w.hub, g), w.view.cursor, |LogOf(w.hub, g)|))
  {
    var w := Moves(u, g, START, moves);
    var w' := SendAndRead(u, g, w, c, epoch, payload);
    MovesTrue(u, g, moves);
    HeldUpToCursor(u, g, moves);
    SendAndReadIs(u, g, w, c, epoch, payload);
    var log, log' := LogOf(w.hub, g), LogOf(w'.hub, g);
    forall t | 1 <= t <= w.view.cursor ensures Covered(u, log', w.view, t) { assert Covered(u, log, w.view, t); }
    ReadSkipsExactly(u, g, log', w.view, Ack(g, |log'|));
    assert OnlyOwn(u, log', w.view.cursor, |log|) <==> OnlyOwn(u, log, w.view.cursor, |log|) by {
      assert forall i :: 0 <= i < |log| ==> log'[i] == log[i];
    }
  }

  // ------------------------------------------------------------- what is skipped stays lost

  ghost predicate Unqueued(g: Group, items: seq<Item>, from: nat, t: nat) {
    forall p :: from <= p < |items| ==> !(items[p].Msg? && items[p].group == g && items[p].post.seqno == t)
  }

  /** Post `t` is fanned out, and the client neither holds it nor has it coming on its connection. */
  ghost predicate Gone(g: Group, w: World, t: nat) {
    && Inv(w.hub) && g in w.hub.threads && 1 <= t <= Fanned(w.hub, g) && t !in w.view.seen
    && (w.view.conn.Some? ==>
          && w.view.conn.value in w.hub.queues && w.view.got <= |w.hub.queues[w.view.conn.value].items|
          && Unqueued(g, w.hub.queues[w.view.conn.value].items, w.view.got, t))
  }

  /** The client subscribes from `t` or later. */
  predicate AsksFrom(g: Group, v: View, m: Move, t: nat) {
    m.Relay? && m.step.Subscribe? && m.step.group == g && Some(m.step.conn) == v.conn ==> t <= m.step.after
  }

  predicate AllAskFrom(u: User, g: Group, w: World, moves: seq<Move>, t: nat) {
    moves == [] ||
    (AllAskFrom(u, g, w, moves[..|moves| - 1], t) &&
     AsksFrom(g, Moves(u, g, w, moves[..|moves| - 1]).view, moves[|moves| - 1], t))
  }

  lemma {:induction false} GoneMinor(g: Group, w: World, s: Step, t: nat)
    requires Gone(g, w, t) && Minor(s, g)
    ensures Gone(g, w.(hub := Next(w.hub, s)), t)
  {
    StepKeeps(w.hub, s);
    MinorStep(w.hub, s, g, if w.view.conn.Some? then w.view.conn.value else Conn("", 0));
  }

  lemma {:induction false} GoneFanOut(g: Group, w: World, t: nat)
    requires Gone(g, w, t)
    ensures Gone(g, w.(hub := DoFanOut(w.hub, g)), t)
  {
    StepKeeps(w.hub, FanOut(g));
    if g in w.hub.sending && w.view.conn.Some? { FanOutQueue(w.hub, g, w.view.conn.value); }
  }

  lemma {:induction false} GoneSubscribe(g: Group, w: World, c: Conn, after: nat, t: nat)
    requires Gone(g, w, t) && AsksFrom(g, w.view, Relay(Subscribe(c, g, after)), t)
    ensures Gone(g, w.(hub := DoSubscribe(w.hub, c, g, after)), t)
  {
    StepKeeps(w.hub, Subscribe(c, g, after));
    if w.view.conn == Some(c) && w.hub.queues[c].open {
      BacklogIsLater(g, w.hub.threads[g], w.hub.queues[c].items, w.view.got, after, t);
    }
  }

  lemma {:induction false} BacklogIsLater(g: Group, th: Thread<Bytes>, items: seq<Item>, from: nat, after: nat, t: nat)
    requires Dense(th) && Unqueued(g, items, from, t) && t <= after
    ensures Unqueued(g, items + Catchup(g, After(th, after)), from, t)
  {
    AfterIsSuffix(th, after);
    ItemsAre(g, After(th, after));
  }

  lemma {:induction false} GoneOne(g: Group, w: World, s: Step, t: nat)
    requires Gone(g, w, t) && (s.AppendPost? || s.Acknowledge?) && s.group == g
    ensures Gone(g, w.(hub := Next(w.hub, s)), t)
  {
    StepKeeps(w.hub, s);
  }

  lemma {:induction false} GoneStays(u: User, g: Group, w: World, m: Move, t: nat)
    requires Gone(g, w, t) && AsksFrom(g, w.view, m, t)
    ensures Gone(g, Move1(u, g, w, m), t)
  {
    match m
    case Receive =>
    case Connect(c) => StepKeeps(w.hub, Open(c));
    case Relay(s) =>
      if Asks(g, w.view, s) {
        if Minor(s, g) { GoneMinor(g, w, s, t); }
        else if s.FanOut? { GoneFanOut(g, w, t); }
        else if s.Subscribe? { GoneSubscribe(g, w, s.conn, s.after, t); }
        else { GoneOne(g, w, s, t); }
      }
  }

  /** A post that is gone stays so while the client subscribes only from there or later. */
  lemma {:induction false} LostForGood(u: User, g: Group, w: World, later: seq<Move>, t: nat)
    requires Gone(g, w, t) && AllAskFrom(u, g, w, later, t)
    ensures Gone(g, Moves(u, g, w, later), t) && t !in Moves(u, g, w, later).view.seen
  {
    if later != [] {
      LostForGood(u, g, w, later[..|later| - 1], t);
      GoneStays(u, g, Moves(u, g, w, later[..|later| - 1]), later[|later| - 1], t);
    }
  }

  /** Every post of another's that a send skips is gone. */
  lemma {:induction false} SkippedIsGone(u: User, g: Group, moves: seq<Move>, c: Conn, epoch: nat, payload: Bytes, t: nat)
    requires Idle(g, Moves(u, g, START, moves), c)
    requires var w := Moves(u, g, START, moves); w.view.cursor < t <= |w.hub.threads[g].log|
    ensures Gone(g, SendAndRead(u, g, Moves(u, g, START, moves), c, epoch, payload), t)
  {
    MovesTrue(u, g, moves);
    HeldUpToCursor(u, g, moves);
    SkippedAt(u, g, Moves(u, g, START, moves), c, epoch, payload, t);
  }

  lemma {:induction false} SkippedAt(u: User, g: Group, w: World, c: Conn, epoch: nat, payload: Bytes, t: nat)
    requires ViewTrue(u, g, w) && HoldsNoLater(w.view) && Idle(g, w, c) && w.view.cursor < t <= |LogOf(w.hub, g)|
    ensures Gone(g, SendAndRead(u, g, w, c, epoch, payload), t)
  {
    SendAndReadIs(u, g, w, c, epoch, payload);
    RunKeeps(w.hub, SendSteps(c, g, epoch, payload, |LogOf(w.hub, g)| + 1));
  }

  /** Subscribed and caught up, a client holds every other's post, so sending is safe. */
  lemma {:induction false} SubscribedHoldsAll(u: User, g: Group, w: World, c: Conn, t: nat)
    requires Sound(u, g, w) && w.view.conn == Some(c) && w.hub.queues[c].open && SubscribedOn(w.hub, g, c)
    requires w.view.got == |w.hub.queues[c].items| && g in w.hub.threads && 1 <= t <= Fanned(w.hub, g)
    ensures Covered(u, LogOf(w.hub, g), w.view, t)
  {
    UpToDate(u, g, w, c);
    assert Covered(u, LogOf(w.hub, g), w.view, t) || Waits(g, w.hub.queues[c].items, w.view.got, w.view.got, t);
  }

  lemma {:induction false} MovesSnoc(u: User, g: Group, w: World, moves: seq<Move>, m: Move)
    ensures Moves(u, g, w, moves + [m]) == Move1(u, g, Moves(u, g, w, moves), m)
    ensures SafeMoves(u, g, w, moves + [m]) <==>
            SafeMoves(u, g, w, moves) && SendsSubscribed(g, Moves(u, g, w, moves), m)
  {
    assert (moves + [m])[..|moves|] == moves;
  }

  const ALICE := Conn("alice", 0)
  const BOB := Conn("bob", 0)

  /** Alice and Bob are connected, and Bob has a group. */
  const CONNECTED: seq<Move> := [] + [Connect(ALICE)] + [Relay(Open(BOB))]
  const OPENING: seq<Move> := CONNECTED + [Relay(Create(BOB, "circle"))]

  lemma {:induction false} BothConnected()
    ensures SafeMoves("alice", "circle", START, CONNECTED)
    ensures var w := Moves("alice", "circle", START, CONNECTED);
            && w.view == View(Some(ALICE), 0, 0, {}) && w.hub.threads == map[] && w.hub.subs == map[] && w.hub.sending == map[]
            && ALICE in w.hub.queues && w.hub.queues[ALICE] == Queue([], 0, true) && BOB in w.hub.queues
  {
    assert |"alice"| != |"bob"|;
    MovesSnoc("alice", "circle", START, [], Connect(ALICE));
    var w1 := Move1("alice", "circle", START, Connect(ALICE));
    assert w1.view == View(Some(ALICE), 0, 0, {}) && w1.hub == EMPTY.(queues := map[ALICE := Queue([], 0, true)]);
    MovesSnoc("alice", "circle", START, [] + [Connect(ALICE)], Relay(Open(BOB)));
  }

  lemma {:induction false} Opened()
    ensures SafeMoves("alice", "circle", START, OPENING)
    ensures var w := Moves("alice", "circle", START, OPENING);
            && w.view == View(Some(ALICE), 0, 0, {})
            && ALICE in w.hub.queues && w.hub.queues[ALICE] == Queue([], 0, true) && BOB in w.hub.queues
            && "circle" in w.hub.threads && w.hub.threads["circle"] == Thread(0, []) && "circle" !in w.hub.sending
            && !SubscribedOn(w.hub, "circle", ALICE)
  {
    assert |"alice"| != |"bob"|;
    BothConnected();
    MovesSnoc("alice", "circle", START, CONNECTED, Relay(Create(BOB, "circle")));
  }

  /** Bob posts there before Alice has subscribed. */
  const POSTING: seq<Move> := [Relay(AppendPost(BOB, "circle", 0, [], false)), Relay(FanOut("circle"))]

  lemma {:induction false} BobPosted()
    ensures SafeMoves("alice", "circle", START, OPENING + POSTING)
    ensures var w := Moves("alice", "circle", START, OPENING + POSTING);
            && w.view == View(Some(ALICE), 0, 0, {}) && Idle("circle", w, ALICE)
            && |w.hub.threads["circle"].log| == 1 && w.hub.threads["circle"].log[0].sender == "bob"
  {
    assert |"alice"| != |"bob"|;
    Opened();
    MovesSnoc("alice", "circle", START, OPENING, POSTING[0]);
    MovesSnoc("alice", "circle", START, OPENING + [POSTING[0]], POSTING[1]);
    assert OPENING + [POSTING[0]] + [POSTING[1]] == OPENING + POSTING;
    var w := Moves("alice", "circle", START, OPENING);
    AppendThenFanOut(w.hub, BOB, "circle", 0, []);
    OtherQueueSame(w.hub, BOB, "circle", 0, [], ALICE);
  }

  /** Alice then sends, and whatever happens later never receives Bob's post, subscribing from their cursor or not at all. */
  lemma {:induction false} UnsubscribedSenderLoses(later: seq<Move>)
    requires var w := SendAndRead("alice", "circle", Moves("alice", "circle", START, OPENING + POSTING), ALICE, 0, []);
             AllAskFrom("alice", "circle", w, later, 1)
    ensures var w := SendAndRead("alice", "circle", Moves("alice", "circle", START, OPENING + POSTING), ALICE, 0, []);
            && w.view.cursor == 2 && |LogOf(w.hub, "circle")| == 2 && !Covered("alice", LogOf(w.hub, "circle"), w.view, 1)
            && 1 !in Moves("alice", "circle", w, later).view.seen
  {
    assert |"alice"| != |"bob"|;
    BobPosted();
    var start := Moves("alice", "circle", START, OPENING + POSTING);
    SendAndReadIs("alice", "circle", start, ALICE, 0, []);
    SkippedIsGone("alice", "circle", OPENING + POSTING, ALICE, 0, [], 1);
    LostForGood("alice", "circle", SendAndRead("alice", "circle", start, ALICE, 0, []), later, 1);
  }

  lemma {:induction false} OtherQueueSame(h: Hub, c: Conn, g: Group, epoch: nat, payload: Bytes, other: Conn)
    requires g in h.threads && g !in h.sending && c in h.queues && other in h.queues && !SubscribedOn(h, g, other)
    ensures var r := Next(Next(h, AppendPost(c, g, epoch, payload, false)), FanOut(g));
            other in r.queues && r.queues[other] == h.queues[other] && g !in r.sending
  {}

  // ----------------------------------------------------- dropped without being told

  /** Alice subscribes to Bob's group, and Bob posts `k` times while nothing of it is written to Alice's socket. */
  function Flood(k: nat): (moves: seq<Move>) {
    if k == 0 then OPENING + [Relay(Subscribe(ALICE, "circle", 0))]
    else Flood(k - 1) + [Relay(AppendPost(BOB, "circle", 0, [], false))] + [Relay(FanOut("circle"))]
  }

  /** Alice's queue holds `k` posts of the `k` there are. */
  ghost predicate Flooded(h: Hub, k: nat) {
    && BOB in h.queues && ALICE in h.queues
    && "circle" in h.threads && "circle" !in h.sending && |h.threads["circle"].log| == k
    && h.queues[ALICE].taken == 0 && h.queues[ALICE].open && |h.queues[ALICE].items| == k + 1
    && SubscribedOn(h, "circle", ALICE)
  }

  const WAITING := View(Some(ALICE), 0, 0, {})

  lemma {:induction false} FloodStarts()
    ensures var w := Moves("alice", "circle", START, Flood(0)); w.view == WAITING && Flooded(w.hub, 0)
  {
    Opened();
    MovesSnoc("alice", "circle", START, OPENING, Relay(Subscribe(ALICE, "circle", 0)));
    AfterIsSuffix(Moves("alice", "circle", START, OPENING).hub.threads["circle"], 0);
  }

  function PostByBob(h: Hub): (r: Hub) { Next(Next(h, AppendPost(BOB, "circle", 0, [], false)), FanOut("circle")) }

  lemma {:induction false} PostAppended(h: Hub, k: nat)
    requires Flooded(h, k)
    ensures var r := Next(h, AppendPost(BOB, "circle", 0, [], false));
            && r.queues == h.queues && r.subs == h.subs && "circle" in r.threads && "circle" in r.sending
            && r.threads["circle"].log == h.threads["circle"].log + [Message(k + 1, 0, "bob", [])]
            && r.sending["circle"] == InFlight(BOB, Message(k + 1, 0, "bob", []))
  {
  }

  /** One more post: queued for Alice if there is room, and otherwise the end of Alice's subscription and nothing else. */
  lemma {:induction false} OneMorePost(h: Hub, k: nat)
    requires Flooded(h, k)
    ensures var r := PostByBob(h);
            && "circle" in r.threads && r.threads["circle"].log == h.threads["circle"].log + [Message(k + 1, 0, "bob", [])]
            && "circle" !in r.sending && BOB in r.queues && ALICE in r.queues
            && (SubscribedOn(r, "circle", ALICE) <==> k + 1 < MAX_QUEUE)
            && r.queues[ALICE] == h.queues[ALICE].(items := h.queues[ALICE].items +
                 (if k + 1 < MAX_QUEUE then [Msg("circle", Message(k + 1, 0, "bob", []))] else []))
  {
    PostAppended(h, k);
    PostFannedOut(Next(h, AppendPost(BOB, "circle", 0, [], false)), k);
  }

  lemma {:induction false} PostFannedOut(h: Hub, k: nat)
    requires "circle" in h.sending && h.sending["circle"] == InFlight(BOB, Message(k + 1, 0, "bob", []))
    requires BOB in h.queues && ALICE in h.queues && SubscribedOn(h, "circle", ALICE)
    requires h.queues[ALICE].taken == 0 && h.queues[ALICE].open && |h.queues[ALICE].items| == k + 1
    ensures var r := DoFanOut(h, "circle");
            && r.threads == h.threads && "circle" !in r.sending && BOB in r.queues && ALICE in r.queues
            && (SubscribedOn(r, "circle", ALICE) <==> k + 1 < MAX_QUEUE)
            && r.queues[ALICE] == h.queues[ALICE].(items := h.queues[ALICE].items +
                 (if k + 1 < MAX_QUEUE then [Msg("circle", Message(k + 1, 0, "bob", []))] else []))
  {
    assert |"alice"| != |"bob"|;
    assert HasRoom(h.queues[ALICE]) <==> k + 1 < MAX_QUEUE;
  }

  ghost predicate FloodedWorld(w: World, k: nat) { w.view == WAITING && Flooded(w.hub, k) }

  lemma {:induction false} FloodGrows(w: World, k: nat)
    requires FloodedWorld(w, k) && k + 1 < MAX_QUEUE
    ensures FloodedWorld(w.(hub := PostByBob(w.hub)), k + 1)
  {
    OneMorePost(w.hub, k);
  }

  lemma {:induction false} FloodState(k: nat)
    requires k < MAX_QUEUE
    ensures FloodedWorld(Moves("alice", "circle", START, Flood(k)), k)
  {
    if k == 0 {
      FloodStarts();
    } else {
      FloodState(k - 1);
      var w := Moves("alice", "circle", START, Flood(k - 1));
      assert Moves("alice", "circle", START, Flood(k)) == w.(hub := PostByBob(w.hub)) by { FloodSnoc(k - 1); }
      FloodGrows(w, k - 1);
    }
  }

  lemma {:induction false} FloodSnoc(k: nat)
    ensures var w := Moves("alice", "circle", START, Flood(k));
            Moves("alice", "circle", START, Flood(k + 1)) == w.(hub := PostByBob(w.hub))
  {
    var post, out := Relay(AppendPost(BOB, "circle", 0, [], false)), Relay(FanOut("circle"));
    MovesSnoc("alice", "circle", START, Flood(k), post);
    MovesSnoc("alice", "circle", START, Flood(k) + [post], out);
  }

  /** Alice's subscription is gone, the connection shows nothing of it, and a post is missing from the queue. */
  ghost predicate DroppedUntold(w: World) {
    && w.view == WAITING && ALICE in w.hub.queues && w.hub.queues[ALICE].open
    && w.hub.queues[ALICE].taken == 0 && |w.hub.queues[ALICE].items| == MAX_QUEUE
    && !SubscribedOn(w.hub, "circle", ALICE) && "circle" in w.hub.threads && "circle" !in w.hub.sending
    && |LogOf(w.hub, "circle")| == MAX_QUEUE && LogOf(w.hub, "circle")[MAX_QUEUE - 1].sender == "bob"
    && Gone("circle", w, MAX_QUEUE)
  }

  /** What a queue of true items cannot hold. */
  lemma {:induction false} NotYetQueued(h: Hub, n: nat)
    requires ConnTrue("alice", "circle", h, ALICE) && |LogOf(h, "circle")| < n
    ensures Unqueued("circle", h.queues[ALICE].items, 0, n)
  {
    var items := h.queues[ALICE].items;
    forall p | 0 <= p < |items| ensures !(items[p].Msg? && items[p].group == "circle" && items[p].post.seqno == n) {
      assert ItemTrue("alice", "circle", LogOf(h, "circle"), items[p]);
    }
  }

  /** The post that finds the queue full drops Alice. */
  lemma {:induction false} Dropped()
    ensures DroppedUntold(Moves("alice", "circle", START, Flood(MAX_QUEUE)))
  {
    var k := MAX_QUEUE - 1;
    var w := Moves("alice", "circle", START, Flood(k));
    FloodState(k);
    assert ConnTrue("alice", "circle", w.hub, ALICE) by { MovesTrue("alice", "circle", Flood(k)); }
    NotYetQueued(w.hub, MAX_QUEUE);
    assert Inv(Moves("alice", "circle", START, Flood(k + 1)).hub) by { MovesTrue("alice", "circle", Flood(k + 1)); }
    OneMorePost(w.hub, k);
    FloodSnoc(k);
  }

  /** Alice, who knows of nothing, sends. */
  const SENDING: seq<Move> := [] + [Relay(AppendPost(ALICE, "circle", 0, [], false))] + [Relay(FanOut("circle"))]
                                 + [Relay(Acknowledge(ALICE, "circle", MAX_QUEUE + 1))]

  /** The relay writes `n` items to the socket of `c`, and the client reads them. */
  function Reading(c: Conn, n: nat): (moves: seq<Move>) {
    if n == 0 then [] else Reading(c, n - 1) + [Relay(Drain(c))] + [Receive]
  }

  /** Everything written to the open connection `c` has been read. */
  predicate ReadUp(w: World, c: Conn) {
    w.view.conn == Some(c) && c in w.hub.queues && w.hub.queues[c].open && w.view.got == w.hub.queues[c].taken
  }

  lemma {:induction false} OneRead(u: User, g: Group, w: World, c: Conn)
    requires ReadUp(w, c) && w.view.got < |w.hub.queues[c].items|
    ensures var w', q := Move1(u, g, Move1(u, g, w, Relay(Drain(c))), Receive), w.hub.queues[c];
            && w'.hub == w.hub.(queues := w.hub.queues[c := q.(taken := q.taken + 1)])
            && w'.view == Read(g, w.view, q.items[w.view.got])
  {
  }

  lemma {:induction false} ReadingIs(u: User, g: Group, w: World, c: Conn, n: nat)
    requires ReadUp(w, c) && w.view.got + n <= |w.hub.queues[c].items|
    ensures var w', q := Moves(u, g, w, Reading(c, n)), w.hub.queues[c];
            && ReadUp(w', c) && w'.view.got == w.view.got + n && w'.hub.threads == w.hub.threads
            && w'.hub.queues[c].items == q.items
            && (n > 0 && Mark(g, q.items[w.view.got + n - 1]).Some? ==>
                  w'.view.cursor >= Mark(g, q.items[w.view.got + n - 1]).value)
  {
    if n > 0 {
      ReadingIs(u, g, w, c, n - 1);
      MovesSnoc(u, g, w, Reading(c, n - 1), Relay(Drain(c)));
      MovesSnoc(u, g, w, Reading(c, n - 1) + [Relay(Drain(c))], Receive);
      OneRead(u, g, Moves(u, g, w, Reading(c, n - 1)), c);
    }
  }

  lemma {:induction false} MovesConcat(u: User, g: Group, w: World, a: seq<Move>, b: seq<Move>)
    ensures Moves(u, g, w, a + b) == Moves(u, g, Moves(u, g, w, a), b)
  {
    if b == [] {
      assert a + b == a;
    } else {
      MovesConcat(u, g, w, a, b[..|b| - 1]);
      assert (a + b)[..|a + b| - 1] == a + b[..|b| - 1];
    }
  }

  predicate NoSubscribe(moves: seq<Move>) { forall i :: 0 <= i < |moves| ==> !(moves[i].Relay? && moves[i].step.Subscribe?) }

  lemma {:induction false} NothingAsked(u: User, g: Group, w: World, moves: seq<Move>, t: nat)
    requires NoSubscribe(moves)
    ensures AllAskFrom(u, g, w, moves, t)
  {
    if moves != [] { NothingAsked(u, g, w, moves[..|moves| - 1], t); }
  }

  lemma {:induction false} ReadingAsksNothing(c: Conn, n: nat)
    ensures NoSubscribe(Reading(c, n))
  {
    if n > 0 { ReadingAsksNothing(c, n - 1); }
  }

  /** The whole run: subscribed, flooded, dropped, and then a send, and everything read. */
  function DroppedRun(): (moves: seq<Move>) { Flood(MAX_QUEUE) + (SENDING + Reading(ALICE, MAX_QUEUE + 1)) }

  lemma {:induction false} Sent(w: World)
    requires DroppedUntold(w)
    ensures var w' := Moves("alice", "circle", w, SENDING);
            && w'.view == w.view && ReadUp(w', ALICE) && "circle" in w'.hub.threads
            && |LogOf(w'.hub, "circle")| == MAX_QUEUE + 1 && LogOf(w'.hub, "circle")[..MAX_QUEUE] == LogOf(w.hub, "circle")
            && w'.hub.queues[ALICE].items == w.hub.queues[ALICE].items + [Ack("circle", MAX_QUEUE + 1)]
  {
    var a, b, c := Relay(AppendPost(ALICE, "circle", 0, [], false)), Relay(FanOut("circle")), Relay(Acknowledge(ALICE, "circle", MAX_QUEUE + 1));
    MovesSnoc("alice", "circle", w, [], a);
    MovesSnoc("alice", "circle", w, [] + [a], b);
    MovesSnoc("alice", "circle", w, [] + [a] + [b], c);
    AppendThenFanOut(w.hub, ALICE, "circle", 0, []);
  }

  lemma {:induction false} ReadToTheEnd(w: World)
    requires DroppedUntold(w)
    ensures var w' := Moves("alice", "circle", w, SENDING + Reading(ALICE, MAX_QUEUE + 1));
            && ReadUp(w', ALICE) && w'.view.cursor >= MAX_QUEUE + 1 && |LogOf(w'.hub, "circle")| == MAX_QUEUE + 1
            && LogOf(w'.hub, "circle")[MAX_QUEUE - 1].sender == "bob"
  {
    Sent(w);
    MovesConcat("alice", "circle", w, SENDING, Reading(ALICE, MAX_QUEUE + 1));
    ReadingIs("alice", "circle", Moves("alice", "circle", w, SENDING), ALICE, MAX_QUEUE + 1);
    assert LogOf(w.hub, "circle")[MAX_QUEUE - 1] == LogOf(Moves("alice", "circle", w, SENDING).hub, "circle")[..MAX_QUEUE][MAX_QUEUE - 1];
  }

  lemma {:induction false} StaysGone(w: World)
    requires DroppedUntold(w)
    ensures Gone("circle", Moves("alice", "circle", w, SENDING + Reading(ALICE, MAX_QUEUE + 1)), MAX_QUEUE)
  {
    var rest := SENDING + Reading(ALICE, MAX_QUEUE + 1);
    ReadingAsksNothing(ALICE, MAX_QUEUE + 1);
    NothingAsked("alice", "circle", w, rest, MAX_QUEUE);
    LostForGood("alice", "circle", w, rest, MAX_QUEUE);
  }

  /**
   A subscriber that was dropped for being slow, on a connection that never closed, sends and then reads all that
   is there: its cursor is at the end of the log, another's post is missing below it, and no later moves bring
   that post while subscriptions start from the cursor.
   */
  lemma {:induction false} DroppedSenderLoses(later: seq<Move>)
    requires AllAskFrom("alice", "circle", Moves("alice", "circle", START, DroppedRun()), later, MAX_QUEUE)
    ensures var w := Moves("alice", "circle", START, DroppedRun());
            && w.view.conn == Some(ALICE) && ALICE in w.hub.queues && w.hub.queues[ALICE].open
            && w.view.cursor == |LogOf(w.hub, "circle")| == MAX_QUEUE + 1
            && !Covered("alice", LogOf(w.hub, "circle"), w.view, MAX_QUEUE)
            && MAX_QUEUE !in Moves("alice", "circle", w, later).view.seen
  {
    assert |"alice"| != |"bob"|;
    var rest, w := SENDING + Reading(ALICE, MAX_QUEUE + 1), Moves("alice", "circle", START, DroppedRun());
    Dropped();
    MovesConcat("alice", "circle", START, Flood(MAX_QUEUE), rest);
    ReadToTheEnd(Moves("alice", "circle", START, Flood(MAX_QUEUE)));
    StaysGone(Moves("alice", "circle", START, Flood(MAX_QUEUE)));
    assert w.view.cursor <= |LogOf(w.hub, "circle")| by { MovesTrue("alice", "circle", DroppedRun()); }
    LostForGood("alice", "circle", w, later, MAX_QUEUE);
  }
}
