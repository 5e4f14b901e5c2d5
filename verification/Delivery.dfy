/**
 Ordered delivery: the fan-out hub of relay/src/server.rs. A send is two steps, an append
 under the group's send lock and a fan-out under the hub lock; a subscription is one step
 under the hub lock. Any number of groups, users and connections interleave freely.
 */
module Delivery {
  import opened Common
  import opened Seqs
  import opened GroupLog

  const MAX_QUEUE := 512

  /** A connection belongs to the one user who authenticated on it. */
  datatype Conn = Conn(user: User, id: nat)

  type Post = Message<Bytes>

  datatype Item =
    | Msg(group: Group, post: Post)
    | Subscribed(group: Group, last: Option<nat>)
    | Ack(group: Group, seqno: nat)
    | Eph(group: Group, sender: User)
    | Reply

  /** An outbound channel: everything ever queued on it, and how much the writer has taken. */
  datatype Queue = Queue(items: seq<Item>, taken: nat, open: bool)

  function Depth(q: Queue): (d: int) { |q.items| - q.taken }

  /** `Outbound::send`: unbounded, refused only once the receiver is gone. */
  function Send(q: Queue, items: seq<Item>): (r: Queue) {
    if q.open then q.(items := q.items + items) else q
  }

  /** `Outbound::offer`: whether fan-out may queue here. */
  predicate HasRoom(q: Queue) { q.open && Depth(q) < MAX_QUEUE }

  /** A send between its append and its fan-out: it holds the group's send lock. */
  datatype InFlight = InFlight(conn: Conn, post: Post)

  /**
   History of one subscription: where in the queue it starts, the cursor it asked for, the
   log length when it was served, and how much of the log had been fanned out by then.
   */
  datatype Session = Session(start: nat, after: nat, served: nat, from: nat)

  datatype Subscription = Subscription(conn: Conn, session: Session)

  datatype Hub = Hub(
    threads: map<Group, Thread<Bytes>>,
    sending: map<Group, InFlight>,
    subs: map<Group, map<User, Subscription>>,
    queues: map<Conn, Queue>,
    acks: set<(Conn, Group, nat)>)

  datatype Step =
    | Open(conn: Conn)
    | Create(conn: Conn, group: Group)
    | Subscribe(conn: Conn, group: Group, after: nat)
    | AppendPost(conn: Conn, group: Group, epoch: nat, payload: Bytes, commit: bool)
    | FanOut(group: Group)
    | Acknowledge(conn: Conn, group: Group, seqno: nat)
    | Ephemeral(conn: Conn, group: Group)
    | Answer(conn: Conn)
    | Drain(conn: Conn)
    | Disallow(group: Group, user: User)
    | Close(conn: Conn)
    | Teardown(conn: Conn)

  const EMPTY := Hub(map[], map[], map[], map[], {})

  /** How much of a group's log has been fanned out. */
  function Fanned(h: Hub, g: Group): (n: nat)
    requires g in h.threads
  {
    var n := |h.threads[g].log|;
    if g in h.sending && n > 0 then n - 1 else n
  }

  function SubsOf(h: Hub, g: Group): (s: map<User, Subscription>) {
    if g in h.subs then h.subs[g] else map[]
  }

  function PutQueue(h: Hub, c: Conn, items: seq<Item>): (r: Hub)
    requires c in h.queues
  {
    h.(queues := h.queues[c := Send(h.queues[c], items)])
  }

  function Next(h: Hub, s: Step): (r: Hub) {
    match s
    case Open(c) => if c in h.queues then h else h.(queues := h.queues[c := Queue([], 0, true)])
    case Create(c, g) => DoCreate(h, c, g)
    case Subscribe(c, g, after) => DoSubscribe(h, c, g, after)
    case AppendPost(c, g, epoch, payload, commit) => DoAppend(h, c, g, epoch, payload, commit)
    case FanOut(g) => DoFanOut(h, g)
    case Acknowledge(c, g, n) =>
      if (c, g, n) in h.acks && c in h.queues then PutQueue(h.(acks := h.acks - {(c, g, n)}), c, [Ack(g, n)]) else h
    case Ephemeral(c, g) => Broadcast(h, g, c.user, Eph(g, c.user))
    case Answer(c) => if c in h.queues then PutQueue(h, c, [Reply]) else h
    case Drain(c) =>
      if c in h.queues && h.queues[c].open && h.queues[c].taken < |h.queues[c].items|
      then h.(queues := h.queues[c := h.queues[c].(taken := h.queues[c].taken + 1)]) else h
    case Disallow(g, u) => if g in h.subs then h.(subs := h.subs[g := h.subs[g] - {u}]) else h
    case Close(c) => if c in h.queues then h.(queues := h.queues[c := h.queues[c].(open := false)]) else h
    case Teardown(c) => DoTeardown(h, c)
  }

  function DoCreate(h: Hub, c: Conn, g: Group): (r: Hub) {
    if g in h.threads || c !in h.queues then h
    else
      var session := Session(|h.queues[c].items|, 0, 0, 0);
      h.(threads := h.threads[g := Thread(0, [])],
         subs := h.subs[g := SubsOf(h, g)[c.user := Subscription(c, session)]])
  }

  /** Register and backfill in one step; the reply names the last backlog entry. */
  function DoSubscribe(h: Hub, c: Conn, g: Group, after: nat): (r: Hub) {
    if g !in h.threads || c !in h.queues then h
    else
      var session := Session(|h.queues[c].items|, after, |h.threads[g].log|, Fanned(h, g));
      PutQueue(h.(subs := h.subs[g := SubsOf(h, g)[c.user := Subscription(c, session)]]),
               c, Catchup(g, After(h.threads[g], after)))
  }

  function AsItems(g: Group, posts: seq<Post>): (r: seq<Item>)
    ensures |r| == |posts|
  {
    if posts == [] then [] else AsItems(g, posts[..|posts| - 1]) + [Msg(g, posts[|posts| - 1])]
  }

  /** What a subscription queues: the reply, then the backlog. */
  function Catchup(g: Group, backlog: seq<Post>): (r: seq<Item>) {
    [Subscribed(g, if backlog == [] then None else Some(backlog[|backlog| - 1].seqno))] + AsItems(g, backlog)
  }

  function DoAppend(h: Hub, c: Conn, g: Group, epoch: nat, payload: Bytes, commit: bool): (r: Hub) {
    if g !in h.threads || g in h.sending || c !in h.queues then h
    else
      var out := Append(h.threads[g], epoch, c.user, payload, commit);
      if out.1.Err? then h
      else
        h.(threads := h.threads[g := out.0],
           sending := h.sending[g := InFlight(c, out.0.log[|out.0.log| - 1])])
  }

  /** Release the send lock after offering the post to every other subscriber. */
  function DoFanOut(h: Hub, g: Group): (r: Hub) {
    if g !in h.sending then h
    else
      var flight := h.sending[g];
      Broadcast(h, g, flight.post.sender, Msg(g, flight.post))
      .(sending := h.sending - {g}, acks := h.acks + {(flight.conn, g, flight.post.seqno)})
  }

  /** `subs.retain`: offer to everyone but the sender, dropping whoever has no room. */
  function Broadcast(h: Hub, g: Group, sender: User, item: Item): (r: Hub) {
    if g !in h.subs then h
    else
      var subs := h.subs[g];
      h.(subs := h.subs[g := Kept(subs, h.queues, sender)], queues := Offered(subs, h.queues, sender, item))
  }

  function Kept(subs: map<User, Subscription>, queues: map<Conn, Queue>, sender: User): (r: map<User, Subscription>) {
    map u | u in subs && (u == sender || (subs[u].conn in queues && HasRoom(queues[subs[u].conn]))) :: subs[u]
  }

  function Offered(subs: map<User, Subscription>, queues: map<Conn, Queue>, sender: User, item: Item)
    : (r: map<Conn, Queue>)
  {
    map c | c in queues ::
      if c.user != sender && c.user in subs && subs[c.user].conn == c && HasRoom(queues[c])
      then queues[c].(items := queues[c].items + [item])
      else queues[c]
  }

  /** Remove only the entries this connection owns. */
  function DoTeardown(h: Hub, c: Conn): (r: Hub) {
    var subs := map g | g in h.subs ::
      if c.user in h.subs[g] && h.subs[g][c.user].conn == c then h.subs[g] - {c.user} else h.subs[g];
    var h' := h.(subs := subs);
    if c in h.queues then h'.(queues := h.queues[c := h.queues[c].(open := false)]) else h'
  }

  function Run(h: Hub, steps: seq<Step>): (r: Hub) {
    if steps == [] then h else Next(Run(h, steps[..|steps| - 1]), steps[|steps| - 1])
  }

  // ---------------------------------------------------------------- what was delivered

  /** The posts of group `g` in a stretch of a queue. */
  function Posts(g: Group, items: seq<Item>): (r: seq<Post>) {
    if items == [] then []
    else
      var last := items[|items| - 1];
      Posts(g, items[..|items| - 1]) + (if last.Msg? && last.group == g then [last.post] else [])
  }

  /** The posts of a log stretch that somebody other than `u` wrote. */
  function ByOthers(u: User, log: seq<Post>): (r: seq<Post>) {
    if log == [] then []
    else
      var last := log[|log| - 1];
      ByOthers(u, log[..|log| - 1]) + (if last.sender != u then [last] else [])
  }

  function Suffix(log: seq<Post>, after: nat): (r: seq<Post>) {
    if after <= |log| then log[after..] else []
  }

  /** What subscription `s` of `u` should have queued by now. */
  function Due(log: seq<Post>, u: User, s: Session, fanned: nat): (r: seq<Post>)
    requires s.from <= fanned <= |log| && s.served <= |log|
  {
    Suffix(log[..s.served], s.after) + ByOthers(u, log[s.from..fanned])
  }

  /** What `u` was promised of group `g`, in terms of the log and the queues alone. */
  ghost predicate Holds(g: Group, u: User, sub: Subscription, log: seq<Post>, fanned: nat, queues: map<Conn, Queue>) {
    var s := sub.session;
    && sub.conn.user == u
    && sub.conn in queues
    && s.from <= s.served <= s.from + 1
    && s.served <= |log| && s.from <= fanned <= |log|
    && s.start <= |queues[sub.conn].items|
    && (queues[sub.conn].open ==> Posts(g, queues[sub.conn].items[s.start..]) == Due(log, u, s, fanned))
  }

  ghost predicate SessionOk(h: Hub, g: Group, u: User)
    requires g in h.threads && g in h.subs && u in h.subs[g]
  {
    Holds(g, u, h.subs[g][u], h.threads[g].log, Fanned(h, g), h.queues)
  }

  ghost predicate BaseOk(h: Hub) {
    && (forall g :: g in h.threads ==> Dense(h.threads[g]))
    && (forall g :: g in h.sending ==>
          g in h.threads && h.threads[g].log != [] &&
          h.sending[g].post == h.threads[g].log[|h.threads[g].log| - 1])
    && (forall g :: g in h.subs ==> g in h.threads)
  }

  ghost predicate Inv(h: Hub) {
    && BaseOk(h)
    && (forall g, u :: g in h.subs && u in h.subs[g] ==> SessionOk(h, g, u))
  }

  // ------------------------------------------------------------------------ algebra

  lemma {:induction false} PostsConcat(g: Group, a: seq<Item>, b: seq<Item>)
    ensures Posts(g, a + b) == Posts(g, a) + Posts(g, b)
  {
    if b == [] {
      assert a + b == a;
    } else {
      assert (a + b)[..|a + b| - 1] == a + b[..|b| - 1];
      PostsConcat(g, a, b[..|b| - 1]);
    }
  }

  /** The post an item carries for group `g`, if any. */
  function PostOf(g: Group, item: Item): (r: seq<Post>) {
    if item.Msg? && item.group == g then [item.post] else []
  }

  lemma {:induction false} PostsSnoc(g: Group, items: seq<Item>, item: Item)
    ensures Posts(g, items + [item]) == Posts(g, items) + PostOf(g, item)
  {
    assert (items + [item])[..|items|] == items;
  }

  lemma {:induction false} PostsOfItems(g: Group, g': Group, posts: seq<Post>)
    ensures Posts(g', AsItems(g, posts)) == if g == g' then posts else []
  {
    if posts != [] {
      PostsOfItems(g, g', posts[..|posts| - 1]);
      PostsSnoc(g', AsItems(g, posts[..|posts| - 1]), Msg(g, posts[|posts| - 1]));
    }
  }

  /** Pushing one item onto a queue extends every window that started earlier. */
  lemma {:induction false} PushOne(g: Group, items: seq<Item>, item: Item, start: nat)
    requires start <= |items|
    ensures Posts(g, (items + [item])[start..]) == Posts(g, items[start..]) + PostOf(g, item)
  {
    assert (items + [item])[start..] == items[start..] + [item];
    PostsSnoc(g, items[start..], item);
  }

  lemma {:induction false} ByOthersSnoc(u: User, log: seq<Post>, m: Post)
    ensures ByOthers(u, log + [m]) == ByOthers(u, log) + (if m.sender != u then [m] else [])
  {
    assert (log + [m])[..|log|] == log;
  }

  // ---------------------------------------------------------------- every step keeps it

  lemma {:induction false} AppendKeeps(h: Hub, c: Conn, g: Group, epoch: nat, payload: Bytes, commit: bool)
    requires Inv(h)
    ensures Inv(DoAppend(h, c, g, epoch, payload, commit))
  {
    var r := DoAppend(h, c, g, epoch, payload, commit);
    if r != h {
      var log, log' := h.threads[g].log, r.threads[g].log;
      AppendKeepsDense(h.threads[g], epoch, c.user, payload, commit);
      assert r.subs == h.subs && r.queues == h.queues && log' == log + [log'[|log|]];
      assert Fanned(r, g) == |log| == Fanned(h, g);
      forall g', u | g' in r.subs && u in r.subs[g'] ensures SessionOk(r, g', u) {
        assert SessionOk(h, g', u);
        if g' == g { HoldsUnderAppend(g, u, h.subs[g][u], log, log'[|log|], h.queues); }
      }
    }
  }

  lemma {:induction false} HoldsUnderAppend(g: Group, u: User, sub: Subscription, log: seq<Post>, m: Post,
                                            queues: map<Conn, Queue>)
    requires Holds(g, u, sub, log, |log|, queues)
    ensures Holds(g, u, sub, log + [m], |log|, queues)
  {
    var s := sub.session;
    assert (log + [m])[..s.served] == log[..s.served];
    assert (log + [m])[s.from..|log|] == log[s.from..|log|];
  }

  /** Pushing items that are no posts of `g` leaves every promise about `g` as it was. */
  lemma {:induction false} HoldsUnderPush(g: Group, u: User, sub: Subscription, log: seq<Post>, fanned: nat,
                                          queues: map<Conn, Queue>, c: Conn, pushed: seq<Item>)
    requires Holds(g, u, sub, log, fanned, queues) && c in queues
    requires sub.conn == c ==> Posts(g, pushed) == []
    ensures Holds(g, u, sub, log, fanned, queues[c := Send(queues[c], pushed)])
  {
    var start, items := sub.session.start, queues[c].items;
    if sub.conn == c {
      assert (items + pushed)[start..] == items[start..] + pushed;
      PostsConcat(g, items[start..], pushed);
    }
  }

  lemma {:induction false} CatchupPosts(g: Group, g': Group, backlog: seq<Post>)
    ensures Posts(g', Catchup(g, backlog)) == if g == g' then backlog else []
  {
    var head := Catchup(g, backlog)[..1];
    assert head == [Catchup(g, backlog)[0]] && head[..0] == [];
    assert Posts(g', head) == [];
    PostsConcat(g', head, AsItems(g, backlog));
    PostsOfItems(g, g', backlog);
  }

  lemma {:induction false} SubscribeKeeps(h: Hub, c: Conn, g: Group, after: nat)
    requires Inv(h)
    ensures Inv(DoSubscribe(h, c, g, after))
  {
    var r := DoSubscribe(h, c, g, after);
    if g in h.threads && c in h.queues {
      var backlog := After(h.threads[g], after);
      forall g', u | g' in r.subs && u in r.subs[g'] ensures SessionOk(r, g', u) {
        if g' == g && u == c.user {
          NewSession(h, c, g, after);
        } else {
          assert h.subs[g'][u] == r.subs[g'][u];
          assert SessionOk(h, g', u);
          CatchupPosts(g, g', backlog);
          HoldsUnderPush(g', u, h.subs[g'][u], h.threads[g'].log, Fanned(h, g'), h.queues, c, Catchup(g, backlog));
        }
      }
    }
  }

  lemma {:induction false} NewSession(h: Hub, c: Conn, g: Group, after: nat)
    requires Inv(h) && g in h.threads && c in h.queues
    ensures SessionOk(DoSubscribe(h, c, g, after), g, c.user)
  {
    FreshWindow(g, h.queues[c].items, h.threads[g], after, Fanned(h, g), c.user);
  }

  lemma {:induction false} FreshWindow(g: Group, items: seq<Item>, t: Thread<Bytes>, after: nat, fanned: nat, u: User)
    requires Dense(t) && fanned <= |t.log| <= fanned + 1
    ensures Posts(g, (items + Catchup(g, After(t, after)))[|items|..]) ==
            Due(t.log, u, Session(|items|, after, |t.log|, fanned), fanned)
  {
    AfterIsSuffix(t, after);
    CatchupPosts(g, g, After(t, after));
    assert (items + Catchup(g, After(t, after)))[|items|..] == Catchup(g, After(t, after));
    assert t.log[..|t.log|] == t.log && t.log[fanned..fanned] == [];
  }

  /** What a broadcast does to the window of a subscriber that it keeps. */
  lemma {:induction false} OfferEffect(h: Hub, g: Group, sender: User, item: Item, g': Group, u: User)
    requires Inv(h) && g in h.subs && g' in h.subs && u in h.subs[g']
    requires var r := Broadcast(h, g, sender, item); u in r.subs[g']
    ensures var r := Broadcast(h, g, sender, item);
            var sub := h.subs[g'][u];
            && r.subs[g'][u] == sub && sub.conn in r.queues
            && r.queues[sub.conn].open == h.queues[sub.conn].open
            && |h.queues[sub.conn].items| <= |r.queues[sub.conn].items|
            && var before, after := h.queues[sub.conn].items[sub.session.start..],
                                    r.queues[sub.conn].items[sub.session.start..];
               if g' == g then Posts(g, after) == Posts(g, before) + (if u != sender then PostOf(g, item) else [])
               else PostOf(g', item) == [] ==> Posts(g', after) == Posts(g', before)
  {
    assert SessionOk(h, g', u);
    var sub := h.subs[g'][u];
    PushOne(g', h.queues[sub.conn].items, item, sub.session.start);
  }

  lemma {:induction false} FanOutKeeps(h: Hub, g: Group)
    requires Inv(h)
    ensures Inv(DoFanOut(h, g))
  {
    if g in h.sending && g in h.subs {
      var r := DoFanOut(h, g);
      FanOutBase(h, g);
      forall g', u | g' in r.subs && u in r.subs[g'] ensures SessionOk(r, g', u) {
        FanOutSession(h, g, g', u);
      }
    }
  }

  lemma {:induction false} FanOutBase(h: Hub, g: Group)
    requires BaseOk(h) && g in h.sending && g in h.subs
    ensures var r := DoFanOut(h, g);
            var b := Broadcast(h, g, h.sending[g].post.sender, Msg(g, h.sending[g].post));
            && BaseOk(r) && r.subs == b.subs && r.queues == b.queues && r.threads == h.threads
            && r.subs.Keys == h.subs.Keys
            && (forall g', u :: g' in h.subs && u in r.subs[g'] ==> u in h.subs[g'] && r.subs[g'][u] == h.subs[g'][u])
            && (forall g' :: g' in h.subs && g' != g ==> Fanned(r, g') == Fanned(h, g'))
            && Fanned(r, g) == |h.threads[g].log|
  {}

  /** The hub just after the send lock's holder has offered its post. */
  function Offering(h: Hub, g: Group): (r: Hub)
    requires g in h.sending
  {
    Broadcast(h, g, h.sending[g].post.sender, Msg(g, h.sending[g].post))
  }

  lemma {:induction false} FanOutSession(h: Hub, g: Group, g': Group, u: User)
    requires Inv(h) && g in h.sending && g in h.subs
    requires g' in h.subs && u in h.subs[g'] && u in Offering(h, g).subs[g']
    ensures var log := h.threads[g'].log;
            && Offering(h, g).subs[g'][u] == h.subs[g'][u]
            && Holds(g', u, h.subs[g'][u], log, if g' == g then |log| else Fanned(h, g'), Offering(h, g).queues)
  {
    OfferEffect(h, g, h.sending[g].post.sender, Msg(g, h.sending[g].post), g', u);
    if g' == g { FanOutHere(h, g, u); } else { FanOutElsewhere(h, g, g', u); }
  }

  lemma {:induction false} FanOutHere(h: Hub, g: Group, u: User)
    requires Inv(h) && g in h.sending && g in h.subs && u in h.subs[g] && u in Offering(h, g).subs[g]
    ensures Holds(g, u, h.subs[g][u], h.threads[g].log, |h.threads[g].log|, Offering(h, g).queues)
  {
    var m, log := h.sending[g].post, h.threads[g].log;
    OfferEffect(h, g, m.sender, Msg(g, m), g, u);
    DueGrows(h, g, u);
    HoldsNow(g, u, h.subs[g][u], log, |log| - 1, |log|, h.queues, Offering(h, g).queues, if m.sender != u then [m] else []);
  }

  lemma {:induction false} FanOutElsewhere(h: Hub, g: Group, g': Group, u: User)
    requires Inv(h) && g in h.sending && g in h.subs && g' != g
    requires g' in h.subs && u in h.subs[g'] && u in Offering(h, g).subs[g']
    ensures Holds(g', u, h.subs[g'][u], h.threads[g'].log, Fanned(h, g'), Offering(h, g).queues)
  {
    OfferEffect(h, g, h.sending[g].post.sender, Msg(g, h.sending[g].post), g', u);
    assert SessionOk(h, g', u);
    HoldsNow(g', u, h.subs[g'][u], h.threads[g'].log, Fanned(h, g'), Fanned(h, g'), h.queues, Offering(h, g).queues, []);
  }

  /** A promise moves along when the window and what is due grow by the same posts. */
  lemma {:induction false} HoldsNow(g: Group, u: User, sub: Subscription, log: seq<Post>, fanned: nat, fanned': nat,
                                    queues: map<Conn, Queue>, queues': map<Conn, Queue>, more: seq<Post>)
    requires Holds(g, u, sub, log, fanned, queues) && fanned <= fanned' <= |log|
    requires sub.conn in queues' && queues'[sub.conn].open == queues[sub.conn].open
    requires |queues[sub.conn].items| <= |queues'[sub.conn].items|
    requires Posts(g, queues'[sub.conn].items[sub.session.start..]) ==
             Posts(g, queues[sub.conn].items[sub.session.start..]) + more
    requires Due(log, u, sub.session, fanned') == Due(log, u, sub.session, fanned) + more
    ensures Holds(g, u, sub, log, fanned', queues')
  {}

  /**
   A subscriber other than the sender gets the post and keeps the subscription if their queue has room, and
   loses the subscription, with nothing queued, otherwise; the sender's own is left alone.
   */
  lemma {:induction false} FanOutReaches(h: Hub, g: Group, u: User)
    requires Inv(h) && g in h.sending && g in h.subs && u in h.subs[g]
    ensures var sub, m, r := h.subs[g][u], h.sending[g].post, DoFanOut(h, g);
            && sub.conn in h.queues && sub.conn in r.queues && g in r.subs
            && (u in r.subs[g] <==> u == m.sender || HasRoom(h.queues[sub.conn]))
            && (u in r.subs[g] ==> r.subs[g][u] == sub)
            && r.queues[sub.conn] == h.queues[sub.conn].(items := h.queues[sub.conn].items +
                 (if u in r.subs[g] && u != m.sender then [Msg(g, m)] else []))
  {
    assert SessionOk(h, g, u);
  }

  /** The entries of a backlog, as queued. */
  lemma {:induction false} ItemsAre(g: Group, posts: seq<Post>)
    ensures forall i :: 0 <= i < |posts| ==> AsItems(g, posts)[i] == Msg(g, posts[i])
  {
    if posts != [] { ItemsAre(g, posts[..|posts| - 1]); }
  }

  /** What a subscription queues: the reply, naming the log's length if the cursor is below it, and the log from the cursor on. */
  lemma {:induction false} CatchupIs(g: Group, t: Thread<Bytes>, after: nat)
    requires Dense(t)
    ensures var log, items := t.log, Catchup(g, After(t, after));
            && |items| == 1 + (if after < |log| then |log| - after else 0)
            && items[0] == Subscribed(g, if after < |log| then Some(|log|) else None)
            && (forall i :: after <= i < |log| ==> items[1 + i - after] == Msg(g, log[i]))
  {
    AfterIsSuffix(t, after);
    ItemsAre(g, After(t, after));
  }

  /**
   Right after a subscription on an open connection: at the session's start stands the reply, which names the
   log's length if the cursor was below it and nothing otherwise, and the log from the cursor on follows it,
   in order and to the end.
   */
  lemma {:induction false} SubscribeReplies(h: Hub, c: Conn, g: Group, after: nat)
    requires Inv(h) && g in h.threads && c in h.queues && h.queues[c].open
    ensures var r, log, n := DoSubscribe(h, c, g, after), h.threads[g].log, |h.queues[c].items|;
            && g in r.subs && c.user in r.subs[g] && r.subs[g][c.user].conn == c
            && r.subs[g][c.user].session.start == n && r.subs[g][c.user].session.after == after && c in r.queues
            && |r.queues[c].items| == n + 1 + (if after < |log| then |log| - after else 0)
            && r.queues[c].items[..n] == h.queues[c].items
            && r.queues[c].items[n] == Subscribed(g, if after < |log| then Some(|log|) else None)
            && (forall i :: after <= i < |log| ==> r.queues[c].items[n + 1 + i - after] == Msg(g, log[i]))
  {
    CatchupIs(g, h.threads[g], after);
    var more, n := Catchup(g, After(h.threads[g], after)), |h.queues[c].items|;
    assert DoSubscribe(h, c, g, after).queues[c].items == h.queues[c].items + more;
    forall i | after <= i < |h.threads[g].log|
      ensures (h.queues[c].items + more)[n + 1 + i - after] == Msg(g, h.threads[g].log[i])
    {
      assert (h.queues[c].items + more)[n + 1 + i - after] == more[1 + i - after];
    }
  }

  /** Nobody else's queue or subscription moves. */
  lemma {:induction false} SubscribeAlone(h: Hub, c: Conn, g: Group, after: nat, c': Conn, g': Group, u: User)
    ensures var r := DoSubscribe(h, c, g, after);
            && r.threads == h.threads && r.sending == h.sending && r.acks == h.acks
            && (c' in h.queues && c' != c ==> c' in r.queues && r.queues[c'] == h.queues[c'])
            && (g' in h.subs && u in h.subs[g'] && (g' != g || u != c.user) ==>
                  g' in r.subs && u in r.subs[g'] && r.subs[g'][u] == h.subs[g'][u])
  {
  }

  /** An ephemeral reaches just as a post does: everyone subscribed but its sender who has room, who is named in it. */
  lemma {:induction false} EphemeralReaches(h: Hub, c: Conn, g: Group, u: User)
    requires Inv(h) && g in h.subs && u in h.subs[g]
    ensures var sub, r := h.subs[g][u], Next(h, Ephemeral(c, g));
            && sub.conn in h.queues && sub.conn in r.queues && g in r.subs && r.threads == h.threads && r.acks == h.acks
            && (u in r.subs[g] <==> u == c.user || HasRoom(h.queues[sub.conn]))
            && r.queues[sub.conn] == h.queues[sub.conn].(items := h.queues[sub.conn].items +
                 (if u in r.subs[g] && u != c.user then [Eph(g, c.user)] else []))
  {
    assert SessionOk(h, g, u);
  }

  /** A send: refused commits and unknown groups leave everything as it was; any other is logged last, under the next number. */
  lemma {:induction false} SendLogs(h: Hub, c: Conn, g: Group, epoch: nat, payload: Bytes, commit: bool)
    requires g in h.threads && g !in h.sending && c in h.queues
    ensures var r, t := Next(h, AppendPost(c, g, epoch, payload, commit)), h.threads[g];
            if commit && epoch != t.epoch + 1 then r == h
            else
              var m := Message(|t.log| + 1, epoch, c.user, payload);
              && r.threads == h.threads[g := Thread(if commit then epoch else t.epoch, t.log + [m])]
              && r.sending == h.sending[g := InFlight(c, m)] && r.queues == h.queues && r.subs == h.subs && r.acks == h.acks
              && var done := Next(r, FanOut(g));
                 g !in done.sending && done.acks == h.acks + {(c, g, m.seqno)} && done.threads == r.threads
  {
  }

  lemma {:induction false} DueGrows(h: Hub, g: Group, u: User)
    requires Inv(h) && g in h.sending && g in h.subs && u in h.subs[g]
    ensures SessionOk(h, g, u)
    ensures var log, s, m := h.threads[g].log, h.subs[g][u].session, h.sending[g].post;
            Due(log, u, s, |log|) == Due(log, u, s, |log| - 1) + (if m.sender != u then [m] else [])
  {
    assert SessionOk(h, g, u);
    var log, s, m := h.threads[g].log, h.subs[g][u].session, h.sending[g].post;
    assert log[s.from..] == log[s.from..|log| - 1] + [m];
    assert log[s.from..|log|] == log[s.from..];
    ByOthersSnoc(u, log[s.from..|log| - 1], m);
  }

  lemma {:induction false} PushKeeps(h: Hub, c: Conn, item: Item)
    requires Inv(h) && c in h.queues && !item.Msg?
    ensures Inv(PutQueue(h, c, [item]))
  {
    var r := PutQueue(h, c, [item]);
    forall g, u | g in r.subs && u in r.subs[g] ensures SessionOk(r, g, u) {
      assert SessionOk(h, g, u);
      assert [item][..0] == [] && Posts(g, [item]) == [];
      HoldsUnderPush(g, u, h.subs[g][u], h.threads[g].log, Fanned(h, g), h.queues, c, [item]);
    }
  }

  lemma {:induction false} EphemeralKeeps(h: Hub, g: Group, sender: User)
    requires Inv(h)
    ensures Inv(Broadcast(h, g, sender, Eph(g, sender)))
  {
    if g in h.subs {
      var r := Broadcast(h, g, sender, Eph(g, sender));
      assert r.threads == h.threads && r.sending == h.sending;
      forall g', u | g' in r.subs && u in r.subs[g'] ensures SessionOk(r, g', u) {
        EphemeralSession(h, g, sender, g', u);
      }
    }
  }

  lemma {:induction false} EphemeralSession(h: Hub, g: Group, sender: User, g': Group, u: User)
    requires Inv(h) && g in h.subs && g' in h.subs && u in h.subs[g']
    requires u in Broadcast(h, g, sender, Eph(g, sender)).subs[g']
    ensures var b := Broadcast(h, g, sender, Eph(g, sender));
            && b.subs[g'][u] == h.subs[g'][u]
            && Holds(g', u, h.subs[g'][u], h.threads[g'].log, Fanned(h, g'), b.queues)
  {
    OfferEffect(h, g, sender, Eph(g, sender), g', u);
    assert SessionOk(h, g', u);
  }

  lemma {:induction false} StepKeeps(h: Hub, s: Step)
    requires Inv(h)
    ensures Inv(Next(h, s))
  {
    match s
    case Subscribe(c, g, after) => SubscribeKeeps(h, c, g, after);
    case AppendPost(c, g, epoch, payload, commit) => AppendKeeps(h, c, g, epoch, payload, commit);
    case FanOut(g) => FanOutKeeps(h, g);
    case Acknowledge(c, g, n) =>
      if (c, g, n) in h.acks && c in h.queues { PushKeeps(h.(acks := h.acks - {(c, g, n)}), c, Ack(g, n)); }
    case Ephemeral(c, g) => EphemeralKeeps(h, g, c.user);
    case Answer(c) => if c in h.queues { PushKeeps(h, c, Reply); }
    case Create(c, g) => CreateKeeps(h, c, g);
    case _ => QuietKeeps(h, s);
  }

  lemma {:induction false} CreateKeeps(h: Hub, c: Conn, g: Group)
    requires Inv(h)
    ensures Inv(DoCreate(h, c, g))
  {
    var r := DoCreate(h, c, g);
    forall g', u | g' in r.subs && u in r.subs[g'] ensures SessionOk(r, g', u) {
      if g' in h.subs && u in h.subs[g'] { assert SessionOk(h, g', u); }
    }
  }

  /** Steps that queue nothing: a session that is still there has not changed. */
  lemma {:induction false} QuietKeeps(h: Hub, s: Step)
    requires Inv(h) && (s.Open? || s.Drain? || s.Disallow? || s.Close? || s.Teardown?)
    ensures Inv(Next(h, s))
  {
    var r := Next(h, s);
    QuietQueues(h, s);
    forall g, u | g in r.subs && u in r.subs[g] ensures SessionOk(r, g, u) {
      assert u in h.subs[g] && r.subs[g][u] == h.subs[g][u];
      assert SessionOk(h, g, u);
    }
  }

  /** `r` has the queued items of `h` and at most its subscriptions. */
  ghost predicate Quieter(h: Hub, r: Hub) {
    && r.threads == h.threads && r.sending == h.sending
    && r.subs.Keys == h.subs.Keys
    && (forall g, u :: g in h.subs && u in r.subs[g] ==> u in h.subs[g] && r.subs[g][u] == h.subs[g][u])
    && (forall c :: c in h.queues ==> c in r.queues && r.queues[c].items == h.queues[c].items)
    && (forall c :: c in h.queues && r.queues[c].open ==> h.queues[c].open)
  }

  lemma {:induction false} QuietQueues(h: Hub, s: Step)
    requires s.Open? || s.Drain? || s.Disallow? || s.Close? || s.Teardown?
    ensures Quieter(h, Next(h, s))
  {
    match s
    case Teardown(c) => TeardownQuiet(h, c);
    case Disallow(g, u) => DisallowQuiet(h, g, u);
    case _ =>
  }

  lemma {:induction false} TeardownQuiet(h: Hub, c: Conn)
    ensures Quieter(h, DoTeardown(h, c))
  {}

  lemma {:induction false} DisallowQuiet(h: Hub, g: Group, u: User)
    ensures Quieter(h, Next(h, Disallow(g, u)))
  {}

  lemma {:induction false} RunKeeps(h: Hub, steps: seq<Step>)
    requires Inv(h)
    ensures Inv(Run(h, steps))
  {
    if steps != [] {
      RunKeeps(h, steps[..|steps| - 1]);
      StepKeeps(Run(h, steps[..|steps| - 1]), steps[|steps| - 1]);
    }
  }

  // ------------------------------------------------------------------- main results

  /** A subscription whose connection is still being written to. */
  predicate Live(h: Hub, g: Group, u: User) {
    && g in h.threads && g in h.subs && u in h.subs[g]
    && h.subs[g][u].conn in h.queues && h.queues[h.subs[g][u].conn].open
  }

  /** The posts of `g` queued for `u` since the subscription began. */
  function Window(h: Hub, g: Group, u: User): (r: seq<Post>)
    requires Live(h, g, u)
  {
    var sub := h.subs[g][u];
    var items := h.queues[sub.conn].items;
    if sub.session.start <= |items| then Posts(g, items[sub.session.start..]) else []
  }

  /**
   In every interleaving, a live subscription has queued exactly the log after its cursor
   as it stood then, followed by every later post of others in log order; the two parts
   overlap in at most the one post that was being fanned out while it was served.
   */
  lemma {:induction false} Delivered(steps: seq<Step>, g: Group, u: User)
    ensures var h := Run(EMPTY, steps);
            Live(h, g, u) ==>
              var log, s := h.threads[g].log, h.subs[g][u].session;
              && s.served - 1 <= s.from <= s.served <= |log| && s.from <= Fanned(h, g)
              && Window(h, g, u) == Suffix(log[..s.served], s.after) + ByOthers(u, log[s.from..Fanned(h, g)])
  {
    RunKeeps(EMPTY, steps);
    var h := Run(EMPTY, steps);
    if Live(h, g, u) { assert SessionOk(h, g, u); }
  }

  lemma {:induction false} ByOthersIn(u: User, log: seq<Post>)
    ensures forall m :: m in ByOthers(u, log) <==> m in log && m.sender != u
  {
    if log != [] {
      var init, last := log[..|log| - 1], log[|log| - 1];
      ByOthersIn(u, init);
      assert log == init + [last];
    }
  }

  /** Sequence numbers in `lo + 1 .. hi`, strictly rising. */
  ghost predicate Rising(r: seq<Post>, lo: nat, hi: nat) {
    && (forall i :: 0 <= i < |r| ==> lo < r[i].seqno <= hi)
    && (forall i, j :: 0 <= i < j < |r| ==> r[i].seqno < r[j].seqno)
  }

  /** Consecutive posts, without one's own, still rise strictly. */
  lemma {:induction false} ByOthersRise(u: User, part: seq<Post>, from: nat)
    requires forall i :: 0 <= i < |part| ==> part[i].seqno == from + 1 + i
    ensures Rising(ByOthers(u, part), from, from + |part|)
  {
    if part != [] { ByOthersRise(u, part[..|part| - 1], from); }
  }

  /**
   Nothing is skipped: a live subscription has queued every post past its cursor that is
   fanned out and not the subscriber's own, and nothing that is not in the log.
   */
  lemma {:induction false} GapFree(steps: seq<Step>, g: Group, u: User)
    ensures var h := Run(EMPTY, steps);
            Live(h, g, u) ==>
              var log, s := h.threads[g].log, h.subs[g][u].session;
              && (forall i :: s.after <= i < Fanned(h, g) && log[i].sender != u ==> log[i] in Window(h, g, u))
              && (forall m :: m in Window(h, g, u) ==> m in log)
  {
    RunKeeps(EMPTY, steps);
    var h := Run(EMPTY, steps);
    if Live(h, g, u) {
      assert SessionOk(h, g, u);
      DueGapFree(h.threads[g].log, u, h.subs[g][u].session, Fanned(h, g));
    }
  }

  lemma {:induction false} DueGapFree(log: seq<Post>, u: User, s: Session, fanned: nat)
    requires s.from <= s.served <= |log| && s.from <= fanned <= |log|
    ensures forall i :: s.after <= i < fanned && log[i].sender != u ==> log[i] in Due(log, u, s, fanned)
    ensures forall m :: m in Due(log, u, s, fanned) ==> m in log
  {
    var first, rest := Suffix(log[..s.served], s.after), ByOthers(u, log[s.from..fanned]);
    ByOthersIn(u, log[s.from..fanned]);
    forall i | s.after <= i < fanned && log[i].sender != u ensures log[i] in first + rest {
      if i < s.served {
        assert first[i - s.after] == log[i];
      } else {
        assert log[s.from..fanned][i - s.from] == log[i];
      }
    }
  }

  /** `x` precedes `y`, or they are the one post that may come twice. */
  predicate RisesOrRepeats(s: Session, x: Post, y: Post, i: nat, j: nat) {
    x.seqno < y.seqno || (x == y && j == i + 1 == s.served - s.after && x.seqno == s.served && s.from < s.served)
  }

  /**
   Sequence numbers rise strictly along a live subscription, except that the last backlog
   entry may come once more, immediately after itself.
   */
  lemma {:induction false} AtMostOneRepeat(steps: seq<Step>, g: Group, u: User)
    ensures var h := Run(EMPTY, steps);
            Live(h, g, u) && h.subs[g][u].session.after <= h.subs[g][u].session.served ==>
              var got := Window(h, g, u);
              forall i, j :: 0 <= i < j < |got| ==> RisesOrRepeats(h.subs[g][u].session, got[i], got[j], i, j)
  {
    RunKeeps(EMPTY, steps);
    var h := Run(EMPTY, steps);
    if Live(h, g, u) && h.subs[g][u].session.after <= h.subs[g][u].session.served {
      assert SessionOk(h, g, u);
      DueRises(h.threads[g], u, h.subs[g][u].session, Fanned(h, g));
    }
  }

  lemma {:induction false} DueRises(t: Thread<Bytes>, u: User, s: Session, fanned: nat)
    requires Dense(t) && s.from <= fanned <= |t.log|
    requires s.after <= s.served <= |t.log| && s.from <= s.served <= s.from + 1
    ensures var got := Due(t.log, u, s, fanned);
            forall i, j :: 0 <= i < j < |got| ==> RisesOrRepeats(s, got[i], got[j], i, j)
  {
    var first, part := t.log[..s.served][s.after..], t.log[s.from..fanned];
    ByOthersRise(u, part, s.from);
    ByOthersIn(u, part);
    forall m | m in ByOthers(u, part) && m.seqno == s.served ensures m == t.log[s.served - 1] {
      assert m in part;
    }
    RisesAcross(s, first, ByOthers(u, part), fanned);
  }

  /** A consecutive stretch ending at `served`, then a rising one that starts no earlier than there. */
  lemma {:induction false} RisesAcross(s: Session, first: seq<Post>, rest: seq<Post>, hi: nat)
    requires s.after <= s.served <= s.from + 1 && |first| == s.served - s.after
    requires forall i :: 0 <= i < |first| ==> first[i].seqno == s.after + 1 + i
    requires Rising(rest, s.from, hi)
    requires first != [] ==> forall m :: m in rest && m.seqno == s.served ==> m == first[|first| - 1]
    ensures forall i, j :: 0 <= i < j < |first + rest| ==>
              RisesOrRepeats(s, (first + rest)[i], (first + rest)[j], i, j)
  {
    forall i, j | 0 <= i < j < |first + rest| ensures RisesOrRepeats(s, (first + rest)[i], (first + rest)[j], i, j) {
      if i < |first| <= j {
        var m := rest[j - |first|];
        assert m in rest;
        if j > |first| { assert rest[0].seqno < m.seqno; }
      }
    }
  }

  /** What ends or replaces a subscription, other than its own queue being full or gone. */
  predicate Interrupts(s: Step, g: Group, u: User, c: Conn) {
    || (s.Subscribe? && s.group == g && s.conn.user == u)
    || (s.Disallow? && s.group == g && s.user == u)
    || s == Teardown(c)
  }

  /** A subscription otherwise survives every step, and is dropped by fan-out exactly when it has no room. */
  lemma {:induction false} SubscriptionEnds(h: Hub, s: Step, g: Group, u: User)
    requires Inv(h) && g in h.subs && u in h.subs[g] && !Interrupts(s, g, u, h.subs[g][u].conn)
    ensures var r, sub := Next(h, s), h.subs[g][u];
            var offered := (s.FanOut? && s.group == g && g in h.sending && h.sending[g].post.sender != u) ||
                           (s.Ephemeral? && s.group == g && s.conn.user != u);
            && g in r.subs
            && (u in r.subs[g] <==> !offered || HasRoom(h.queues[sub.conn]))
            && (u in r.subs[g] ==> r.subs[g][u] == sub)
  {
    assert SessionOk(h, g, u);
  }

  /** And what interrupts one does: a removed member is not subscribed, and a closing connection leaves just the subscriptions of others. */
  lemma {:induction false} InterruptionsEnd(h: Hub, g: Group, u: User, c: Conn)
    ensures var r := Next(h, Disallow(g, u)); g in r.subs ==> u !in r.subs[g]
    ensures var r := Next(h, Teardown(c));
            && (c in r.queues ==> !r.queues[c].open)
            && (g in h.subs ==> g in r.subs && (u in r.subs[g] <==> u in h.subs[g] && !(u == c.user && h.subs[g][u].conn == c)))
  {
  }

  /** Creating a group subscribes its creator, on that connection and from the start; an existing group is left alone. */
  lemma {:induction false} CreateSubscribes(h: Hub, c: Conn, g: Group)
    requires c in h.queues
    ensures var r := Next(h, Create(c, g));
            if g in h.threads then r == h
            else
              && g in r.threads && r.threads[g] == Thread(0, []) && r.queues == h.queues
              && g in r.subs && c.user in r.subs[g] && r.subs[g][c.user].conn == c && r.subs[g][c.user].session.after == 0
  {
  }

  /** A connection that was closed stays so, and nothing is queued on it or taken from it again. */
  lemma {:induction false} ClosedIsFinal(h: Hub, s: Step, c: Conn)
    requires c in h.queues
    ensures c in Next(h, Close(c)).queues && !Next(h, Close(c)).queues[c].open
    ensures !h.queues[c].open ==> c in Next(h, s).queues && Next(h, s).queues[c] == h.queues[c]
  {
  }

  // ------------------------------------------------------------------ answered once

  function LengthOf(h: Hub, g: Group): (n: nat) { if g in h.threads then |h.threads[g].log| else 0 }

  /** How often post `n` of `g` is answered on `c`: in its queue, about to be, or once it is fanned out. */
  function Answers(h: Hub, c: Conn, g: Group, n: nat): (count: nat) {
    (if c in h.queues then multiset(h.queues[c].items)[Ack(g, n)] else 0) +
    (if (c, g, n) in h.acks then 1 else 0) +
    (if g in h.sending && h.sending[g].conn == c && h.sending[g].post.seqno == n then 1 else 0)
  }

  ghost predicate AnswersOk(h: Hub, c: Conn, g: Group, n: nat) {
    Answers(h, c, g, n) <= 1 && (n > LengthOf(h, g) ==> Answers(h, c, g, n) == 0)
  }

  lemma {:induction false} NoAnswerIn(items: seq<Item>, more: seq<Item>, ack: Item)
    requires ack !in more
    ensures multiset(items + more)[ack] == multiset(items)[ack]
  {
    assert multiset(items + more) == multiset(items) + multiset(more);
  }

  lemma {:induction false} BacklogHasNoAnswer(g: Group, backlog: seq<Post>, ack: Item)
    requires ack.Ack?
    ensures ack !in Catchup(g, backlog)
  {
    ItemsAre(g, backlog);
  }

  /** What a step adds to a queue, other than an answer. */
  ghost predicate AddsNoAnswer(h: Hub, r: Hub, c: Conn, ack: Item) {
    && (c in r.queues <==> c in h.queues)
    && (c in h.queues ==> multiset(r.queues[c].items)[ack] == multiset(h.queues[c].items)[ack])
  }

  lemma {:induction false} SubscribeAddsNone(h: Hub, c': Conn, g': Group, after: nat, c: Conn, ack: Item)
    requires ack.Ack?
    ensures AddsNoAnswer(h, DoSubscribe(h, c', g', after), c, ack)
  {
    if g' in h.threads && c in h.queues && c == c' {
      BacklogHasNoAnswer(g', After(h.threads[g'], after), ack);
      NoAnswerIn(h.queues[c].items, Catchup(g', After(h.threads[g'], after)), ack);
    }
  }

  lemma {:induction false} BroadcastAddsNone(h: Hub, g': Group, sender: User, item: Item, c: Conn, ack: Item)
    requires ack.Ack? && !item.Ack?
    ensures AddsNoAnswer(h, Broadcast(h, g', sender, item), c, ack)
  {
    if c in h.queues { NoAnswerIn(h.queues[c].items, [item], ack); }
  }

  lemma {:induction false} PushAnswers(h: Hub, c': Conn, item: Item, c: Conn, ack: Item)
    requires c' in h.queues && c in h.queues
    ensures var r := PutQueue(h, c', [item]);
            c in r.queues && multiset(r.queues[c].items)[ack] ==
              multiset(h.queues[c].items)[ack] + (if c == c' && item == ack && h.queues[c].open then 1 else 0)
  {
    assert multiset(h.queues[c].items + [item]) == multiset(h.queues[c].items) + multiset{item};
  }

  lemma {:induction false} AppendAnswers(h: Hub, s: Step, c: Conn, g: Group, n: nat)
    requires BaseOk(h) && AnswersOk(h, c, g, n) && s.AppendPost?
    ensures AnswersOk(Next(h, s), c, g, n)
  {
    var r := Next(h, s);
    if r != h && s.group == g { assert r.sending[g].post.seqno == LengthOf(h, g) + 1; }
  }

  lemma {:induction false} FanOutAnswersOnce(h: Hub, g': Group, c: Conn, g: Group, n: nat)
    requires BaseOk(h) && AnswersOk(h, c, g, n)
    ensures AnswersOk(DoFanOut(h, g'), c, g, n)
  {
    if g' in h.sending { BroadcastAddsNone(h, g', h.sending[g'].post.sender, Msg(g', h.sending[g'].post), c, Ack(g, n)); }
  }

  lemma {:induction false} AcknowledgeAnswers(h: Hub, c': Conn, g': Group, n': nat, c: Conn, g: Group, n: nat)
    requires AnswersOk(h, c, g, n)
    ensures AnswersOk(Next(h, Acknowledge(c', g', n')), c, g, n)
  {
    if (c', g', n') in h.acks && c' in h.queues && c in h.queues {
      PushAnswers(h.(acks := h.acks - {(c', g', n')}), c', Ack(g', n'), c, Ack(g, n));
    }
  }

  lemma {:induction false} QuietAnswers(h: Hub, s: Step, c: Conn, g: Group, n: nat)
    requires AnswersOk(h, c, g, n) && (s.Open? || s.Drain? || s.Disallow? || s.Close? || s.Teardown? || s.Create?)
    ensures AnswersOk(Next(h, s), c, g, n)
  {
  }

  lemma {:induction false} StepAnswers(h: Hub, s: Step, c: Conn, g: Group, n: nat)
    requires BaseOk(h) && AnswersOk(h, c, g, n)
    ensures AnswersOk(Next(h, s), c, g, n)
  {
    match s
    case Subscribe(c', g', after) => SubscribeAddsNone(h, c', g', after, c, Ack(g, n));
    case AppendPost(_, _, _, _, _) => AppendAnswers(h, s, c, g, n);
    case FanOut(g') => FanOutAnswersOnce(h, g', c, g, n);
    case Acknowledge(c', g', n') => AcknowledgeAnswers(h, c', g', n', c, g, n);
    case Ephemeral(c', g') => BroadcastAddsNone(h, g', c'.user, Eph(g', c'.user), c, Ack(g, n));
    case Answer(c') => if c' in h.queues && c in h.queues { PushAnswers(h, c', Reply, c, Ack(g, n)); }
    case _ => QuietAnswers(h, s, c, g, n);
  }

  /** In every run a post is answered at most once on any connection, and never before it is logged. */
  lemma {:induction false} AnsweredOnce(steps: seq<Step>, c: Conn, g: Group, n: nat)
    ensures AnswersOk(Run(EMPTY, steps), c, g, n)
  {
    if steps != [] {
      AnsweredOnce(steps[..|steps| - 1], c, g, n);
      RunKeeps(EMPTY, steps[..|steps| - 1]);
      StepAnswers(Run(EMPTY, steps[..|steps| - 1]), steps[|steps| - 1], c, g, n);
    }
  }

  /** And an answer that is due is given: it stands last in the queue of its connection, if that is open, and is due no more. */
  lemma {:induction false} AnswerGiven(h: Hub, c: Conn, g: Group, n: nat)
    requires (c, g, n) in h.acks && c in h.queues
    ensures var r := Next(h, Acknowledge(c, g, n));
            && (c, g, n) !in r.acks && r.threads == h.threads && r.subs == h.subs && c in r.queues
            && r.queues[c].items == h.queues[c].items + (if h.queues[c].open then [Ack(g, n)] else [])
  {
  }
}
