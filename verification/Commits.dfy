/**
 Commit serialization: any number of clients stage MLS commits, publish them to one
 group's ordered log, and merge or discard on the relay's answer. Requests and answers
 are delayed, reordered and lost freely; the log is redelivered freely. This is the
 sequencing problem of section 14 of RFC 9420, with link joins (section 12.4).
 */
module Commits {
  import opened Common
  import opened GroupLog
  import opened Mls

  /** What a message carries. The relay sees neither case; honest clients flag commits. */
  datatype Payload = App(text: string) | Handshake(commit: Commit)

  type Log = seq<Message<Payload>>

  /** The relay's answer to a published commit: its sequence number, or an epoch conflict. */
  datatype Answer = Answer(commit: Commit, seqno: Option<nat>)

  /** A Welcome: the state the newcomer starts from and where its log begins. */
  datatype Welcome = Welcome(history: seq<Tag>, after: nat)

  /**
   One device. `awaiting` holds the published commits the controller still expects an
   answer for: nothing in it serializes membership operations, so there can be several.
   `joining` marks a link joiner that has adopted its own commit unanswered.
   */
  datatype Client = Client(group: Option<MlsGroup>, awaiting: set<Commit>, joining: bool, cursor: nat)

  const OUTSIDER := Client(None, {}, false, 0)

  /** `minted` records every commit ever built, by tag: no tag is used twice. */
  datatype State = State(
    thread: Thread<Payload>,
    clients: map<User, Client>,
    sent: set<Commit>,
    answers: set<Answer>,
    welcomes: set<Welcome>,
    infos: set<seq<Tag>>,
    minted: map<Tag, seq<Tag>>)

  function Init(creator: User): (st: State) {
    State(Thread(0, []), map[creator := Client(Some(MlsGroup(creator, [], None)), {}, false, 0)],
          {}, {}, {}, {}, map[])
  }

  function At(st: State, u: User): (c: Client) {
    if u in st.clients then st.clients[u] else OUTSIDER
  }

  function Put(st: State, u: User, c: Client): (r: State) {
    st.(clients := st.clients[u := c])
  }

  datatype Step =
    | StageCommit(u: User, nonce: nat)
    | Publish(u: User)
    | Arrive(commit: Commit)
    | LoseRequest(commit: Commit)
    | Answered(u: User, answer: Answer)
    | GiveUp(u: User, commit: Commit)
    | SendApp(u: User, text: string)
    | Receive(u: User, index: nat)
    | JoinWelcome(u: User, welcome: Welcome)
    | ParkInfo(u: User)
    | JoinLink(u: User, info: seq<Tag>, nonce: nat)
    | Forget(u: User)

  /** A member that is settled in the group and not waiting to be admitted. */
  predicate Settled(c: Client) { c.group.Some? && !c.joining }

  /** One step of the system. A step that is not possible changes nothing. */
  function Next(st: State, s: Step): (r: State) {
    match s
    case StageCommit(u, nonce) => DoStage(st, u, nonce)
    case Publish(u) => DoPublish(st, u)
    case Arrive(c) => DoArrive(st, c)
    case LoseRequest(c) => st.(sent := st.sent - {c})
    case Answered(u, a) => DoAnswered(st, u, a)
    case GiveUp(u, c) => DoGiveUp(st, u, c)
    case SendApp(u, text) => DoSendApp(st, u, text)
    case Receive(u, i) => if i < |st.thread.log| then Put(st, u, Handle(At(st, u), st.thread.log[i])) else st
    case JoinWelcome(u, w) =>
      if w in st.welcomes && At(st, u).group.None?
      then Put(st, u, Client(Some(MlsGroup(u, w.history, None)), {}, false, w.after)) else st
    case ParkInfo(u) =>
      if Settled(At(st, u)) then st.(infos := st.infos + {At(st, u).group.value.history}) else st
    case JoinLink(u, info, nonce) => DoJoinLink(st, u, info, nonce)
    case Forget(u) => Put(st, u, OUTSIDER)
  }

  function DoStage(st: State, u: User, nonce: nat): (r: State) {
    var c := At(st, u);
    if !Settled(c) || Tag(u, nonce) in st.minted then st
    else
      match Stage(c.group.value, nonce)
      case Failed(_) => st
      case Done(out) =>
        Put(st, u, c.(group := Some(out.0))).(minted := st.minted[out.1.tag := out.1.parent])
  }

  /** `publishCommit`: put the staged commit on the wire and wait for the answer. */
  function DoPublish(st: State, u: User): (r: State) {
    var c := At(st, u);
    if !Settled(c) || c.group.value.pending.None? || c.group.value.pending.value in c.awaiting then st
    else
      var commit := c.group.value.pending.value;
      Put(st, u, c.(awaiting := c.awaiting + {commit})).(sent := st.sent + {commit})
  }

  /** The relay handles a published commit. */
  function DoArrive(st: State, c: Commit): (r: State) {
    if c !in st.sent then st
    else
      var out := Append(st.thread, EpochOf(c), c.tag.author, Handshake(c), true);
      var seqno := if out.1.Ok? then Some(out.1.value) else None;
      st.(thread := out.0, sent := st.sent - {c}, answers := st.answers + {Answer(c, seqno)})
  }

  /** On acceptance merge whatever is staged and offer a Welcome; on conflict discard it. */
  function DoAnswered(st: State, u: User, a: Answer): (r: State) {
    var c := At(st, u);
    if a !in st.answers || a.commit !in c.awaiting || c.group.None? then st
    else if a.seqno.None? then Put(st, u, Abandon(c, a.commit))
    else
      var c' := Merged(c, a);
      var after := Put(st, u, c');
      if c.group.value.pending == Some(a.commit)
      then after.(welcomes := st.welcomes + {Welcome(c'.group.value.history, a.seqno.value)}) else after
  }

  function Merged(c: Client, a: Answer): (r: Client)
    requires c.group.Some? && a.seqno.Some?
  {
    if c.joining then Client(c.group, {}, false, a.seqno.value)
    else Client(Some(MergePending(c.group.value)), c.awaiting - {a.commit}, false, Max(c.cursor, a.seqno.value))
  }

  /** A refused or unanswered publication: discard what is staged; a link joiner forgets the group. */
  function Abandon(c: Client, commit: Commit): (r: Client)
    requires c.group.Some?
  {
    if c.joining then OUTSIDER
    else c.(group := Some(ClearPending(c.group.value)), awaiting := c.awaiting - {commit})
  }

  function DoGiveUp(st: State, u: User, commit: Commit): (r: State) {
    var c := At(st, u);
    if commit !in c.awaiting || c.group.None? then st else Put(st, u, Abandon(c, commit))
  }

  function DoSendApp(st: State, u: User, text: string): (r: State) {
    var c := At(st, u);
    if !Settled(c) then st
    else st.(thread := Append(st.thread, Epoch(c.group.value), u, App(text), false).0)
  }

  /** One delivered message: the cursor always advances, the group only if the commit applies. */
  function Handle(c: Client, m: Message<Payload>): (r: Client) {
    if !Settled(c) then c
    else
      var c' := c.(cursor := Max(c.cursor, m.seqno));
      if m.payload.App? then c'
      else
        match Process(c.group.value, m.payload.commit)
        case Done(g) => c'.(group := Some(g))
        case Failed(_) => c'
  }

  function DoJoinLink(st: State, u: User, info: seq<Tag>, nonce: nat): (r: State) {
    var commit := Commit(Tag(u, nonce), info);
    if info !in st.infos || At(st, u).group.Some? || commit.tag in st.minted then st
    else
      Put(st, u, Client(Some(MlsGroup(u, info + [commit.tag], None)), {commit}, true, 0))
      .(sent := st.sent + {commit}, minted := st.minted[commit.tag := info])
  }

  function Run(st: State, steps: seq<Step>): (r: State) {
    if steps == [] then st else Next(Run(st, steps[..|steps| - 1]), steps[|steps| - 1])
  }

  /** The commits in a log, in order: what the relay has accepted. */
  function Accepted(log: Log): (r: seq<Tag>)
    ensures |r| <= |log|
  {
    if log == [] then []
    else
      var init, last := Accepted(log[..|log| - 1]), log[|log| - 1];
      if last.payload.Handshake? then init + [last.payload.commit.tag] else init
  }

  // ---------------------------------------------------------------- the invariant

  /**
   A logged commit was built on exactly the commits logged before it and carries the epoch
   it opens; any other message carries an epoch already open.
   */
  ghost predicate EntryOk(log: Log, i: nat)
    requires i < |log|
  {
    var before := Accepted(log[..i]);
    if log[i].payload.Handshake?
    then log[i].payload.commit.parent == before && log[i].epoch == |before| + 1
    else log[i].epoch <= |before|
  }

  ghost predicate Chain(log: Log) { forall i :: 0 <= i < |log| ==> EntryOk(log, i) }

  ghost predicate ThreadOk(t: Thread<Payload>) {
    Dense(t) && t.epoch == |Accepted(t.log)| && Chain(t.log)
  }

  /** The commit is the one its tag was minted for. */
  predicate Known(c: Commit, minted: map<Tag, seq<Tag>>) { c.tag in minted && minted[c.tag] == c.parent }

  /** A client's relation to what the relay has accepted. */
  ghost predicate ClientOk(u: User, c: Client, acc: seq<Tag>, minted: map<Tag, seq<Tag>>) {
    && (forall p :: p in c.awaiting ==> Known(p, minted))
    && (c.group.None? ==> c == OUTSIDER)
    && (c.group.Some? ==>
          var g := c.group.value;
          && g.me == u && Consistent(g)
          && (g.pending.Some? ==> Known(g.pending.value, minted))
          && if c.joining then Tentative(u, c, acc) else g.history <= acc && OutstandingOk(u, c))
  }

  /** A link joiner holds accepted commits and, ahead of them, only its own. */
  ghost predicate Tentative(u: User, c: Client, acc: seq<Tag>)
    requires c.group.Some?
  {
    var h := c.group.value.history;
    && c.group.value.pending.None?
    && h != [] && c.awaiting == {Commit(h[|h| - 1], h[..|h| - 1])}
    && h[|h| - 1].author == u
    && h[..|h| - 1] <= acc
  }

  /** A published commit extends the current state, or one where another commit won. */
  ghost predicate OutstandingOk(u: User, c: Client)
    requires c.group.Some?
  {
    forall p :: p in c.awaiting ==> p.tag.author == u && ExtendsOrLost(p, c.group.value.history)
  }

  predicate ExtendsOrLost(p: Commit, h: seq<Tag>) {
    p.parent == h || (|p.parent| < |h| && h[|p.parent|] != p.tag)
  }

  ghost predicate AnswerOk(a: Answer, log: Log) {
    a.seqno.Some? ==> 1 <= a.seqno.value <= |log| && log[a.seqno.value - 1].payload == Handshake(a.commit)
  }

  ghost predicate WelcomeOk(w: Welcome, log: Log) {
    w.after <= |log| && w.history == Accepted(log[..w.after])
  }

  ghost predicate WireOk(st: State) {
    var log := st.thread.log;
    && (forall c :: c in st.sent ==> Known(c, st.minted) && c.parent <= Accepted(log))
    && (forall i :: 0 <= i < |log| && log[i].payload.Handshake? ==> Known(log[i].payload.commit, st.minted))
    && (forall a :: a in st.answers ==> AnswerOk(a, log))
    && (forall w :: w in st.welcomes ==> WelcomeOk(w, log))
    && (forall h :: h in st.infos ==> h <= Accepted(log))
  }

  ghost predicate ClientsOk(st: State) {
    forall u :: u in st.clients ==> ClientOk(u, st.clients[u], Accepted(st.thread.log), st.minted)
  }

  ghost predicate Inv(st: State) { ThreadOk(st.thread) && WireOk(st) && ClientsOk(st) }

  // ------------------------------------------------------------- facts about the log

  lemma {:induction false} AcceptedPrefix(log: Log, i: nat)
    requires i <= |log|
    ensures Accepted(log[..i]) <= Accepted(log)
    decreases |log|
  {
    if i < |log| {
      AcceptedPrefix(log[..|log| - 1], i);
      assert log[..|log| - 1][..i] == log[..i];
    } else {
      assert log[..i] == log;
    }
  }

  /** Each logged commit sits in the accepted chain at the position its parent length names. */
  lemma {:induction false} AcceptedAt(log: Log, i: nat)
    requires i < |log| && log[i].payload.Handshake? && EntryOk(log, i)
    ensures var c := log[i].payload.commit;
            && c.parent == Accepted(log[..i])
            && c.parent + [c.tag] == Accepted(log[..i + 1]) <= Accepted(log)
            && |c.parent| < |Accepted(log)| && Accepted(log)[|c.parent|] == c.tag
            && c.parent == Accepted(log)[..|c.parent|]
  {
    assert log[..i + 1][..i] == log[..i];
    AcceptedPrefix(log, i + 1);
  }

  lemma {:induction false} AppendGrows(log: Log, m: Message<Payload>)
    ensures Accepted(log + [m]) == Accepted(log) + (if m.payload.Handshake? then [m.payload.commit.tag] else [])
  {
    assert (log + [m])[..|log|] == log;
  }

  lemma {:induction false} ChainGrows(log: Log, m: Message<Payload>)
    requires Chain(log)
    requires if m.payload.Handshake?
             then m.epoch == |Accepted(log)| + 1 && m.payload.commit.parent == Accepted(log)
             else m.epoch <= |Accepted(log)|
    ensures Chain(log + [m])
  {
    forall i | 0 <= i < |log + [m]| ensures EntryOk(log + [m], i) {
      if i < |log| {
        assert EntryOk(log, i);
        assert (log + [m])[..i] == log[..i];
      } else {
        assert (log + [m])[..i] == log;
      }
    }
  }

  /** What was promised about a shorter log still holds of a longer one. */
  lemma {:induction false} PromisesKept(st: State, log': Log)
    requires Inv(st) && st.thread.log <= log'
    ensures Accepted(st.thread.log) <= Accepted(log')
    ensures forall a :: a in st.answers ==> AnswerOk(a, log')
    ensures forall w :: w in st.welcomes ==> WelcomeOk(w, log')
  {
    var log := st.thread.log;
    assert log'[..|log|] == log;
    AcceptedPrefix(log', |log|);
    forall w | w in st.welcomes ensures WelcomeOk(w, log') {
      assert log'[..w.after] == log[..w.after];
    }
  }

  lemma {:induction false} ClientsFollow(st: State, acc': seq<Tag>)
    requires ClientsOk(st) && Accepted(st.thread.log) <= acc'
    ensures forall u :: u in st.clients ==> ClientOk(u, st.clients[u], acc', st.minted)
  {}

  // ------------------------------------------------------------ every step keeps it

  /** Changing one client is safe when that client's new state is. */
  lemma {:induction false} PutKeeps(st: State, u: User, c: Client)
    requires Inv(st) && ClientOk(u, c, Accepted(st.thread.log), st.minted)
    ensures Inv(Put(st, u, c))
  {}

  /** A fresh tag disturbs nothing already known. */
  lemma {:induction false} MintKeeps(st: State, tag: Tag, parent: seq<Tag>)
    requires Inv(st) && tag !in st.minted
    ensures Inv(st.(minted := st.minted[tag := parent]))
  {}

  lemma {:induction false} TakenThread(t: Thread<Payload>, c: Commit)
    requires ThreadOk(t) && c.parent == Accepted(t.log)
    ensures var m := Message(|t.log| + 1, EpochOf(c), c.tag.author, Handshake(c));
            && Append(t, EpochOf(c), c.tag.author, Handshake(c), true) == (Thread(EpochOf(c), t.log + [m]), Ok(|t.log| + 1))
            && ThreadOk(Thread(EpochOf(c), t.log + [m])) && Accepted(t.log + [m]) == c.parent + [c.tag]
  {
    var m := Message(|t.log| + 1, EpochOf(c), c.tag.author, Handshake(c));
    AppendKeepsDense(t, EpochOf(c), c.tag.author, Handshake(c), true);
    ChainGrows(t.log, m);
    AppendGrows(t.log, m);
  }

  lemma {:induction false} TakenWire(st: State, c: Commit, t': Thread<Payload>)
    requires Inv(st) && c in st.sent && st.thread.log <= t'.log && |t'.log| == |st.thread.log| + 1
    requires t'.log[|st.thread.log|].payload == Handshake(c)
    ensures var n := |t'.log|; WireOk(st.(thread := t', sent := st.sent - {c}, answers := st.answers + {Answer(c, Some(n))}))
  {
    PromisesKept(st, t'.log);
  }

  lemma {:induction false} ArriveKeeps(st: State, c: Commit)
    requires Inv(st)
    ensures Inv(DoArrive(st, c))
  {
    if c in st.sent && EpochOf(c) == st.thread.epoch + 1 {
      var log := st.thread.log;
      assert c.parent == Accepted(log);
      TakenThread(st.thread, c);
      var t' := Thread(EpochOf(c), log + [Message(|log| + 1, EpochOf(c), c.tag.author, Handshake(c))]);
      assert DoArrive(st, c) == st.(thread := t', sent := st.sent - {c}, answers := st.answers + {Answer(c, Some(|t'.log|))});
      TakenWire(st, c, t');
      ClientsFollow(st, Accepted(t'.log));
    }
  }

  lemma {:induction false} SendAppKeeps(st: State, u: User, text: string)
    requires Inv(st)
    ensures Inv(DoSendApp(st, u, text))
  {
    var c := At(st, u);
    if Settled(c) {
      var log := st.thread.log;
      var m := Message(|log| + 1, Epoch(c.group.value), u, App(text));
      AppendKeepsDense(st.thread, Epoch(c.group.value), u, App(text), false);
      ChainGrows(log, m);
      AppendGrows(log, m);
      PromisesKept(st, log + [m]);
    }
  }

  /**
   The exact condition under which acting on an acceptance is safe: `merge_staged_commit`
   takes no argument, so it is right exactly when what is staged is what was accepted.
   */
  predicate MergesWhatWasAccepted(c: Client, a: Answer) {
    c.group.Some? && !c.joining && a.commit in c.awaiting && c.group.value.pending.Some?
    ==> c.group.value.pending.value == a.commit
  }

  /** Acting on an acceptance keeps a client on the relay's chain exactly under that condition. */
  lemma {:induction false} MergeFollowsRelay(st: State, u: User, a: Answer)
    requires Inv(st) && a in st.answers && a.seqno.Some?
    requires u in st.clients && st.clients[u].group.Some? && a.commit in st.clients[u].awaiting
    ensures var h := Merged(st.clients[u], a).group.value.history;
            h <= Accepted(st.thread.log) <==> MergesWhatWasAccepted(st.clients[u], a)
    ensures var c := st.clients[u];
            c.joining || c.group.value.pending == Some(a.commit)
            ==> Merged(c, a).group.value.history == Accepted(st.thread.log[..a.seqno.value])
  {
    AcceptedAt(st.thread.log, a.seqno.value - 1);
    MergePoint(u, st.clients[u], a, Accepted(st.thread.log), st.minted);
  }

  lemma {:induction false} MergePoint(u: User, c: Client, a: Answer, acc: seq<Tag>, minted: map<Tag, seq<Tag>>)
    requires ClientOk(u, c, acc, minted) && c.group.Some? && a.commit in c.awaiting && a.seqno.Some?
    requires |a.commit.parent| < |acc| && acc[|a.commit.parent|] == a.commit.tag
    requires a.commit.parent == acc[..|a.commit.parent|]
    ensures Merged(c, a).group.value.history <= acc <==> MergesWhatWasAccepted(c, a)
    ensures c.joining || c.group.value.pending == Some(a.commit)
            ==> Merged(c, a).group.value.history == a.commit.parent + [a.commit.tag]
  {
    var h := c.group.value.history;
    if c.joining {
      assert h == h[..|h| - 1] + [h[|h| - 1]];
    } else {
      assert ExtendsOrLost(a.commit, h);
      assert a.commit.parent == h;
      if c.group.value.pending.Some? {
        var p := c.group.value.pending.value;
        assert (h + [p.tag])[|h|] == p.tag;
        assert Known(p, minted) && Known(a.commit, minted);
      }
    }
  }

  lemma {:induction false} MergedOk(st: State, u: User, a: Answer)
    requires Inv(st) && a in st.answers && a.seqno.Some?
    requires u in st.clients && st.clients[u].group.Some? && a.commit in st.clients[u].awaiting
    requires MergesWhatWasAccepted(st.clients[u], a)
    ensures ClientOk(u, Merged(st.clients[u], a), Accepted(st.thread.log), st.minted)
  {
    MergeFollowsRelay(st, u, a);
    var c := st.clients[u];
    if !c.joining && c.group.value.pending.Some? {
      StillOutstanding(u, c, a.commit, c.awaiting - {a.commit}, st.minted);
    }
  }

  /** When `commit` becomes the next state, every other publication on the old state has lost. */
  lemma {:induction false} StillOutstanding(u: User, c: Client, commit: Commit, rest: set<Commit>, minted: map<Tag, seq<Tag>>)
    requires c.group.Some? && OutstandingOk(u, c) && rest <= c.awaiting - {commit}
    requires commit.parent == c.group.value.history && Known(commit, minted)
    requires forall p :: p in c.awaiting ==> Known(p, minted)
    ensures forall p :: p in rest ==> p.tag.author == u && ExtendsOrLost(p, c.group.value.history + [commit.tag])
  {
    forall p | p in rest ensures ExtendsOrLost(p, c.group.value.history + [commit.tag]) {
      assert Known(p, minted) && p != commit;
      assert ExtendsOrLost(p, c.group.value.history);
    }
  }

  lemma {:induction false} AnsweredKeeps(st: State, u: User, a: Answer)
    requires Inv(st) && (a.seqno.Some? ==> MergesWhatWasAccepted(At(st, u), a))
    ensures Inv(DoAnswered(st, u, a))
  {
    var c := At(st, u);
    if a in st.answers && a.commit in c.awaiting && c.group.Some? {
      if a.seqno.None? {
        PutKeeps(st, u, Abandon(c, a.commit));
      } else {
        MergeFollowsRelay(st, u, a);
        MergedOk(st, u, a);
        PutKeeps(st, u, Merged(c, a));
      }
    }
  }

  lemma {:induction false} HandleKeeps(u: User, c: Client, log: Log, i: nat, minted: map<Tag, seq<Tag>>)
    requires ClientOk(u, c, Accepted(log), minted) && i < |log| && EntryOk(log, i)
    requires log[i].payload.Handshake? ==> Known(log[i].payload.commit, minted)
    ensures ClientOk(u, Handle(c, log[i]), Accepted(log), minted)
  {
    if Settled(c) && log[i].payload.Handshake? && Process(c.group.value, log[i].payload.commit).Done? {
      AcceptedAt(log, i);
      assert forall p :: p in c.awaiting ==> p != log[i].payload.commit;
      StillOutstanding(u, c, log[i].payload.commit, c.awaiting, minted);
    }
  }

  lemma {:induction false} StageKeeps(st: State, u: User, nonce: nat)
    requires Inv(st)
    ensures Inv(DoStage(st, u, nonce))
  {
    var c := At(st, u);
    if Settled(c) && Tag(u, nonce) !in st.minted && c.group.value.pending.None? {
      var g := c.group.value;
      MintKeeps(st, Tag(u, nonce), g.history);
      PutKeeps(st.(minted := st.minted[Tag(u, nonce) := g.history]), u,
               c.(group := Some(Stage(g, nonce).value.0)));
    }
  }

  lemma {:induction false} PublishKeeps(st: State, u: User)
    requires Inv(st)
    ensures Inv(DoPublish(st, u))
  {
    var c := At(st, u);
    if Settled(c) && c.group.value.pending.Some? {
      PutKeeps(st, u, c.(awaiting := c.awaiting + {c.group.value.pending.value}));
    }
  }

  lemma {:induction false} JoinLinkKeeps(st: State, u: User, info: seq<Tag>, nonce: nat)
    requires Inv(st)
    ensures Inv(DoJoinLink(st, u, info, nonce))
  {
    var commit := Commit(Tag(u, nonce), info);
    if info in st.infos && At(st, u).group.None? && commit.tag !in st.minted {
      MintKeeps(st, commit.tag, info);
      var h := info + [commit.tag];
      assert h[..|h| - 1] == info;
      PutKeeps(st.(minted := st.minted[commit.tag := info]), u, Client(Some(MlsGroup(u, h, None)), {commit}, true, 0));
    }
  }

  /** The condition of `MergeFollowsRelay`, for whichever step is taken. */
  predicate Safe(st: State, s: Step) {
    s.Answered? && s.answer.seqno.Some? ==> MergesWhatWasAccepted(At(st, s.u), s.answer)
  }

  predicate SafeRun(st: State, steps: seq<Step>) {
    steps == [] || (SafeRun(st, steps[..|steps| - 1]) && Safe(Run(st, steps[..|steps| - 1]), steps[|steps| - 1]))
  }

  lemma {:induction false} StepKeeps(st: State, s: Step)
    requires Inv(st) && Safe(st, s)
    ensures Inv(Next(st, s))
  {
    match s
    case StageCommit(u, nonce) => StageKeeps(st, u, nonce);
    case Publish(u) => PublishKeeps(st, u);
    case Arrive(c) => ArriveKeeps(st, c);
    case LoseRequest(c) =>
    case Answered(u, a) => AnsweredKeeps(st, u, a);
    case GiveUp(u, c) =>
      if At(st, u).group.Some? { PutKeeps(st, u, Abandon(At(st, u), c)); }
    case SendApp(u, text) => SendAppKeeps(st, u, text);
    case Receive(u, i) =>
      if i < |st.thread.log| {
        HandleKeeps(u, At(st, u), st.thread.log, i, st.minted);
        PutKeeps(st, u, Handle(At(st, u), st.thread.log[i]));
      }
    case JoinWelcome(u, w) =>
      if w in st.welcomes {
        AcceptedPrefix(st.thread.log, w.after);
        PutKeeps(st, u, Client(Some(MlsGroup(u, w.history, None)), {}, false, w.after));
      }
    case ParkInfo(u) =>
    case JoinLink(u, info, nonce) => JoinLinkKeeps(st, u, info, nonce);
    case Forget(u) => PutKeeps(st, u, OUTSIDER);
  }

  lemma {:induction false} RunKeeps(st: State, steps: seq<Step>)
    requires Inv(st) && SafeRun(st, steps)
    ensures Inv(Run(st, steps))
  {
    if steps != [] {
      RunKeeps(st, steps[..|steps| - 1]);
      StepKeeps(Run(st, steps[..|steps| - 1]), steps[|steps| - 1]);
    }
  }

  // ------------------------------------------------------------------ main results

  /** No client ever holds a state the relay's log does not lead to. */
  lemma {:induction false} NoFork(creator: User, steps: seq<Step>, u: User)
    requires SafeRun(Init(creator), steps)
    ensures var st := Run(Init(creator), steps);
            var acc := Accepted(st.thread.log);
            var c := At(st, u);
            c.group.Some? ==>
              var h := c.group.value.history;
              if c.joining
              then h != [] && h[..|h| - 1] <= acc && h[|h| - 1].author == u &&
                   c.awaiting == {Commit(h[|h| - 1], h[..|h| - 1])}
              else h <= acc
  {
    RunKeeps(Init(creator), steps);
  }

  /** Two settled clients at the same epoch hold the same commits. */
  lemma {:induction false} SameEpochSameState(creator: User, steps: seq<Step>, u: User, v: User)
    requires SafeRun(Init(creator), steps)
    ensures var st := Run(Init(creator), steps);
            Settled(At(st, u)) && Settled(At(st, v)) &&
            Epoch(At(st, u).group.value) == Epoch(At(st, v).group.value)
            ==> At(st, u).group.value.history == At(st, v).group.value.history
  {
    RunKeeps(Init(creator), steps);
  }

  /** A logged commit carries the epoch it opens, which is the one after all the commits before it. */
  ghost predicate Numbered(t: Thread<Payload>) {
    && Dense(t) && t.epoch == |Accepted(t.log)|
    && forall i :: 0 <= i < |t.log| && t.log[i].payload.Handshake? ==>
         t.log[i].epoch == |Accepted(t.log[..i])| + 1 == EpochOf(t.log[i].payload.commit)
  }

  lemma {:induction false} NumberedGrows(t: Thread<Payload>, m: Message<Payload>)
    requires Numbered(t) && m.seqno == |t.log| + 1
    requires m.payload.Handshake? ==> m.epoch == t.epoch + 1 == EpochOf(m.payload.commit)
    ensures Numbered(Thread(if m.payload.Handshake? then m.epoch else t.epoch, t.log + [m]))
  {
    var log := t.log + [m];
    AppendGrows(t.log, m);
    forall i | 0 <= i < |log| && log[i].payload.Handshake?
      ensures log[i].epoch == |Accepted(log[..i])| + 1 == EpochOf(log[i].payload.commit)
    {
      assert log[..i] == t.log[..i];
      assert i == |t.log| ==> t.log[..i] == t.log;
    }
  }

  lemma {:induction false} ArriveNumbers(t: Thread<Payload>, c: Commit)
    requires Numbered(t)
    ensures Numbered(Append(t, EpochOf(c), c.tag.author, Handshake(c), true).0)
  {
    if EpochOf(c) == t.epoch + 1 {
      NumberedGrows(t, Message(|t.log| + 1, EpochOf(c), c.tag.author, Handshake(c)));
    }
  }

  lemma {:induction false} SendAppNumbers(t: Thread<Payload>, epoch: nat, u: User, text: string)
    requires Numbered(t)
    ensures Numbered(Append(t, epoch, u, App(text), false).0)
  {
    NumberedGrows(t, Message(|t.log| + 1, epoch, u, App(text)));
  }

  /** Only a commit arriving and a message sent write the log. */
  lemma {:induction false} OthersKeepThread(st: State, s: Step)
    requires !s.Arrive? && !s.SendApp?
    ensures Next(st, s).thread == st.thread
  {
  }

  lemma {:induction false} StepNumbers(st: State, s: Step)
    requires Numbered(st.thread) && (s.Arrive? || s.SendApp?)
    ensures Numbered(Next(st, s).thread)
  {
    if s.Arrive? {
      ArriveNumbers(st.thread, s.commit);
      assert Next(st, s).thread == (if s.commit in st.sent then Append(st.thread, EpochOf(s.commit), s.commit.tag.author, Handshake(s.commit), true).0 else st.thread);
    } else if Settled(At(st, s.u)) {
      SendAppNumbers(st.thread, Epoch(At(st, s.u).group.value), s.u, s.text);
    }
  }

  /**
   In every run, forks included, the accepted commits carry epochs 1, 2, 3, ... once each, in the order
   of the log, and the relay's epoch is their number.
   */
  lemma {:induction false} EpochsNumbered(creator: User, steps: seq<Step>)
    ensures Numbered(Run(Init(creator), steps).thread)
  {
    if steps != [] {
      var st, s := Run(Init(creator), steps[..|steps| - 1]), steps[|steps| - 1];
      EpochsNumbered(creator, steps[..|steps| - 1]);
      if s.Arrive? || s.SendApp? { StepNumbers(st, s); } else { OthersKeepThread(st, s); }
    }
  }

  /** In a safe run each accepted commit is built on all the ones before it, and no message carries an epoch not yet reached. */
  lemma {:induction false} EpochsInOrder(creator: User, steps: seq<Step>, i: nat)
    requires SafeRun(Init(creator), steps) && i < |Run(Init(creator), steps).thread.log|
    ensures var log := Run(Init(creator), steps).thread.log;
            && (log[i].payload.Handshake? ==> log[i].payload.commit.parent == Accepted(log[..i]))
            && (log[i].payload.App? ==> log[i].epoch <= |Accepted(log[..i])|)
  {
    RunKeeps(Init(creator), steps);
    assert EntryOk(Run(Init(creator), steps).thread.log, i);
  }

  // ------------------------------------------- one operation at a time is always safe

  /** A client starts a membership change only when no earlier one is outstanding. */
  predicate OneAtATime(st: State, s: Step) {
    s.StageCommit? ==> At(st, s.u).awaiting == {}
  }

  predicate SoloRun(st: State, steps: seq<Step>) {
    steps == [] ||
    (SoloRun(st, steps[..|steps| - 1]) && OneAtATime(Run(st, steps[..|steps| - 1]), steps[|steps| - 1]))
  }

  ghost predicate SoloInv(st: State) {
    forall u :: u in st.clients && st.clients[u].group.Some? && st.clients[u].group.value.pending.Some?
      ==> st.clients[u].awaiting <= {st.clients[u].group.value.pending.value}
  }

  lemma {:induction false} SoloStep(st: State, s: Step)
    requires SoloInv(st) && OneAtATime(st, s)
    ensures SoloInv(Next(st, s)) && Safe(st, s)
  {}

  /** Clients that finish one membership change before starting the next never fork. */
  lemma {:induction false} SoloRunsAreSafe(st: State, steps: seq<Step>)
    requires SoloInv(st) && SoloRun(st, steps)
    ensures SoloInv(Run(st, steps)) && SafeRun(st, steps)
  {
    if steps != [] {
      SoloRunsAreSafe(st, steps[..|steps| - 1]);
      SoloStep(Run(st, steps[..|steps| - 1]), steps[|steps| - 1]);
    }
  }

  // ------------------------------------------------------------------- convergence

  /** Replaying the log from position `from`, as `subscribe` does. */
  function CatchUp(c: Client, log: Log, from: nat): (r: Client)
    decreases |log| - from
  {
    if from >= |log| then c else CatchUp(Handle(c, log[from]), log, from + 1)
  }

  /** None of the accepted commits from position `k` on is the client's own. */
  ghost predicate NoneOwn(acc: seq<Tag>, k: nat, u: User) {
    forall j :: k <= j < |acc| ==> acc[j].author != u
  }

  /**
   A replay ends at the relay's state exactly when it starts no later than the first
   commit the client lacks, and none of the lacking commits is the client's own.
   */
  lemma {:induction false} CatchUpReaches(u: User, c: Client, log: Log, from: nat)
    requires from <= |log| && Chain(log)
    requires Settled(c) && c.group.value.me == u && c.group.value.history <= Accepted(log)
    ensures CatchUp(c, log, from).group.Some?
    ensures var h := c.group.value.history;
            CatchUp(c, log, from).group.value.history == Accepted(log) <==>
            |Accepted(log[..from])| <= |h| && NoneOwn(Accepted(log), |h|, u)
    decreases |log| - from
  {
    if from == |log| {
      assert log[..from] == log;
    } else {
      assert EntryOk(log, from);
      assert log[..from + 1][..from] == log[..from];
      HandleOne(u, c, log, from);
      CatchUpReaches(u, Handle(c, log[from]), log, from + 1);
    }
  }

  /** One replayed message moves the client only if it is the next commit and not its own. */
  lemma {:induction false} HandleOne(u: User, c: Client, log: Log, i: nat)
    requires i < |log| && EntryOk(log, i)
    requires Settled(c) && c.group.value.me == u && c.group.value.history <= Accepted(log)
    ensures var acc, h, n := Accepted(log), c.group.value.history, |Accepted(log[..i])|;
            var c' := Handle(c, log[i]);
            && Settled(c') && c'.group.value.me == u
            && if log[i].payload.Handshake? && n == |h| && n < |acc| && acc[n].author != u
               then c'.group.value.history == acc[..n + 1] && (NoneOwn(acc, n, u) <==> NoneOwn(acc, n + 1, u))
               else c'.group.value.history == h
    ensures log[i].payload.Handshake? ==>
              |Accepted(log[..i])| < |Accepted(log)| && |Accepted(log[..i + 1])| == |Accepted(log[..i])| + 1
  {
    if log[i].payload.Handshake? { AcceptedAt(log, i); }
  }

  /** After any safe run, replaying from `from` brings a member to the head under that condition only. */
  lemma {:induction false} Converges(creator: User, steps: seq<Step>, u: User, from: nat)
    requires SafeRun(Init(creator), steps)
    requires var st := Run(Init(creator), steps); from <= |st.thread.log| && Settled(At(st, u))
    ensures var st := Run(Init(creator), steps);
            var acc, c := Accepted(st.thread.log), At(st, u);
            var c' := CatchUp(c, st.thread.log, from);
            && c'.group.Some?
            && (c'.group.value.history == acc <==>
                |Accepted(st.thread.log[..from])| <= Epoch(c.group.value) && NoneOwn(acc, Epoch(c.group.value), u))
  {
    RunKeeps(Init(creator), steps);
    var st := Run(Init(creator), steps);
    CatchUpReaches(u, At(st, u), st.thread.log, from);
  }

  // ------------------------------------------------------------------------ newcomers

  /** A settled member at the relay's head with nothing staged. */
  ghost predicate AtHead(st: State, u: User) {
    Settled(At(st, u)) && At(st, u).group.value.history == Accepted(st.thread.log) && At(st, u).group.value.pending.None?
  }

  /** A delivered message puts the cursor behind it, and never back. */
  lemma {:induction false} DeliveredAdvances(st: State, u: User, i: nat)
    requires Dense(st.thread) && Settled(At(st, u)) && i < |st.thread.log|
    ensures At(Next(st, Receive(u, i)), u).cursor == Max(At(st, u).cursor, i + 1)
  {
  }

  lemma {:induction false} Published(st: State, u: User, nonce: nat)
    requires AtHead(st, u) && Tag(u, nonce) !in st.minted && At(st, u).group.value.me == u
    ensures var c, was := Commit(Tag(u, nonce), Accepted(st.thread.log)), At(st, u);
            var st' := Next(Next(st, StageCommit(u, nonce)), Publish(u));
            && st'.thread == st.thread && st'.welcomes == st.welcomes && st'.answers == st.answers
            && (c in was.awaiting ==> st'.sent == st.sent) && (c !in was.awaiting ==> c in st'.sent)
            && At(st', u) == was.(group := Some(was.group.value.(pending := Some(c))), awaiting := was.awaiting + {c})
  {
    var c, was := Commit(Tag(u, nonce), Accepted(st.thread.log)), At(st, u);
    var st1 := Next(st, StageCommit(u, nonce));
    assert At(st1, u) == was.(group := Some(was.group.value.(pending := Some(c))));
    assert c in was.awaiting ==> was.awaiting + {c} == was.awaiting;
  }

  lemma {:induction false} TakenAtHead(st: State, c: Commit)
    requires ThreadOk(st.thread) && c in st.sent && c.parent == Accepted(st.thread.log)
    ensures var st', n := Next(st, Arrive(c)), |st.thread.log| + 1;
            && Answer(c, Some(n)) in st'.answers && c !in st'.sent
            && |st'.thread.log| == n && st'.clients == st.clients && st'.welcomes == st.welcomes
            && Accepted(st'.thread.log) == c.parent + [c.tag]
  {
    TakenThread(st.thread, c);
  }

  /**
   A change made at the head, published, taken and answered: its author is at the new head with nothing staged
   or outstanding of it, the cursor behind it, and a Welcome that leads there is offered.
   */
  lemma {:induction false} ChangeCompletes(st: State, u: User, nonce: nat)
    requires Inv(st) && AtHead(st, u) && Tag(u, nonce) !in st.minted
    ensures var c, n := Commit(Tag(u, nonce), Accepted(st.thread.log)), |st.thread.log| + 1;
            var st' := Next(Next(Next(Next(st, StageCommit(u, nonce)), Publish(u)), Arrive(c)), Answered(u, Answer(c, Some(n))));
            && AtHead(st', u) && Accepted(st'.thread.log) == Accepted(st.thread.log) + [c.tag] && |st'.thread.log| == n
            && c !in At(st', u).awaiting && At(st', u).cursor == Max(At(st, u).cursor, n)
            && Welcome(Accepted(st'.thread.log), n) in st'.welcomes
  {
    var c := Commit(Tag(u, nonce), Accepted(st.thread.log));
    assert u in st.clients && ClientOk(u, st.clients[u], Accepted(st.thread.log), st.minted);
    assert c !in At(st, u).awaiting;
    Published(st, u, nonce);
    var st2 := Next(Next(st, StageCommit(u, nonce)), Publish(u));
    TakenAtHead(st2, c);
    AnsweredAtHead(Next(st2, Arrive(c)), u, c, |st.thread.log| + 1);
  }

  lemma {:induction false} AnsweredAtHead(st: State, u: User, c: Commit, n: nat)
    requires Settled(At(st, u)) && At(st, u).group.value.pending == Some(c) && c in At(st, u).awaiting
    requires Answer(c, Some(n)) in st.answers && At(st, u).group.value.history == c.parent
    ensures var st', was := Next(st, Answered(u, Answer(c, Some(n)))), At(st, u);
            && st'.thread == st.thread && Welcome(c.parent + [c.tag], n) in st'.welcomes
            && At(st', u) == Client(Some(was.group.value.(history := c.parent + [c.tag], pending := None)), was.awaiting - {c}, false, Max(was.cursor, n))
  {
  }

  /** A newcomer starts exactly where it stands: the commits it holds are those of the log up to its cursor. */
  lemma {:induction false} NewcomerStarts(st: State, v: User, w: Welcome)
    requires Inv(st) && w in st.welcomes && At(st, v).group.None?
    ensures var st' := Next(st, JoinWelcome(v, w));
            var c := At(st', v);
            && st'.thread == st.thread && Settled(c) && c.group.value == MlsGroup(v, w.history, None) && c.awaiting == {}
            && c.cursor <= |st.thread.log| && c.group.value.history == Accepted(st.thread.log[..c.cursor])
            && CatchUp(c, st.thread.log, c.cursor).group.Some?
            && (CatchUp(c, st.thread.log, c.cursor).group.value.history == Accepted(st.thread.log) <==>
                NoneOwn(Accepted(st.thread.log), |w.history|, v))
  {
    var c := Client(Some(MlsGroup(v, w.history, None)), {}, false, w.after);
    assert At(Next(st, JoinWelcome(v, w)), v) == c && WelcomeOk(w, st.thread.log);
    AcceptedPrefix(st.thread.log, w.after);
    CatchUpReaches(v, c, st.thread.log, w.after);
  }

  lemma {:induction false} LinkJoinBegins(st: State, u: User, v: User, nonce: nat)
    requires AtHead(st, u) && At(st, v).group.None? && Tag(v, nonce) !in st.minted
    ensures var acc := Accepted(st.thread.log);
            var c, st' := Commit(Tag(v, nonce), acc), Next(Next(st, ParkInfo(u)), JoinLink(v, acc, nonce));
            && st'.thread == st.thread && c in st'.sent
            && At(st', v) == Client(Some(MlsGroup(v, acc + [c.tag], None)), {c}, true, 0)
  {
    assert At(Next(st, ParkInfo(u)), v) == At(st, v);
  }

  /** Joining by a link parked at the head, taken and answered: the joiner is settled at the new head, and its cursor at the end. */
  lemma {:induction false} LinkJoinCompletes(st: State, u: User, v: User, nonce: nat)
    requires Inv(st) && AtHead(st, u) && At(st, v).group.None? && Tag(v, nonce) !in st.minted
    ensures var acc, n := Accepted(st.thread.log), |st.thread.log| + 1;
            var c := Commit(Tag(v, nonce), acc);
            var st' := Next(Next(Next(Next(st, ParkInfo(u)), JoinLink(v, acc, nonce)), Arrive(c)), Answered(v, Answer(c, Some(n))));
            AtHead(st', v) && Accepted(st'.thread.log) == acc + [c.tag] && At(st', v).awaiting == {} && At(st', v).cursor == |st'.thread.log| == n
  {
    var acc := Accepted(st.thread.log);
    var c := Commit(Tag(v, nonce), acc);
    LinkJoinBegins(st, u, v, nonce);
    TakenAtHead(Next(Next(st, ParkInfo(u)), JoinLink(v, acc, nonce)), c);
  }

  // --------------------------------------------------------------- a lost acknowledgement

  /** The next commit in the log is this client's own, and it is not the one held staged: nothing can apply it. */
  ghost predicate Stuck(u: User, c: Client, acc: seq<Tag>) {
    && Settled(c) && TookOwn(u, c, acc)
    && (c.group.value.pending.Some? ==> c.group.value.pending.value.tag != acc[Epoch(c.group.value)])
  }

  /** The relay took a commit of this client's on the state it holds. */
  predicate TookOwn(u: User, c: Client, acc: seq<Tag>) {
    c.group.Some? && Epoch(c.group.value) < |acc| && acc[Epoch(c.group.value)].author == u
  }

  /** The relay took what the client holds staged. */
  predicate StagedTaken(st: State, u: User)
    requires At(st, u).group.Some?
  {
    var staged := At(st, u).group.value.pending;
    staged.Some? && staged.value.tag in Accepted(st.thread.log)
  }

  ghost predicate Wedged(st: State, u: User) { Stuck(u, At(st, u), Accepted(st.thread.log)) }

  /**
   Giving up on an unanswered commit, whatever else is outstanding, leaves the client wedged exactly when it
   already was or the relay took what it holds staged.
   */
  lemma {:induction false} GiveUpWedges(st: State, u: User, commit: Commit)
    requires Inv(st) && Settled(At(st, u)) && commit in At(st, u).awaiting
    ensures Wedged(Next(st, GiveUp(u, commit)), u) <==> Wedged(st, u) || StagedTaken(st, u)
  {
    GiveUpLeaves(st, u, commit);
    if StagedTaken(st, u) { StagedTakenIsNext(st, u); }
  }

  lemma {:induction false} GiveUpLeaves(st: State, u: User, commit: Commit)
    requires Settled(At(st, u)) && commit in At(st, u).awaiting
    ensures Wedged(Next(st, GiveUp(u, commit)), u) <==> TookOwn(u, At(st, u), Accepted(st.thread.log))
  {
    assert Next(st, GiveUp(u, commit)) == Put(st, u, Abandon(At(st, u), commit));
  }

  lemma {:induction false} StagedTakenIsNext(st: State, u: User)
    requires Inv(st) && Settled(At(st, u)) && StagedTaken(st, u)
    ensures TookOwn(u, At(st, u), Accepted(st.thread.log))
  {
    var log, staged := st.thread.log, At(st, u).group.value.pending.value;
    var i := LoggedAt(log, staged.tag);
    assert EntryOk(log, i) && Known(log[i].payload.commit, st.minted) && Known(staged, st.minted);
    AcceptedAt(log, i);
  }

  /** A commit given up on before it reached the relay wedges the client when it arrives, exactly if the relay takes it. */
  lemma {:induction false} TakenLateWedges(st: State, u: User, commit: Commit)
    requires Inv(st) && commit in st.sent && commit.tag.author == u && Settled(At(st, u))
    requires At(st, u).group.value.history == commit.parent && At(st, u).group.value.pending != Some(commit) && !Wedged(st, u)
    ensures Wedged(Next(st, Arrive(commit)), u) <==> st.thread.epoch == |commit.parent|
  {
    var log, g := st.thread.log, At(st, u).group.value;
    if st.thread.epoch == |commit.parent| {
      var m := Message(|log| + 1, EpochOf(commit), u, Handshake(commit));
      AppendGrows(log, m);
      assert Accepted(log + [m]) == Accepted(log) + [commit.tag];
      if g.pending.Some? { assert Known(g.pending.value, st.minted) && Known(commit, st.minted); }
    }
  }

  /** A change is staged, published and taken, and its answer is lost. */
  function LostAnswer(creator: User): (r: seq<Step>) {
    var c := Commit(Tag(creator, 0), []);
    [] + [StageCommit(creator, 0)] + [Publish(creator)] + [Arrive(c)] + [GiveUp(creator, c)]
  }

  /** That ordinary run ends with the client wedged. */
  lemma {:induction false} LostAnswerWedges(creator: User)
    ensures SafeRun(Init(creator), LostAnswer(creator)) && Wedged(Run(Init(creator), LostAnswer(creator)), creator)
  {
    var c, st := Commit(Tag(creator, 0), []), Init(creator);
    var s1, s2, s3 := [] + [StageCommit(creator, 0)], [] + [StageCommit(creator, 0)] + [Publish(creator)],
                      [] + [StageCommit(creator, 0)] + [Publish(creator)] + [Arrive(c)];
    SafeSnoc(st, [], StageCommit(creator, 0));
    SafeSnoc(st, s1, Publish(creator));
    SafeSnoc(st, s2, Arrive(c));
    SafeSnoc(st, s3, GiveUp(creator, c));
    assert At(Run(st, s1), creator) == Client(Some(MlsGroup(creator, [], Some(c))), {}, false, 0);
    assert At(Run(st, s2), creator) == Client(Some(MlsGroup(creator, [], Some(c))), {c}, false, 0) && Run(st, s2).thread == st.thread;
    var m := Message(1, 1, creator, Handshake(c));
    assert Run(st, s3).thread == Thread(1, [] + [m]);
    AppendGrows([], m);
    assert Accepted(Run(st, s3).thread.log) == [c.tag];
  }

  lemma {:induction false} SafeSnoc(st: State, steps: seq<Step>, s: Step)
    ensures Run(st, steps + [s]) == Next(Run(st, steps), s)
    ensures SafeRun(st, steps + [s]) <==> SafeRun(st, steps) && Safe(Run(st, steps), s)
  {
    assert (steps + [s])[..|steps|] == steps;
  }

  /** Forgetting the group is a way out: the client is outside, no longer wedged, and may join anew. */
  lemma {:induction false} ForgetFrees(st: State, u: User, w: Welcome)
    requires Inv(st) && w in st.welcomes
    ensures var st' := Next(st, Forget(u));
            && At(st', u).group.None? && At(st', u).awaiting == {} && !Wedged(st', u) && st'.thread == st.thread
            && Settled(At(Next(st', JoinWelcome(u, w)), u))
  {
  }

  /** A request that was lost is never taken. */
  lemma {:induction false} LostIsNotTaken(st: State, c: Commit)
    ensures var st' := Next(st, LoseRequest(c)); Next(st', Arrive(c)) == st' && st'.clients == st.clients && st'.thread == st.thread
  {
  }

  lemma {:induction false} LoggedAt(log: Log, tag: Tag) returns (i: nat)
    requires tag in Accepted(log)
    ensures i < |log| && log[i].payload.Handshake? && log[i].payload.commit.tag == tag
  {
    var last := log[|log| - 1];
    if last.payload.Handshake? && last.payload.commit.tag == tag {
      i := |log| - 1;
    } else {
      i := LoggedAt(log[..|log| - 1], tag);
    }
  }

  lemma {:induction false} OutstandingAcceptedIsNext(st: State, u: User, a: Answer)
    requires Inv(st) && a in st.answers && a.seqno.Some? && Settled(At(st, u)) && a.commit in At(st, u).awaiting
    ensures var g := At(st, u).group.value;
            Epoch(g) < |Accepted(st.thread.log)| && Accepted(st.thread.log)[Epoch(g)] == a.commit.tag
  {
    AcceptedAt(st.thread.log, a.seqno.value - 1);
    assert ExtendsOrLost(a.commit, At(st, u).group.value.history);
  }

  lemma {:induction false} ThreadOnlyGrows(st: State, s: Step)
    ensures Accepted(st.thread.log) <= Accepted(Next(st, s).thread.log)
  {
    var t := Next(st, s).thread;
    if t != st.thread {
      assert t.log[..|st.thread.log|] == st.thread.log;
      AcceptedPrefix(t.log, |st.thread.log|);
    }
  }

  /** A wedged client stays exactly where it is until it forgets the group. */
  lemma {:induction false} WedgedStep(st: State, s: Step, u: User)
    requires Inv(st) && Wedged(st, u) && s != Forget(u) && Safe(st, s)
    ensures Wedged(Next(st, s), u)
    ensures At(Next(st, s), u).group.value.history == At(st, u).group.value.history
  {
    ThreadOnlyGrows(st, s);
    WedgedClientStep(st, s, u);
  }

  /** Whose client a step changes. */
  predicate Touches(s: Step, u: User) {
    !s.Arrive? && !s.LoseRequest? && !s.SendApp? && !s.ParkInfo? && s.u == u
  }

  lemma {:induction false} OthersUntouched(st: State, s: Step, u: User)
    requires !Touches(s, u)
    ensures At(Next(st, s), u) == At(st, u)
  {}

  lemma {:induction false} WedgedClientStep(st: State, s: Step, u: User)
    requires Inv(st) && Wedged(st, u) && s != Forget(u) && Safe(st, s)
    ensures var c := At(Next(st, s), u);
            Stuck(u, c, Accepted(st.thread.log)) && c.group.value.history == At(st, u).group.value.history
  {
    if !Touches(s, u) {
      OthersUntouched(st, s, u);
    } else {
      match s
      case Answered(_, a) =>
        if a in st.answers && a.commit in At(st, u).awaiting && a.seqno.Some? { OutstandingAcceptedIsNext(st, u, a); }
      case Receive(_, i) =>
        if i < |st.thread.log| && st.thread.log[i].payload.Handshake? { AcceptedAt(st.thread.log, i); }
      case StageCommit(_, nonce) => WedgedStage(st, u, nonce);
      case _ =>
    }
  }

  lemma {:induction false} WedgedStage(st: State, u: User, nonce: nat)
    requires Inv(st) && Wedged(st, u)
    ensures var c := At(DoStage(st, u, nonce), u);
            Stuck(u, c, Accepted(st.thread.log)) && c.group.value.history == At(st, u).group.value.history
  {
    var own := Accepted(st.thread.log)[Epoch(At(st, u).group.value)];
    var i := LoggedAt(st.thread.log, own);
    assert Known(st.thread.log[i].payload.commit, st.minted);
  }

  lemma {:induction false} WedgedForever(st: State, steps: seq<Step>, u: User)
    requires Inv(st) && SafeRun(st, steps) && Wedged(st, u) && Forget(u) !in steps
    ensures Wedged(Run(st, steps), u)
    ensures At(Run(st, steps), u).group.value.history == At(st, u).group.value.history
  {
    if steps != [] {
      var init := steps[..|steps| - 1];
      WedgedForever(st, init, u);
      RunKeeps(st, init);
      WedgedStep(Run(st, init), steps[|steps| - 1], u);
    }
  }

  // -------------------------------------------------- three operations at once can fork

  lemma {:induction false} RunConcat(st: State, a: seq<Step>, b: seq<Step>)
    ensures Run(st, a + b) == Run(Run(st, a), b)
  {
    if b == [] {
      assert a + b == a;
    } else {
      assert (a + b)[..|a + b| - 1] == a + b[..|b| - 1];
      RunConcat(st, a, b[..|b| - 1]);
    }
  }

  lemma {:induction false} RunTwo(st: State, s: Step, t: Step)
    ensures Run(st, [s, t]) == Next(Next(st, s), t)
  {
    assert [s, t][..1] == [s] && Run(st, [s]) == Next(st, s);
  }

  const JOIN := Commit(Tag("bob", 0), [])
  const LOST := Commit(Tag("alice", 1), [JOIN.tag])
  const WINNER := Commit(Tag("bob", 2), [JOIN.tag])
  const TAKEN := Commit(Tag("alice", 3), [JOIN.tag, WINNER.tag])
  const OTHER := Commit(Tag("alice", 4), [JOIN.tag, WINNER.tag])

  /** A member's record with a given history, staged commit and outstanding publications. */
  function Member(u: User, h: seq<Tag>, pending: Option<Commit>, awaiting: set<Commit>, cursor: nat): (c: Client) {
    Client(Some(MlsGroup(u, h, pending)), awaiting, false, cursor)
  }

  const FIRST := Message(1, 1, "bob", Handshake(JOIN))
  const SECOND := Message(2, 2, "bob", Handshake(WINNER))
  const THIRD := Message(3, 3, "alice", Handshake(TAKEN))

  /** Building a commit and putting it on the wire. */
  lemma {:induction false} StageAndPublish(st: State, u: User, nonce: nat, h: seq<Tag>, awaiting: set<Commit>, cursor: nat)
    requires At(st, u) == Member(u, h, None, awaiting, cursor) && Tag(u, nonce) !in st.minted
    requires Commit(Tag(u, nonce), h) !in awaiting
    ensures var c := Commit(Tag(u, nonce), h);
            var r := Run(st, [StageCommit(u, nonce), Publish(u)]);
            && r == st.(clients := r.clients, sent := st.sent + {c}, minted := st.minted[c.tag := h])
            && At(r, u) == Member(u, h, Some(c), awaiting + {c}, cursor)
            && forall v :: v != u ==> At(r, v) == At(st, v)
  {
    RunTwo(st, StageCommit(u, nonce), Publish(u));
  }

  /** Bob joins by link: the join is on its way ... */
  lemma {:induction false} BobAsks(steps: seq<Step>)
    requires steps == [ParkInfo("alice"), JoinLink("bob", [], 0)]
    ensures Run(Init("alice"), steps) ==
            State(Thread(0, []),
                  map["alice" := Member("alice", [], None, {}, 0), "bob" := Client(Some(MlsGroup("bob", [JOIN.tag], None)), {JOIN}, true, 0)],
                  {JOIN}, {}, {}, {[]}, map[JOIN.tag := []])
  {
    assert |"alice"| != |"bob"| && [] + [JOIN.tag] == [JOIN.tag];
    RunTwo(Init("alice"), steps[0], steps[1]);
  }

  /** ... and is taken and answered. */
  lemma {:induction false} BobJoins() returns (steps: seq<Step>)
    ensures Run(Init("alice"), steps) ==
            State(Thread(1, [FIRST]),
                  map["alice" := Member("alice", [], None, {}, 0), "bob" := Member("bob", [JOIN.tag], None, {}, 1)],
                  {}, {Answer(JOIN, Some(1))}, {}, {[]}, map[JOIN.tag := []])
  {
    assert |"alice"| != |"bob"|;
    var a, b := [ParkInfo("alice"), JoinLink("bob", [], 0)], [Arrive(JOIN), Answered("bob", Answer(JOIN, Some(1)))];
    BobAsks(a);
    RunTwo(Run(Init("alice"), a), b[0], b[1]);
    RunConcat(Init("alice"), a, b);
    steps := a + b;
  }

  /** Alice follows and publishes a commit on that state. */
  lemma {:induction false} AlicePublishes() returns (steps: seq<Step>)
    ensures var st := Run(Init("alice"), steps);
            && st.thread == Thread(1, [FIRST])
            && At(st, "alice") == Member("alice", [JOIN.tag], Some(LOST), {LOST}, 1)
            && At(st, "bob") == Member("bob", [JOIN.tag], None, {}, 1)
            && st.sent == {LOST} && st.minted.Keys == {JOIN.tag, LOST.tag}
  {
    assert |"alice"| != |"bob"| && [] + [JOIN.tag] == [JOIN.tag];
    var start := BobJoins();
    var st := Run(Init("alice"), start);
    RunConcat(Init("alice"), start, [Receive("alice", 0)]);
    steps := start + [Receive("alice", 0)];
    assert Run(st, [Receive("alice", 0)]) == Next(st, Receive("alice", 0));
    st := Run(Init("alice"), steps);
    assert At(st, "alice") == Member("alice", [JOIN.tag], None, {}, 1);
    StageAndPublish(st, "alice", 1, [JOIN.tag], {}, 1);
    RunConcat(Init("alice"), steps, [StageCommit("alice", 1), Publish("alice")]);
    steps := steps + [StageCommit("alice", 1), Publish("alice")];
  }

  /** Bob publishes their own commit on the same state, and it reaches the relay first. */
  lemma {:induction false} BobWins() returns (steps: seq<Step>)
    ensures var st := Run(Init("alice"), steps);
            && st.thread == Thread(2, [FIRST, SECOND])
            && At(st, "alice") == Member("alice", [JOIN.tag], Some(LOST), {LOST}, 1)
            && st.sent == {LOST} && st.minted.Keys == {JOIN.tag, LOST.tag, WINNER.tag}
  {
    assert |"alice"| != |"bob"| && [FIRST] + [SECOND] == [FIRST, SECOND];
    var start := AlicePublishes();
    var st := Run(Init("alice"), start);
    var publish := [StageCommit("bob", 2), Publish("bob")];
    StageAndPublish(st, "bob", 2, [JOIN.tag], {}, 1);
    RunConcat(Init("alice"), start, publish);
    var st' := Run(Init("alice"), start + publish);
    RunConcat(Init("alice"), start + publish, [Arrive(WINNER)]);
    assert Run(st', [Arrive(WINNER)]) == Next(st', Arrive(WINNER));
    steps := start + publish + [Arrive(WINNER)];
  }

  /** Alice's is refused; they follow the winner before the refusal arrives. */
  lemma {:induction false} AliceFollows() returns (steps: seq<Step>)
    ensures var st := Run(Init("alice"), steps);
            && st.thread == Thread(2, [FIRST, SECOND])
            && At(st, "alice") == Member("alice", [JOIN.tag, WINNER.tag], None, {LOST}, 2)
            && Answer(LOST, None) in st.answers && st.minted.Keys == {JOIN.tag, LOST.tag, WINNER.tag}
  {
    assert |"alice"| != |"bob"| && [JOIN.tag] + [WINNER.tag] == [JOIN.tag, WINNER.tag];
    var start := BobWins();
    var st := Run(Init("alice"), start);
    RunTwo(st, Arrive(LOST), Receive("alice", 1));
    RunConcat(Init("alice"), start, [Arrive(LOST), Receive("alice", 1)]);
    steps := start + [Arrive(LOST), Receive("alice", 1)];
  }

  lemma {:induction false} RefusalDiscards(st: State, u: User, a: Answer, h: seq<Tag>, p: Option<Commit>,
                                           awaiting: set<Commit>, cursor: nat)
    requires At(st, u) == Member(u, h, p, awaiting, cursor)
    requires a in st.answers && a.commit in awaiting && a.seqno.None?
    ensures var r := Next(st, Answered(u, a));
            r == st.(clients := r.clients) && At(r, u) == Member(u, h, None, awaiting - {a.commit}, cursor)
  {}

  /** Alice publishes a second change; the refusal of the first discards it. */
  lemma {:induction false} SecondDiscarded() returns (steps: seq<Step>)
    ensures var st := Run(Init("alice"), steps);
            && st.thread == Thread(2, [FIRST, SECOND])
            && At(st, "alice") == Member("alice", [JOIN.tag, WINNER.tag], None, {TAKEN}, 2)
            && TAKEN in st.sent && OTHER.tag !in st.minted
  {
    var start := AliceFollows();
    var publish, refusal := [StageCommit("alice", 3), Publish("alice")], Answered("alice", Answer(LOST, None));
    StageAndPublish(Run(Init("alice"), start), "alice", 3, [JOIN.tag, WINNER.tag], {LOST}, 2);
    RunConcat(Init("alice"), start, publish);
    var st := Run(Init("alice"), start + publish);
    RefusalDiscards(st, "alice", Answer(LOST, None), [JOIN.tag, WINNER.tag], Some(TAKEN), {LOST, TAKEN}, 2);
    assert {LOST, TAKEN} - {LOST} == {TAKEN};
    steps := RunSnoc(start + publish, refusal);
  }

  lemma {:induction false} RunSnoc(steps: seq<Step>, s: Step) returns (r: seq<Step>)
    ensures Run(Init("alice"), r) == Next(Run(Init("alice"), steps), s)
  {
    r := steps + [s];
    assert r[..|steps|] == steps;
  }

  /** The relay takes the discarded change, and Alice stages a third on the same state. */
  lemma {:induction false} ThirdStaged() returns (steps: seq<Step>)
    ensures var st := Run(Init("alice"), steps);
            && st.thread == Thread(3, [FIRST, SECOND, THIRD])
            && At(st, "alice") == Member("alice", [JOIN.tag, WINNER.tag], Some(OTHER), {TAKEN}, 2)
            && Answer(TAKEN, Some(3)) in st.answers
  {
    assert [FIRST, SECOND] + [THIRD] == [FIRST, SECOND, THIRD];
    steps := SecondDiscarded();
    steps := RunSnoc(steps, Arrive(TAKEN));
    steps := RunSnoc(steps, StageCommit("alice", 4));
  }

  /**
   The acceptance of the discarded change merges the third: a state the log does not lead
   to and nobody else will ever reach.
   */
  lemma {:induction false} ConcurrentChangesFork() returns (steps: seq<Step>)
    ensures var st := Run(Init("alice"), steps);
            && At(st, "alice") == Member("alice", [JOIN.tag, WINNER.tag, OTHER.tag], None, {}, 3)
            && Accepted(st.thread.log) == [JOIN.tag, WINNER.tag, TAKEN.tag]
  {
    assert [JOIN.tag, WINNER.tag] + [OTHER.tag] == [JOIN.tag, WINNER.tag, OTHER.tag];
    steps := ThirdStaged();
    steps := RunSnoc(steps, Answered("alice", Answer(TAKEN, Some(3))));
    ThreeAccepted();
  }

  lemma {:induction false} ThreeAccepted()
    ensures Accepted([FIRST, SECOND, THIRD]) == [JOIN.tag, WINNER.tag, TAKEN.tag]
  {
    AppendGrows([], FIRST);
    AppendGrows([FIRST], SECOND);
    AppendGrows([FIRST, SECOND], THIRD);
    assert [] + [FIRST] == [FIRST] && [FIRST] + [SECOND] == [FIRST, SECOND];
    assert [FIRST, SECOND] + [THIRD] == [FIRST, SECOND, THIRD];
  }
}
