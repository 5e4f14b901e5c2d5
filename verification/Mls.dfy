/**
 The MLS client of crypto-core/src/client.rs, with OpenMLS reduced to the one fact
 the relay protocol relies on: a group state is the chain of commits that led to it,
 and a commit can be applied only to the state it was built on.
 */
module Mls {
  import opened Common

  /** What identifies a commit: who made it, and the fresh randomness in it. */
  datatype Tag = Tag(author: User, nonce: nat)

  /** A commit, and the state it was built on: the commits that led there. */
  datatype Commit = Commit(tag: Tag, parent: seq<Tag>)

  /** The epoch a commit produces. */
  function EpochOf(c: Commit): (e: nat) { |c.parent| + 1 }

  datatype MlsGroup = MlsGroup(me: User, history: seq<Tag>, pending: Option<Commit>)

  datatype MlsError = UnknownGroup | AlreadyInGroup | PendingExists | NotApplicable

  datatype MlsResult<+T> = Done(value: T) | Failed(error: MlsError)

  function Epoch(g: MlsGroup): (e: nat) { |g.history| }

  /** `add_members`/`remove_members`: build a commit and hold it, merging nothing. */
  function Stage(g: MlsGroup, nonce: nat): (r: MlsResult<(MlsGroup, Commit)>) {
    if g.pending.Some? then Failed(PendingExists)
    else
      var c := Commit(Tag(g.me, nonce), g.history);
      Done((g.(pending := Some(c)), c))
  }

  /** `merge_pending_commit`: adopt the held commit; nothing held is no change. */
  function MergePending(g: MlsGroup): (r: MlsGroup) {
    if g.pending.Some? then g.(history := g.history + [g.pending.value.tag], pending := None) else g
  }

  function ClearPending(g: MlsGroup): (r: MlsGroup) { g.(pending := None) }

  /**
   `process_message` then `merge_staged_commit` for somebody else's commit. A commit of
   our own is always an error, and adopting another one deletes whatever we had staged.
   */
  function Process(g: MlsGroup, c: Commit): (r: MlsResult<MlsGroup>) {
    if c.tag.author == g.me || c.parent != g.history then Failed(NotApplicable)
    else Done(g.(history := g.history + [c.tag], pending := None))
  }

  /** What may be held staged: a commit of ours on exactly our current state. */
  ghost predicate Consistent(g: MlsGroup) {
    g.pending.Some? ==> g.pending.value.tag.author == g.me && g.pending.value.parent == g.history
  }

  /** Staging and discarding leaves the group exactly where it was, so the winner still applies. */
  lemma {:induction false} DiscardUndoesStage(g: MlsGroup, nonce: nat, winner: Commit)
    requires g.pending.None?
    ensures Stage(g, nonce).Done?
    ensures ClearPending(Stage(g, nonce).value.0) == g
    ensures Process(ClearPending(Stage(g, nonce).value.0), winner) == Process(g, winner)
  {}

  /** One `ChatClient`: any number of groups, keyed by the relay's group id. */
  class ChatClient {
    const name: User
    var groups: map<Group, MlsGroup>

    ghost predicate Valid()
      reads this
    {
      forall id :: id in groups ==> groups[id].me == name && Consistent(groups[id])
    }

    constructor (name: User)
      ensures Valid() && this.name == name && groups == map[]
    {
      this.name := name;
      groups := map[];
    }

    method CreateGroup(id: Group) returns (r: MlsResult<()>)
      requires Valid()
      modifies this
      ensures Valid()
      ensures r == if id in old(groups) then Failed(AlreadyInGroup) else Done(())
      ensures groups == if r.Done? then old(groups)[id := MlsGroup(name, [], None)] else old(groups)
    {
      if id in groups { return Failed(AlreadyInGroup); }
      groups := groups[id := MlsGroup(name, [], None)];
      r := Done(());
    }

    method StageCommit(id: Group, nonce: nat) returns (r: MlsResult<Commit>)
      requires Valid()
      modifies this
      ensures Valid()
      ensures r.Done? <==> id in old(groups) && old(groups)[id].pending.None?
      ensures r.Done? ==> r.value == Commit(Tag(name, nonce), old(groups)[id].history)
      ensures r.Done? ==> groups == old(groups)[id := old(groups)[id].(pending := Some(r.value))]
      ensures r.Failed? ==> groups == old(groups)
    {
      if id !in groups { return Failed(UnknownGroup); }
      match Stage(groups[id], nonce) {
        case Done(out) =>
          groups := groups[id := out.0];
          r := Done(out.1);
        case Failed(e) =>
          r := Failed(e);
      }
    }

    method MergeStagedCommit(id: Group) returns (r: MlsResult<nat>)
      requires Valid()
      modifies this
      ensures Valid()
      ensures r.Done? <==> id in old(groups)
      ensures r.Done? ==> groups == old(groups)[id := MergePending(old(groups)[id])] && r.value == Epoch(groups[id])
      ensures r.Failed? ==> groups == old(groups)
    {
      if id !in groups { return Failed(UnknownGroup); }
      groups := groups[id := MergePending(groups[id])];
      r := Done(Epoch(groups[id]));
    }

    method DiscardStagedCommit(id: Group) returns (r: MlsResult<()>)
      requires Valid()
      modifies this
      ensures Valid()
      ensures r.Done? <==> id in old(groups)
      ensures r.Done? ==> groups == old(groups)[id := ClearPending(old(groups)[id])]
      ensures r.Failed? ==> groups == old(groups)
    {
      if id !in groups { return Failed(UnknownGroup); }
      groups := groups[id := ClearPending(groups[id])];
      r := Done(());
    }

    method ProcessIncoming(id: Group, c: Commit) returns (r: MlsResult<nat>)
      requires Valid()
      modifies this
      ensures Valid()
      ensures r.Done? <==> id in old(groups) && c.tag.author != name && c.parent == old(groups)[id].history
      ensures r.Done? ==> r.value == EpochOf(c)
      ensures r.Done? ==> groups == old(groups)[id := MlsGroup(name, old(groups)[id].history + [c.tag], None)]
      ensures r.Failed? ==> groups == old(groups)
    {
      if id !in groups { return Failed(UnknownGroup); }
      match Process(groups[id], c) {
        case Done(g) =>
          groups := groups[id := g];
          r := Done(Epoch(g));
        case Failed(e) =>
          r := Failed(e);
      }
    }

    method JoinFromWelcome(id: Group, history: seq<Tag>) returns (r: MlsResult<()>)
      requires Valid()
      modifies this
      ensures Valid()
      ensures r == if id in old(groups) then Failed(AlreadyInGroup) else Done(())
      ensures groups == if r.Done? then old(groups)[id := MlsGroup(name, history, None)] else old(groups)
    {
      if id in groups { return Failed(AlreadyInGroup); }
      groups := groups[id := MlsGroup(name, history, None)];
      r := Done(());
    }

    /** The joiner adopts its own external commit at once, before the relay has seen it. */
    method JoinByExternalCommit(id: Group, info: seq<Tag>, nonce: nat) returns (r: MlsResult<Commit>)
      requires Valid()
      modifies this
      ensures Valid()
      ensures r == if id in old(groups) then Failed(AlreadyInGroup) else Done(Commit(Tag(name, nonce), info))
      ensures groups == if r.Done? then old(groups)[id := MlsGroup(name, info + [r.value.tag], None)] else old(groups)
    {
      if id in groups { return Failed(AlreadyInGroup); }
      var c := Commit(Tag(name, nonce), info);
      groups := groups[id := MlsGroup(name, info + [c.tag], None)];
      r := Done(c);
    }

    method ForgetGroup(id: Group)
      requires Valid()
      modifies this
      ensures Valid() && groups == old(groups) - {id}
    {
      groups := groups - {id};
    }
  }
}
