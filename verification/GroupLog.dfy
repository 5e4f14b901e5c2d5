/**
 The ordered log of one group: `append_message` and `messages_after` of
 relay/src/store.rs, as functions of the group's log and epoch.
 */
module GroupLog {
  import opened Common
  import opened Seqs

  /** A stored message. The relay keeps no mark of which messages were commits. */
  datatype Message<+P> = Message(seqno: nat, epoch: nat, sender: User, payload: P)

  datatype Thread<+P> = Thread(epoch: nat, log: seq<Message<P>>)

  /** Append; a commit is accepted only one past the current epoch, and advances it. */
  function Append<P>(t: Thread<P>, epoch: nat, sender: User, payload: P, commit: bool)
    : (r: (Thread<P>, Result<nat>))
  {
    if commit && epoch != t.epoch + 1 then (t, Err(EpochConflict))
    else
      var seqno := |t.log| + 1;
      (Thread(if commit then epoch else t.epoch, t.log + [Message(seqno, epoch, sender, payload)]), Ok(seqno))
  }

  function After<P(!new)>(t: Thread<P>, after: nat): (r: seq<Message<P>>) {
    Filter((m: Message<P>) => m.seqno > after, t.log)
  }

  /** Sequence numbers are 1, 2, 3, ... in log order. */
  ghost predicate Dense<P>(t: Thread<P>) {
    forall i :: 0 <= i < |t.log| ==> t.log[i].seqno == i + 1
  }

  lemma {:induction false} AppendKeepsDense<P>(t: Thread<P>, epoch: nat, sender: User, payload: P, commit: bool)
    requires Dense(t)
    ensures Dense(Append(t, epoch, sender, payload, commit).0)
  {}

  /** On a dense log, reading after a cursor is exactly dropping a prefix. */
  lemma {:induction false} AfterIsSuffix<P(!new)>(t: Thread<P>, after: nat)
    requires Dense(t)
    ensures After(t, after) == if after <= |t.log| then t.log[after..] else []
  {
    var p := (m: Message<P>) => m.seqno > after;
    var cut := if after <= |t.log| then after else |t.log|;
    assert t.log == t.log[..cut] + t.log[cut..];
    FilterConcat(p, t.log[..cut], t.log[cut..]);
    FilterNone(p, t.log[..cut]);
    FilterAll(p, t.log[cut..]);
  }

  datatype Request<+P> = Request(epoch: nat, sender: User, payload: P, commit: bool)

  predicate Accepts<P>(t: Thread<P>, r: Request<P>) {
    Append(t, r.epoch, r.sender, r.payload, r.commit).1.Ok?
  }

  function AppendAll<P>(t: Thread<P>, requests: seq<Request<P>>): (r: Thread<P>) {
    if requests == [] then t
    else
      var last := requests[|requests| - 1];
      Append(AppendAll(t, requests[..|requests| - 1]), last.epoch, last.sender, last.payload, last.commit).0
  }

  /**
   Two commits for one epoch never both land: once the group has reached an epoch, a
   commit carrying that epoch or an older one is refused after any further requests.
   */
  lemma {:induction false} OneWinnerPerEpoch<P>(t: Thread<P>, requests: seq<Request<P>>, late: Request<P>)
    requires late.commit && late.epoch <= t.epoch
    ensures t.epoch <= AppendAll(t, requests).epoch
    ensures !Accepts(AppendAll(t, requests), late)
  {
    if requests != [] { OneWinnerPerEpoch(t, requests[..|requests| - 1], late); }
  }
}
