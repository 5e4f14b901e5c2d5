/**
 Folding a channel's messages into day dividers, system lines and sender groups
 (client/src/lib/fold.js). One header vouches for a whole group, so what shares a group matters.
 */
module Fold {
  import opened Common

  /** `auth` says what a line's authorship rests on; missing means signed. */
  datatype Message = Message(ts: int, sender: User, system: bool, auth: Option<string>)

  datatype Item =
    | Day(text: string)
    | System(m: Message)
    | Group(sender: User, ts: int, last: int, lines: seq<Message>, auth: string)

  const GROUP_WINDOW := 5 * 60 * 1000

  /** The label of the day a timestamp falls on. */
  type Labels = int -> string

  function AuthOf(m: Message): (auth: string) { if m.auth.Some? then m.auth.value else "signed" }

  predicate Joins(g: Item, m: Message) {
    g.Group? && g.sender == m.sender && g.auth == AuthOf(m) && m.ts - g.last < GROUP_WINDOW
  }

  function Extended(g: Item, m: Message): (r: Item)
    requires g.Group?
  {
    g.(lines := g.lines + [m], last := m.ts)
  }

  function Started(m: Message): (r: Item) { Group(m.sender, m.ts, m.ts, [m], AuthOf(m)) }

  /** A message after the divider. The group being filled, if there is one, is the last item. */
  function Place(out: seq<Item>, m: Message): (r: seq<Item>) {
    if m.system then out + [System(m)]
    else if out != [] && Joins(out[|out| - 1], m) then out[|out| - 1 := Extended(out[|out| - 1], m)]
    else out + [Started(m)]
  }

  /** One more message after `day`'s. */
  function Push(days: Labels, out: seq<Item>, day: Option<string>, m: Message): (r: seq<Item>) {
    Place(if day == Some(days(m.ts)) then out else out + [Day(days(m.ts))], m)
  }

  function DayBefore(days: Labels, ms: seq<Message>): (day: Option<string>) {
    if ms == [] then None else Some(days(ms[|ms| - 1].ts))
  }

  function FoldOf(days: Labels, ms: seq<Message>): (out: seq<Item>) {
    if ms == [] then []
    else
      var init := ms[..|ms| - 1];
      Push(days, FoldOf(days, init), DayBefore(days, init), ms[|ms| - 1])
  }

  lemma {:induction false} FoldSnoc(days: Labels, ms: seq<Message>, m: Message)
    ensures FoldOf(days, ms + [m]) == Push(days, FoldOf(days, ms), DayBefore(days, ms), m)
    ensures DayBefore(days, ms + [m]) == Some(days(m.ts))
  {
    assert (ms + [m])[..|ms|] == ms;
  }

  /** The last item is a group still being filled. */
  predicate Open(out: seq<Item>) { out != [] && out[|out| - 1].Group? }

  /** The loop body of `fold`: `day` is the day it is in, `open` whether there is a group to fill. */
  method FoldOne(days: Labels, before: seq<Item>, dayBefore: Option<string>, openBefore: bool, m: Message)
    returns (out: seq<Item>, day: Option<string>, open: bool)
    requires openBefore == Open(before)
    ensures out == Push(days, before, dayBefore, m) && day == Some(days(m.ts)) && open == Open(out)
  {
    out, day, open := before, dayBefore, openBefore;
    var today := days(m.ts);
    if day != Some(today) {
      out := out + [Day(today)];
      day, open := Some(today), false;
    }
    if m.system {
      out := out + [System(m)];
      open := false;
    } else if open && Joins(out[|out| - 1], m) {
      out := out[|out| - 1 := Extended(out[|out| - 1], m)];
    } else {
      out := out + [Started(m)];
      open := true;
    }
  }

  /** `fold`. */
  method Fold(days: Labels, messages: seq<Message>) returns (out: seq<Item>)
    ensures out == FoldOf(days, messages)
  {
    out := [];
    var day: Option<string>, open := None, false;
    for i := 0 to |messages|
      invariant out == FoldOf(days, messages[..i]) && day == DayBefore(days, messages[..i]) && open == Open(out)
    {
      FoldSnoc(days, messages[..i], messages[i]);
      assert messages[..i + 1] == messages[..i] + [messages[i]];
      out, day, open := FoldOne(days, out, day, open, messages[i]);
    }
    assert messages[..|messages|] == messages;
  }

  // ----------------------------------------------------------------------- what it should be

  function Lines(item: Item): (ms: seq<Message>) {
    match item
    case Day(_) => []
    case System(m) => [m]
    case Group(_, _, _, lines, _) => lines
  }

  function Flatten(out: seq<Item>): (ms: seq<Message>) {
    if out == [] then [] else Flatten(out[..|out| - 1]) + Lines(out[|out| - 1])
  }

  /** Lines that may share a group: one sender, one kind of evidence, one day, no gap as long as the window. */
  ghost predicate Together(days: Labels, sender: User, auth: string, text: string, lines: seq<Message>) {
    lines != [] &&
    var m, init := lines[|lines| - 1], lines[..|lines| - 1];
    && !m.system && m.sender == sender && AuthOf(m) == auth && days(m.ts) == text
    && (init != [] ==> m.ts - init[|init| - 1].ts < GROUP_WINDOW && Together(days, sender, auth, text, init))
  }

  ghost predicate ItemOk(days: Labels, item: Item) {
    match item
    case Day(_) => true
    case System(m) => m.system
    case Group(sender, ts, last, lines, auth) =>
      Together(days, sender, auth, days(ts), lines) && ts == lines[0].ts && last == lines[|lines| - 1].ts
  }

  /** The label an item begins with, and the one it ends with: an item other than a divider has one day. */
  function LabelOf(days: Labels, item: Item): (l: string) {
    match item
    case Day(l) => l
    case System(m) => days(m.ts)
    case Group(_, ts, _, _, _) => days(ts)
  }

  /** What may follow what: a divider exactly where the day changes, and no two groups that belong together. */
  ghost predicate FollowsOk(days: Labels, a: Item, b: Item) {
    && (b.Day? ==> !a.Day? && b.text != LabelOf(days, a))
    && (!b.Day? ==> LabelOf(days, b) == LabelOf(days, a))
    && (a.Group? && b.Group? && b.lines != [] ==> !Joins(a, b.lines[0]))
  }

  /** What a fold may look like so far: it opens with a divider, and each item is right and rightly placed. */
  ghost predicate Prefix(days: Labels, out: seq<Item>) {
    out == [] ||
    var item, init := out[|out| - 1], out[..|out| - 1];
    Prefix(days, init) && ItemOk(days, item) && if init == [] then item.Day? else FollowsOk(days, init[|init| - 1], item)
  }

  /** A whole fold does not end in a divider. */
  ghost predicate Canonical(days: Labels, out: seq<Item>) { Prefix(days, out) && (out != [] ==> !out[|out| - 1].Day?) }

  /** What the form says of every item and every two neighbours. */
  lemma {:induction false} PrefixMeans(days: Labels, out: seq<Item>, i: nat)
    requires Prefix(days, out) && i < |out|
    ensures ItemOk(days, out[i]) && if i == 0 then out[i].Day? else FollowsOk(days, out[i - 1], out[i])
  {
    if i < |out| - 1 { PrefixMeans(days, out[..|out| - 1], i); }
  }

  lemma {:induction false} TogetherMeans(days: Labels, sender: User, auth: string, text: string, lines: seq<Message>, k: nat)
    requires Together(days, sender, auth, text, lines) && k < |lines|
    ensures !lines[k].system && lines[k].sender == sender && days(lines[k].ts) == text
    ensures auth == if lines[k].auth.Some? then lines[k].auth.value else "signed"
    ensures k > 0 ==> lines[k].ts - lines[k - 1].ts < 300_000
  {
    if k < |lines| - 1 { TogetherMeans(days, sender, auth, text, lines[..|lines| - 1], k); }
  }

  /** What a group's header vouches for, line by line: its sender, its evidence, with none meaning signed, its day, and gaps under five minutes. */
  lemma {:induction false} HeaderVouches(days: Labels, ms: seq<Message>, i: nat, k: nat)
    requires i < |FoldOf(days, ms)| && FoldOf(days, ms)[i].Group? && k < |FoldOf(days, ms)[i].lines|
    ensures var g := FoldOf(days, ms)[i];
            var line := g.lines[k];
            && !line.system && line.sender == g.sender && days(line.ts) == days(g.ts)
            && g.auth == (if line.auth.Some? then line.auth.value else "signed")
            && (k > 0 ==> line.ts - g.lines[k - 1].ts < 300_000)
  {
    FoldIsCanonical(days, ms);
    PrefixMeans(days, FoldOf(days, ms), i);
    var g := FoldOf(days, ms)[i];
    TogetherMeans(days, g.sender, g.auth, days(g.ts), g.lines, k);
  }

  // -------------------------------------------------------------------------- building one

  lemma {:induction false} FlattenSnoc(out: seq<Item>, item: Item)
    ensures Flatten(out + [item]) == Flatten(out) + Lines(item)
  {
    assert (out + [item])[..|out|] == out;
  }

  lemma {:induction false} PrefixSnoc(days: Labels, out: seq<Item>, item: Item)
    ensures Prefix(days, out + [item]) <==>
            Prefix(days, out) && ItemOk(days, item) && if out == [] then item.Day? else FollowsOk(days, out[|out| - 1], item)
  {
    assert (out + [item])[..|out|] == out;
  }

  lemma {:induction false} ExtendedOk(days: Labels, g: Item, m: Message)
    requires ItemOk(days, g) && Joins(g, m) && !m.system && days(m.ts) == LabelOf(days, g)
    ensures ItemOk(days, Extended(g, m))
  {
    assert (g.lines + [m])[..|g.lines|] == g.lines;
  }

  /** The label of the last message is the label of the last item. */
  function LastDay(days: Labels, out: seq<Item>): (day: Option<string>) {
    if out == [] then None else Some(LabelOf(days, out[|out| - 1]))
  }

  lemma {:induction false} LastDayIsLastMessage(days: Labels, out: seq<Item>)
    requires Canonical(days, out)
    ensures LastDay(days, out) == DayBefore(days, Flatten(out))
  {
    if out != [] {
      var item := out[|out| - 1];
      assert Flatten(out) == Flatten(out[..|out| - 1]) + Lines(item);
    }
  }

  /** The divider, if the day changed. */
  function WithDay(days: Labels, out: seq<Item>, m: Message): (r: seq<Item>) {
    if LastDay(days, out) == Some(days(m.ts)) then out else out + [Day(days(m.ts))]
  }

  lemma {:induction false} WithDayOk(days: Labels, out: seq<Item>, m: Message)
    requires Canonical(days, out)
    ensures var r := WithDay(days, out, m);
            && Prefix(days, r) && r != [] && LabelOf(days, r[|r| - 1]) == days(m.ts) && Flatten(r) == Flatten(out)
            && (r[|r| - 1].Group? ==> r == out)
  {
    if LastDay(days, out) != Some(days(m.ts)) {
      PrefixSnoc(days, out, Day(days(m.ts)));
      FlattenSnoc(out, Day(days(m.ts)));
    }
  }

  /** Replacing the last item by one that begins the same way. */
  lemma {:induction false} Swap(days: Labels, r: seq<Item>, g: Item)
    requires r != [] && Prefix(days, r) && ItemOk(days, g) && g.Group? && r[|r| - 1].Group?
    requires g.lines[0] == r[|r| - 1].lines[0] && g.ts == r[|r| - 1].ts
    ensures Prefix(days, r[|r| - 1 := g]) && Flatten(r[|r| - 1 := g]) == Flatten(r[..|r| - 1]) + g.lines
  {
    var n := |r| - 1;
    assert r[n := g] == r[..n] + [g];
    PrefixSnoc(days, r[..n], g);
    FlattenSnoc(r[..n], g);
  }

  lemma {:induction false} JoinOk(days: Labels, r: seq<Item>, m: Message)
    requires r != [] && Prefix(days, r) && Joins(r[|r| - 1], m) && !m.system && days(m.ts) == LabelOf(days, r[|r| - 1])
    ensures var r' := r[|r| - 1 := Extended(r[|r| - 1], m)]; Prefix(days, r') && Flatten(r') == Flatten(r) + [m]
  {
    var g := r[|r| - 1];
    ExtendedOk(days, g, m);
    Swap(days, r, Extended(g, m));
    assert Flatten(r[..|r| - 1]) + (g.lines + [m]) == Flatten(r[..|r| - 1]) + g.lines + [m];
  }

  lemma {:induction false} StartOk(days: Labels, r: seq<Item>, m: Message)
    requires r != [] && Prefix(days, r) && !Joins(r[|r| - 1], m) && !m.system && days(m.ts) == LabelOf(days, r[|r| - 1])
    ensures Prefix(days, r + [Started(m)]) && Flatten(r + [Started(m)]) == Flatten(r) + [m]
  {
    PrefixSnoc(days, r, Started(m));
    FlattenSnoc(r, Started(m));
  }

  lemma {:induction false} SystemOk(days: Labels, r: seq<Item>, m: Message)
    requires r != [] && Prefix(days, r) && m.system && days(m.ts) == LabelOf(days, r[|r| - 1])
    ensures Prefix(days, r + [System(m)]) && Flatten(r + [System(m)]) == Flatten(r) + [m]
  {
    PrefixSnoc(days, r, System(m));
    FlattenSnoc(r, System(m));
  }

  lemma {:induction false} PlaceOk(days: Labels, r: seq<Item>, m: Message)
    requires r != [] && Prefix(days, r) && days(m.ts) == LabelOf(days, r[|r| - 1])
    ensures Canonical(days, Place(r, m)) && Flatten(Place(r, m)) == Flatten(r) + [m]
  {
    if m.system {
      SystemOk(days, r, m);
    } else if Joins(r[|r| - 1], m) {
      JoinOk(days, r, m);
    } else {
      StartOk(days, r, m);
    }
  }

  /** One step keeps the form, adds just the one message, and nothing else. */
  lemma {:induction false} PushOk(days: Labels, out: seq<Item>, m: Message)
    requires Canonical(days, out)
    ensures Canonical(days, Push(days, out, LastDay(days, out), m))
    ensures Flatten(Push(days, out, LastDay(days, out), m)) == Flatten(out) + [m]
  {
    WithDayOk(days, out, m);
    PlaceOk(days, WithDay(days, out, m), m);
  }

  /** `out` is a canonical list of exactly these messages. */
  ghost predicate FoldsTo(days: Labels, ms: seq<Message>, out: seq<Item>) { Flatten(out) == ms && Canonical(days, out) }

  lemma {:induction false} FoldStep(days: Labels, out: seq<Item>, ms: seq<Message>, m: Message)
    requires FoldsTo(days, ms, out)
    ensures FoldsTo(days, ms + [m], Push(days, out, DayBefore(days, ms), m))
  {
    LastDayIsLastMessage(days, out);
    PushOk(days, out, m);
  }

  /** Whatever every step keeps holds of the whole. */
  lemma {:induction false} FoldInduction(days: Labels, holds: (seq<Message>, seq<Item>) -> bool, ms: seq<Message>)
    requires holds([], [])
    requires forall xs, out, m :: holds(xs, out) ==> holds(xs + [m], Push(days, out, DayBefore(days, xs), m))
    ensures holds(ms, FoldOf(days, ms))
  {
    if ms != [] {
      var init, m := ms[..|ms| - 1], ms[|ms| - 1];
      FoldInduction(days, holds, init);
      FoldSnoc(days, init, m);
      assert ms == init + [m];
    }
  }

  /**
   Folding is lossless and keeps the form: flattened it is the messages in order, every group has
   one sender, one kind of evidence and one day with no long gap, no two neighbouring groups belong
   together, and a divider stands exactly where the day changes.
   */
  lemma {:induction false} FoldIsCanonical(days: Labels, ms: seq<Message>)
    ensures FoldsTo(days, ms, FoldOf(days, ms))
  {
    forall xs, out, m | FoldsTo(days, xs, out) ensures FoldsTo(days, xs + [m], Push(days, out, DayBefore(days, xs), m)) {
      FoldStep(days, out, xs, m);
    }
    FoldInduction(days, (xs, out) => FoldsTo(days, xs, out), ms);
  }

  // ------------------------------------------------------------------------- only one

  /** What is left of a list when a fresh last item is taken off, with its divider if it has one. */
  function Popped(out: seq<Item>): (base: seq<Item>)
    requires out != []
  {
    if |out| >= 2 && out[|out| - 2].Day? then out[..|out| - 2] else out[..|out| - 1]
  }

  lemma {:induction false} PopDay(days: Labels, out: seq<Item>, item: Item)
    requires Canonical(days, out + [item])
    ensures var base := Popped(out + [item]);
            && Canonical(days, base) && Flatten(out) == Flatten(base)
            && out == base + (if LastDay(days, base) == Some(LabelOf(days, item)) then [] else [Day(LabelOf(days, item))])
  {
    PrefixSnoc(days, out, item);
    var n := |out| - 1;
    if out[n].Day? {
      assert (out + [item])[..n] == out[..n];
      assert out == out[..n] + [out[n]];
      PrefixSnoc(days, out[..n], out[n]);
      FlattenSnoc(out[..n], out[n]);
    } else {
      assert (out + [item])[..n + 1] == out;
    }
  }

  lemma {:induction false} PopFresh(days: Labels, out: seq<Item>, m: Message)
    requires Canonical(days, out) && out != []
    requires out[|out| - 1] == System(m) || (!m.system && out[|out| - 1] == Started(m))
    ensures var base := Popped(out);
            Canonical(days, base) && out == Push(days, base, LastDay(days, base), m) && Flatten(out) == Flatten(base) + [m]
  {
    var n := |out| - 1;
    assert out == out[..n] + [out[n]];
    PopDay(days, out[..n], out[n]);
    PrefixSnoc(days, out[..n], out[n]);
    FlattenSnoc(out[..n], out[n]);
  }

  function Shortened(g: Item): (r: Item)
    requires g.Group? && |g.lines| >= 2
  {
    g.(lines := g.lines[..|g.lines| - 1], last := g.lines[|g.lines| - 2].ts)
  }

  lemma {:induction false} ShortenedOk(days: Labels, g: Item)
    requires ItemOk(days, g) && g.Group? && |g.lines| >= 2
    ensures var m := g.lines[|g.lines| - 1];
            && ItemOk(days, Shortened(g)) && Joins(Shortened(g), m) && Extended(Shortened(g), m) == g
            && days(m.ts) == LabelOf(days, g) && !m.system
  {
    var n := |g.lines|;
    assert g.lines == g.lines[..n - 1] + [g.lines[n - 1]];
    TogetherOneDay(days, g.sender, g.auth, days(g.ts), g.lines[..n - 1]);
  }

  lemma {:induction false} TogetherOneDay(days: Labels, sender: User, auth: string, text: string, lines: seq<Message>)
    requires Together(days, sender, auth, text, lines)
    ensures forall i :: 0 <= i < |lines| ==> lines[i].sender == sender && AuthOf(lines[i]) == auth && days(lines[i].ts) == text
  {
    if |lines| > 1 { TogetherOneDay(days, sender, auth, text, lines[..|lines| - 1]); }
  }

  /** Taking a line off the last group. */
  lemma {:induction false} PopLine(days: Labels, out: seq<Item>)
    requires Canonical(days, out) && out != [] && out[|out| - 1].Group? && |out[|out| - 1].lines| >= 2
    ensures var g := out[|out| - 1];
            var base, m := out[|out| - 1 := Shortened(g)], g.lines[|g.lines| - 1];
            Canonical(days, base) && out == Push(days, base, LastDay(days, base), m) && Flatten(out) == Flatten(base) + [m]
  {
    var n := |out| - 1;
    var g := out[n];
    ShortenedOk(days, g);
    var base, m := out[n := Shortened(g)], g.lines[|g.lines| - 1];
    assert Prefix(days, base) by { Swap(days, out, Shortened(g)); }
    assert base[n := g] == out;
    assert Flatten(out) == Flatten(base) + [m] by { JoinOk(days, base, m); }
  }

  /**
   The form leaves no choice: a canonical list is the fold of its own messages, so two of them
   with the same messages are equal.
   */
  lemma {:induction false} CanonicalIsFold(days: Labels, out: seq<Item>)
    requires Canonical(days, out)
    ensures out == FoldOf(days, Flatten(out))
    decreases |Flatten(out)|
  {
    if out != [] {
      var item := out[|out| - 1];
      var base, m;
      if item.Group? && |item.lines| >= 2 {
        PopLine(days, out);
        base, m := out[|out| - 1 := Shortened(item)], item.lines[|item.lines| - 1];
      } else {
        m := Lines(item)[0];
        PopFresh(days, out, m);
        base := Popped(out);
      }
      CanonicalIsFold(days, base);
      LastDayIsLastMessage(days, base);
      assert Flatten(out)[..|Flatten(out)| - 1] == Flatten(base);
    }
  }
}
