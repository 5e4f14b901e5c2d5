/**
 Several devices of one account keeping its circles in one versioned blob: the relay's
 compare-and-swap (relay/src/store.rs) and the client's upload, retry and load
 (client/src/lib/controller.js), every request and answer a step of its own.
 */
module Backup {
  import opened Common
  import opened Circles

  /** The blob the relay parks for the account; version 0 is no blob. */
  datatype Parked = Parked(version: nat, circles: map<Id, Circle>)

  /** `set_backup`: the write lands only over the version its writer last saw. */
  function SetBackup(p: Parked, expected: nat, circles: map<Id, Circle>): (r: (Parked, Result<nat>)) {
    if p.version != expected then (p, Err(BackupConflict))
    else (Parked(p.version + 1, circles), Ok(p.version + 1))
  }

  /** `mergeBackups` on what the lists hold under each id. */
  function MergeMaps(mine: map<Id, Circle>, theirs: map<Id, Circle>): (r: map<Id, Circle>) { theirs + mine }

  lemma {:induction false} MergeMapsIsMerge(mine: seq<Circle>, theirs: seq<Circle>)
    ensures Merged(mine, theirs).values == MergeMaps(SetAll(EMPTY, mine).values, SetAll(EMPTY, theirs).values)
  {
    SetAllIsLay(SetAll(EMPTY, theirs), mine);
  }

  /** A write request. `over` is not sent: it is the blob its writer had last seen when it was sent. */
  datatype Write = Write(sent: map<Id, Circle>, at: nat, over: map<Id, Circle>)

  /**
   How far an upload has come: the circles are sealed, and only then is the version read and the
   write sent. `Landed`, `Refused` and `Read` are answers on their way back.
   */
  datatype Task =
    | Idle
    | Sealing(sealed: map<Id, Circle>, retry: bool)
    | Writing(write: Write, retry: bool)
    | Landed(sent: map<Id, Circle>, version: nat, retry: bool)
    | Refused(sent: map<Id, Circle>)
    | Reading(mine: map<Id, Circle>)
    | Read(mine: map<Id, Circle>, parked: Parked)

  /**
   A device: one upload at a time, and any number of loads beside it, each unanswered or answered with
   a blob. The last two are not fields of the client: `seen` is the blob it last read or wrote, and
   `behind` records that an upload's retry took over a blob's version and not yet its circles.
   */
  datatype Device = Device(
    circles: map<Id, Circle>, version: nat, loaded: bool, task: Task, loads: map<nat, Option<Parked>>,
    seen: map<Id, Circle>, behind: bool)

  const NEW_DEVICE := Device(map[], 0, false, Idle, map[], map[], false)

  /** `wire` holds writes their devices gave up on, which may still land; `left` every circle some device has left. */
  datatype World = World(parked: Parked, devices: map<nat, Device>, wire: set<Write>, left: set<Id>)

  const START := World(Parked(0, map[]), map[], {}, {})

  function Dev(w: World, d: nat): (r: Device) { if d in w.devices then w.devices[d] else NEW_DEVICE }

  function Put(w: World, d: nat, x: Device): (r: World) { w.(devices := w.devices[d := x]) }

  datatype Step =
    | Join(d: nat, circle: Circle)
    | Leave(d: nat, id: Id)
    | Seal(d: nat)
    | Send(d: nat)
    | Serve(d: nat)
    | Receive(d: nat)
    | Fail(d: nat)
    | Load(d: nat, load: nat)
    | ServeLoad(d: nat, load: nat)
    | ReceiveLoad(d: nat, load: nat)
    | FailLoad(d: nat, load: nat)
    | LateArrival(write: Write)
    | NeverArrives(write: Write)

  /** The write is sent at the version, and over the blob, the device knows of by now. */
  function SendSealed(x: Device): (r: Device) {
    if x.task.Sealing? then x.(task := Writing(Write(x.task.sealed, x.version, x.seen), x.task.retry)) else x
  }

  /** The relay handles the upload's request. Once a retry is handled the version it took over is out of date. */
  function ServeTask(w: World, d: nat): (r: World) {
    var x := Dev(w, d);
    match x.task
    case Writing(write, retry) =>
      var (p, out) := SetBackup(w.parked, write.at, write.sent);
      var task := if out.Ok? then Landed(write.sent, out.value, retry) else if retry then Idle else Refused(write.sent);
      Put(w.(parked := p), d, x.(task := task, behind := x.behind && !retry))
    case Reading(mine) => Put(w, d, x.(task := Read(mine, w.parked)))
    case _ => w
  }

  /** The answer reaches the upload. Adopting keeps the device's own copy of a circle it has. */
  function ReceiveAnswer(x: Device): (r: Device) {
    match x.task
    case Landed(sent, version, retry) =>
      x.(version := version, seen := sent, task := Idle, circles := if retry then sent + x.circles else x.circles, behind := false)
    case Refused(sent) => x.(task := Reading(sent))
    case Read(mine, parked) =>
      x.(version := parked.version, seen := parked.circles, task := Sealing(MergeMaps(mine, parked.circles), true), behind := true)
    case _ => x
  }

  /** `readCircles`, which waits for no upload: the version and the circles are taken over together. */
  function Adopt(x: Device, load: nat): (r: Device) {
    if load !in x.loads || x.loads[load].None? then x
    else
      var parked := x.loads[load].value;
      x.(version := parked.version, seen := parked.circles, loaded := true, circles := parked.circles + x.circles,
         loads := x.loads - {load}, behind := false)
  }

  /** The request failed, timed out, or its answer was lost: the upload is given up, and its write may be on its way still. */
  function GiveUp(w: World, d: nat): (r: World) {
    var x := Dev(w, d);
    var w' := Put(w, d, x.(task := Idle));
    if x.task.Writing? then w'.(wire := w.wire + {x.task.write}) else w'
  }

  /** What a device does by itself, or on an answer. */
  function Own(p: Parked, x: Device, step: Step): (r: Device) {
    match step
    case Join(d, circle) => if circle.id == "" then x else x.(circles := x.circles[circle.id := circle])
    case Seal(d) => if x.loaded && x.task.Idle? then x.(task := Sealing(x.circles, false)) else x
    case Send(d) => SendSealed(x)
    case Receive(d) => ReceiveAnswer(x)
    case Load(d, load) => if load in x.loads then x else x.(loads := x.loads[load := None])
    case ServeLoad(d, load) => if load in x.loads && x.loads[load].None? then x.(loads := x.loads[load := Some(p)]) else x
    case ReceiveLoad(d, load) => Adopt(x, load)
    case FailLoad(d, load) => x.(loads := x.loads - {load})
    case _ => x
  }

  function Next(w: World, step: Step): (r: World) {
    match step
    case Leave(d, id) => Put(w.(left := w.left + {id}), d, Dev(w, d).(circles := Dev(w, d).circles - {id}))
    case Serve(d) => ServeTask(w, d)
    case Fail(d) => GiveUp(w, d)
    case LateArrival(write) =>
      if write in w.wire then w.(parked := SetBackup(w.parked, write.at, write.sent).0, wire := w.wire - {write}) else w
    case NeverArrives(write) => w.(wire := w.wire - {write})
    case _ => Put(w, step.d, Own(w.parked, Dev(w, step.d), step))
  }

  function Run(w: World, steps: seq<Step>): (r: World) {
    if steps == [] then w else Next(Run(w, steps[..|steps| - 1]), steps[|steps| - 1])
  }

  // ------------------------------------------------------------ writes and what was seen

  /** A write's base: the blob its version names, unless that is out of date. */
  ghost predicate BasedOn(p: Parked, version: nat, blob: map<Id, Circle>) {
    version <= p.version && (version == p.version ==> blob == p.circles)
  }

  ghost predicate DeviceSeen(p: Parked, x: Device) {
    && BasedOn(p, x.version, x.seen)
    && (forall load :: load in x.loads && x.loads[load].Some? ==>
          BasedOn(p, x.loads[load].value.version, x.loads[load].value.circles))
    && match x.task
       case Writing(write, retry) => BasedOn(p, write.at, write.over)
       case Landed(sent, version, retry) => BasedOn(p, version, sent)
       case Read(mine, parked) => BasedOn(p, parked.version, parked.circles)
       case _ => true
  }

  ghost predicate Seen(w: World) {
    && (w.parked.version == 0 ==> w.parked.circles == map[])
    && (forall d :: d in w.devices ==> DeviceSeen(w.parked, w.devices[d]))
    && (forall write :: write in w.wire ==> BasedOn(w.parked, write.at, write.over))
  }

  lemma {:induction false} SeenPut(w: World, p': Parked, d: nat, x: Device, wire': set<Write>, left': set<Id>)
    requires Seen(w) && (p' == w.parked || p'.version > w.parked.version) && DeviceSeen(p', x)
    requires forall write :: write in wire' ==> BasedOn(p', write.at, write.over)
    ensures Seen(World(p', w.devices[d := x], wire', left'))
  {
  }

  lemma {:induction false} SeenServed(p: Parked, x: Device, write: Write, task: Task)
    requires DeviceSeen(p, x) && x.task.Writing? && x.task.write == write
    requires var out := SetBackup(p, write.at, write.sent).1;
             task == Idle || task.Refused? || (out.Ok? && task.Landed? && task.sent == write.sent && task.version == out.value)
    ensures forall behind :: DeviceSeen(SetBackup(p, write.at, write.sent).0, x.(task := task, behind := behind))
  {
  }

  lemma {:induction false} SeenServe(w: World, d: nat)
    requires Seen(w)
    ensures Seen(ServeTask(w, d))
  {
    var x := Dev(w, d);
    match x.task
    case Writing(write, retry) =>
      var w' := ServeTask(w, d);
      SeenServed(w.parked, x, write, w'.devices[d].task);
      SeenPut(w, w'.parked, d, w'.devices[d], w.wire, w.left);
    case Reading(mine) => SeenPut(w, w.parked, d, x.(task := Read(mine, w.parked)), w.wire, w.left);
    case _ =>
  }

  lemma {:induction false} OwnSeen(p: Parked, x: Device, step: Step)
    requires DeviceSeen(p, x)
    ensures DeviceSeen(p, Own(p, x, step))
  {
  }

  lemma {:induction false} SeenStep(w: World, step: Step)
    requires Seen(w)
    ensures Seen(Next(w, step))
  {
    match step
    case Serve(d) => SeenServe(w, d);
    case LateArrival(write) =>
    case NeverArrives(write) =>
    case Leave(d, id) => SeenPut(w, w.parked, d, Next(w, step).devices[d], w.wire, w.left + {id});
    case Fail(d) => SeenPut(w, w.parked, d, Next(w, step).devices[d], Next(w, step).wire, w.left);
    case _ =>
      OwnSeen(w.parked, Dev(w, step.d), step);
      SeenPut(w, w.parked, step.d, Own(w.parked, Dev(w, step.d), step), w.wire, w.left);
  }

  lemma {:induction false} SeenRun(steps: seq<Step>)
    ensures Seen(Run(START, steps))
  {
    if steps != [] {
      SeenRun(steps[..|steps| - 1]);
      SeenStep(Run(START, steps[..|steps| - 1]), steps[|steps| - 1]);
    }
  }

  /** The writes that may land: a device's own, and those given up on. */
  predicate UnderWay(w: World, write: Write) {
    write in w.wire || exists d :: d in w.devices && w.devices[d].task.Writing? && w.devices[d].task.write == write
  }

  /**
   In every run a write lands only over the blob its writer had last read or written when it was sent:
   the version rises by one, and what goes is exactly what was seen.
   */
  lemma {:induction false} WritesReplaceWhatWasSeen(steps: seq<Step>, step: Step)
    ensures var w := Run(START, steps); var p' := Next(w, step).parked;
            p' != w.parked ==>
            exists write :: UnderWay(w, write) && w.parked == Parked(write.at, write.over) && p' == Parked(write.at + 1, write.sent)
  {
    var w := Run(START, steps);
    SeenRun(steps);
    if Next(w, step).parked != w.parked {
      var write;
      if step.LateArrival? {
        write := step.write;
      } else {
        assert step.Serve? && step.d in w.devices && DeviceSeen(w.parked, w.devices[step.d]);
        write := Dev(w, step.d).task.write;
      }
      assert UnderWay(w, write) && w.parked == Parked(write.at, write.over);
    }
  }

  // ---------------------------------------------------------------------- the invariant

  /**
   No device seals between a failed retry and its next load, and none takes over a load while an upload
   of its own is sealed and not yet sent.
   */
  predicate CarefulStep(w: World, step: Step) {
    && (step.Seal? ==> !Dev(w, step.d).behind)
    && (step.ReceiveLoad? ==> !Dev(w, step.d).task.Sealing?)
  }

  predicate Careful(w: World, steps: seq<Step>) {
    steps == [] || (Careful(w, steps[..|steps| - 1]) && CarefulStep(Run(w, steps[..|steps| - 1]), steps[|steps| - 1]))
  }

  /** `held` accounts for the parked circles unless its version is out of date. */
  ghost predicate Accounts(p: Parked, left: set<Id>, version: nat, held: set<Id>) {
    version <= p.version && (version == p.version ==> p.circles.Keys <= held + left)
  }

  ghost predicate WriteOk(p: Parked, left: set<Id>, write: Write) { Accounts(p, left, write.at, write.sent.Keys) }

  ghost predicate TaskOk(p: Parked, left: set<Id>, x: Device) {
    match x.task
    case Idle => true
    case Sealing(sealed, retry) =>
      Accounts(p, left, x.version, sealed.Keys) && (!retry ==> sealed.Keys <= x.circles.Keys + left)
    case Writing(write, retry) => WriteOk(p, left, write) && (!retry ==> write.sent.Keys <= x.circles.Keys + left)
    case Landed(sent, version, retry) =>
      Accounts(p, left, version, sent.Keys) && (!retry ==> sent.Keys <= x.circles.Keys + left)
    case Refused(sent) => true
    case Reading(mine) => true
    case Read(mine, parked) => Accounts(p, left, parked.version, parked.circles.Keys)
  }

  ghost predicate DeviceOk(p: Parked, left: set<Id>, x: Device) {
    && TaskOk(p, left, x)
    && (x.behind && x.task.Writing? && x.task.retry ==> x.task.write.at == x.version)
    && (forall load :: load in x.loads && x.loads[load].Some? ==>
          Accounts(p, left, x.loads[load].value.version, x.loads[load].value.circles.Keys))
    && x.version <= p.version
    && (x.loaded && !x.behind ==> Accounts(p, left, x.version, x.circles.Keys))
  }

  ghost predicate Inv(w: World) {
    && (forall d :: d in w.devices ==> DeviceOk(w.parked, w.left, w.devices[d]))
    && (forall write :: write in w.wire ==> WriteOk(w.parked, w.left, write))
  }

  /** What others do — writing a newer blob, leaving circles — never spoils a device's account. */
  lemma {:induction false} OthersOk(p: Parked, left: set<Id>, p': Parked, left': set<Id>, x: Device)
    requires DeviceOk(p, left, x) && left <= left' && (p' == p || p'.version > p.version)
    ensures DeviceOk(p', left', x)
  {
  }

  /** A write that lands accounts for the blob it replaces. */
  lemma {:induction false} ServeOk(p: Parked, left: set<Id>, x: Device)
    requires DeviceOk(p, left, x) && x.task.Writing?
    ensures var write, retry := x.task.write, x.task.retry;
            var (p', out) := SetBackup(p, write.at, write.sent);
            && (forall id :: id in p.circles && id !in left ==> id in p'.circles)
            && (out.Ok? ==> DeviceOk(p', left, x.(task := Landed(write.sent, out.value, retry), behind := x.behind && !retry)))
            && (out.Err? && !retry ==> DeviceOk(p', left, x.(task := Refused(write.sent))))
            && (out.Err? && retry ==> DeviceOk(p', left, x.(task := Idle, behind := false)))
  {
  }

  lemma {:induction false} ReceiveOk(p: Parked, left: set<Id>, x: Device)
    requires DeviceOk(p, left, x)
    ensures DeviceOk(p, left, ReceiveAnswer(x))
  {
  }

  lemma {:induction false} AdoptOk(p: Parked, left: set<Id>, x: Device, load: nat)
    requires DeviceOk(p, left, x) && !x.task.Sealing?
    ensures DeviceOk(p, left, Adopt(x, load))
  {
  }

  /** Unless it seals while behind, or takes over a load while sealed, a device keeps its account of the blob. */
  lemma {:induction false} OwnOk(p: Parked, left: set<Id>, x: Device, step: Step)
    requires DeviceOk(p, left, x) && (step.Seal? ==> !x.behind) && (step.ReceiveLoad? ==> !x.task.Sealing?)
    ensures DeviceOk(p, left, Own(p, x, step))
  {
    match step
    case Receive(d) => ReceiveOk(p, left, x);
    case ReceiveLoad(d, load) => AdoptOk(p, left, x, load);
    case _ =>
  }

  lemma {:induction false} PutOk(w: World, p': Parked, left': set<Id>, d: nat, x: Device, wire': set<Write>)
    requires Inv(w) && w.left <= left' && (p' == w.parked || p'.version > w.parked.version)
    requires DeviceOk(p', left', x) && forall write :: write in wire' && write !in w.wire ==> WriteOk(p', left', write)
    ensures Inv(World(p', w.devices[d := x], wire', left'))
  {
    forall e | e in w.devices ensures DeviceOk(p', left', w.devices[e]) {
      OthersOk(w.parked, w.left, p', left', w.devices[e]);
    }
  }

  ghost predicate Keeps(w: World, w': World) {
    w.left <= w'.left && forall id :: id in w.parked.circles && id !in w'.left ==> id in w'.parked.circles
  }

  lemma {:induction false} ServeKeeps(w: World, d: nat)
    requires Inv(w)
    ensures Inv(ServeTask(w, d)) && Keeps(w, ServeTask(w, d))
  {
    var x := Dev(w, d);
    match x.task
    case Writing(write, retry) =>
      ServeOk(w.parked, w.left, x);
      PutOk(w, ServeTask(w, d).parked, w.left, d, ServeTask(w, d).devices[d], w.wire);
    case Reading(mine) => PutOk(w, w.parked, w.left, d, x.(task := Read(mine, w.parked)), w.wire);
    case _ =>
  }

  lemma {:induction false} LateKeeps(w: World, write: Write)
    requires Inv(w) && write in w.wire
    ensures var p' := SetBackup(w.parked, write.at, write.sent).0;
            var w' := w.(parked := p', wire := w.wire - {write}); Inv(w') && Keeps(w, w')
  {
    var p' := SetBackup(w.parked, write.at, write.sent).0;
    forall e | e in w.devices ensures DeviceOk(p', w.left, w.devices[e]) {
      OthersOk(w.parked, w.left, p', w.left, w.devices[e]);
    }
  }

  /** Every step keeps the invariant, and every parked circle nobody has left. */
  lemma {:induction false} NextKeeps(w: World, step: Step)
    requires Inv(w) && CarefulStep(w, step)
    ensures Inv(Next(w, step)) && Keeps(w, Next(w, step))
  {
    match step
    case Leave(d, id) =>
      OthersOk(w.parked, w.left, w.parked, w.left + {id}, Dev(w, d));
      PutOk(w, w.parked, w.left + {id}, d, Dev(w, d).(circles := Dev(w, d).circles - {id}), w.wire);
    case Serve(d) => ServeKeeps(w, d);
    case Fail(d) => PutOk(w, w.parked, w.left, d, Dev(w, d).(task := Idle), Next(w, step).wire);
    case LateArrival(write) => if write in w.wire { LateKeeps(w, write); }
    case NeverArrives(write) =>
    case _ =>
      OwnOk(w.parked, w.left, Dev(w, step.d), step);
      PutOk(w, w.parked, w.left, step.d, Own(w.parked, Dev(w, step.d), step), w.wire);
  }

  lemma {:induction false} RunInv(steps: seq<Step>)
    requires Careful(START, steps)
    ensures Inv(Run(START, steps))
  {
    if steps != [] {
      RunInv(steps[..|steps| - 1]);
      NextKeeps(Run(START, steps[..|steps| - 1]), steps[|steps| - 1]);
    }
  }

  /**
   No circle is lost between devices: one parked at any moment of a careful run is parked at
   every later moment, unless some device left it — whichever uploads and loads crossed, were refused,
   retried, lost with their answers, or landed after their device had given up on them.
   */
  lemma {:induction false} NoCircleLost(steps: seq<Step>, k: nat, id: Id)
    requires Careful(START, steps) && k <= |steps|
    requires id in Run(START, steps[..k]).parked.circles && id !in Run(START, steps).left
    ensures id in Run(START, steps).parked.circles
    decreases |steps|
  {
    if k == |steps| {
      assert steps[..k] == steps;
    } else {
      var init := steps[..|steps| - 1];
      assert init[..k] == steps[..k];
      RunInv(init);
      NextKeeps(Run(START, init), steps[|steps| - 1]);
      NoCircleLost(init, k, id);
    }
  }

  // ---------------------------------------------------------------- when one is lost

  /**
   Exactly when a sealed upload or retry, in whatever run, keeps every parked circle nobody has left: its
   version is out of date by the time it is sent, so that it is refused, or what was sealed has all of the
   blob the device has seen by then that nobody has left.
   */
  lemma {:induction false} UploadKeepsExactly(steps: seq<Step>, d: nat)
    requires Dev(Run(START, steps), d).task.Sealing?
    ensures var w := Run(START, steps); var x := Dev(w, d);
            Keeps(w, Next(Next(w, Send(d)), Serve(d))) <==> x.version != w.parked.version || x.seen.Keys <= x.task.sealed.Keys + w.left
  {
    var w := Run(START, steps);
    SeenRun(steps);
    assert d in w.devices && DeviceSeen(w.parked, w.devices[d]);
    if Dev(w, d).version == w.parked.version {
      assert Next(Next(w, Send(d)), Serve(d)).parked.circles == Dev(w, d).task.sealed;
    }
  }

  lemma {:induction false} UploadOverwrites(w: World, d: nat)
    requires Dev(w, d).loaded && Dev(w, d).task.Idle? && Dev(w, d).version == w.parked.version
    ensures var w' := Next(Next(Next(w, Seal(d)), Send(d)), Serve(d)); w'.parked.circles == Dev(w, d).circles && w'.left == w.left
  {
    var w1 := Next(w, Seal(d));
    assert Dev(w1, d) == Dev(w, d).(task := Sealing(Dev(w, d).circles, false));
  }

  /** A device whose upload fails at the newest version, as a retry's does once it has taken that over: the next
      upload replaces the blob with what the device holds, and loses every circle it would have adopted. */
  lemma {:induction false} FailedRetryOverwrites(w: World, d: nat)
    requires Dev(w, d).loaded && !Dev(w, d).task.Idle? && Dev(w, d).version == w.parked.version
    ensures var w' := Next(Next(Next(Next(w, Fail(d)), Seal(d)), Send(d)), Serve(d));
            w'.parked.circles == Dev(w, d).circles && w'.left == w.left
  {
    var w1 := Next(w, Fail(d));
    assert Dev(w1, d) == Dev(w, d).(task := Idle);
    UploadOverwrites(w1, d);
  }

  /** A load answered while an upload is being sealed. */
  function Crossing(d: nat, load: nat): (steps: seq<Step>) {
    [] + [Seal(d)] + [Load(d, load)] + [ServeLoad(d, load)] + [ReceiveLoad(d, load)] + [Send(d)] + [Serve(d)]
  }

  lemma {:induction false} CrossingBegins(w: World, d: nat, load: nat)
    requires Dev(w, d).loaded && Dev(w, d).task.Idle? && load !in Dev(w, d).loads
    ensures var x, w' := Dev(w, d), Next(Next(Next(w, Seal(d)), Load(d, load)), ServeLoad(d, load));
            && w'.parked == w.parked && w'.left == w.left
            && Dev(w', d) == x.(task := Sealing(x.circles, false), loads := x.loads[load := Some(w.parked)])
  {
    var w1 := Next(w, Seal(d));
    assert Dev(w1, d) == Dev(w, d).(task := Sealing(Dev(w, d).circles, false));
  }

  lemma {:induction false} CrossingEnds(w: World, d: nat, load: nat)
    requires Dev(w, d).task.Sealing? && load in Dev(w, d).loads && Dev(w, d).loads[load] == Some(w.parked)
    ensures var w' := Next(Next(Next(w, ReceiveLoad(d, load)), Send(d)), Serve(d));
            w'.parked == Parked(w.parked.version + 1, Dev(w, d).task.sealed) && w'.left == w.left
  {
    var w1 := Next(w, ReceiveLoad(d, load));
    assert Dev(w1, d).task == Dev(w, d).task && Dev(w1, d).version == w.parked.version;
  }

  /**
   Whatever the state, a load that an upload is crossed by hands it the newest version: the upload replaces
   the blob by what the device held when it was sealed, and so loses exactly what that lacks.
   */
  lemma {:induction false} CrossedLoadOverwrites(w: World, d: nat, load: nat)
    requires Dev(w, d).loaded && Dev(w, d).task.Idle? && load !in Dev(w, d).loads
    ensures var w' := Run(w, Crossing(d, load));
            && w'.parked == Parked(w.parked.version + 1, Dev(w, d).circles) && w'.left == w.left
            && (Keeps(w, w') <==> w.parked.circles.Keys <= Dev(w, d).circles.Keys + w.left)
  {
    var one := [] + [Seal(d)] + [Load(d, load)] + [ServeLoad(d, load)];
    Snoc3(w, [], Seal(d), Load(d, load), ServeLoad(d, load));
    CrossingBegins(w, d, load);
    Snoc3(w, one, ReceiveLoad(d, load), Send(d), Serve(d));
    CrossingEnds(Run(w, one), d, load);
  }

  lemma {:induction false} Snoc(w: World, steps: seq<Step>, step: Step)
    ensures Run(w, steps + [step]) == Next(Run(w, steps), step)
  {
    assert (steps + [step])[..|steps|] == steps;
  }

  lemma {:induction false} Snoc3(w: World, steps: seq<Step>, a: Step, b: Step, c: Step)
    ensures Run(w, steps + [a] + [b] + [c]) == Next(Next(Next(Run(w, steps), a), b), c)
  {
    Snoc(w, steps, a);
    Snoc(w, steps + [a], b);
    Snoc(w, steps + [a] + [b], c);
  }

  /** A device that has loaded an empty account. */
  const READY := NEW_DEVICE.(loaded := true)

  /** Both devices load, and device 1 joins "a" and parks it. */
  function Setup(): (steps: seq<Step>) {
    [] + [Load(2, 0)] + [ServeLoad(2, 0)] + [ReceiveLoad(2, 0)] + [Load(1, 0)] + [ServeLoad(1, 0)] + [ReceiveLoad(1, 0)]
       + [Join(1, Circle("a", 0))] + [Seal(1)] + [Send(1)] + [Serve(1)]
  }

  lemma {:induction false} LoadsNothing(w: World, d: nat)
    requires w.parked == START.parked && Dev(w, d) == NEW_DEVICE
    ensures var w' := Next(Next(Next(w, Load(d, 0)), ServeLoad(d, 0)), ReceiveLoad(d, 0));
            w'.parked == w.parked && w'.left == w.left && w'.devices == w.devices[d := READY]
  {
    var w1 := Next(Next(w, Load(d, 0)), ServeLoad(d, 0));
    assert Dev(w1, d).loads == map[0 := Some(w.parked)];
    assert map[0 := Some(w.parked)] - {0} == map[];
  }

  lemma {:induction false} SetupState()
    ensures var w := Run(START, Setup());
            w.parked == Parked(1, map["a" := Circle("a", 0)]) && w.left == {} && Dev(w, 2) == READY
  {
    var one := [] + [Load(2, 0)] + [ServeLoad(2, 0)] + [ReceiveLoad(2, 0)];
    Snoc3(START, [], Load(2, 0), ServeLoad(2, 0), ReceiveLoad(2, 0));
    LoadsNothing(START, 2);
    var w1 := Run(START, one);
    Snoc3(START, one, Load(1, 0), ServeLoad(1, 0), ReceiveLoad(1, 0));
    LoadsNothing(w1, 1);
    var two := one + [Load(1, 0)] + [ServeLoad(1, 0)] + [ReceiveLoad(1, 0)];
    var w2 := Run(START, two);
    Snoc(START, two, Join(1, Circle("a", 0)));
    var w3 := Next(w2, Join(1, Circle("a", 0)));
    assert Dev(w3, 1) == READY.(circles := map["a" := Circle("a", 0)]) && w3.parked == START.parked && w3.left == {};
    assert Dev(w3, 2) == READY;
    Snoc3(START, two + [Join(1, Circle("a", 0))], Seal(1), Send(1), Serve(1));
    UploadOverwrites(w3, 1);
  }

  /** Device 2 joins another circle, uploads, is refused, re-reads, and its retry fails; it uploads again. */
  function LostRetry(): (steps: seq<Step>) {
    [] + [Join(2, Circle("bb", 0))] + [Seal(2)] + [Send(2)] + [Serve(2)] + [Receive(2)] + [Serve(2)] + [Receive(2)]
       + [Fail(2)] + [Seal(2)] + [Send(2)] + [Serve(2)]
  }

  /** Device 2 with one circle. */
  const HOLDER := READY.(circles := map["bb" := Circle("bb", 0)])

  lemma {:induction false} JoinsAnother(w: World)
    requires Dev(w, 2) == READY
    ensures var w' := Next(w, Join(2, Circle("bb", 0))); w'.parked == w.parked && w'.left == w.left && Dev(w', 2) == HOLDER
  {
  }

  lemma {:induction false} RefusedUpload(w: World)
    requires w.parked.version == 1 && Dev(w, 2) == HOLDER
    ensures var w' := Next(Next(Next(w, Seal(2)), Send(2)), Serve(2));
            w'.parked == w.parked && w'.left == w.left && Dev(w', 2) == HOLDER.(task := Refused(HOLDER.circles))
  {
    var w1 := Next(w, Seal(2));
    assert Dev(w1, 2) == HOLDER.(task := Sealing(HOLDER.circles, false));
  }

  lemma {:induction false} ReadAgain(w: World)
    requires Dev(w, 2) == HOLDER.(task := Refused(HOLDER.circles))
    ensures var w' := Next(Next(Next(w, Receive(2)), Serve(2)), Receive(2));
            && w'.parked == w.parked && w'.left == w.left && Dev(w', 2).task.Sealing?
            && Dev(w', 2).loaded && Dev(w', 2).circles == HOLDER.circles && Dev(w', 2).version == w.parked.version
  {
    var w1 := Next(w, Receive(2));
    assert Dev(w1, 2).task == Reading(HOLDER.circles);
  }

  lemma {:induction false} LostRetryState(w: World)
    requires w.parked.version == 1 && Dev(w, 2) == READY
    ensures var w' := Run(w, LostRetry()); w'.left == w.left && w'.parked.circles == HOLDER.circles
  {
    var none: seq<Step> := [] + [Join(2, Circle("bb", 0))];
    Snoc(w, [], Join(2, Circle("bb", 0)));
    JoinsAnother(w);
    var one := none + [Seal(2)] + [Send(2)] + [Serve(2)];
    Snoc3(w, none, Seal(2), Send(2), Serve(2));
    RefusedUpload(Run(w, none));
    var two := one + [Receive(2)] + [Serve(2)] + [Receive(2)];
    Snoc3(w, one, Receive(2), Serve(2), Receive(2));
    ReadAgain(Run(w, one));
    Snoc(w, two, Fail(2));
    Snoc3(w, two + [Fail(2)], Seal(2), Send(2), Serve(2));
    FailedRetryOverwrites(Run(w, two), 2);
  }

  lemma {:induction false} RunConcat(w: World, a: seq<Step>, b: seq<Step>)
    ensures Run(w, a + b) == Run(Run(w, a), b)
  {
    if b == [] {
      assert a + b == a;
    } else {
      RunConcat(w, a, b[..|b| - 1]);
      assert (a + b)[..|a + b| - 1] == a + b[..|b| - 1];
    }
  }

  /** So a circle is lost in an ordinary run: "a" was parked, nobody left it, and it is gone. */
  lemma {:induction false} FailedRetryLosesACircle()
    ensures "a" in Run(START, Setup()).parked.circles
    ensures var w := Run(START, Setup() + LostRetry()); "a" !in w.left && "a" !in w.parked.circles
  {
    SetupState();
    LostRetryState(Run(START, Setup()));
    RunConcat(START, Setup(), LostRetry());
    assert |"a"| != |"bb"|;
  }

  /** And in one where nothing fails: device 2 joins another circle, and reconnects while its upload is being sealed. */
  lemma {:induction false} CrossedLoadLosesACircle()
    ensures "a" in Run(START, Setup()).parked.circles
    ensures var w := Run(START, Setup() + [Join(2, Circle("bb", 0))] + Crossing(2, 0)); "a" !in w.left && "a" !in w.parked.circles
  {
    SetupState();
    Snoc(START, Setup(), Join(2, Circle("bb", 0)));
    var joined := Setup() + [Join(2, Circle("bb", 0))];
    JoinsAnother(Run(START, Setup()));
    RunConcat(START, joined, Crossing(2, 0));
    CrossedLoadOverwrites(Run(START, joined), 2, 0);
    assert |"a"| != |"bb"|;
  }

  // ------------------------------------------------------------- what a landed write holds

  /** What the device held when it last sealed an upload. */
  function Held(steps: seq<Step>, d: nat): (circles: map<Id, Circle>) {
    if steps == [] then map[]
    else HeldNext(Dev(Run(START, steps[..|steps| - 1]), d), steps[|steps| - 1], d, Held(steps[..|steps| - 1], d))
  }

  function HeldNext(x: Device, step: Step, d: nat, held: map<Id, Circle>): (circles: map<Id, Circle>) {
    if step == Seal(d) && x.loaded && x.task.Idle? then x.circles else held
  }

  /** The blob the device last re-read for a retry. */
  function Reread(steps: seq<Step>, d: nat): (circles: map<Id, Circle>) {
    if steps == [] then map[]
    else RereadNext(Dev(Run(START, steps[..|steps| - 1]), d), steps[|steps| - 1], d, Reread(steps[..|steps| - 1], d))
  }

  function RereadNext(x: Device, step: Step, d: nat, reread: map<Id, Circle>): (circles: map<Id, Circle>) {
    if step == Receive(d) && x.task.Read? then x.task.parked.circles else reread
  }

  /** Exactly the ids of both, with one's own copy wherever one has it. */
  ghost predicate OwnOver(sent: map<Id, Circle>, own: map<Id, Circle>, blob: map<Id, Circle>) {
    && sent.Keys == own.Keys + blob.Keys
    && (forall id :: id in own ==> sent[id] == own[id])
    && (forall id :: id in blob && id !in own ==> sent[id] == blob[id])
  }

  ghost predicate Carries(task: Task, own: map<Id, Circle>, blob: map<Id, Circle>) {
    match task
    case Idle => true
    case Sealing(sealed, retry) => OwnOver(sealed, own, if retry then blob else map[])
    case Writing(write, retry) => OwnOver(write.sent, own, if retry then blob else map[])
    case Landed(sent, version, retry) => OwnOver(sent, own, if retry then blob else map[])
    case Refused(sent) => sent == own
    case Reading(mine) => mine == own
    case Read(mine, parked) => mine == own
  }

  /** A refused first try holds just what was sealed. */
  lemma {:induction false} NothingOver(sent: map<Id, Circle>, own: map<Id, Circle>)
    requires OwnOver(sent, own, map[])
    ensures sent == own
  {
  }

  lemma {:induction false} ServeCarries(w: World, d: nat, own: map<Id, Circle>, blob: map<Id, Circle>)
    requires Carries(Dev(w, d).task, own, blob)
    ensures Carries(Dev(ServeTask(w, d), d).task, own, blob)
  {
    var task := Dev(w, d).task;
    if task.Writing? && !task.retry { NothingOver(task.write.sent, own); }
  }

  /** Only the upload's own steps move it along. */
  lemma {:induction false} TaskStays(w: World, step: Step, d: nat)
    requires step.LateArrival? || step.NeverArrives? || step.d != d ||
             !(step.Seal? || step.Send? || step.Serve? || step.Receive? || step.Fail?)
    ensures Dev(Next(w, step), d).task == Dev(w, d).task
  {
  }

  lemma {:induction false} ReceiveCarries(x: Device, own: map<Id, Circle>, blob: map<Id, Circle>)
    requires Carries(x.task, own, blob)
    ensures Carries(ReceiveAnswer(x).task, own, if x.task.Read? then x.task.parked.circles else blob)
  {
  }

  lemma {:induction false} CarriesNext(w: World, step: Step, d: nat, own: map<Id, Circle>, blob: map<Id, Circle>)
    requires Carries(Dev(w, d).task, own, blob)
    ensures Carries(Dev(Next(w, step), d).task, HeldNext(Dev(w, d), step, d, own), RereadNext(Dev(w, d), step, d, blob))
  {
    if step.LateArrival? || step.NeverArrives? || step.d != d {
      TaskStays(w, step, d);
    } else {
      match step
      case Seal(_) =>
      case Send(_) =>
      case Serve(_) => ServeCarries(w, d, own, blob);
      case Receive(_) => ReceiveCarries(Dev(w, d), own, blob);
      case Fail(_) =>
      case _ => TaskStays(w, step, d);
    }
  }

  lemma {:induction false} RunCarries(steps: seq<Step>, d: nat)
    ensures Carries(Dev(Run(START, steps), d).task, Held(steps, d), Reread(steps, d))
  {
    if steps != [] {
      var init := steps[..|steps| - 1];
      RunCarries(init, d);
      CarriesNext(Run(START, init), steps[|steps| - 1], d, Held(init, d), Reread(init, d));
    }
  }

  /** After `k` steps the device's upload was the write. */
  ghost predicate SentAt(steps: seq<Step>, k: nat, d: nat, write: Write) {
    k <= |steps| && Dev(Run(START, steps[..k]), d).task.Writing? && Dev(Run(START, steps[..k]), d).task.write == write
  }

  /** A write on the wire was some device's upload once. */
  lemma {:induction false} WireIsSent(steps: seq<Step>, write: Write) returns (k: nat, d: nat)
    requires write in Run(START, steps).wire
    ensures SentAt(steps, k, d, write)
  {
    var init, step := steps[..|steps| - 1], steps[|steps| - 1];
    if write in Run(START, init).wire {
      k, d := WireIsSent(init, write);
      assert init[..k] == steps[..k];
    } else {
      assert step.Fail?;
      k, d := |init|, step.d;
    }
  }

  /**
   In every run, whenever a write lands — a first try, a retry, or one its device had given up on — the new
   blob holds every circle the device held when it sealed that upload, in the device's own copy; a first try
   nothing else, and a retry besides just the other circles of the blob it re-read, as they were there.
   */
  lemma {:induction false} LandedHoldsOwn(steps: seq<Step>, step: Step) returns (k: nat, d: nat)
    requires Next(Run(START, steps), step).parked != Run(START, steps).parked
    ensures k <= |steps| && (step.Serve? ==> k == |steps| && d == step.d)
    ensures var task, blob := Dev(Run(START, steps[..k]), d).task, Next(Run(START, steps), step).parked.circles;
            task.Writing? && task.write.sent == blob &&
            OwnOver(blob, Held(steps[..k], d), if task.retry then Reread(steps[..k], d) else map[])
  {
    if step.LateArrival? {
      k, d := WireIsSent(steps, step.write);
    } else {
      assert step.Serve? && steps[..|steps|] == steps;
      k, d := |steps|, step.d;
    }
    RunCarries(steps[..k], d);
  }

  /** A first try whose version is out of date is refused, re-reads the blob, and is sealed again over it at its version. */
  lemma {:induction false} RefusedIsRetried(w: World, d: nat)
    requires Dev(w, d).task.Writing? && !Dev(w, d).task.retry && Dev(w, d).task.write.at != w.parked.version
    ensures var w' := Next(Next(Next(Next(w, Serve(d)), Receive(d)), Serve(d)), Receive(d));
            && w'.parked == w.parked && Dev(w', d).version == w.parked.version && Dev(w', d).task.Sealing? && Dev(w', d).task.retry
            && OwnOver(Dev(w', d).task.sealed, Dev(w, d).task.write.sent, w.parked.circles)
  {
    RefusedThenReads(w, d);
    ReadThenSeals(Next(Next(w, Serve(d)), Receive(d)), d);
  }

  lemma {:induction false} RefusedThenReads(w: World, d: nat)
    requires Dev(w, d).task.Writing? && !Dev(w, d).task.retry && Dev(w, d).task.write.at != w.parked.version
    ensures var x, w' := Dev(w, d), Next(Next(w, Serve(d)), Receive(d));
            w'.parked == w.parked && Dev(w', d).task == Reading(x.task.write.sent)
  {
    var w1 := Next(w, Serve(d));
    assert Dev(w1, d) == Dev(w, d).(task := Refused(Dev(w, d).task.write.sent)) && w1.parked == w.parked;
  }

  lemma {:induction false} ReadThenSeals(w: World, d: nat)
    requires Dev(w, d).task.Reading?
    ensures var mine, w' := Dev(w, d).task.mine, Next(Next(w, Serve(d)), Receive(d));
            && w'.parked == w.parked && Dev(w', d).version == w.parked.version
            && Dev(w', d).task == Sealing(MergeMaps(mine, w.parked.circles), true)
  {
    var w1 := Next(w, Serve(d));
    assert Dev(w1, d) == Dev(w, d).(task := Read(Dev(w, d).task.mine, w.parked)) && w1.parked == w.parked;
  }

  /** A write given up on may still land, over the version it was sent for and over no other. */
  lemma {:induction false} GivenUpMayLand(w: World, d: nat)
    requires Dev(w, d).task.Writing?
    ensures var write, w' := Dev(w, d).task.write, Next(w, Fail(d));
            && Dev(w', d).task == Idle && w'.parked == w.parked && write in w'.wire
            && Next(w', LateArrival(write)).parked ==
                 if w.parked.version == write.at then Parked(write.at + 1, write.sent) else w.parked
  {
  }

  /** It arrives once or never. */
  lemma {:induction false} ArrivesOnce(w: World, write: Write)
    ensures var w' := Next(w, LateArrival(write)); Next(w', LateArrival(write)) == w'
    ensures var w' := Next(w, NeverArrives(write)); Next(w', LateArrival(write)) == w' && w'.parked == w.parked
  {
  }

  /** A load that failed brings nothing, and leaves the device as it was. */
  lemma {:induction false} FailedLoadBringsNothing(w: World, d: nat, load: nat)
    ensures var w' := Next(w, FailLoad(d, load));
            && Dev(w', d) == Dev(w, d).(loads := Dev(w, d).loads - {load}) && w'.parked == w.parked
            && Dev(Next(w', ReceiveLoad(d, load)), d) == Dev(w', d)
  {
  }

  /** A device's copy of a circle changes only by its own joining and leaving, whatever it loads or adopts. */
  lemma {:induction false} OwnCopyStays(w: World, step: Step, d: nat, id: Id)
    requires id in Dev(w, d).circles && !(step.Join? && step.d == d && step.circle.id == id) && step != Leave(d, id)
    ensures id in Dev(Next(w, step), d).circles && Dev(Next(w, step), d).circles[id] == Dev(w, d).circles[id]
  {
    if !step.LateArrival? && !step.NeverArrives? && step.d == d { OwnStepKeeps(w, step, d, id); }
  }

  lemma {:induction false} OwnStepKeeps(w: World, step: Step, d: nat, id: Id)
    requires !step.LateArrival? && !step.NeverArrives? && step.d == d && id in Dev(w, d).circles
    requires !(step.Join? && step.circle.id == id) && step != Leave(d, id)
    ensures id in Dev(Next(w, step), d).circles && Dev(Next(w, step), d).circles[id] == Dev(w, d).circles[id]
  {
    match step
    case Receive(_) =>
    case ReceiveLoad(_, load) =>
    case _ =>
  }

  /** Where a circle a device comes to hold is from: it joined, or read it in the blob, in a load or for a retry that landed. */
  lemma {:induction false} CirclesComeFrom(w: World, step: Step, d: nat, id: Id)
    requires id !in Dev(w, d).circles && id in Dev(Next(w, step), d).circles
    ensures !step.LateArrival? && !step.NeverArrives? && step.d == d
    ensures || (step.Join? && step.circle.id == id && id != "")
            || (step.ReceiveLoad? && step.load in Dev(w, d).loads && Dev(w, d).loads[step.load].Some? && id in Dev(w, d).loads[step.load].value.circles)
            || (step.Receive? && Dev(w, d).task.Landed? && Dev(w, d).task.retry && id in Dev(w, d).task.sent)
  {
  }

  /** A device that has never read the blob never writes it. */
  lemma {:induction false} NeverReadNeverWrites(steps: seq<Step>, d: nat)
    ensures !Dev(Run(START, steps), d).loaded ==> Dev(Run(START, steps), d).task == Idle
  {
    if steps != [] {
      NeverReadNeverWrites(steps[..|steps| - 1], d);
      LoadedFirst(Run(START, steps[..|steps| - 1]), steps[|steps| - 1], d);
    }
  }

  lemma {:induction false} LoadedFirst(w: World, step: Step, d: nat)
    requires !Dev(w, d).loaded ==> Dev(w, d).task == Idle
    ensures !Dev(Next(w, step), d).loaded ==> Dev(Next(w, step), d).task == Idle
    ensures Dev(Next(w, step), d).loaded && !Dev(w, d).loaded ==>
            step.ReceiveLoad? && step.d == d && step.load in Dev(w, d).loads && Dev(w, d).loads[step.load].Some?
  {
  }

  /** The SQL form of the swap inserts when there is no row, whatever version was expected. */
  function QuerySetBackup(row: Option<Parked>, expected: nat, circles: map<Id, Circle>): (r: (Option<Parked>, Result<nat>)) {
    if row.None? then (Some(Parked(1, circles)), Ok(1))
    else if row.value.version == expected then (Some(Parked(expected + 1, circles)), Ok(expected + 1))
    else (row, Err(BackupConflict))
  }

  /** The blob a row holds. */
  function BlobOf(row: Option<Parked>): (p: Parked) { if row.Some? then row.value else Parked(0, map[]) }

  /** It is the in-memory swap, in its answer and in what it leaves, exactly when a row exists or none was expected. */
  lemma {:induction false} QuerySetBackupAgrees(row: Option<Parked>, expected: nat, circles: map<Id, Circle>)
    requires row.Some? ==> row.value.version > 0
    ensures var (row', here) := QuerySetBackup(row, expected, circles);
            var (p', there) := SetBackup(BlobOf(row), expected, circles);
            && (here == there <==> row.Some? || expected == 0)
            && (BlobOf(row') == p' <==> row.Some? || expected == 0)
  {
  }
}
