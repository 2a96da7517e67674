/** The lifetime of session runtimes on the server. Connections acquire, attach to, operate on and
    leave sessions; runtimes are obtained from the service and disposed, all asynchronously.

    Each step below is one stretch of code between two awaits. A slot stands for one call of
    create(): the runtime it asks the service for and the live session it may become. */
module LiveSessions {
  import opened Results

  type Id = string

  type Connection = nat

  /** Where a call of create() stands. */
  datatype Stage =
    | Acquiring
    | Inspecting
    | Rejecting
    | Failed
    | Live

  datatype Slot = Slot(
    id: Id,
    stage: Stage,
    // the runtime
    obtained: bool,
    idle: bool,
    disposeCalls: nat,
    disposeReturned: bool,
    // the live session
    connections: set<Connection>,
    operationCount: nat,
    terminal: bool,
    disposing: bool,
    subscribed: bool,
    eventDue: bool)

  /** Where a call of acquire() and the attach() after it stand. */
  datatype Wait =
    | Looking
    | ForDisposal(slot: nat)
    | ForOpening(slot: nat, owner: bool)
    | Holding(slot: nat)

  datatype Acquirer = Acquirer(connection: Connection, id: Id, wait: Wait)

  datatype Peer = Peer(ready: bool, disconnected: bool, closed: bool, sessionIds: set<Id>)

  datatype State = State(
    slots: seq<Slot>,
    live: map<Id, nat>,
    opening: map<Id, nat>,
    peers: map<Connection, Peer>,
    acquirers: multiset<Acquirer>,
    operations: multiset<nat>,
    detachers: multiset<nat>,
    terminators: multiset<nat>,
    closing: bool,
    closers: multiset<set<nat>>,
    collected: bool)

  const INITIAL := State([], map[], map[], map[], multiset{}, multiset{}, multiset{}, multiset{}, false, multiset{}, false)

  datatype Step =
    | Connect(connection: Connection)
    | TransportCloses(connection: Connection)
    | LeaveReady(connection: Connection)
    | Disconnect(connection: Connection)
    | RequestSession(connection: Connection, id: Id)
    | Look(acquirer: Acquirer)
    | ResumeAfterDisposal(acquirer: Acquirer, ok: bool)
    | ResumeAfterOpening(acquirer: Acquirer)
    | Attach(acquirer: Acquirer)
    | RuntimeObtained(slot: nat, idle: bool)
    | AcquireFails(slot: nat)
    | SnapshotAccepted(slot: nat)
    | SnapshotRejected(slot: nat)
    | DisposeReturns(slot: nat)
    | Detach(connection: Connection, id: Id)
    | ResumeDetach(slot: nat, ok: bool)
    | StartOperation(connection: Connection, id: Id)
    | EndOperation(slot: nat)
    | ChangePhase(slot: nat, idle: bool)
    | RuntimeEvent(slot: nat)
    | RuntimeError(slot: nat)
    | FinishTerminate(slot: nat)
    | BeginClosing
    | StartClose
    | CollectClose(awaited: set<nat>)

  // ---------------------------------------------------------------------------------------
  // Steps

  predicate Settled(slot: Slot) {
    slot.stage == Live || slot.stage == Failed
  }

  /** The live session that requireAttached() returns, when it does not throw. */
  predicate MayOperate(s: State, connection: Connection, id: Id) {
    && connection in s.peers && id in s.peers[connection].sessionIds
    && id in s.live && s.live[id] < |s.slots|
    && !s.slots[s.live[id]].terminal && !s.slots[s.live[id]].disposing
  }

  predicate Enabled(s: State, e: Step) {
    match e
    case Connect(c) => c !in s.peers
    case TransportCloses(c) => c in s.peers
    case LeaveReady(c) => c in s.peers
    case Disconnect(c) => c in s.peers
    case RequestSession(c, _) => c in s.peers
    case Look(a) => a in s.acquirers && a.wait == Looking && (a.id in s.live ==> s.live[a.id] < |s.slots|)
    case ResumeAfterDisposal(a, _) =>
      a in s.acquirers && a.wait.ForDisposal? && a.wait.slot < |s.slots| && s.slots[a.wait.slot].disposeReturned
    case ResumeAfterOpening(a) =>
      a in s.acquirers && a.wait.ForOpening? && a.wait.slot < |s.slots| && Settled(s.slots[a.wait.slot])
    case Attach(a) => a in s.acquirers && a.wait.Holding? && a.wait.slot < |s.slots| && a.connection in s.peers
    case RuntimeObtained(i, _) => i < |s.slots| && s.slots[i].stage == Acquiring
    case AcquireFails(i) => i < |s.slots| && s.slots[i].stage == Acquiring
    case SnapshotAccepted(i) => i < |s.slots| && s.slots[i].stage == Inspecting
    case SnapshotRejected(i) => i < |s.slots| && s.slots[i].stage == Inspecting
    case DisposeReturns(i) => i < |s.slots| && s.slots[i].disposeCalls > 0 && !s.slots[i].disposeReturned
    case Detach(c, id) =>
      c in s.peers && id in s.peers[c].sessionIds && (id in s.live ==> s.live[id] < |s.slots|)
    case ResumeDetach(i, _) => i < |s.slots| && i in s.detachers
    case StartOperation(c, id) => MayOperate(s, c, id)
    case EndOperation(i) => i < |s.slots| && i in s.operations && s.slots[i].operationCount > 0
    case ChangePhase(i, _) => i < |s.slots| && s.slots[i].obtained
    case RuntimeEvent(i) => i < |s.slots| && s.slots[i].subscribed
    case RuntimeError(i) => i < |s.slots| && s.slots[i].subscribed
    case FinishTerminate(i) => i < |s.slots| && i in s.terminators
    case BeginClosing => true
    case StartClose => s.closing
    case CollectClose(awaited) =>
      awaited in s.closers && forall i :: i in awaited ==> i < |s.slots| && Settled(s.slots[i])
  }

  /** The condition under which maybeDispose() goes on to dispose. */
  predicate Disposable(closing: bool, live: Slot) {
    && !closing
    && live.stage == Live
    && !live.disposing
    && live.connections == {}
    && live.operationCount == 0
    && (live.terminal || live.idle)
  }

  function DisposeCalled(slot: Slot): Slot {
    slot.(disposeCalls := slot.disposeCalls + 1)
  }

  function Dispose(slot: Slot): Slot {
    DisposeCalled(slot).(subscribed := false, disposing := true)
  }

  function DisposeOne(closing: bool, slots: seq<Slot>, i: nat): seq<Slot>
    requires i < |slots|
  {
    if Disposable(closing, slots[i]) then slots[i := Dispose(slots[i])] else slots
  }

  function DisposeEach(closing: bool, slots: seq<Slot>, these: set<nat>): seq<Slot> {
    seq(|slots|, i requires 0 <= i < |slots| =>
      if i in these && Disposable(closing, slots[i]) then Dispose(slots[i]) else slots[i])
  }

  function SweepEach(slots: seq<Slot>, these: set<nat>): seq<Slot> {
    seq(|slots|, i requires 0 <= i < |slots| =>
      if i in these && !slots[i].disposing then DisposeCalled(slots[i]).(subscribed := false) else slots[i])
  }

  function NewSlot(id: Id): Slot {
    Slot(id, Acquiring, false, false, 0, false, {}, 0, false, false, false, false)
  }

  /** The sessions in the map that the connection's ids lead to. */
  function SessionsOf(s: State, c: Connection): set<nat>
    requires c in s.peers
  {
    set id | id in s.peers[c].sessionIds && id in s.live :: s.live[id]
  }

  function WithoutConnection(slots: seq<Slot>, these: set<nat>, c: Connection): seq<Slot> {
    seq(|slots|, i requires 0 <= i < |slots| =>
      if i in these then slots[i].(connections := slots[i].connections - {c}) else slots[i])
  }

  predicate MayAttach(p: Peer) {
    p.ready && !p.disconnected && !p.closed
  }

  /** The step asks the service for a runtime: acquire() found neither a live nor an opening session. */
  predicate OpensSlot(s: State, e: Step) {
    e.Look? && e.acquirer.id !in s.live && e.acquirer.id !in s.opening
  }

  /** detach() waits for a snapshot to be broadcast before its check. */
  predicate DetachWaits(s: State, c: Connection, id: Id) {
    && id in s.live && s.live[id] < |s.slots|
    && s.slots[s.live[id]].connections - {c} != {}
    && !s.slots[s.live[id]].terminal && !s.slots[s.live[id]].disposing
  }

  /** What becomes of the slots. */
  function NextSlots(s: State, e: Step): seq<Slot>
    requires Enabled(s, e)
  {
    var slots := s.slots;
    match e
    case Look(a) => if OpensSlot(s, e) then slots + [NewSlot(a.id)] else slots
    case Attach(a) =>
      var i := a.wait.slot;
      if MayAttach(s.peers[a.connection])
      then slots[i := slots[i].(connections := slots[i].connections + {a.connection})]
      else DisposeOne(s.closing, slots, i)
    case RuntimeObtained(i, idle) =>
      var slot := slots[i].(obtained := true, idle := idle);
      slots[i := if s.closing then DisposeCalled(slot).(stage := Rejecting) else slot.(stage := Inspecting)]
    case AcquireFails(i) => slots[i := slots[i].(stage := Failed)]
    case SnapshotAccepted(i) => slots[i := slots[i].(stage := Live, subscribed := true)]
    case SnapshotRejected(i) => slots[i := DisposeCalled(slots[i]).(stage := Rejecting)]
    case DisposeReturns(i) =>
      slots[i := slots[i].(disposeReturned := true, stage := if slots[i].stage == Rejecting then Failed else slots[i].stage)]
    case Disconnect(c) =>
      if s.peers[c].disconnected then slots
      else DisposeEach(s.closing, WithoutConnection(slots, SessionsOf(s, c), c), SessionsOf(s, c))
    case Detach(c, id) =>
      if id !in s.live then slots
      else
        var i := s.live[id];
        var left := slots[i := slots[i].(connections := slots[i].connections - {c})];
        if DetachWaits(s, c, id) then left else DisposeOne(s.closing, left, i)
    case ResumeDetach(i, ok) => if ok then DisposeOne(s.closing, slots, i) else slots
    case StartOperation(_, id) =>
      var i := s.live[id];
      slots[i := slots[i].(operationCount := slots[i].operationCount + 1)]
    case EndOperation(i) =>
      DisposeOne(s.closing, slots[i := slots[i].(operationCount := slots[i].operationCount - 1)], i)
    case ChangePhase(i, idle) =>
      slots[i := slots[i].(idle := idle, eventDue := slots[i].eventDue || (idle && slots[i].subscribed))]
    case RuntimeEvent(i) => DisposeOne(s.closing, slots[i := slots[i].(eventDue := false)], i)
    case RuntimeError(i) =>
      if slots[i].terminal then slots else slots[i := slots[i].(terminal := true, subscribed := false, eventDue := false)]
    case FinishTerminate(i) => DisposeOne(s.closing, slots, i)
    case CollectClose(_) => SweepEach(slots, s.live.Values)
    case _ => slots
  }

  /** What becomes of liveSessions. */
  function NextLive(s: State, e: Step): map<Id, nat>
    requires Enabled(s, e)
  {
    match e
    case SnapshotAccepted(i) => s.live[s.slots[i].id := i]
    case DisposeReturns(i) =>
      if s.slots[i].disposing && s.slots[i].id in s.live && s.live[s.slots[i].id] == i
      then s.live - {s.slots[i].id} else s.live
    case CollectClose(_) => map[]
    case _ => s.live
  }

  /** What becomes of openingSessions. */
  function NextOpening(s: State, e: Step): map<Id, nat>
    requires Enabled(s, e)
  {
    match e
    case Look(a) => if OpensSlot(s, e) then s.opening[a.id := |s.slots|] else s.opening
    case ResumeAfterOpening(a) =>
      if a.wait.owner && a.id in s.opening && s.opening[a.id] == a.wait.slot then s.opening - {a.id} else s.opening
    case _ => s.opening
  }

  function NextPeers(s: State, e: Step): map<Connection, Peer>
    requires Enabled(s, e)
  {
    var peers := s.peers;
    match e
    case Connect(c) => peers[c := Peer(true, false, false, {})]
    case TransportCloses(c) => peers[c := peers[c].(closed := true)]
    case LeaveReady(c) => peers[c := peers[c].(ready := false)]
    case Disconnect(c) =>
      if peers[c].disconnected then peers
      else peers[c := peers[c].(disconnected := true, ready := false, sessionIds := {})]
    case Attach(a) =>
      if MayAttach(peers[a.connection])
      then peers[a.connection := peers[a.connection].(sessionIds := peers[a.connection].sessionIds + {s.slots[a.wait.slot].id})]
      else peers
    case Detach(c, id) => peers[c := peers[c].(sessionIds := peers[c].sessionIds - {id})]
    case _ => peers
  }

  /** What acquire() waits for after one look at the maps; None when it throws. */
  function WaitAfterLook(s: State, id: Id): Option<Wait>
    requires id in s.live ==> s.live[id] < |s.slots|
  {
    if id in s.live then
      var existing := s.slots[s.live[id]];
      if existing.terminal then None
      else if existing.disposing then Some(ForDisposal(s.live[id]))
      else Some(Holding(s.live[id]))
    else if id in s.opening then Some(ForOpening(s.opening[id], false))
    else Some(ForOpening(|s.slots|, true))
  }

  /** How the acquirer that a step resumes goes on. */
  function WaitAfter(s: State, e: Step): Option<Wait>
    requires (e.Look? || e.ResumeAfterDisposal? || e.ResumeAfterOpening? || e.Attach?) && Enabled(s, e)
  {
    match e
    case Look(a) => WaitAfterLook(s, a.id)
    case ResumeAfterDisposal(_, ok) => if ok then Some(Looking) else None
    case ResumeAfterOpening(a) => if s.slots[a.wait.slot].stage == Live then Some(Holding(a.wait.slot)) else None
    case Attach(_) => None
  }

  /** One acquirer goes on waiting for something else, or is done. */
  function Resume(acquirers: multiset<Acquirer>, a: Acquirer, wait: Option<Wait>): multiset<Acquirer> {
    match wait
    case None => acquirers - multiset{a}
    case Some(next) => acquirers - multiset{a} + multiset{a.(wait := next)}
  }

  function NextAcquirers(s: State, e: Step): multiset<Acquirer>
    requires Enabled(s, e)
  {
    if e.RequestSession? then s.acquirers + multiset{Acquirer(e.connection, e.id, Looking)}
    else if e.Look? || e.ResumeAfterDisposal? || e.ResumeAfterOpening? || e.Attach? then
      Resume(s.acquirers, e.acquirer, WaitAfter(s, e))
    else s.acquirers
  }

  function NextOperations(s: State, e: Step): multiset<nat>
    requires Enabled(s, e)
  {
    match e
    case StartOperation(_, id) => s.operations + multiset{s.live[id]}
    case EndOperation(i) => s.operations - multiset{i}
    case _ => s.operations
  }

  function NextDetachers(s: State, e: Step): multiset<nat>
    requires Enabled(s, e)
  {
    match e
    case Detach(c, id) => if DetachWaits(s, c, id) then s.detachers + multiset{s.live[id]} else s.detachers
    case ResumeDetach(i, _) => s.detachers - multiset{i}
    case _ => s.detachers
  }

  function NextTerminators(s: State, e: Step): multiset<nat>
    requires Enabled(s, e)
  {
    match e
    case RuntimeError(i) => if s.slots[i].terminal then s.terminators else s.terminators + multiset{i}
    case FinishTerminate(i) => s.terminators - multiset{i}
    case _ => s.terminators
  }

  function NextClosers(s: State, e: Step): multiset<set<nat>>
    requires Enabled(s, e)
  {
    match e
    case StartClose => s.closers + multiset{s.opening.Values}
    case CollectClose(awaited) => s.closers - multiset{awaited}
    case _ => s.closers
  }

  function Next(s: State, e: Step): State
    requires Enabled(s, e)
  {
    State(NextSlots(s, e), NextLive(s, e), NextOpening(s, e), NextPeers(s, e), NextAcquirers(s, e),
          NextOperations(s, e), NextDetachers(s, e), NextTerminators(s, e),
          s.closing || e.BeginClosing?, NextClosers(s, e), s.collected || e.CollectClose?)
  }

  ghost predicate Run(ss: seq<State>, es: seq<Step>) {
    && |ss| == |es| + 1
    && ss[0] == INITIAL
    && forall k :: 0 <= k < |es| ==> Enabled(ss[k], es[k]) && ss[k + 1] == Next(ss[k], es[k])
  }

  // ---------------------------------------------------------------------------------------
  // The invariant

  /** The life of one runtime and of the live session around it. */
  predicate SlotOk(slot: Slot) {
    && slot.disposeCalls <= 1
    && (slot.stage != Live ==>
          && slot.connections == {} && slot.operationCount == 0
          && !slot.disposing && !slot.subscribed && !slot.terminal && !slot.eventDue)
    && (slot.stage == Acquiring ==> !slot.obtained && slot.disposeCalls == 0)
    && (slot.stage == Inspecting ==> slot.obtained && slot.disposeCalls == 0)
    && (slot.stage == Rejecting ==> slot.obtained && slot.disposeCalls == 1 && !slot.disposeReturned)
    && (slot.stage == Failed ==> slot.obtained == slot.disposeReturned == (slot.disposeCalls == 1))
    && (slot.stage == Live ==> slot.obtained)
    && (slot.disposing ==> slot.disposeCalls == 1 && slot.operationCount == 0)
    && (slot.disposeReturned ==> slot.disposeCalls == 1)
    && (slot.stage == Live ==> (slot.subscribed <==> slot.disposeCalls == 0 && !slot.terminal))
  }

  ghost predicate SlotsOk(s: State) {
    forall i :: 0 <= i < |s.slots| ==> SlotOk(s.slots[i])
  }

  /** The counter kept on a session is the number of its operations in flight. */
  ghost predicate OperationsOk(s: State) {
    && (forall i :: 0 <= i < |s.slots| ==> s.operations[i] == s.slots[i].operationCount)
    && (forall i :: i in s.operations ==> i < |s.slots|)
  }

  /** Disposed other than by maybeDispose(): only close() does that, and only once it has collected. */
  ghost predicate SweptOnlyByClose(s: State) {
    && (s.collected ==> s.closing)
    && (s.closers != multiset{} ==> s.closing)
    && (forall i :: 0 <= i < |s.slots| && s.slots[i].stage == Live && s.slots[i].disposeCalls == 1 && !s.slots[i].disposing ==>
          s.collected)
  }

  predicate Unsettled(slot: Slot) {
    slot.stage == Acquiring || slot.stage == Inspecting || slot.stage == Rejecting
  }

  predicate LiveAt(slot: Slot, id: Id) {
    && slot.id == id
    && slot.stage == Live
    && (slot.disposing || slot.disposeCalls == 0)
    && !slot.disposeReturned
  }

  ghost predicate LiveOk(s: State) {
    forall id :: id in s.live ==> s.live[id] < |s.slots| && LiveAt(s.slots[s.live[id]], id)
  }

  ghost predicate OpeningOk(s: State) {
    && (forall id :: id in s.opening ==> s.opening[id] < |s.slots| && s.slots[s.opening[id]].id == id)
    && (forall i :: 0 <= i < |s.slots| && Unsettled(s.slots[i]) ==>
          s.slots[i].id in s.opening && s.opening[s.slots[i].id] == i)
  }

  ghost predicate RegisteredIn(live: map<Id, nat>, i: nat, id: Id) {
    id in live && live[id] == i
  }

  /** A session whose runtime was not yet disposed is in the map; close() alone may forget a session
      whose disposal is under way. */
  ghost predicate Registered(s: State) {
    forall i :: 0 <= i < |s.slots| ==>
      && (s.slots[i].stage == Live && s.slots[i].disposeCalls == 0 ==> RegisteredIn(s.live, i, s.slots[i].id))
      && (!s.collected && s.slots[i].disposing && !s.slots[i].disposeReturned ==> RegisteredIn(s.live, i, s.slots[i].id))
  }

  /** The runtime is requested, open, or still being disposed. */
  predicate Occupied(slot: Slot) {
    Unsettled(slot) || (slot.stage == Live && !slot.disposeReturned)
  }

  ghost predicate OneRuntimePerId(s: State) {
    !s.collected ==>
      forall i, j :: 0 <= i < j < |s.slots| && s.slots[i].id == s.slots[j].id ==>
        !(Occupied(s.slots[i]) && Occupied(s.slots[j]))
  }

  /** Whoever might still register a live session is awaited by every close() under way. */
  ghost predicate CloseAwaits(s: State) {
    && (s.collected ==> s.live == map[] && forall i :: 0 <= i < |s.slots| ==> s.slots[i].stage != Inspecting)
    && (forall awaited, i :: awaited in s.closers && 0 <= i < |s.slots| && s.slots[i].stage == Inspecting ==> i in awaited)
  }

  ghost predicate AcquirerOk(s: State, a: Acquirer) {
    && a.connection in s.peers
    && (a.wait.ForOpening? ==> a.wait.slot < |s.slots| && s.slots[a.wait.slot].id == a.id)
    && (a.wait.ForDisposal? ==> a.wait.slot < |s.slots|)
    && (a.wait.Holding? ==> a.wait.slot < |s.slots| && s.slots[a.wait.slot].id == a.id && s.slots[a.wait.slot].stage == Live)
  }

  ghost predicate AcquirersOk(s: State) {
    forall a :: a in s.acquirers ==> AcquirerOk(s, a)
  }

  ghost predicate LifeInv(s: State) {
    SlotsOk(s) && OperationsOk(s) && SweptOnlyByClose(s) && LiveOk(s) && OpeningOk(s) && Registered(s)
    && OneRuntimePerId(s) && CloseAwaits(s) && AcquirersOk(s)
  }

  // ---------------------------------------------------------------------------------------
  // What a step can do

  predicate Newly(a: Slot, b: Slot) {
    b.disposing && !a.disposing
  }

  predicate On(e: Step, i: nat) {
    match e
    case RuntimeObtained(j, _) => j == i
    case AcquireFails(j) => j == i
    case SnapshotAccepted(j) => j == i
    case SnapshotRejected(j) => j == i
    case DisposeReturns(j) => j == i
    case RuntimeError(j) => j == i
    case _ => false
  }

  predicate Swept(s: State, e: Step, i: nat, a: Slot) {
    e.CollectClose? && i in s.live.Values && !a.disposing
  }

  function StageAfter(s: State, e: Step, i: nat, a: Slot): Stage {
    if !On(e, i) then a.stage
    else if e.RuntimeObtained? then if s.closing then Rejecting else Inspecting
    else if e.AcquireFails? then Failed
    else if e.SnapshotAccepted? then Live
    else if e.SnapshotRejected? then Rejecting
    else if e.DisposeReturns? && a.stage == Rejecting then Failed
    else a.stage
  }

  /** How one existing slot may change in a step. */
  predicate SlotMove(s: State, e: Step, i: nat, a: Slot, b: Slot) {
    && b.id == a.id
    && b.stage == StageAfter(s, e, i, a)
    && b.obtained == (a.obtained || (e.RuntimeObtained? && On(e, i)))
    && b.disposeReturned == (a.disposeReturned || (e.DisposeReturns? && On(e, i)))
    && b.terminal == (a.terminal || (e.RuntimeError? && On(e, i)))
    && (a.disposing ==> b.disposing)
    && (Newly(a, b) ==>
          && !s.closing && a.stage == Live
          && b.connections == {} && b.operationCount == 0 && (b.terminal || b.idle))
    && b.disposeCalls == a.disposeCalls
         + (if Newly(a, b) || Swept(s, e, i, a) || (b.stage == Rejecting && a.stage != Rejecting) then 1 else 0)
    && b.subscribed == (if e.SnapshotAccepted? && On(e, i) then true
                        else a.subscribed && !Newly(a, b) && !Swept(s, e, i, a) && !(e.RuntimeError? && On(e, i) && !a.terminal))
    && (b.connections <= a.connections || (e.Attach? && e.acquirer.wait == Holding(i)))
    && b.operationCount == a.operationCount
         + (if e.StartOperation? && e.id in s.live && s.live[e.id] == i then 1 else 0)
         - (if e.EndOperation? && e.slot == i then 1 else 0)
    && (b.eventDue ==> a.eventDue || a.subscribed)
    && (a.eventDue && !b.eventDue ==> (e.RuntimeEvent? && e.slot == i) || (e.RuntimeError? && On(e, i)))
    && (b.idle != a.idle ==> (e.ChangePhase? && e.slot == i) || a.stage == Acquiring)
    && (b.connections != a.connections ==> e.Attach? || e.Detach? || e.Disconnect?)
    && (e.ChangePhase? && e.slot == i && b.idle && a.subscribed ==> b.eventDue)
  }

  ghost predicate SlotsMove(s: State, e: Step, slots: seq<Slot>) {
    && |s.slots| <= |slots|
    && forall i :: 0 <= i < |s.slots| ==> SlotMove(s, e, i, s.slots[i], slots[i])
  }

  lemma DisposeOneMoves(s: State, slots: seq<Slot>, i: nat, e: Step)
    requires SlotsMove(s, e, slots) && |slots| == |s.slots| && i < |slots|
    requires slots[i].stage == s.slots[i].stage && slots[i].disposing == s.slots[i].disposing
    requires !e.CollectClose? && !e.SnapshotAccepted?
    ensures SlotsMove(s, e, DisposeOne(s.closing, slots, i))
  {
  }

  lemma DisposeEachMoves(s: State, slots: seq<Slot>, these: set<nat>, e: Step)
    requires SlotsMove(s, e, slots) && |slots| == |s.slots| && e.Disconnect?
    requires forall i :: 0 <= i < |s.slots| ==> slots[i].disposing == s.slots[i].disposing
    ensures SlotsMove(s, e, DisposeEach(s.closing, slots, these))
  {
  }

  lemma WithoutConnectionMoves(s: State, these: set<nat>, e: Step)
    requires e.Disconnect?
    ensures var slots := WithoutConnection(s.slots, these, e.connection);
            && SlotsMove(s, e, slots) && |slots| == |s.slots|
            && forall i :: 0 <= i < |s.slots| ==> slots[i].disposing == s.slots[i].disposing
  {
  }

  lemma NothingMoves(s: State, e: Step)
    requires !e.CollectClose? && !e.SnapshotAccepted? && !e.StartOperation? && !e.EndOperation? && !e.ChangePhase?
    requires forall i :: 0 <= i < |s.slots| ==> !On(e, i)
    ensures SlotsMove(s, e, s.slots)
  {
  }

  lemma OneSlotMoves(s: State, e: Step, i: nat, slot: Slot)
    requires i < |s.slots| && !e.CollectClose?
    requires forall j :: 0 <= j < |s.slots| && j != i ==> !On(e, j)
    requires e.StartOperation? && e.id in s.live ==> s.live[e.id] == i
    requires e.EndOperation? || e.ChangePhase? ==> e.slot == i
    requires SlotMove(s, e, i, s.slots[i], slot)
    ensures SlotsMove(s, e, s.slots[i := slot])
  {
  }

  lemma ObtainingMoves(s: State, e: Step)
    requires Enabled(s, e) && (e.RuntimeObtained? || e.AcquireFails?)
    ensures SlotsMove(s, e, NextSlots(s, e))
  {
    hide SlotsMove;
    OneSlotMoves(s, e, e.slot, NextSlots(s, e)[e.slot]);
  }

  lemma InspectingMoves(s: State, e: Step)
    requires Enabled(s, e) && (e.SnapshotAccepted? || e.SnapshotRejected?)
    ensures SlotsMove(s, e, NextSlots(s, e))
  {
    hide SlotsMove;
    OneSlotMoves(s, e, e.slot, NextSlots(s, e)[e.slot]);
  }

  lemma LifeMoves(s: State, e: Step)
    requires Enabled(s, e)
    requires e.DisposeReturns? || e.RuntimeError? || e.ChangePhase?
    ensures SlotsMove(s, e, NextSlots(s, e))
  {
    hide SlotsMove;
    OneSlotMoves(s, e, e.slot, NextSlots(s, e)[e.slot]);
    assert e.RuntimeError? && s.slots[e.slot].terminal ==> s.slots[e.slot := s.slots[e.slot]] == s.slots;
  }

  lemma DisposingStepMoves(s: State, e: Step)
    requires Enabled(s, e)
    requires e.EndOperation? || e.RuntimeEvent? || e.FinishTerminate? || e.ResumeDetach?
    ensures SlotsMove(s, e, NextSlots(s, e))
  {
    hide SlotsMove, DisposeOne;
    var i := e.slot;
    var slot := if e.EndOperation? then s.slots[i].(operationCount := s.slots[i].operationCount - 1)
                else if e.RuntimeEvent? then s.slots[i].(eventDue := false)
                else s.slots[i];
    OneSlotMoves(s, e, i, slot);
    DisposeOneMoves(s, s.slots[i := slot], i, e);
    assert s.slots[i := s.slots[i]] == s.slots;
  }

  lemma DisconnectMoves(s: State, e: Step)
    requires Enabled(s, e) && e.Disconnect?
    ensures SlotsMove(s, e, NextSlots(s, e))
  {
    hide SlotsMove, DisposeEach, WithoutConnection;
    NothingMoves(s, e);
    var these := SessionsOf(s, e.connection);
    WithoutConnectionMoves(s, these, e);
    DisposeEachMoves(s, WithoutConnection(s.slots, these, e.connection), these, e);
  }

  lemma DetachMoves(s: State, e: Step)
    requires Enabled(s, e) && e.Detach?
    ensures SlotsMove(s, e, NextSlots(s, e))
  {
    hide SlotsMove, DisposeOne;
    NothingMoves(s, e);
    if e.id in s.live {
      var i := s.live[e.id];
      var left := s.slots[i].(connections := s.slots[i].connections - {e.connection});
      OneSlotMoves(s, e, i, left);
      DisposeOneMoves(s, s.slots[i := left], i, e);
    }
  }

  lemma AttachMoves(s: State, e: Step)
    requires Enabled(s, e) && e.Attach?
    ensures SlotsMove(s, e, NextSlots(s, e))
  {
    hide SlotsMove, DisposeOne;
    var i := e.acquirer.wait.slot;
    NothingMoves(s, e);
    OneSlotMoves(s, e, i, s.slots[i].(connections := s.slots[i].connections + {e.acquirer.connection}));
    DisposeOneMoves(s, s.slots, i, e);
  }

  lemma StartMoves(s: State, e: Step)
    requires Enabled(s, e) && e.StartOperation?
    ensures SlotsMove(s, e, NextSlots(s, e))
  {
    hide SlotsMove;
    var i := s.live[e.id];
    OneSlotMoves(s, e, i, s.slots[i].(operationCount := s.slots[i].operationCount + 1));
  }

  /** The steps that leave the sessions alone. */
  predicate LeavesSlots(e: Step) {
    || e.Connect? || e.TransportCloses? || e.LeaveReady? || e.RequestSession? || e.ResumeAfterDisposal? || e.ResumeAfterOpening?
    || e.BeginClosing? || e.StartClose?
  }

  lemma OthersMove(s: State, e: Step)
    requires Enabled(s, e) && LeavesSlots(e)
    ensures SlotsMove(s, e, NextSlots(s, e))
  {
    hide SlotsMove;
    NothingMoves(s, e);
  }

  lemma StepMoves(s: State, e: Step)
    requires Enabled(s, e)
    ensures SlotsMove(s, e, NextSlots(s, e))
  {
    hide *;
    match e
    case Disconnect(_) => DisconnectMoves(s, e);
    case Detach(_, _) => DetachMoves(s, e);
    case Attach(_) => AttachMoves(s, e);
    case CollectClose(_) => CollectMoves(s, e);
    case StartOperation(_, _) => StartMoves(s, e);
    case Look(_) => LookMoves(s, e);
    case RuntimeObtained(_, _) => ObtainingMoves(s, e);
    case AcquireFails(_) => ObtainingMoves(s, e);
    case SnapshotAccepted(_) => InspectingMoves(s, e);
    case SnapshotRejected(_) => InspectingMoves(s, e);
    case DisposeReturns(_) => LifeMoves(s, e);
    case RuntimeError(_) => LifeMoves(s, e);
    case ChangePhase(_, _) => LifeMoves(s, e);
    case EndOperation(_) => DisposingStepMoves(s, e);
    case RuntimeEvent(_) => DisposingStepMoves(s, e);
    case FinishTerminate(_) => DisposingStepMoves(s, e);
    case ResumeDetach(_, _) => DisposingStepMoves(s, e);
    case _ =>
      assert LeavesSlots(e) by {
        OnlyTheseLeft(e);
      }
      OthersMove(s, e);
  }

  lemma OnlyTheseLeft(e: Step)
    ensures || LeavesSlots(e)
            || e.Disconnect? || e.Detach? || e.Attach? || e.CollectClose? || e.StartOperation? || e.Look? || e.RuntimeObtained?
            || e.AcquireFails? || e.SnapshotAccepted? || e.SnapshotRejected? || e.DisposeReturns? || e.RuntimeError?
            || e.ChangePhase? || e.EndOperation? || e.RuntimeEvent? || e.FinishTerminate? || e.ResumeDetach?
  {
  }

  lemma CollectMoves(s: State, e: Step)
    requires e.CollectClose? && Enabled(s, e)
    ensures SlotsMove(s, e, NextSlots(s, e))
  {
    var slots := NextSlots(s, e);
    assert slots == SweepEach(s.slots, s.live.Values);
    hide Enabled, NextSlots;
    forall i | 0 <= i < |s.slots| ensures SlotMove(s, e, i, s.slots[i], slots[i]) {
    }
    hide SlotMove;
  }

  lemma LookMoves(s: State, e: Step)
    requires e.Look? && Enabled(s, e)
    ensures SlotsMove(s, e, NextSlots(s, e))
  {
  }

  lemma StepAddsSlot(s: State, e: Step)
    requires Enabled(s, e)
    ensures if OpensSlot(s, e) then NextSlots(s, e) == s.slots + [NewSlot(e.acquirer.id)]
            else |NextSlots(s, e)| == |s.slots|
  {
  }

  lemma StepKeepsSlots(s: State, e: Step)
    requires LifeInv(s) && Enabled(s, e)
    ensures SlotsOk(Next(s, e))
  {
    hide Enabled;
    StepMoves(s, e);
    StepAddsSlot(s, e);
    var slots := NextSlots(s, e);
    hide NextSlots;
    forall i | 0 <= i < |slots| ensures SlotOk(slots[i]) {
      if i < |s.slots| {
        SlotStaysOk(s, e, i, slots[i]);
      }
    }
  }

  lemma SlotStaysOk(s: State, e: Step, i: nat, b: Slot)
    requires LifeInv(s) && Enabled(s, e) && i < |s.slots| && SlotMove(s, e, i, s.slots[i], b)
    ensures SlotOk(b)
  {
    assert SlotOk(s.slots[i]);
    assert InMap(s, i) by {
      assert LiveOk(s) && SweptOnlyByClose(s) && CloseAwaits(s);
    }
    assert e.StartOperation? && s.live[e.id] == i ==> i in s.live.Values;
    assert e.Attach? && e.acquirer.wait == Holding(i) ==> s.slots[i].stage == Live by {
      assert e.Attach? ==> AcquirerOk(s, e.acquirer);
    }
    hide LifeInv, Enabled, SlotMove, SlotOk, InMap;
    StaysSlotOk(s, e, i, b);
  }

  /** What is in the map is live, and what was disposed without being marked was so by close(). */
  ghost predicate InMap(s: State, i: nat)
    requires i < |s.slots|
  {
    && (i in s.live.Values ==> s.slots[i].stage == Live && (s.slots[i].disposing || s.slots[i].disposeCalls != 1))
    && (s.slots[i].stage == Live && s.slots[i].disposeCalls == 1 && !s.slots[i].disposing ==> s.closing)
  }

  lemma StaysSlotOk(s: State, e: Step, i: nat, b: Slot)
    requires Enabled(s, e) && i < |s.slots| && SlotOk(s.slots[i]) && SlotMove(s, e, i, s.slots[i], b)
    requires InMap(s, i) && (e.StartOperation? && s.live[e.id] == i ==> i in s.live.Values)
    requires e.Attach? && e.acquirer.wait == Holding(i) ==> s.slots[i].stage == Live
    ensures SlotOk(b)
  {
  }

  /** What the invariants on the maps use of a step. */
  predicate Summary(s: State, e: Step, i: nat, a: Slot, b: Slot) {
    && b.id == a.id
    && (Unsettled(b) ==> Unsettled(a))
    && (Occupied(b) ==> Occupied(a))
    && (b.stage == Inspecting ==> a.stage == Inspecting || !s.closing)
    && (a.stage == Live ==> b.stage == Live)
    && (b.stage == Live && a.stage != Live ==> e == SnapshotAccepted(i))
    && (b.disposeCalls == 0 ==> a.disposeCalls == 0)
    && (a.disposing ==> b.disposing)
    && (a.terminal ==> b.terminal)
    && (Newly(a, b) ==> a.stage == Live && !s.closing)
    && (a.stage == Live && b.disposeCalls != a.disposeCalls ==> Newly(a, b) || (e.CollectClose? && i in s.live.Values && !a.disposing))
    && (a.disposeReturned ==> b.disposeReturned)
    && (b.disposeReturned && !a.disposeReturned ==> e == DisposeReturns(i))
    && (e == DisposeReturns(i) ==> b.disposeReturned)
    && (Swept(s, e, i, a) ==> b.disposeCalls > a.disposeCalls)
  }

  lemma StepSummary(s: State, e: Step)
    requires Enabled(s, e)
    ensures |s.slots| <= |NextSlots(s, e)|
    ensures forall i :: 0 <= i < |s.slots| ==> Summary(s, e, i, s.slots[i], NextSlots(s, e)[i])
  {
    StepMoves(s, e);
    var slots := NextSlots(s, e);
    hide NextSlots;
    forall i | 0 <= i < |s.slots| ensures Summary(s, e, i, s.slots[i], slots[i]) {
      assert SlotMove(s, e, i, s.slots[i], slots[i]);
    }
  }

  lemma OperationsCount(s: State, e: Step, i: nat)
    requires Enabled(s, e)
    ensures NextOperations(s, e)[i]
         == s.operations[i] + (if e.StartOperation? && s.live[e.id] == i then 1 else 0)
            - (if e.EndOperation? && e.slot == i then 1 else 0)
  {
  }

  lemma OperationsAt(s: State, e: Step, i: nat, slots: seq<Slot>)
    requires LiveOk(s) && OperationsOk(s) && Enabled(s, e) && slots == NextSlots(s, e) && SlotsMove(s, e, slots)
    requires if OpensSlot(s, e) then slots == s.slots + [NewSlot(e.acquirer.id)] else |slots| == |s.slots|
    ensures NextOperations(s, e)[i] == if i < |slots| then slots[i].operationCount else 0
  {
    OperationsCount(s, e, i);
    assert e.StartOperation? ==> e.id in s.live && s.live[e.id] < |s.slots|;
    assert e.EndOperation? ==> e.slot < |s.slots|;
    hide NextSlots, NextOperations, Enabled;
    if i < |s.slots| {
      assert SlotMove(s, e, i, s.slots[i], slots[i]);
    } else {
      assert i !in s.operations;
    }
  }

  lemma StepKeepsOperations(s: State, e: Step)
    requires LiveOk(s) && OperationsOk(s) && Enabled(s, e)
    ensures OperationsOk(Next(s, e))
  {
    hide Enabled;
    StepMoves(s, e);
    StepAddsSlot(s, e);
    var slots, operations := NextSlots(s, e), NextOperations(s, e);
    assert Next(s, e).slots == slots && Next(s, e).operations == operations;
    hide Next, NextSlots, NextOperations, LiveOk;
    forall i: nat ensures operations[i] == if i < |slots| then slots[i].operationCount else 0 {
      OperationsAt(s, e, i, slots);
    }
  }

  lemma StaysSwept(s: State, e: Step, i: nat, b: Slot)
    requires SlotsOk(s) && SweptOnlyByClose(s) && i < |s.slots| && Summary(s, e, i, s.slots[i], b)
    requires e.SnapshotAccepted? ==> Enabled(s, e)
    ensures b.stage == Live && b.disposeCalls == 1 && !b.disposing ==> s.collected || e.CollectClose? || e == SnapshotAccepted(i)
  {
    assert SlotOk(s.slots[i]);
  }

  lemma AcceptedIsOpen(s: State, e: Step)
    requires SlotsOk(s) && e.SnapshotAccepted? && Enabled(s, e)
    ensures NextSlots(s, e)[e.slot].disposeCalls == 0 && !NextSlots(s, e)[e.slot].disposeReturned
    ensures e.slot < |s.slots| && NextSlots(s, e)[e.slot].stage == Live
  {
    assert SlotOk(s.slots[e.slot]);
  }

  lemma StepKeepsSwept(s: State, e: Step)
    requires SlotsOk(s) && LiveOk(s) && SweptOnlyByClose(s) && Enabled(s, e)
    ensures SweptOnlyByClose(Next(s, e))
  {
    assert (e.CollectClose? ==> s.closing) && (e.StartClose? ==> s.closing);
    hide Enabled;
    StepSummary(s, e);
    StepAddsSlot(s, e);
    if e.SnapshotAccepted? {
      AcceptedIsOpen(s, e);
    }
    var slots := NextSlots(s, e);
    hide NextSlots, NextLive, NextOpening, NextAcquirers, NextOperations, NextPeers, NextDetachers, NextTerminators;
    hide Summary, SlotsOk, LiveOk;
    forall i | 0 <= i < |s.slots|
      ensures slots[i].stage == Live && slots[i].disposeCalls == 1 && !slots[i].disposing ==> s.collected || e.CollectClose?
    {
      StaysSwept(s, e, i, slots[i]);
    }
  }

  lemma LiveChanges(s: State, e: Step, id: Id)
    requires LiveOk(s) && Enabled(s, e) && id in NextLive(s, e)
    ensures (e.SnapshotAccepted? && id == s.slots[e.slot].id && NextLive(s, e)[id] == e.slot)
            || (id in s.live && NextLive(s, e)[id] == s.live[id] && e != DisposeReturns(s.live[id]) && !e.CollectClose?)
  {
    assert id in s.live ==> s.live[id] < |s.slots| && LiveAt(s.slots[s.live[id]], id);
  }

  lemma StepKeepsLive(s: State, e: Step)
    requires SlotsOk(s) && LiveOk(s) && SweptOnlyByClose(s) && Enabled(s, e)
    ensures LiveOk(Next(s, e))
  {
    hide Enabled;
    StepSummary(s, e);
    StepAddsSlot(s, e);
    if e.SnapshotAccepted? {
      AcceptedIsOpen(s, e);
    }
    var slots, live := NextSlots(s, e), NextLive(s, e);
    assert Next(s, e).slots == slots && Next(s, e).live == live;
    hide Next, NextSlots, NextLive, SlotsOk, SweptOnlyByClose;
    forall id | id in live
      ensures live[id] < |slots| && LiveAt(slots[live[id]], id)
    {
      LiveChanges(s, e, id);
      assert Summary(s, e, live[id], s.slots[live[id]], slots[live[id]]);
    }
  }

  lemma IdsStay(s: State, e: Step)
    requires Enabled(s, e)
    ensures |s.slots| <= |NextSlots(s, e)|
    ensures forall i :: 0 <= i < |s.slots| ==>
              && NextSlots(s, e)[i].id == s.slots[i].id
              && (Unsettled(NextSlots(s, e)[i]) ==> Unsettled(s.slots[i]))
  {
    StepSummary(s, e);
    hide NextSlots, Enabled, Unsettled;
  }

  lemma StepKeepsOpening(s: State, e: Step)
    requires OpeningOk(s) && Enabled(s, e)
    ensures OpeningOk(Next(s, e))
  {
    hide Enabled;
    IdsStay(s, e);
    StepAddsSlot(s, e);
    OpeningChanges(s, e);
    assert Next(s, e).slots == NextSlots(s, e) && Next(s, e).opening == NextOpening(s, e);
    var slots, opening := NextSlots(s, e), NextOpening(s, e);
    assert OpensSlot(s, e) ==> e.acquirer.id !in s.opening;
    hide Next, NextSlots, NextOpening, Unsettled, OpensSlot;
    forall i | 0 <= i < |slots| && Unsettled(slots[i]) ensures slots[i].id in opening && opening[slots[i].id] == i {
      if i < |s.slots| {
        assert Unsettled(s.slots[i]) && slots[i].id == s.slots[i].id;
      }
    }
  }

  /** An entry that is taken out belongs to a call of create() that has settled. */
  ghost predicate SettledEntry(s: State, id: Id) {
    id in s.opening && s.opening[id] < |s.slots| && !Unsettled(s.slots[s.opening[id]])
  }

  lemma OpeningChanges(s: State, e: Step)
    requires Enabled(s, e)
    ensures var opening := NextOpening(s, e);
            if OpensSlot(s, e) then opening == s.opening[e.acquirer.id := |s.slots|]
            else opening == s.opening || exists id :: SettledEntry(s, id) && opening == s.opening - {id}
  {
    if e.ResumeAfterOpening? && e.acquirer.id in s.opening && s.opening[e.acquirer.id] == e.acquirer.wait.slot {
      assert SettledEntry(s, e.acquirer.id);
    }
  }

  lemma LiveStays(s: State, e: Step, id: Id)
    requires Enabled(s, e) && id in s.live && !e.CollectClose? && e != DisposeReturns(s.live[id])
    requires e.SnapshotAccepted? ==> s.slots[e.slot].id != id
    ensures RegisteredIn(NextLive(s, e), s.live[id], id)
  {
  }

  lemma StaysRegistered(s: State, e: Step, i: nat, b: Slot)
    requires SlotsOk(s) && LiveOk(s) && SweptOnlyByClose(s) && Registered(s) && OneRuntimePerId(s) && CloseAwaits(s)
    requires Enabled(s, e) && i < |s.slots| && Summary(s, e, i, s.slots[i], b)
    ensures b.stage == Live && b.disposeCalls == 0 ==> RegisteredIn(NextLive(s, e), i, b.id)
    ensures !s.collected && !e.CollectClose? && b.disposing && !b.disposeReturned ==> RegisteredIn(NextLive(s, e), i, b.id)
  {
    var a := s.slots[i];
    assert SlotOk(a);
    assert e.SnapshotAccepted? ==> e.slot < |s.slots| && s.slots[e.slot].stage == Inspecting;
    assert e == SnapshotAccepted(i) ==> RegisteredIn(NextLive(s, e), i, a.id);
    assert e == DisposeReturns(i) ==> a.disposeCalls > 0;
    assert e.CollectClose? ==> i in s.live.Values || !RegisteredIn(s.live, i, a.id);
    hide Enabled, NextLive;
    if a.stage == Live && !a.disposeReturned && (a.disposeCalls == 0 || !s.collected) {
      assert RegisteredIn(s.live, i, a.id);
      if e.SnapshotAccepted? && i != e.slot {
        var lo, hi := Min(i, e.slot), Max(i, e.slot);
        assert !(Occupied(s.slots[lo]) && Occupied(s.slots[hi])) || s.slots[lo].id != s.slots[hi].id;
      }
      if !e.CollectClose? && e != DisposeReturns(i) {
        LiveStays(s, e, a.id);
      }
    }
  }

  lemma StepKeepsRegistered(s: State, e: Step)
    requires SlotsOk(s) && LiveOk(s) && SweptOnlyByClose(s) && Registered(s) && OneRuntimePerId(s) && CloseAwaits(s)
    requires Enabled(s, e)
    ensures Registered(Next(s, e))
  {
    hide Enabled;
    StepSummary(s, e);
    StepAddsSlot(s, e);
    var slots, live := NextSlots(s, e), NextLive(s, e);
    var t := Next(s, e);
    assert t.slots == slots && t.live == live && t.collected == (s.collected || e.CollectClose?);
    hide Next, NextSlots, NextLive, NextOpening, NextAcquirers, NextOperations, NextClosers, NextPeers, NextDetachers, NextTerminators;
    hide Enabled, Summary, SlotsOk, LiveOk, SweptOnlyByClose, OneRuntimePerId, CloseAwaits, RegisteredIn;
    forall i | 0 <= i < |s.slots|
      ensures slots[i].stage == Live && slots[i].disposeCalls == 0 ==> RegisteredIn(live, i, slots[i].id)
      ensures !s.collected && !e.CollectClose? && slots[i].disposing && !slots[i].disposeReturned ==>
                RegisteredIn(live, i, slots[i].id)
    {
      StaysRegistered(s, e, i, slots[i]);
    }
  }

  lemma StepKeepsOneRuntime(s: State, e: Step)
    requires SlotsOk(s) && OpeningOk(s) && SweptOnlyByClose(s) && Registered(s) && OneRuntimePerId(s) && Enabled(s, e)
    ensures OneRuntimePerId(Next(s, e))
  {
    hide Enabled;
    StepSummary(s, e);
    StepAddsSlot(s, e);
    var t := Next(s, e);
    assert t.slots == NextSlots(s, e) && t.collected == (s.collected || e.CollectClose?);
    hide Next, NextSlots, NextLive, Occupied;
    if !t.collected {
      forall i, j | 0 <= i < j < |t.slots| && t.slots[i].id == t.slots[j].id
        ensures !(Occupied(t.slots[i]) && Occupied(t.slots[j]))
      {
        assert Summary(s, e, i, s.slots[i], t.slots[i]);
        if j < |s.slots| {
          assert Summary(s, e, j, s.slots[j], t.slots[j]);
        } else if Occupied(s.slots[i]) {
          OpensUnoccupied(s, e, i);
        }
      }
    }
  }

  /** Where a runtime is asked for, none of that id is occupied. */
  lemma OpensUnoccupied(s: State, e: Step, i: nat)
    requires SlotsOk(s) && OpeningOk(s) && SweptOnlyByClose(s) && Registered(s) && !s.collected
    requires OpensSlot(s, e) && i < |s.slots| && s.slots[i].id == e.acquirer.id
    ensures !Occupied(s.slots[i])
  {
    assert SlotOk(s.slots[i]);
  }

  lemma StepKeepsCloseAwaits(s: State, e: Step)
    requires OpeningOk(s) && SweptOnlyByClose(s) && CloseAwaits(s) && Enabled(s, e)
    ensures CloseAwaits(Next(s, e))
  {
    hide NextSlots, NextPeers, NextAcquirers, NextOperations, NextDetachers, NextTerminators;
    StepSummary(s, e);
    StepAddsSlot(s, e);
    var t := Next(s, e);
    assert e.SnapshotAccepted? ==> s.slots[e.slot].stage == Inspecting;
    assert t.collected ==> t.live == map[];
    assert e.CollectClose? ==> e.awaited in s.closers && forall i :: i in e.awaited ==> i < |s.slots| && Settled(s.slots[i]);
    assert forall awaited :: awaited in t.closers ==> awaited in s.closers || (awaited == s.opening.Values && s.closing);
    assert t.collected == (s.collected || e.CollectClose?);
    hide Next, Enabled;
    forall i | 0 <= i < |t.slots| && t.slots[i].stage == Inspecting
      ensures !t.collected && forall awaited :: awaited in t.closers ==> i in awaited
    {
      assert i < |s.slots|;
      assert Summary(s, e, i, s.slots[i], t.slots[i]);
      if s.slots[i].stage == Inspecting {
        assert s.opening[s.slots[i].id] == i && i in s.opening.Values;
      }
    }
  }

  lemma StepKeepsAcquirers(s: State, e: Step)
    requires LiveOk(s) && OpeningOk(s) && AcquirersOk(s) && Enabled(s, e)
    ensures AcquirersOk(Next(s, e))
  {
    StepSummary(s, e);
    StepAddsSlot(s, e);
    PeersStay(s, e);
    var t := Next(s, e);
    if e.RequestSession? {
      assert e.connection in s.peers;
    } else if e.Look? || e.ResumeAfterDisposal? || e.ResumeAfterOpening? || e.Attach? {
      ResumedIsOk(s, e);
      assert e.acquirer in s.acquirers;
    }
    hide NextSlots, NextLive, NextOpening, NextPeers, NextOperations, NextClosers, NextDetachers, NextTerminators;
    hide Enabled, WaitAfter;
    forall a | a in t.acquirers ensures AcquirerOk(t, a) {
      if a in s.acquirers {
        assert AcquirerOk(s, a);
        if a.wait != Looking {
          assert Summary(s, e, a.wait.slot, s.slots[a.wait.slot], t.slots[a.wait.slot]);
        }
      }
    }
  }

  lemma PeersStay(s: State, e: Step)
    requires Enabled(s, e)
    ensures s.peers.Keys <= NextPeers(s, e).Keys
  {
  }

  lemma ResumedIsOk(s: State, e: Step)
    requires LiveOk(s) && OpeningOk(s) && AcquirersOk(s) && Enabled(s, e)
    requires e.Look? || e.ResumeAfterDisposal? || e.ResumeAfterOpening? || e.Attach?
    ensures WaitAfter(s, e).Some? ==> AcquirerOk(Next(s, e), e.acquirer.(wait := WaitAfter(s, e).value))
  {
    StepSummary(s, e);
    StepAddsSlot(s, e);
    PeersStay(s, e);
    assert AcquirerOk(s, e.acquirer);
    hide NextSlots, NextLive, NextOpening, NextPeers, NextOperations, NextClosers, NextDetachers, NextTerminators, NextAcquirers;
  }

  lemma {:induction false} EveryRunKeepsLife(ss: seq<State>, es: seq<Step>, n: nat)
    requires Run(ss, es) && n < |ss|
    ensures LifeInv(ss[n])
  {
    if n > 0 {
      EveryRunKeepsLife(ss, es, n - 1);
      var s, e := ss[n - 1], es[n - 1];
      StepKeepsSlots(s, e);
      StepKeepsOperations(s, e);
      StepKeepsSwept(s, e);
      StepKeepsLive(s, e);
      StepKeepsOpening(s, e);
      StepKeepsRegistered(s, e);
      StepKeepsOneRuntime(s, e);
      StepKeepsCloseAwaits(s, e);
      StepKeepsAcquirers(s, e);
    }
    hide Next;
  }

  // ---------------------------------------------------------------------------------------
  // Exclusive runtimes, disposed once

  /** Until close() collects the sessions, the service is never asked for a runtime of an id while an
      earlier runtime of that id is requested, open, or still being disposed. */
  lemma NeverAskedTwice(ss: seq<State>, es: seq<Step>, n: nat, i: nat)
    requires Run(ss, es) && n < |es| && !ss[n].collected
    requires OpensSlot(ss[n], es[n])
    requires i < |ss[n].slots| && ss[n].slots[i].id == es[n].acquirer.id
    ensures !Occupied(ss[n].slots[i])
    ensures ss[n + 1].slots == ss[n].slots + [NewSlot(es[n].acquirer.id)]
  {
    EveryRunKeepsLife(ss, es, n);
    StepAddsSlot(ss[n], es[n]);
    assert SlotOk(ss[n].slots[i]);
  }

  /** Over whole runs, close() included, no runtime has dispose called twice; and when close() has
      collected and no create() is under way, every runtime ever obtained has had it called once. */
  lemma DisposedExactlyOnce(ss: seq<State>, es: seq<Step>, n: nat, i: nat)
    requires Run(ss, es) && n < |ss| && i < |ss[n].slots|
    ensures ss[n].slots[i].disposeCalls <= 1
    ensures ss[n].slots[i].disposeCalls == 1 ==> ss[n].slots[i].obtained
    ensures ss[n].collected && Settled(ss[n].slots[i]) ==>
              (ss[n].slots[i].obtained <==> ss[n].slots[i].disposeCalls == 1)
  {
    EveryRunKeepsLife(ss, es, n);
    assert SlotOk(ss[n].slots[i]);
  }

  // ---------------------------------------------------------------------------------------
  // When disposal starts, and what can follow

  /** A disposal outside close() starts only without connections, without operations in flight, and on a
      session that is idle or terminal. */
  lemma DisposalStartsAtRest(ss: seq<State>, es: seq<Step>, n: nat, i: nat)
    requires Run(ss, es) && n < |es|
    ensures |ss[n].slots| <= |ss[n + 1].slots|
    ensures i < |ss[n].slots| && Newly(ss[n].slots[i], ss[n + 1].slots[i]) ==>
              var slot := ss[n + 1].slots[i];
              && !ss[n].closing
              && slot.connections == {}
              && ss[n + 1].operations[i] == 0
              && (slot.idle || slot.terminal)
              && slot.disposeCalls == 1
  {
    EveryRunKeepsLife(ss, es, n + 1);
    StepMoves(ss[n], es[n]);
    if i < |ss[n].slots| {
      assert SlotMove(ss[n], es[n], i, ss[n].slots[i], ss[n + 1].slots[i]);
      assert SlotOk(ss[n + 1].slots[i]);
    }
    hide SlotOk, Next, Enabled;
  }

  lemma {:induction false} SlotsLast(ss: seq<State>, es: seq<Step>, m: nat, n: nat, i: nat)
    requires Run(ss, es) && m <= n < |ss| && i < |ss[m].slots|
    ensures i < |ss[n].slots| && Outlasts(ss[m].slots[i], ss[n].slots[i])
    decreases n - m
  {
    hide *;
    if m < n {
      SlotsLast(ss, es, m, n - 1, i);
      RunSlotLasts(ss, es, n - 1, i);
      OutlastsIsTransitive(ss[m].slots[i], ss[n - 1].slots[i], ss[n].slots[i]);
    } else {
      OutlastsIsTransitive(ss[m].slots[i], ss[m].slots[i], ss[m].slots[i]);
    }
  }

  lemma OutlastsIsTransitive(a: Slot, b: Slot, c: Slot)
    requires a == b || Outlasts(a, b)
    requires b == c || Outlasts(b, c)
    ensures Outlasts(a, c)
  {
  }

  lemma RunSlotLasts(ss: seq<State>, es: seq<Step>, k: nat, i: nat)
    requires Run(ss, es) && k + 1 < |ss| && i < |ss[k].slots|
    ensures i < |ss[k + 1].slots| && Outlasts(ss[k].slots[i], ss[k + 1].slots[i])
  {
    SlotLasts(ss[k], es[k], ss[k + 1], i);
  }

  /** What never changes back in a session. */
  predicate Outlasts(a: Slot, b: Slot) {
    a.id == b.id && (a.disposing ==> b.disposing) && (a.terminal ==> b.terminal)
  }

  lemma SlotLasts(s: State, e: Step, t: State, i: nat)
    requires Enabled(s, e) && t == Next(s, e) && i < |s.slots|
    ensures i < |t.slots| && Outlasts(s.slots[i], t.slots[i])
  {
    StepSummary(s, e);
    hide NextSlots, Enabled;
  }

  /** Once disposal of a session has started, no operation is in flight on it or starts on it again. */
  lemma NoOperationAfterDisposal(ss: seq<State>, es: seq<Step>, m: nat, n: nat, i: nat)
    requires Run(ss, es) && m <= n < |es| && i < |ss[m].slots| && ss[m].slots[i].disposing
    ensures ss[n].operations[i] == 0
    ensures es[n].StartOperation? ==> ss[n].live[es[n].id] != i
  {
    SlotsLast(ss, es, m, n, i);
    EveryRunKeepsLife(ss, es, n);
    assert SlotOk(ss[n].slots[i]);
  }

  // ---------------------------------------------------------------------------------------
  // No disposal is lost

  /** Some handler is still going to run maybeDispose(), or a step that makes it unnecessary. */
  ghost predicate Ahead(s: State, i: nat)
    requires i < |s.slots|
  {
    || (exists a :: a in s.acquirers && a.wait == Holding(i))
    || (exists a :: a in s.acquirers && a.wait == ForOpening(i, true))
    || i in s.terminators
    || (s.slots[i].subscribed && s.slots[i].eventDue)
  }

  ghost predicate NothingLost(s: State) {
    forall i :: 0 <= i < |s.slots| && Disposable(s.closing, s.slots[i]) ==> Ahead(s, i)
  }

  ghost predicate OwnerWaits(s: State, i: nat) {
    exists a :: a in s.acquirers && a.wait == ForOpening(i, true)
  }

  ghost predicate OwnersOk(s: State) {
    forall i :: 0 <= i < |s.slots| && Unsettled(s.slots[i]) ==> OwnerWaits(s, i)
  }

  /** Every connection of a session that was not disposed is alive and knows the session, so that its
      disconnecting will take it out again. */
  ghost predicate PeersOk(s: State) {
    forall i, c :: 0 <= i < |s.slots| && c in s.slots[i].connections
                   && s.slots[i].stage == Live && s.slots[i].disposeCalls == 0 ==>
      Knows(s.peers, c, s.slots[i].id)
  }

  ghost predicate Knows(peers: map<Connection, Peer>, c: Connection, id: Id) {
    c in peers && !peers[c].disconnected && id in peers[c].sessionIds
  }

  lemma WaitersStay(s: State, e: Step, a: Acquirer)
    requires Enabled(s, e) && a in s.acquirers
    requires e.Look? || e.ResumeAfterDisposal? || e.ResumeAfterOpening? || e.Attach? ==> e.acquirer != a
    ensures a in NextAcquirers(s, e)
  {
  }

  lemma StepKeepsOwners(s: State, e: Step)
    requires OwnersOk(s) && Enabled(s, e)
    ensures OwnersOk(Next(s, e))
  {
    IdsStay(s, e);
    StepAddsSlot(s, e);
    var t := Next(s, e);
    forall i | 0 <= i < |t.slots| && Unsettled(t.slots[i]) ensures OwnerWaits(t, i) {
      if i < |s.slots| {
        var a :| a in s.acquirers && a.wait == ForOpening(i, true);
        OwnerIsNotResumed(s, e, i, a);
        WaitersStay(s, e, a);
      } else {
        assert e.acquirer.(wait := ForOpening(i, true)) in t.acquirers;
      }
    }
  }

  lemma OwnerIsNotResumed(s: State, e: Step, i: nat, a: Acquirer)
    requires Enabled(s, e) && a in s.acquirers && a.wait == ForOpening(i, true) && i < |s.slots| && Unsettled(s.slots[i])
    ensures e.Look? || e.ResumeAfterDisposal? || e.ResumeAfterOpening? || e.Attach? ==> e.acquirer != a
  {
  }

  lemma AttachKeepsPeers(s: State, e: Step, i: nat, c: Connection)
    requires LifeInv(s) && PeersOk(s) && Enabled(s, e) && e.Attach? && i < |s.slots|
    requires i < |NextSlots(s, e)| && SlotMove(s, e, i, s.slots[i], NextSlots(s, e)[i])
    requires var b := NextSlots(s, e)[i]; c in b.connections && b.stage == Live && b.disposeCalls == 0
    ensures Knows(NextPeers(s, e), c, s.slots[i].id)
  {
    AttachAdds(s, e, i, c);
    assert c in s.slots[i].connections ==> Knows(s.peers, c, s.slots[i].id) by {
      assert s.slots[i].stage == Live && s.slots[i].disposeCalls == 0;
    }
    hide NextSlots, SlotMove, LifeInv, PeersOk;
  }

  lemma AttachAdds(s: State, e: Step, i: nat, c: Connection)
    requires Enabled(s, e) && e.Attach? && i < |s.slots| && i < |NextSlots(s, e)| && c in NextSlots(s, e)[i].connections
    ensures c in s.slots[i].connections
            || (c == e.acquirer.connection && i == e.acquirer.wait.slot && MayAttach(s.peers[c]))
  {
  }

  lemma DisconnectKeepsPeers(s: State, e: Step, i: nat, c: Connection)
    requires LifeInv(s) && PeersOk(s) && Enabled(s, e) && e.Disconnect? && i < |s.slots| && i < |NextSlots(s, e)|
    requires var b := NextSlots(s, e)[i]; c in b.connections && b.stage == Live && b.disposeCalls == 0
    requires SlotMove(s, e, i, s.slots[i], NextSlots(s, e)[i])
    ensures Knows(NextPeers(s, e), c, s.slots[i].id)
  {
    assert SlotOk(s.slots[i]);
    assert Knows(s.peers, c, s.slots[i].id);
    assert RegisteredIn(s.live, i, s.slots[i].id);
    if c == e.connection {
      DisconnectedIsOut(s, e, i);
    }
    hide NextSlots, SlotMove, LifeInv, PeersOk;
  }

  lemma DisconnectedIsOut(s: State, e: Step, i: nat)
    requires Enabled(s, e) && e.Disconnect? && i < |s.slots| && i < |NextSlots(s, e)|
    requires Knows(s.peers, e.connection, s.slots[i].id) && RegisteredIn(s.live, i, s.slots[i].id)
    ensures e.connection !in NextSlots(s, e)[i].connections
  {
    assert i in SessionsOf(s, e.connection);
  }

  lemma DetachKeepsPeers(s: State, e: Step, i: nat, c: Connection)
    requires LifeInv(s) && PeersOk(s) && Enabled(s, e) && e.Detach? && i < |s.slots| && i < |NextSlots(s, e)|
    requires var b := NextSlots(s, e)[i]; c in b.connections && b.stage == Live && b.disposeCalls == 0
    requires SlotMove(s, e, i, s.slots[i], NextSlots(s, e)[i])
    ensures Knows(NextPeers(s, e), c, s.slots[i].id)
  {
    assert SlotOk(s.slots[i]);
    assert Knows(s.peers, c, s.slots[i].id);
    assert RegisteredIn(s.live, i, s.slots[i].id);
    if s.slots[i].id == e.id {
      DetachedIsOut(s, e, i);
    }
    hide NextSlots, SlotMove, LifeInv, PeersOk;
  }

  lemma DetachedIsOut(s: State, e: Step, i: nat)
    requires Enabled(s, e) && e.Detach? && i < |s.slots| && i < |NextSlots(s, e)| && RegisteredIn(s.live, i, e.id)
    ensures e.connection !in NextSlots(s, e)[i].connections
  {
  }

  lemma OthersKeepPeers(s: State, e: Step, i: nat, c: Connection, b: Slot)
    requires SlotsOk(s) && PeersOk(s) && Enabled(s, e) && !e.Attach? && !e.Disconnect? && !e.Detach? && i < |s.slots|
    requires SlotMove(s, e, i, s.slots[i], b) && c in b.connections && b.stage == Live && b.disposeCalls == 0
    ensures Knows(NextPeers(s, e), c, s.slots[i].id)
  {
    assert SlotOk(s.slots[i]);
  }

  lemma StepKeepsPeers(s: State, e: Step)
    requires LifeInv(s) && PeersOk(s) && Enabled(s, e)
    ensures PeersOk(Next(s, e))
  {
    StepMoves(s, e);
    StepAddsSlot(s, e);
    var slots, peers := NextSlots(s, e), NextPeers(s, e);
    var t := Next(s, e);
    assert t.slots == slots && t.peers == peers;
    hide Next, NextSlots, NextPeers, Enabled, SlotMove, Knows;
    forall i, c | 0 <= i < |s.slots| && c in slots[i].connections && slots[i].stage == Live && slots[i].disposeCalls == 0
      ensures slots[i].id == s.slots[i].id && Knows(peers, c, slots[i].id)
    {
      SlotKeepsPeer(s, e, i, c);
    }
  }

  lemma SlotKeepsPeer(s: State, e: Step, i: nat, c: Connection)
    requires LifeInv(s) && PeersOk(s) && Enabled(s, e) && i < |s.slots| && SlotsMove(s, e, NextSlots(s, e))
    requires var b := NextSlots(s, e)[i]; c in b.connections && b.stage == Live && b.disposeCalls == 0
    ensures NextSlots(s, e)[i].id == s.slots[i].id && Knows(NextPeers(s, e), c, s.slots[i].id)
  {
    assert SlotMove(s, e, i, s.slots[i], NextSlots(s, e)[i]);
    if e.Attach? {
      AttachKeepsPeers(s, e, i, c);
    } else if e.Disconnect? {
      DisconnectKeepsPeers(s, e, i, c);
    } else if e.Detach? {
      DetachKeepsPeers(s, e, i, c);
    } else {
      OthersKeepPeers(s, e, i, c, NextSlots(s, e)[i]);
    }
    hide NextSlots, NextPeers, Enabled, LifeInv, PeersOk;
  }

  /** The step runs maybeDispose() on this session, or takes a connection into it. */
  predicate Checks(s: State, e: Step, i: nat)
    requires Enabled(s, e)
  {
    match e
    case Attach(a) => a.wait == Holding(i)
    case EndOperation(j) => j == i
    case RuntimeEvent(j) => j == i
    case FinishTerminate(j) => j == i
    case Detach(c, id) => id in s.live && s.live[id] == i
    case Disconnect(c) => !s.peers[c].disconnected && i in SessionsOf(s, c)
    case _ => false
  }

  lemma CheckedIsNotLeft(s: State, e: Step, i: nat)
    requires Enabled(s, e) && Checks(s, e, i) && i < |s.slots|
    ensures !Disposable(s.closing, NextSlots(s, e)[i])
  {
  }

  lemma UncheckedKeepsConnections(s: State, e: Step, i: nat, b: Slot)
    requires Enabled(s, e) && !Checks(s, e, i) && i < |s.slots|
    requires SlotMove(s, e, i, s.slots[i], b) && i < |NextSlots(s, e)| && b == NextSlots(s, e)[i]
    ensures b.connections == s.slots[i].connections
  {
    if !e.Attach? && !e.Detach? && !e.Disconnect? {
      hide NextSlots, Checks;
    } else {
      hide SlotMove;
    }
  }

  lemma KeepsWaiter(s: State, e: Step, i: nat, a: Acquirer)
    requires Enabled(s, e) && a in s.acquirers && !Checks(s, e, i)
    requires a.wait == Holding(i) || a.wait == ForOpening(i, true)
    requires i < |s.slots| && s.slots[i].stage == Live
    ensures exists b :: b in NextAcquirers(s, e) && (b.wait == Holding(i) || b.wait == ForOpening(i, true))
  {
    if e.ResumeAfterOpening? && e.acquirer == a {
      assert a.(wait := Holding(i)) in NextAcquirers(s, e);
    } else {
      WaitersStay(s, e, a);
    }
  }

  /** What was ahead of a session stays ahead of it, unless the step is the check itself. */
  lemma KeepsAhead(s: State, e: Step, i: nat, b: Slot, t: State)
    requires Enabled(s, e) && t == Next(s, e) && i < |s.slots| && i < |t.slots| && b == t.slots[i]
    requires Ahead(s, i) && !Checks(s, e, i)
    requires SlotMove(s, e, i, s.slots[i], b) && Disposable(s.closing || e.BeginClosing?, b)
    requires SlotOk(s.slots[i]) && !e.CollectClose? && s.slots[i].stage == Live
    ensures Ahead(t, i)
  {
    if a :| a in s.acquirers && (a.wait == Holding(i) || a.wait == ForOpening(i, true)) {
      KeepsWaiter(s, e, i, a);
    }
    hide NextSlots, NextPeers, NextLive, NextOpening, NextOperations, NextClosers, NextDetachers, NextAcquirers;
  }

  /** Whatever makes a session disposable leaves a check ahead of it. */
  lemma BecomesAhead(s: State, e: Step, i: nat, b: Slot)
    requires Enabled(s, e) && i < |s.slots| && i < |NextSlots(s, e)| && b == NextSlots(s, e)[i]
    requires SlotsOk(s) && SweptOnlyByClose(s) && OwnersOk(s)
    requires !Disposable(s.closing, s.slots[i]) && !Checks(s, e, i)
    requires SlotMove(s, e, i, s.slots[i], b) && Disposable(s.closing || e.BeginClosing?, b)
    ensures Ahead(Next(s, e), i)
  {
    UncheckedKeepsConnections(s, e, i, b);
    var t := Next(s, e);
    assert SlotOk(s.slots[i]);
    if e.SnapshotAccepted? && e.slot == i {
      assert OwnerWaits(s, i);
      var a :| a in s.acquirers && a.wait == ForOpening(i, true);
      WaitersStay(s, e, a);
    }
    hide NextSlots, NextPeers, NextLive, NextOpening, NextAcquirers, NextOperations, NextClosers, NextDetachers;
  }

  lemma StepKeepsNothingLost(s: State, e: Step)
    requires LifeInv(s) && NothingLost(s) && OwnersOk(s) && Enabled(s, e)
    ensures NothingLost(Next(s, e))
  {
    hide Resume, DisposeOne, WithoutConnection, SessionsOf, SweepEach;
    StepMoves(s, e);
    StepAddsSlot(s, e);
    var t := Next(s, e);
    forall i | 0 <= i < |t.slots| && Disposable(t.closing, t.slots[i]) ensures Ahead(t, i) {
      assert i < |s.slots|;
      assert SlotMove(s, e, i, s.slots[i], t.slots[i]);
      assert SlotOk(s.slots[i]);
      if Checks(s, e, i) {
        CheckedIsNotLeft(s, e, i);
      } else if Disposable(s.closing, s.slots[i]) {
        KeepsAhead(s, e, i, t.slots[i], t);
      } else {
        BecomesAhead(s, e, i, t.slots[i]);
      }
    }
  }

  lemma {:induction false} EveryRunKeepsChecks(ss: seq<State>, es: seq<Step>, n: nat)
    requires Run(ss, es) && n < |ss|
    ensures OwnersOk(ss[n]) && PeersOk(ss[n]) && NothingLost(ss[n])
  {
    if n > 0 {
      EveryRunKeepsChecks(ss, es, n - 1);
      EveryRunKeepsLife(ss, es, n - 1);
      StepKeepsChecks(ss[n - 1], es[n - 1]);
    }
    hide Next, Enabled, LifeInv;
  }

  lemma StepKeepsChecks(s: State, e: Step)
    requires LifeInv(s) && OwnersOk(s) && PeersOk(s) && NothingLost(s) && Enabled(s, e)
    ensures OwnersOk(Next(s, e)) && PeersOk(Next(s, e)) && NothingLost(Next(s, e))
  {
    hide *;
    StepKeepsOwners(s, e);
    StepKeepsPeers(s, e);
    StepKeepsNothingLost(s, e);
  }

  /** In every state of every run each session that may be disposed has a handler ahead of it that will check it,
      or attach to it. */
  lemma EveryDisposableIsAhead(ss: seq<State>, es: seq<Step>, n: nat, i: nat)
    requires Run(ss, es) && n < |ss| && i < |ss[n].slots| && Disposable(ss[n].closing, ss[n].slots[i])
    ensures Ahead(ss[n], i)
  {
    EveryRunKeepsChecks(ss, es, n);
  }

  /** So with no handler ahead of it, a session that is still open has a connection, an operation in flight, or
      work to do; and each of its connections is alive and will take itself out when it disconnects. */
  lemma NoDisposalIsLost(ss: seq<State>, es: seq<Step>, n: nat, i: nat)
    requires Run(ss, es) && n < |ss| && i < |ss[n].slots| && !Ahead(ss[n], i)
    requires !ss[n].closing && ss[n].slots[i].obtained && ss[n].slots[i].disposeCalls == 0
    ensures var slot := ss[n].slots[i];
            && slot.stage == Live
            && (slot.connections != {} || slot.operationCount > 0 || (!slot.idle && !slot.terminal))
    ensures forall c :: c in ss[n].slots[i].connections ==>
              c in ss[n].peers && !ss[n].peers[c].disconnected && i in SessionsOf(ss[n], c)
  {
    EveryRunKeepsLife(ss, es, n);
    EveryRunKeepsChecks(ss, es, n);
    AtRest(ss[n], i);
  }

  lemma AtRest(s: State, i: nat)
    requires LifeInv(s) && OwnersOk(s) && PeersOk(s) && NothingLost(s) && i < |s.slots| && !Ahead(s, i)
    requires !s.closing && s.slots[i].obtained && s.slots[i].disposeCalls == 0
    ensures s.slots[i].stage == Live && !Disposable(s.closing, s.slots[i]) && !s.slots[i].disposing
    ensures forall c :: c in s.slots[i].connections ==>
              c in s.peers && !s.peers[c].disconnected && i in SessionsOf(s, c)
  {
    var slot := s.slots[i];
    assert SlotOk(slot);
    assert !OwnerWaits(s, i);
    forall c | c in slot.connections ensures c in s.peers && !s.peers[c].disconnected && i in SessionsOf(s, c) {
      assert Knows(s.peers, c, slot.id);
      assert RegisteredIn(s.live, i, slot.id);
    }
  }

  // ---------------------------------------------------------------------------------------
  // A session that is being disposed can gain a connection

  /** It does in a step if and only if an acquirer that still holds it attaches, with a connection that may and
      that it does not have yet. */
  lemma DisposingGainsIff(ss: seq<State>, es: seq<Step>, n: nat, i: nat)
    requires Run(ss, es) && n < |es| && i < |ss[n].slots| && ss[n].slots[i].disposing
    ensures i < |ss[n + 1].slots|
    ensures !(ss[n + 1].slots[i].connections <= ss[n].slots[i].connections) <==>
            && es[n].Attach? && es[n].acquirer.wait == Holding(i) && MayAttach(ss[n].peers[es[n].acquirer.connection])
            && es[n].acquirer.connection !in ss[n].slots[i].connections
  {
    var s, e := ss[n], es[n];
    assert Enabled(s, e) && ss[n + 1] == Next(s, e) && ss[n + 1].slots == NextSlots(s, e);
    StepMoves(s, e);
    assert SlotMove(s, e, i, s.slots[i], NextSlots(s, e)[i]);
    if e.Attach? && e.acquirer.wait == Holding(i) {
      AttachGains(s, e, i);
    }
    hide Next, Enabled, NextSlots, Run;
  }

  lemma AttachGains(s: State, e: Step, i: nat)
    requires Enabled(s, e) && e.Attach? && e.acquirer.wait == Holding(i) && i < |s.slots| && i < |NextSlots(s, e)|
    ensures !(NextSlots(s, e)[i].connections <= s.slots[i].connections) <==>
            MayAttach(s.peers[e.acquirer.connection]) && e.acquirer.connection !in s.slots[i].connections
  {
  }

  // The run that shows it

  predicate Takes(s: State, e: Step, t: State) {
    Enabled(s, e) && t == Next(s, e)
  }

  lemma TakesMakeARun(ss: seq<State>, es: seq<Step>)
    requires |ss| == |es| + 1 && ss[0] == INITIAL && forall k :: 0 <= k < |es| ==> Takes(ss[k], es[k], ss[k + 1])
    ensures Run(ss, es)
  {
    forall k | 0 <= k < |es| ensures Enabled(ss[k], es[k]) && ss[k + 1] == Next(ss[k], es[k]) {
      assert Takes(ss[k], es[k], ss[k + 1]);
    }
    hide Next, Enabled;
  }

  const CONNECTED := INITIAL.(peers := map[0 := Peer(true, false, false, {})])
  const ASKING := CONNECTED.(acquirers := multiset{Acquirer(0, "id", Looking)})
  const OPENING :=
    CONNECTED.(slots := [NewSlot("id")], opening := map["id" := 0], acquirers := multiset{Acquirer(0, "id", ForOpening(0, true))})
  const OBTAINED := OPENING.(slots := [NewSlot("id").(stage := Inspecting, obtained := true, idle := true)])
  const LIVE_SLOT := NewSlot("id").(stage := Live, obtained := true, idle := true, subscribed := true)
  const OPENED := OBTAINED.(slots := [LIVE_SLOT], live := map["id" := 0])
  const DISPOSING := OPENED.(slots := [Dispose(LIVE_SLOT)])
  const HELD := DISPOSING.(opening := map[], acquirers := multiset{Acquirer(0, "id", Holding(0))})
  const ATTACHED :=
    HELD.(slots := [Dispose(LIVE_SLOT).(connections := {0})], peers := map[0 := Peer(true, false, false, {"id"})], acquirers := multiset{})

  lemma SessionIsAskedFor()
    ensures Takes(INITIAL, Connect(0), CONNECTED)
    ensures Takes(CONNECTED, RequestSession(0, "id"), ASKING)
  {
  }

  lemma SessionOpens()
    ensures Takes(ASKING, Look(Acquirer(0, "id", Looking)), OPENING)
  {
  }

  lemma RuntimeIsObtained()
    ensures Takes(OPENING, RuntimeObtained(0, true), OBTAINED)
  {
  }

  lemma SessionIsLive()
    ensures Takes(OBTAINED, SnapshotAccepted(0), OPENED)
  {
  }

  lemma SessionIsDisposed()
    ensures Takes(OPENED, RuntimeEvent(0), DISPOSING)
    ensures DISPOSING.slots == [Dispose(LIVE_SLOT)] && Dispose(LIVE_SLOT).disposing && Dispose(LIVE_SLOT).connections == {}
  {
    hide NextOpening, NextPeers, NextAcquirers, NextOperations, NextDetachers, NextTerminators, NextClosers, NextLive;
    assert NextSlots(OPENED, RuntimeEvent(0)) == DISPOSING.slots;
    OtherwiseUnchanged();
  }

  lemma OtherwiseUnchanged()
    ensures Enabled(OPENED, RuntimeEvent(0)) && Next(OPENED, RuntimeEvent(0)) == OPENED.(slots := NextSlots(OPENED, RuntimeEvent(0)))
  {
    hide NextSlots;
  }

  lemma AcquirerHolds()
    ensures Takes(DISPOSING, ResumeAfterOpening(Acquirer(0, "id", ForOpening(0, true))), HELD) && HELD.slots == DISPOSING.slots
  {
    assert (map["id" := 0] - {"id"}) == map[];
  }

  lemma AcquirerAttaches()
    ensures Takes(HELD, Attach(Acquirer(0, "id", Holding(0))), ATTACHED)
    ensures ATTACHED.slots == [Dispose(LIVE_SLOT).(connections := {0})] && ATTACHED.slots[0].disposing
  {
    var e := Attach(Acquirer(0, "id", Holding(0)));
    var waiting := Acquirer(0, "id", Holding(0));
    assert HELD.acquirers == multiset{waiting} && waiting.wait == Holding(0);
    assert NextAcquirers(HELD, e) == multiset{};
    assert HELD.peers[0].sessionIds + {"id"} == {"id"} && HELD.slots[0].connections + {0} == {0};
    assert NextPeers(HELD, e) == ATTACHED.peers;
    assert NextSlots(HELD, e) == ATTACHED.slots;
  }

  /** The first event of an idle runtime comes before the acquirer goes on: the session is disposed, and then
      gains its connection. */
  lemma ADisposingSessionGainsAConnection() returns (ss: seq<State>, es: seq<Step>)
    ensures Run(ss, es) && |es| == 8 && es[7].Attach?
    ensures |ss[7].slots| == |ss[8].slots| == 1 && ss[7].slots[0].disposing
    ensures ss[7].slots[0].connections == {} && ss[8].slots[0].connections == {0} && ss[8].slots[0].disposing
  {
    hide *;
    SessionIsAskedFor();
    SessionOpens();
    RuntimeIsObtained();
    SessionIsLive();
    SessionIsDisposed();
    AcquirerHolds();
    AcquirerAttaches();
    ss := [INITIAL, CONNECTED, ASKING, OPENING, OBTAINED, OPENED, DISPOSING, HELD, ATTACHED];
    es := [Connect(0), RequestSession(0, "id"), Look(Acquirer(0, "id", Looking)), RuntimeObtained(0, true), SnapshotAccepted(0),
           RuntimeEvent(0), ResumeAfterOpening(Acquirer(0, "id", ForOpening(0, true))), Attach(Acquirer(0, "id", Holding(0)))];
    assert forall k :: 0 <= k < |es| ==> Takes(ss[k], es[k], ss[k + 1]);
    TakesMakeARun(ss, es);
  }
}
