/**
 The child-process supervisor: callers queue requests without blocking, one worker executes them one at a
 time against the current child, and a caller's cancellation races the worker through one atomic state.
 */
module Supervisor {
  import opened Options

  type CallId = nat
  type ChildId = nat
  type RequestId = nat

  /** The atomic state of a call. */
  datatype CallState = Queued | Executing | Cancelled | Finished

  /** `results` counts the values the worker put in the call's one-place result channel. */
  datatype Call = Call(state: CallState, contextDone: bool, returned: bool, executions: nat, results: nat)

  /** How far the reader of a child's output is with a reverse request bound to the parent `id`: it looks
      at the current child, then at the active parent, then at the flag of the running handler. */
  datatype Dispatch = Quiet | SawCurrent(id: RequestId) | SawParent(id: RequestId)

  datatype Handler = NoHandler | Running(id: RequestId) | Answering(id: RequestId)

  /** The fields guarded by one child's mutex, its exit, and the reverse request it is being served. */
  datatype Child = Child(
    pending: map<RequestId, CallId>,
    parent: Option<RequestId>,
    exited: bool,
    dispatch: Dispatch,
    handler: Handler)

  /** What a request id was given out for. */
  datatype Issue = Issue(child: ChildId, call: CallId)

  datatype Worker =
    | Idle
    | Taken(call: CallId)
    | Starting(call: CallId)
    | Choosing(call: CallId)
    | Chosen(call: CallId, child: ChildId)
    | Registered(call: CallId, child: ChildId, id: RequestId)
    | Awaiting(call: CallId, child: ChildId, id: RequestId)
    | Unregistering(call: CallId, child: ChildId, id: RequestId)
    | Replying(call: CallId)
    | Gone

  datatype Frame = Frame(child: ChildId, id: RequestId, call: CallId)

  /** The answer to a reverse request that was bound to the parent `id`. */
  datatype Reply = Reply(child: ChildId, id: RequestId)

  datatype State = State(
    bound: nat,
    calls: map<CallId, Call>,
    queue: seq<CallId>,
    worker: Worker,
    current: Option<ChildId>,
    children: map<ChildId, Child>,
    issued: seq<Issue>,
    stopped: bool,
    frames: seq<Frame>,
    replies: seq<Reply>)
  {
    function Set(c: CallId, call: Call): State {
      this.(calls := calls[c := call])
    }

    function SetChild(k: ChildId, child: Child): State {
      this.(children := children[k := child])
    }
  }

  /** What callers, contexts and Close do. */
  datatype CallerStep =
    | Submit(call: CallId)
    | ContextEnds(call: CallId)
    | CallerCancels(call: CallId)
    | CallerReturns(call: CallId)
    | Close

  /** What the one worker does, `execute` included. */
  datatype WorkerStep =
    | Take
    | Swap
    | CheckContext
    | UseChild
    | SpawnChild(child: ChildId)
    | NoChild
    | Register
    | WriteFrame
    | SkipFrame
    | StopWaiting
    | Unregister
    | Respond
    | WorkerStops

  /** What a child, its output reader and its reverse handler do. */
  datatype ChildStep =
    | ChildExits(child: ChildId)
    | Reap(child: ChildId)
    | SeeCurrent(child: ChildId, id: RequestId)
    | SeeParent(child: ChildId)
    | BeginReverse(child: ChildId)
    | SeeStillActive(child: ChildId)
    | WriteReply(child: ChildId)
    | DropReverse(child: ChildId)

  datatype Action = ByCaller(caller: CallerStep) | ByWorker(worker: WorkerStep) | ByChild(child: ChildStep)

  predicate CallerEnabled(s: State, a: CallerStep) {
    match a
    // Go's select may take the queue branch even after Close; a full queue fails at once.
    case Submit(c) => c !in s.calls && |s.queue| < s.bound
    case ContextEnds(c) => c in s.calls
    case CallerCancels(c) => c in s.calls && s.calls[c].contextDone && !s.calls[c].returned
    case CallerReturns(c) => c in s.calls && !s.calls[c].returned && (s.stopped || s.calls[c].results > 0)
    case Close => !s.stopped
  }

  predicate WorkerEnabled(s: State, a: WorkerStep) {
    match a
    case Take => s.worker.Idle? && s.queue != []
    case Swap => s.worker.Taken? && s.worker.call in s.calls
    case CheckContext => s.worker.Starting? && s.worker.call in s.calls
    case UseChild => s.worker.Choosing? && s.current.Some?
    case SpawnChild(k) => s.worker.Choosing? && s.current.None? && k !in s.children
    case NoChild => s.worker.Choosing? || s.worker.Chosen?
    case Register => s.worker.Chosen? && s.worker.child in s.children
    case WriteFrame => s.worker.Registered?
    case SkipFrame => s.worker.Registered?
    case StopWaiting => s.worker.Awaiting?
    case Unregister => s.worker.Unregistering? && s.worker.child in s.children
    case Respond => s.worker.Replying? && s.worker.call in s.calls
    case WorkerStops => s.worker.Idle? && s.stopped
  }

  predicate ChildEnabled(s: State, a: ChildStep) {
    match a
    case ChildExits(k) => k in s.children
    case Reap(k) => k in s.children && s.children[k].exited && s.current == Some(k)
    case SeeCurrent(k, id) => k in s.children && s.current == Some(k) && s.children[k].dispatch.Quiet?
    case SeeParent(k) => k in s.children && s.children[k].dispatch.SawCurrent?
    case BeginReverse(k) => k in s.children && s.children[k].dispatch.SawParent?
    case SeeStillActive(k) => k in s.children && s.children[k].handler.Running?
    case WriteReply(k) => k in s.children && s.children[k].handler.Answering?
    case DropReverse(k) => k in s.children && s.children[k].handler.Running?
  }

  predicate Enabled(s: State, a: Action) {
    match a
    case ByCaller(c) => CallerEnabled(s, c)
    case ByWorker(w) => WorkerEnabled(s, w)
    case ByChild(k) => ChildEnabled(s, k)
  }

  /** CompareAndSwap on the call's state. */
  function Cas(call: Call, from: CallState, to: CallState): (Call, bool) {
    if call.state == from then (call.(state := to), true) else (call, false)
  }

  function Answer(s: State, c: CallId, call: Call): State {
    s.Set(c, call.(results := call.results + 1)).(worker := Idle)
  }

  function CallerApply(s: State, a: CallerStep): State
    requires CallerEnabled(s, a)
  {
    match a
    case Submit(c) => s.Set(c, Call(Queued, false, false, 0, 0)).(queue := s.queue + [c])
    case ContextEnds(c) => s.Set(c, s.calls[c].(contextDone := true))
    case CallerCancels(c) => s.Set(c, Cas(s.calls[c], Queued, Cancelled).0.(returned := true))
    case CallerReturns(c) => s.Set(c, s.calls[c].(returned := true))
    case Close => s.(stopped := true)
  }

  function WorkerApply(s: State, a: WorkerStep): State
    requires WorkerEnabled(s, a)
  {
    match a
    case Take => s.(worker := Taken(s.queue[0]), queue := s.queue[1..])
    case Swap =>
      var c := s.worker.call;
      var (call, won) := Cas(s.calls[c], Queued, Executing);
      if won then s.Set(c, call.(executions := call.executions + 1)).(worker := Starting(c)) else Answer(s, c, call)
    case CheckContext =>
      var c := s.worker.call;
      if s.calls[c].contextDone then Answer(s, c, s.calls[c].(state := Finished)) else s.(worker := Choosing(c))
    case UseChild => s.(worker := Chosen(s.worker.call, s.current.value))
    case SpawnChild(k) =>
      s.SetChild(k, Child(map[], None, false, Quiet, NoHandler)).(current := Some(k), worker := Chosen(s.worker.call, k))
    case NoChild => s.(worker := Replying(s.worker.call))
    case Register =>
      var w := s.worker;
      var child := s.children[w.child];
      var id := |s.issued|;
      s.SetChild(w.child, child.(pending := child.pending[id := w.call], parent := Some(id)))
      .(issued := s.issued + [Issue(w.child, w.call)], worker := Registered(w.call, w.child, id))
    case WriteFrame =>
      var w := s.worker;
      s.(frames := s.frames + [Frame(w.child, w.id, w.call)], worker := Awaiting(w.call, w.child, w.id))
    case SkipFrame => s.(worker := Unregistering(s.worker.call, s.worker.child, s.worker.id))
    case StopWaiting => s.(worker := Unregistering(s.worker.call, s.worker.child, s.worker.id))
    case Unregister =>
      var w := s.worker;
      var child := s.children[w.child];
      s.SetChild(w.child, child.(pending := child.pending - {w.id},
        parent := if child.parent == Some(w.id) then None else child.parent)).(worker := Replying(w.call))
    case Respond => Answer(s, s.worker.call, s.calls[s.worker.call].(state := Finished))
    case WorkerStops => s.(worker := Gone)
  }

  function ChildApply(s: State, a: ChildStep): State
    requires ChildEnabled(s, a)
  {
    match a
    case ChildExits(k) => s.SetChild(k, s.children[k].(exited := true))
    case Reap(k) => s.(current := None)
    case SeeCurrent(k, id) => s.SetChild(k, s.children[k].(dispatch := SawCurrent(id)))
    case SeeParent(k) =>
      var child := s.children[k];
      var bound := child.parent == Some(child.dispatch.id);
      s.SetChild(k, child.(dispatch := if bound then SawParent(child.dispatch.id) else Quiet))
    case BeginReverse(k) =>
      var child := s.children[k];
      var free := child.handler.NoHandler?;
      s.SetChild(k, child.(dispatch := Quiet, handler := if free then Running(child.dispatch.id) else child.handler))
    case SeeStillActive(k) =>
      var child := s.children[k];
      var active := child.parent == Some(child.handler.id);
      s.SetChild(k, child.(handler := if active then Answering(child.handler.id) else NoHandler))
    case WriteReply(k) =>
      var child := s.children[k];
      s.SetChild(k, child.(handler := NoHandler)).(replies := s.replies + [Reply(k, child.handler.id)])
    case DropReverse(k) => s.SetChild(k, s.children[k].(handler := NoHandler))
  }

  function Apply(s: State, a: Action): State
    requires Enabled(s, a)
  {
    match a
    case ByCaller(c) => CallerApply(s, c)
    case ByWorker(w) => WorkerApply(s, w)
    case ByChild(k) => ChildApply(s, k)
  }

  ghost predicate IsRun(states: seq<State>, actions: seq<Action>) {
    && |states| == |actions| + 1
    && states[0] == State(states[0].bound, map[], [], Idle, None, map[], [], false, [], [])
    && (forall i {:trigger actions[i]} | 0 <= i < |actions| ::
          Enabled(states[i], actions[i]) && states[i + 1] == Apply(states[i], actions[i]))
  }

  // ---- the invariant ----

  /** The worker has taken the call and not yet answered it. */
  predicate Holds(w: Worker, c: CallId) {
    !w.Idle? && !w.Gone? && w.call == c
  }

  predicate HasRequest(w: Worker) {
    w.Registered? || w.Awaiting? || w.Unregistering?
  }

  ghost predicate QueueOk(s: State) {
    && |s.queue| <= s.bound
    && (forall i, j | 0 <= i < j < |s.queue| :: s.queue[i] != s.queue[j])
    && (forall i | 0 <= i < |s.queue| :: s.queue[i] in s.calls && !Holds(s.worker, s.queue[i]))
    && (forall i | 0 <= i < |s.queue| :: Untouched(s.calls[s.queue[i]]))
  }

  /** Not yet looked at by the worker. */
  predicate Untouched(call: Call) {
    (call.state == Queued || call.state == Cancelled) && call.executions == 0 && call.results == 0
  }

  ghost predicate CallOk(s: State, c: CallId, call: Call) {
    && (call.state == Queued || call.state == Cancelled ==> call.executions == 0)
    && (call.state == Executing || call.state == Finished ==> call.executions == 1)
    && (call.state == Queued ==> call.results == 0)
    && (call.state == Executing ==> call.results == 0 && Holds(s.worker, c) && !s.worker.Taken?)
    && call.results <= 1
    && (Holds(s.worker, c) ==> call.results == 0)
    && (Holds(s.worker, c) && !s.worker.Taken? ==> call.state == Executing)
    && (Holds(s.worker, c) && s.worker.Taken? ==> Untouched(call))
  }

  ghost predicate CallsOk(s: State) {
    && (!s.worker.Idle? && !s.worker.Gone? ==> s.worker.call in s.calls)
    && (forall c | c in s.calls :: CallOk(s, c, s.calls[c]))
  }

  /** Only the executing call's request is pending, and only on the worker's child. */
  ghost predicate ChildOk(s: State, k: ChildId, child: Child) {
    if HasRequest(s.worker) && s.worker.child == k
    then child.pending == map[s.worker.id := s.worker.call] && child.parent == Some(s.worker.id)
    else child.pending == map[] && child.parent == None
  }

  ghost predicate ChildrenOk(s: State) {
    && (s.worker.Chosen? || HasRequest(s.worker) ==> s.worker.child in s.children)
    && (s.current.Some? ==> s.current.value in s.children)
    && (forall k | k in s.children :: ChildOk(s, k, s.children[k]))
  }

  /** Every id was given out for a call whose execution began, and the worker uses the newest. */
  ghost predicate IssuedOk(s: State) {
    && (forall i | 0 <= i < |s.issued| :: s.issued[i].call in s.calls && s.calls[s.issued[i].call].executions == 1)
    && (HasRequest(s.worker) ==>
          s.worker.id == |s.issued| - 1 && s.issued[s.worker.id] == Issue(s.worker.child, s.worker.call))
  }

  /** Each frame carries an id of its own, given out for its child and call. */
  ghost predicate FramesOk(s: State) {
    && (forall i | 0 <= i < |s.frames| :: IssuedTo(s, s.frames[i].id, s.frames[i].child))
    && (forall i | 0 <= i < |s.frames| :: s.issued[s.frames[i].id].call == s.frames[i].call)
    && (s.worker.Registered? ==> forall i | 0 <= i < |s.frames| :: s.frames[i].id < s.worker.id)
    && (s.worker.Awaiting? ==> LastFrame(s) == Some(Frame(s.worker.child, s.worker.id, s.worker.call)))
    && (forall i, j | 0 <= i < j < |s.frames| :: s.frames[i].id < s.frames[j].id)
  }

  function LastFrame(s: State): Option<Frame> {
    if s.frames == [] then None else Some(s.frames[|s.frames| - 1])
  }

  ghost predicate IssuedTo(s: State, id: RequestId, k: ChildId) {
    id < |s.issued| && s.issued[id].child == k
  }

  /** A reverse request past the look at the active parent is bound to an id of its own child. */
  ghost predicate ReverseOk(s: State) {
    && (forall k | k in s.children && s.children[k].dispatch.SawParent? :: IssuedTo(s, s.children[k].dispatch.id, k))
    && (forall k | k in s.children && !s.children[k].handler.NoHandler? :: IssuedTo(s, s.children[k].handler.id, k))
    && (forall i | 0 <= i < |s.replies| :: IssuedTo(s, s.replies[i].id, s.replies[i].child))
  }

  /** A call waits, is with the worker, or has its one answer. */
  ghost predicate AnsweredOk(s: State) {
    forall c | c in s.calls :: c in s.queue || Holds(s.worker, c) || s.calls[c].results == 1
  }

  ghost predicate Inv(s: State) {
    AnsweredOk(s) && QueueOk(s) && CallsOk(s) && ChildrenOk(s) && IssuedOk(s) && FramesOk(s) && ReverseOk(s)
  }

  lemma CallerKeepsQueue(s: State, a: CallerStep)
    requires QueueOk(s) && CallsOk(s) && CallerEnabled(s, a)
    ensures QueueOk(CallerApply(s, a))
  {
  }

  /** Callers leave the worker alone; a call they touch stays as it was to the worker or is a new one. */
  lemma CallerKeepsCall(s: State, a: CallerStep, c: CallId)
    requires CallsOk(s) && CallerEnabled(s, a) && c in CallerApply(s, a).calls
    ensures CallOk(CallerApply(s, a), c, CallerApply(s, a).calls[c])
  {
    if c in s.calls {
      assert CallOk(s, c, s.calls[c]);
    }
  }

  lemma CallerKeepsCalls(s: State, a: CallerStep)
    requires CallsOk(s) && CallerEnabled(s, a)
    ensures CallsOk(CallerApply(s, a))
  {
    forall c | c in CallerApply(s, a).calls ensures CallOk(CallerApply(s, a), c, CallerApply(s, a).calls[c]) {
      CallerKeepsCall(s, a, c);
    }
  }

  lemma CallerKeepsChildren(s: State, a: CallerStep)
    requires ChildrenOk(s) && ReverseOk(s) && CallerEnabled(s, a)
    ensures ChildrenOk(CallerApply(s, a)) && ReverseOk(CallerApply(s, a))
  {
  }

  lemma CallerKeepsIssued(s: State, a: CallerStep)
    requires IssuedOk(s) && FramesOk(s) && CallerEnabled(s, a)
    ensures IssuedOk(CallerApply(s, a)) && FramesOk(CallerApply(s, a))
  {
  }

  lemma ChildKeepsCalls(s: State, a: ChildStep)
    requires QueueOk(s) && CallsOk(s) && ChildEnabled(s, a)
    ensures QueueOk(ChildApply(s, a)) && CallsOk(ChildApply(s, a))
  {
  }

  lemma ChildKeepsIssued(s: State, a: ChildStep)
    requires IssuedOk(s) && FramesOk(s) && ChildEnabled(s, a)
    ensures IssuedOk(ChildApply(s, a)) && FramesOk(ChildApply(s, a))
  {
  }

  /** The steps of a handler; the others are those of the reader and of the process. */
  predicate HandlerStep(a: ChildStep) {
    a.BeginReverse? || a.SeeStillActive? || a.WriteReply? || a.DropReverse?
  }

  lemma HandlerKeepsReverse(s: State, a: ChildStep)
    requires ReverseOk(s) && ChildEnabled(s, a) && HandlerStep(a)
    ensures ReverseOk(ChildApply(s, a))
  {
  }

  /** The active parent a reader saw is an id given out for its child. */
  lemma ReaderKeepsReverse(s: State, a: ChildStep)
    requires ChildrenOk(s) && IssuedOk(s) && ReverseOk(s) && ChildEnabled(s, a) && !HandlerStep(a)
    ensures ReverseOk(ChildApply(s, a))
  {
    assert ChildOk(s, a.child, s.children[a.child]);
  }

  lemma ChildKeepsReverse(s: State, a: ChildStep)
    requires ChildrenOk(s) && IssuedOk(s) && ReverseOk(s) && ChildEnabled(s, a)
    ensures ReverseOk(ChildApply(s, a))
  {
    if HandlerStep(a) {
      HandlerKeepsReverse(s, a);
    } else {
      ReaderKeepsReverse(s, a);
    }
  }

  lemma ChildKeepsChildren(s: State, a: ChildStep)
    requires ChildrenOk(s) && ChildEnabled(s, a)
    ensures ChildrenOk(ChildApply(s, a))
  {
  }

  lemma TakeKeepsQueue(s: State)
    requires QueueOk(s) && WorkerEnabled(s, Take)
    ensures QueueOk(WorkerApply(s, Take))
  {
  }

  /** The other steps leave the queue, and what is in it, alone. */
  lemma WorkerKeepsQueue(s: State, a: WorkerStep)
    requires QueueOk(s) && CallsOk(s) && WorkerEnabled(s, a)
    ensures QueueOk(WorkerApply(s, a))
  {
    if a.Take? {
      TakeKeepsQueue(s);
    }
  }

  predicate TouchesCalls(a: WorkerStep) {
    a.Swap? || a.CheckContext? || a.Respond?
  }

  lemma TouchedCallOk(s: State, a: WorkerStep, c: CallId)
    requires CallsOk(s) && WorkerEnabled(s, a) && TouchesCalls(a) && c in s.calls
    ensures c in WorkerApply(s, a).calls && CallOk(WorkerApply(s, a), c, WorkerApply(s, a).calls[c])
  {
    assert CallOk(s, c, s.calls[c]);
  }

  lemma UntouchedCallOk(s: State, a: WorkerStep, c: CallId)
    requires QueueOk(s) && CallsOk(s) && WorkerEnabled(s, a) && !TouchesCalls(a) && c in s.calls
    ensures WorkerApply(s, a).calls == s.calls && CallOk(WorkerApply(s, a), c, s.calls[c])
  {
    assert CallOk(s, c, s.calls[c]);
  }

  lemma WorkerKeepsCalls(s: State, a: WorkerStep)
    requires QueueOk(s) && CallsOk(s) && WorkerEnabled(s, a)
    ensures CallsOk(WorkerApply(s, a))
  {
    var s' := WorkerApply(s, a);
    assert s'.calls.Keys == s.calls.Keys;
    forall c | c in s'.calls ensures CallOk(s', c, s'.calls[c]) {
      if TouchesCalls(a) {
        TouchedCallOk(s, a, c);
      } else {
        UntouchedCallOk(s, a, c);
      }
    }
  }

  lemma WorkerKeepsChildren(s: State, a: WorkerStep)
    requires ChildrenOk(s) && WorkerEnabled(s, a)
    ensures ChildrenOk(WorkerApply(s, a))
  {
    var s' := WorkerApply(s, a);
    forall k | k in s'.children ensures ChildOk(s', k, s'.children[k]) {
      assert k in s.children ==> ChildOk(s, k, s.children[k]);
    }
  }

  lemma WorkerKeepsNewest(s: State, a: WorkerStep)
    requires CallsOk(s) && IssuedOk(s) && WorkerEnabled(s, a)
    ensures var s' := WorkerApply(s, a);
      && s.issued <= s'.issued
      && (HasRequest(s'.worker) ==>
            s'.worker.id == |s'.issued| - 1 && s'.issued[s'.worker.id] == Issue(s'.worker.child, s'.worker.call))
      && (forall i | |s.issued| <= i < |s'.issued| :: a.Register? && s'.issued[i].call == s.worker.call)
  {
  }

  lemma WorkerKeepsIssued(s: State, a: WorkerStep)
    requires CallsOk(s) && IssuedOk(s) && WorkerEnabled(s, a)
    ensures IssuedOk(WorkerApply(s, a))
  {
    var s' := WorkerApply(s, a);
    WorkerKeepsNewest(s, a);
    forall i | 0 <= i < |s'.issued|
      ensures s'.issued[i].call in s'.calls && s'.calls[s'.issued[i].call].executions == 1
    {
      if i >= |s.issued| {
        assert CallOk(s, s.worker.call, s.calls[s.worker.call]);
      } else {
        assert s'.issued[i] == s.issued[i];
      }
    }
  }

  lemma NewRequestKeepsFrames(s: State, a: WorkerStep)
    requires IssuedOk(s) && FramesOk(s) && WorkerEnabled(s, a) && (a.Register? || a.WriteFrame?)
    ensures FramesOk(WorkerApply(s, a))
  {
  }

  lemma SameFramesOk(s: State, s': State)
    requires FramesOk(s) && s'.frames == s.frames && s'.issued == s.issued
    requires !s'.worker.Registered? && !s'.worker.Awaiting?
    ensures FramesOk(s')
  {
    forall i | 0 <= i < |s.frames| ensures IssuedTo(s', s'.frames[i].id, s'.frames[i].child) {
      assert IssuedTo(s, s.frames[i].id, s.frames[i].child);
    }
  }

  lemma WorkerKeepsFrames(s: State, a: WorkerStep)
    requires IssuedOk(s) && FramesOk(s) && WorkerEnabled(s, a)
    ensures FramesOk(WorkerApply(s, a))
  {
    if a.Register? || a.WriteFrame? {
      NewRequestKeepsFrames(s, a);
    } else {
      SameFramesOk(s, WorkerApply(s, a));
    }
  }

  lemma CallerKeepsAnswers(s: State, a: CallerStep)
    requires AnsweredOk(s) && CallerEnabled(s, a)
    ensures AnsweredOk(CallerApply(s, a))
  {
  }

  lemma WorkerKeepsAnswers(s: State, a: WorkerStep)
    requires AnsweredOk(s) && CallsOk(s) && WorkerEnabled(s, a)
    ensures AnsweredOk(WorkerApply(s, a))
  {
    var s' := WorkerApply(s, a);
    forall c | c in s'.calls ensures c in s'.queue || Holds(s'.worker, c) || s'.calls[c].results == 1 {
      assert c in s.calls && CallOk(s, c, s.calls[c]);
      if c in s.queue && a.Take? {
        assert c == s.queue[0] || c in s.queue[1..];
      }
    }
  }

  /** What the worker leaves alone in the children and the record of replies. */
  ghost predicate ReverseLeft(s: State, s': State) {
    && s.issued <= s'.issued && s'.replies == s.replies
    && (forall k | k in s'.children ::
          if k in s.children
          then s'.children[k].dispatch == s.children[k].dispatch && s'.children[k].handler == s.children[k].handler
          else s'.children[k].dispatch.Quiet? && s'.children[k].handler.NoHandler?)
  }

  lemma LeftReverseOk(s: State, s': State)
    requires ReverseOk(s) && ReverseLeft(s, s')
    ensures ReverseOk(s')
  {
    forall id, k | IssuedTo(s, id, k) ensures IssuedTo(s', id, k) {
    }
  }

  lemma WorkerKeepsReverse(s: State, a: WorkerStep)
    requires ReverseOk(s) && WorkerEnabled(s, a)
    ensures ReverseOk(WorkerApply(s, a))
  {
    assert ReverseLeft(s, WorkerApply(s, a));
    LeftReverseOk(s, WorkerApply(s, a));
  }

  lemma Preserved(s: State, a: Action)
    requires Inv(s) && Enabled(s, a)
    ensures Inv(Apply(s, a))
  {
    match a
    case ByCaller(c) =>
      CallerKeepsAnswers(s, c);
      CallerKeepsQueue(s, c);
      CallerKeepsCalls(s, c);
      CallerKeepsChildren(s, c);
      CallerKeepsIssued(s, c);
    case ByChild(k) =>
      ChildKeepsCalls(s, k);
      ChildKeepsIssued(s, k);
      ChildKeepsChildren(s, k);
      ChildKeepsReverse(s, k);
    case ByWorker(w) =>
      WorkerKeepsAnswers(s, w);
      WorkerKeepsQueue(s, w);
      WorkerKeepsCalls(s, w);
      WorkerKeepsChildren(s, w);
      WorkerKeepsIssued(s, w);
      WorkerKeepsFrames(s, w);
      WorkerKeepsReverse(s, w);
  }

  lemma {:induction false} Reachable(states: seq<State>, actions: seq<Action>, k: nat)
    requires IsRun(states, actions) && k < |states|
    ensures Inv(states[k])
  {
    if k > 0 {
      Reachable(states, actions, k - 1);
      Preserved(states[k - 1], actions[k - 1]);
    }
  }

  // ---- safety over whole runs ----

  /** Each call runs at most once and is answered at most once, two executing calls are one call, and the
      queue never outgrows its bound. */
  lemma CallsAreSerialized(states: seq<State>, actions: seq<Action>, k: nat, c: CallId, d: CallId)
    requires IsRun(states, actions) && k < |states| && c in states[k].calls && d in states[k].calls
    ensures states[k].calls[c].executions <= 1 && states[k].calls[c].results <= 1
    ensures states[k].calls[c].state == Executing && states[k].calls[d].state == Executing ==> c == d
    ensures |states[k].queue| <= states[k].bound == states[0].bound
  {
    Reachable(states, actions, k);
    assert CallOk(states[k], c, states[k].calls[c]) && CallOk(states[k], d, states[k].calls[d]);
    BoundIsConstant(states, actions, k);
  }

  /** A call that is neither in the queue nor with the worker has been answered exactly once, so a finished one
      has, and a cancelled one that was taken; and then nothing keeps its caller from returning. */
  lemma EveryCallIsAnswered(states: seq<State>, actions: seq<Action>, k: nat, c: CallId)
    requires IsRun(states, actions) && k < |states| && c in states[k].calls
    ensures var (s, call) := (states[k], states[k].calls[c]);
      && (call.results == 1 <==> c !in s.queue && !Holds(s.worker, c))
      && (call.state == Finished ==> call.results == 1)
      && (call.results == 1 && !call.returned ==> Enabled(s, ByCaller(CallerReturns(c))))
  {
    Reachable(states, actions, k);
    AnsweredIff(states[k], c);
  }

  lemma AnsweredIff(s: State, c: CallId)
    requires AnsweredOk(s) && QueueOk(s) && CallsOk(s) && c in s.calls
    ensures s.calls[c].results == 1 <==> c !in s.queue && !Holds(s.worker, c)
    ensures s.calls[c].state == Finished ==> s.calls[c].results == 1
  {
    assert CallOk(s, c, s.calls[c]);
    if c in s.queue {
      var i :| 0 <= i < |s.queue| && s.queue[i] == c;
      assert Untouched(s.calls[s.queue[i]]);
    }
  }

  /** The worker is never stuck: as long as it holds a call, or one waits, it has a step. */
  lemma WorkerNeverStuck(states: seq<State>, actions: seq<Action>, k: nat)
    requires IsRun(states, actions) && k < |states| && !states[k].worker.Gone?
    requires !states[k].worker.Idle? || states[k].queue != []
    ensures exists w :: WorkerEnabled(states[k], w)
  {
    Reachable(states, actions, k);
    var s := states[k];
    match s.worker
    case Idle => assert WorkerEnabled(s, Take);
    case Taken(_) => assert WorkerEnabled(s, Swap);
    case Starting(_) => assert WorkerEnabled(s, CheckContext);
    case Choosing(_) => assert WorkerEnabled(s, NoChild);
    case Chosen(_, _) => assert WorkerEnabled(s, Register);
    case Registered(_, _, _) => assert WorkerEnabled(s, WriteFrame);
    case Awaiting(_, _, _) => assert WorkerEnabled(s, StopWaiting);
    case Unregistering(_, _, _) => assert WorkerEnabled(s, Unregister);
    case Replying(_) => assert WorkerEnabled(s, Respond);
  }

  // ---- the oldest call first ----

  ghost predicate Ahead(queue: seq<CallId>, c: CallId, d: CallId) {
    exists i, j :: 0 <= i < j < |queue| && queue[i] == c && queue[j] == d
  }

  lemma QueueMoves(s: State, a: Action)
    requires Enabled(s, a)
    ensures Moves(s.queue, Apply(s, a).queue)
    ensures var queue := Apply(s, a).queue;
      queue != [] && queue[..|queue| - 1] == s.queue ==>
        a.ByCaller? && a.caller.Submit? && queue[|queue| - 1] == a.caller.call
  {
  }

  /** Of two waiting calls the one ahead is taken first: while it waits it stays ahead, and the other is not taken
      before it. */
  lemma {:induction false} OldestFirst(states: seq<State>, actions: seq<Action>, i: nat, j: nat, c: CallId, d: CallId)
    requires IsRun(states, actions) && i <= j < |states| && Ahead(states[i].queue, c, d)
    ensures c in states[j].queue ==> Ahead(states[j].queue, c, d)
    ensures d !in states[j].queue ==> c !in states[j].queue
    ensures c in states[j].calls && d in states[j].calls
  {
    if i == j {
      Reachable(states, actions, i);
    } else {
      OldestFirst(states, actions, i, j - 1, c, d);
      Reachable(states, actions, j - 1);
      AheadStep(states[j - 1], actions[j - 1], c, d);
    }
  }

  lemma AheadStep(s: State, a: Action, c: CallId, d: CallId)
    requires QueueOk(s) && Enabled(s, a) && c in s.calls && d in s.calls && (c in s.queue ==> Ahead(s.queue, c, d))
    ensures c in Apply(s, a).queue ==> Ahead(Apply(s, a).queue, c, d)
    ensures c in Apply(s, a).calls && d in Apply(s, a).calls
  {
    CallsStay(s, a);
    QueueMoves(s, a);
    NewCallIsOther(s, a, c);
    AheadMoves(s.queue, Apply(s, a).queue, c, d);
  }

  lemma CallsStay(s: State, a: Action)
    requires Enabled(s, a)
    ensures s.calls.Keys <= Apply(s, a).calls.Keys
  {
    match a
    case ByCaller(c) => assert s.calls.Keys <= CallerApply(s, c).calls.Keys;
    case ByWorker(w) => WorkerCallsStay(s, w);
    case ByChild(k) => assert ChildApply(s, k).calls == s.calls;
  }

  lemma WorkerCallsStay(s: State, a: WorkerStep)
    requires WorkerEnabled(s, a)
    ensures WorkerApply(s, a).calls.Keys == s.calls.Keys
  {
  }

  lemma NewCallIsOther(s: State, a: Action, c: CallId)
    requires Enabled(s, a) && c in s.calls
    ensures a.ByCaller? && a.caller.Submit? ==> a.caller.call != c
  {
  }

  /** The queue stays, loses its first call, or gains one behind. */
  predicate Moves(queue: seq<CallId>, queue': seq<CallId>) {
    queue' == queue || (queue != [] && queue' == queue[1..]) || (queue' != [] && queue'[..|queue'| - 1] == queue)
  }

  lemma AheadMoves(queue: seq<CallId>, queue': seq<CallId>, c: CallId, d: CallId)
    requires Moves(queue, queue') && (c in queue ==> Ahead(queue, c, d))
    requires forall i, j | 0 <= i < j < |queue| :: queue[i] != queue[j]
    requires queue' != [] && queue'[..|queue'| - 1] == queue ==> queue'[|queue'| - 1] != c
    ensures c in queue' ==> Ahead(queue', c, d)
  {
    if c in queue' && queue' != queue {
      if queue != [] && queue' == queue[1..] {
        StaysAhead(queue, c, d);
      } else {
        assert queue' == queue + [queue'[|queue'| - 1]];
        LaterIsBehind(queue, queue'[|queue'| - 1], c, d);
      }
    }
  }

  lemma StaysAhead(queue: seq<CallId>, c: CallId, d: CallId)
    requires Ahead(queue, c, d) && c in queue[1..]
    requires forall i, j | 0 <= i < j < |queue| :: queue[i] != queue[j]
    ensures Ahead(queue[1..], c, d)
  {
    var i, j :| 0 <= i < j < |queue| && queue[i] == c && queue[j] == d;
    var k :| 0 <= k < |queue[1..]| && queue[1..][k] == c;
    assert queue[k + 1] == queue[i];
    assert queue[1..][i - 1] == c && queue[1..][j - 1] == d;
  }

  lemma LaterIsBehind(queue: seq<CallId>, last: CallId, c: CallId, d: CallId)
    requires Ahead(queue, c, d)
    ensures Ahead(queue + [last], c, d)
  {
    var i, j :| 0 <= i < j < |queue| && queue[i] == c && queue[j] == d;
    assert (queue + [last])[i] == c && (queue + [last])[j] == d;
  }

  // ---- an undisturbed call gets through ----

  /** The steps can be taken one after the other from s, and end in t. */
  ghost predicate Leads(s: State, steps: seq<Action>, t: State)
    decreases |steps|
  {
    if steps == [] then t == s else Enabled(s, steps[0]) && Leads(Apply(s, steps[0]), steps[1..], t)
  }

  lemma Then(s: State, a: Action, rest: seq<Action>, t: State)
    requires Enabled(s, a) && Leads(Apply(s, a), rest, t)
    ensures Leads(s, [a] + rest, t)
  {
    assert ([a] + rest)[1..] == rest;
  }

  lemma Three(s: State, a: Action, b: Action, c: Action) returns (t: State)
    requires Enabled(s, a) && Enabled(Apply(s, a), b) && Enabled(Apply(Apply(s, a), b), c)
    ensures t == Apply(Apply(Apply(s, a), b), c) && Leads(s, [a, b, c], t)
  {
    t := Apply(Apply(Apply(s, a), b), c);
    Then(Apply(Apply(s, a), b), c, [], t);
    Then(Apply(s, a), b, [c] + [], t);
    Then(s, a, [b] + ([c] + []), t);
    assert [a] + ([b] + ([c] + [])) == [a, b, c];
  }

  lemma {:induction false} LeadsOn(s: State, first: seq<Action>, m: State, second: seq<Action>, t: State)
    requires Leads(s, first, m) && Leads(m, second, t)
    ensures Leads(s, first + second, t)
    decreases |first|
  {
    if first == [] {
      assert first + second == second;
    } else {
      LeadsOn(Apply(s, first[0]), first[1..], m, second, t);
      Then(s, first[0], first[1..] + second, t);
      assert [first[0]] + (first[1..] + second) == first + second;
    }
  }

  const Starts: seq<Action> := [ByWorker(Take), ByWorker(Swap), ByWorker(CheckContext)]
  const Requests: seq<Action> := [ByWorker(UseChild), ByWorker(Register), ByWorker(WriteFrame)]
  const Finishes: seq<Action> := [ByWorker(StopWaiting), ByWorker(Unregister), ByWorker(Respond)]

  lemma CallStarts(s: State, c: CallId) returns (t: State)
    requires s.worker.Idle? && s.queue != [] && s.queue[0] == c && c in s.calls
    requires s.calls[c].state == Queued && !s.calls[c].contextDone
    ensures Leads(s, Starts, t)
    ensures t == s.(queue := s.queue[1..], worker := Choosing(c),
                    calls := s.calls[c := s.calls[c].(state := Executing, executions := s.calls[c].executions + 1)])
  {
    t := Three(s, ByWorker(Take), ByWorker(Swap), ByWorker(CheckContext));
  }

  lemma RequestIsMade(s: State, c: CallId, k: ChildId) returns (t: State)
    requires s.worker == Choosing(c) && s.current == Some(k) && k in s.children
    ensures var (id, child) := (|s.issued|, s.children[k]);
      && Leads(s, Requests, t)
      && t == s.(worker := Awaiting(c, k, id), issued := s.issued + [Issue(k, c)], frames := s.frames + [Frame(k, id, c)],
                 children := s.children[k := child.(pending := child.pending[id := c], parent := Some(id))])
  {
    t := Three(s, ByWorker(UseChild), ByWorker(Register), ByWorker(WriteFrame));
  }

  lemma CallFinishes(s: State, c: CallId, k: ChildId, id: RequestId) returns (t: State)
    requires s.worker == Awaiting(c, k, id) && k in s.children && c in s.calls
    ensures Leads(s, Finishes, t) && t.worker == Idle && t.frames == s.frames && t.queue == s.queue
    ensures t.calls == s.calls[c := s.calls[c].(state := Finished, results := s.calls[c].results + 1)]
    ensures var child := s.children[k];
      t.children == s.children[k := child.(pending := child.pending - {id},
                                           parent := if child.parent == Some(id) then None else child.parent)]
  {
    t := Three(s, ByWorker(StopWaiting), ByWorker(Unregister), ByWorker(Respond));
  }

  /** A queued call at the head of the queue, whose context has not ended, is executed on the current child: one frame
      under a fresh id, then one answer, the request no longer pending and the worker free again. */
  lemma UndisturbedCallIsServed(s: State, c: CallId, k: ChildId) returns (t: State)
    requires Inv(s) && s.worker.Idle? && s.queue != [] && s.queue[0] == c && s.current == Some(k)
    requires s.calls[c].state == Queued && !s.calls[c].contextDone
    ensures Leads(s, Starts + Requests + Finishes, t)
    ensures t.frames == s.frames + [Frame(k, |s.issued|, c)] && t.worker == Idle && t.queue == s.queue[1..]
    ensures c in t.calls && t.calls[c].state == Finished && t.calls[c].executions == t.calls[c].results == 1
    ensures t.children == s.children
  {
    assert c in s.calls && CallOk(s, c, s.calls[c]);
    assert ChildOk(s, k, s.children[k]);
    t := CallRuns(s, c, k);
  }

  lemma CallRuns(s: State, c: CallId, k: ChildId) returns (t: State)
    requires s.worker.Idle? && s.queue != [] && s.queue[0] == c && s.current == Some(k) && k in s.children && c in s.calls
    requires s.calls[c].state == Queued && !s.calls[c].contextDone
    requires s.children[k].pending == map[] && s.children[k].parent == None
    ensures Leads(s, Starts + Requests + Finishes, t)
    ensures t.frames == s.frames + [Frame(k, |s.issued|, c)] && t.worker == Idle && t.queue == s.queue[1..]
    ensures t.children == s.children && c in t.calls && t.calls[c].state == Finished
    ensures t.calls[c].executions == s.calls[c].executions + 1 && t.calls[c].results == s.calls[c].results + 1
  {
    var a := CallStarts(s, c);
    var b := RequestIsMade(a, c, k);
    t := CallFinishes(b, c, k, |s.issued|);
    LeadsOn(s, Starts, a, Requests, b);
    LeadsOn(s, Starts + Requests, b, Finishes, t);
    assert t.children[k] == s.children[k];
    assert t.children == s.children;
  }

  /** While a call awaits its answer, a reverse request bound to its id is served and answered, if the child is the
      current one and serves no other. */
  lemma BoundReverseIsAnswered(s: State, k: ChildId, id: RequestId) returns (t: State)
    requires Inv(s) && s.worker.Awaiting? && s.worker.child == k && s.worker.id == id && s.current == Some(k)
    requires s.children[k].dispatch.Quiet? && s.children[k].handler.NoHandler?
    ensures Leads(s, [ByChild(SeeCurrent(k, id)), ByChild(SeeParent(k)), ByChild(BeginReverse(k))] +
                     [ByChild(SeeStillActive(k)), ByChild(WriteReply(k))], t)
    ensures t == s.(replies := s.replies + [Reply(k, id)])
  {
    assert ChildOk(s, k, s.children[k]);
    var m := ReverseBegins(s, k, id);
    t := ReverseEnds(m, k, id);
    LeadsOn(s, [ByChild(SeeCurrent(k, id)), ByChild(SeeParent(k)), ByChild(BeginReverse(k))], m,
            [ByChild(SeeStillActive(k)), ByChild(WriteReply(k))], t);
    assert t.children == s.children;
  }

  lemma ReverseBegins(s: State, k: ChildId, id: RequestId) returns (t: State)
    requires k in s.children && s.current == Some(k) && s.children[k].parent == Some(id)
    requires s.children[k].dispatch.Quiet? && s.children[k].handler.NoHandler?
    ensures Leads(s, [ByChild(SeeCurrent(k, id)), ByChild(SeeParent(k)), ByChild(BeginReverse(k))], t)
    ensures t == s.SetChild(k, s.children[k].(handler := Running(id)))
  {
    t := Three(s, ByChild(SeeCurrent(k, id)), ByChild(SeeParent(k)), ByChild(BeginReverse(k)));
  }

  lemma ReverseEnds(s: State, k: ChildId, id: RequestId) returns (t: State)
    requires k in s.children && s.children[k].handler == Running(id) && s.children[k].parent == Some(id)
    ensures Leads(s, [ByChild(SeeStillActive(k)), ByChild(WriteReply(k))], t)
    ensures t == s.SetChild(k, s.children[k].(handler := NoHandler)).(replies := s.replies + [Reply(k, id)])
  {
    var m := Apply(s, ByChild(SeeStillActive(k)));
    t := Apply(m, ByChild(WriteReply(k)));
    Then(m, ByChild(WriteReply(k)), [], t);
    Then(s, ByChild(SeeStillActive(k)), [ByChild(WriteReply(k))] + [], t);
    assert [ByChild(SeeStillActive(k))] + ([ByChild(WriteReply(k))] + []) ==
      [ByChild(SeeStillActive(k)), ByChild(WriteReply(k))];
  }

  lemma ReapedStep(s: State, a: Action, k: ChildId)
    requires Enabled(s, a) && k in s.children && s.current != Some(k)
    ensures k in Apply(s, a).children && Apply(s, a).current != Some(k)
  {
    match a
    case ByCaller(_) =>
    case ByWorker(w) => WorkerLeavesReaped(s, w, k);
    case ByChild(c) => ChildLeavesReaped(s, c, k);
  }

  lemma WorkerLeavesReaped(s: State, a: WorkerStep, k: ChildId)
    requires WorkerEnabled(s, a) && k in s.children && s.current != Some(k)
    ensures k in WorkerApply(s, a).children && WorkerApply(s, a).current != Some(k)
  {
  }

  lemma ChildLeavesReaped(s: State, a: ChildStep, k: ChildId)
    requires ChildEnabled(s, a) && k in s.children && s.current != Some(k)
    ensures k in ChildApply(s, a).children && ChildApply(s, a).current != Some(k)
  {
  }

  /** A child that was reaped is never the current one again. */
  lemma {:induction false} ReapedStaysOut(states: seq<State>, actions: seq<Action>, i: nat, j: nat, k: ChildId)
    requires IsRun(states, actions) && i < j < |states| && actions[i] == ByChild(Reap(k))
    ensures k in states[j].children && states[j].current != Some(k)
  {
    assert Enabled(states[j - 1], actions[j - 1]) && states[j] == Apply(states[j - 1], actions[j - 1]);
    if i < j - 1 {
      ReapedStaysOut(states, actions, i, j - 1, k);
      ReapedStep(states[j - 1], actions[j - 1], k);
    }
  }

  /** A worker that awaits an answer has written its request, and nothing was written after it. */
  lemma AwaitedIsWritten(states: seq<State>, actions: seq<Action>, k: nat)
    requires IsRun(states, actions) && k < |states| && states[k].worker.Awaiting?
    ensures var (frames, w) := (states[k].frames, states[k].worker);
      frames != [] && frames[|frames| - 1] == Frame(w.child, w.id, w.call)
  {
    Reachable(states, actions, k);
  }

  // ---- a context that ended in time ----

  /** The call's context has ended, and it has not got past the look at its context. */
  ghost predicate NeverWrites(s: State, c: CallId) {
    && c in s.calls && s.calls[c].contextDone
    && (Holds(s.worker, c) ==> s.worker.Taken? || s.worker.Starting?)
    && forall i | 0 <= i < |s.frames| :: s.frames[i].call != c
  }

  lemma NeverWritesStep(s: State, a: Action, c: CallId)
    requires NeverWrites(s, c) && Enabled(s, a)
    ensures NeverWrites(Apply(s, a), c)
  {
    match a
    case ByWorker(w) => NeverWritesForWorker(s, w, c);
    case _ =>
  }

  lemma NeverWritesForWorker(s: State, a: WorkerStep, c: CallId)
    requires NeverWrites(s, c) && WorkerEnabled(s, a)
    ensures NeverWrites(WorkerApply(s, a), c)
  {
    if Holds(s.worker, c) {
      HeldBackStep(s, a, c);
    } else if a.WriteFrame? {
      assert s.worker.call != c;
    }
  }

  /** A held call that has not got past the look at its context is answered there. */
  lemma HeldBackStep(s: State, a: WorkerStep, c: CallId)
    requires NeverWrites(s, c) && WorkerEnabled(s, a) && Holds(s.worker, c)
    ensures NeverWrites(WorkerApply(s, a), c)
  {
  }

  /** A call whose context ends before it starts executing never writes a frame, even if its cancellation comes too
      late. */
  lemma {:induction false} EndedContextWritesNothing(states: seq<State>, actions: seq<Action>, i: nat, j: nat, c: CallId)
    requires IsRun(states, actions) && i <= j < |states|
    requires c in states[i].calls && states[i].calls[c].contextDone && states[i].calls[c].executions == 0
    ensures NeverWrites(states[j], c)
    ensures forall f | f in states[j].frames :: f.call != c
  {
    if i == j {
      Reachable(states, actions, i);
      NotExecutedHasNoFrame(states[i], c);
    } else {
      EndedContextWritesNothing(states, actions, i, j - 1, c);
      NeverWritesStep(states[j - 1], actions[j - 1], c);
    }
  }

  lemma NotExecutedHasNoFrame(s: State, c: CallId)
    requires Inv(s) && c in s.calls && s.calls[c].executions == 0
    ensures forall f | f in s.frames :: f.call != c
    ensures Holds(s.worker, c) ==> s.worker.Taken?
  {
    assert CallOk(s, c, s.calls[c]);
    forall f | f in s.frames ensures f.call != c {
      var i :| 0 <= i < |s.frames| && s.frames[i] == f;
      assert IssuedTo(s, s.frames[i].id, s.frames[i].child);
    }
  }

  lemma {:induction false} BoundIsConstant(states: seq<State>, actions: seq<Action>, k: nat)
    requires IsRun(states, actions) && k < |states|
    ensures states[k].bound == states[0].bound
  {
    if k > 0 {
      BoundIsConstant(states, actions, k - 1);
      assert Enabled(states[k - 1], actions[k - 1]);
    }
  }

  lemma CancelledStaysForWorker(s: State, a: WorkerStep, c: CallId)
    requires CallsOk(s) && WorkerEnabled(s, a) && c in s.calls && s.calls[c].state == Cancelled
    ensures c in WorkerApply(s, a).calls && WorkerApply(s, a).calls[c].state == Cancelled
  {
    assert CallOk(s, c, s.calls[c]);
  }

  lemma CancelledStays(s: State, a: Action, c: CallId)
    requires CallsOk(s) && Enabled(s, a) && c in s.calls && s.calls[c].state == Cancelled
    ensures c in Apply(s, a).calls && Apply(s, a).calls[c].state == Cancelled
  {
    if a.ByWorker? {
      CancelledStaysForWorker(s, a.worker, c);
    }
  }

  /** A call whose cancellation won the race while it was queued is never executed and never writes a frame. */
  lemma CancelledNeverWrites(states: seq<State>, actions: seq<Action>, i: nat, j: nat, c: CallId)
    requires IsRun(states, actions) && i <= j < |states|
    requires c in states[i].calls && states[i].calls[c].state == Cancelled
    ensures c in states[j].calls && states[j].calls[c].state == Cancelled && states[j].calls[c].executions == 0
    ensures forall f | f in states[j].frames :: f.call != c
  {
    StaysCancelled(states, actions, i, j, c);
    Reachable(states, actions, j);
    CancelledHasNoFrame(states[j], c);
  }

  lemma {:induction false} StaysCancelled(states: seq<State>, actions: seq<Action>, i: nat, j: nat, c: CallId)
    requires IsRun(states, actions) && i <= j < |states|
    requires c in states[i].calls && states[i].calls[c].state == Cancelled
    ensures c in states[j].calls && states[j].calls[c].state == Cancelled
  {
    if i < j {
      StaysCancelled(states, actions, i, j - 1, c);
      Reachable(states, actions, j - 1);
      CancelledStays(states[j - 1], actions[j - 1], c);
    }
  }

  lemma CancelledHasNoFrame(s: State, c: CallId)
    requires Inv(s) && c in s.calls && s.calls[c].state == Cancelled
    ensures s.calls[c].executions == 0 && forall f | f in s.frames :: f.call != c
  {
    assert CallOk(s, c, s.calls[c]);
    NotExecutedHasNoFrame(s, c);
  }

  /** A child's pending set holds at most the active parent, and no request id is ever written twice. */
  lemma PendingIsActiveParent(states: seq<State>, actions: seq<Action>, k: nat, child: ChildId, i: nat, j: nat)
    requires IsRun(states, actions) && k < |states|
    ensures child in states[k].children ==>
      states[k].children[child].pending.Keys ==
        (if states[k].children[child].parent.Some? then {states[k].children[child].parent.value} else {})
    ensures i < j < |states[k].frames| ==> states[k].frames[i].id < states[k].frames[j].id
  {
    Reachable(states, actions, k);
    if child in states[k].children {
      assert ChildOk(states[k], child, states[k].children[child]);
    }
  }

  /** A handler only ever works, and a reply is only ever written, for an id of the same child whose call
      did execute; while that id is still the active parent, it is the call that executes now and the one
      pending entry. A call cancelled in the queue therefore never has a reverse request served. */
  lemma ReverseIsBound(states: seq<State>, actions: seq<Action>, k: nat, child: ChildId, i: nat)
    requires IsRun(states, actions) && k < |states|
    ensures var s := states[k];
      child in s.children && !s.children[child].handler.NoHandler? ==>
        && ServedFor(s, s.children[child].handler.id, child)
        && (s.children[child].parent == Some(s.children[child].handler.id) ==>
              && s.calls[s.issued[s.children[child].handler.id].call].state == Executing
              && s.children[child].pending ==
                 map[s.children[child].handler.id := s.issued[s.children[child].handler.id].call])
    ensures i < |states[k].replies| ==> ServedFor(states[k], states[k].replies[i].id, states[k].replies[i].child)
  {
    Reachable(states, actions, k);
    var s := states[k];
    if child in s.children && !s.children[child].handler.NoHandler? {
      assert IssuedTo(s, s.children[child].handler.id, child);
      assert ChildOk(s, child, s.children[child]);
    }
    if i < |s.replies| {
      assert IssuedTo(s, s.replies[i].id, s.replies[i].child);
    }
  }

  predicate ServedFor(s: State, id: RequestId, k: ChildId) {
    && id < |s.issued| && s.issued[id].child == k && s.issued[id].call in s.calls
    && s.calls[s.issued[id].call].executions == 1
  }

  // ---- the objects ----

  /** One call as its caller and the worker share it. */
  class CallCell {
    var state: CallState

    constructor ()
      ensures state == Queued
    {
      state := Queued;
    }

    method CompareAndSwap(from: CallState, to: CallState) returns (won: bool)
      modifies this
      ensures won <==> old(state) == from
      ensures state == if won then to else old(state)
    {
      won := state == from;
      if won {
        state := to;
      }
    }
  }

  datatype Submission = Accepted | Closed | Overloaded

  class SupervisorCore {
    var bound: nat
    var calls: map<CallId, Call>
    var queue: seq<CallId>
    var worker: Worker
    var current: Option<ChildId>
    var children: map<ChildId, Child>
    var issued: seq<Issue>
    var stopped: bool
    var frames: seq<Frame>
    var replies: seq<Reply>

    ghost function Model(): State
      reads this
    {
      State(bound, calls, queue, worker, current, children, issued, stopped, frames, replies)
    }

    /** The enqueueing select of Call. A closed supervisor refuses; but where the queue has room as well, Go
        takes either branch, here the one `preferQueue` says. A full queue is refused at once. */
    method Submit(c: CallId, preferQueue: bool) returns (answer: Submission)
      requires c !in calls
      modifies this`calls, this`queue
      ensures answer.Accepted? <==> CallerEnabled(old(Model()), CallerStep.Submit(c)) && (stopped ==> preferQueue)
      ensures answer.Closed? ==> stopped
      ensures answer.Overloaded? ==> !stopped && |queue| >= bound
      ensures Model() ==
        if answer.Accepted? then CallerApply(old(Model()), CallerStep.Submit(c)) else old(Model())
    {
      var room := |queue| < bound;
      if stopped && !(room && preferQueue) {
        return Closed;
      }
      if !room {
        return Overloaded;
      }
      calls := calls[c := Call(Queued, false, false, 0, 0)];
      queue := queue + [c];
      return Accepted;
    }

    /** The caller's branch for a finished context. */
    method Cancel(c: CallId)
      requires CallerEnabled(Model(), CallerCancels(c))
      modifies this`calls
      ensures Model() == CallerApply(old(Model()), CallerCancels(c))
    {
      var call := calls[c];
      if call.state == Queued {
        call := call.(state := Cancelled);
      }
      calls := calls[c := call.(returned := true)];
    }

    /** The worker's next turn up to the point where it starts or refuses the call. */
    method TakeNext() returns (started: bool)
      requires QueueOk(Model()) && CallsOk(Model()) && WorkerEnabled(Model(), Take)
      modifies this`calls, this`queue, this`worker
      ensures WorkerEnabled(WorkerApply(old(Model()), Take), Swap)
      ensures Model() == WorkerApply(WorkerApply(old(Model()), Take), Swap)
      ensures started <==> old(calls[queue[0]].state) == Queued
    {
      var c := queue[0];
      queue := queue[1..];
      var call := calls[c];
      started := call.state == Queued;
      if started {
        calls := calls[c := call.(state := Executing, executions := call.executions + 1)];
        worker := Starting(c);
      } else {
        calls := calls[c := call.(results := call.results + 1)];
        worker := Idle;
      }
    }

    /** The section of execute under the child's mutex that makes the request pending. */
    method RegisterRequest()
      requires WorkerEnabled(Model(), Register)
      modifies this`children, this`issued, this`worker
      ensures Model() == WorkerApply(old(Model()), Register)
    {
      var child := children[worker.child];
      var id := |issued|;
      issued := issued + [Issue(worker.child, worker.call)];
      children := children[worker.child := child.(pending := child.pending[id := worker.call], parent := Some(id))];
      worker := Registered(worker.call, worker.child, id);
    }

    /** The deferred section of execute. */
    method UnregisterRequest()
      requires WorkerEnabled(Model(), Unregister)
      modifies this`children, this`worker
      ensures Model() == WorkerApply(old(Model()), Unregister)
    {
      var child := children[worker.child];
      child := child.(pending := child.pending - {worker.id});
      if child.parent == Some(worker.id) {
        child := child.(parent := None);
      }
      children := children[worker.child := child];
      worker := Replying(worker.call);
    }
  }
}
