/**
 * The pool and its worker processes as a concurrent system. The parent and the children move
 * any number of bytes at a time through pipes that hold no more than `capacity` bytes, in any
 * order; a writer waits while its pipe is full, a child handles a frame once it has read all of
 * it. Every run behaves like whole sends, one after the other.
 */
module PoolSteps {
  import opened Bytes
  import opened Division
  import opened Protocol
  import opened Workers
  import opened Pools

  /**
   * `inbox` and `outbox` are the pipes; `part` is what the child has read of a frame, `pending`
   * what it has yet to write.
   */
  datatype Child<S> = Child(state: S, inbox: seq<byte>, part: seq<byte>, pending: seq<byte>, outbox: seq<byte>)

  datatype Parent =
    | Idle
    | Sending(worker: nat, unsent: seq<byte>, request: seq<byte>)
    | Receiving(worker: nat, got: seq<byte>, request: seq<byte>)

  datatype System<S> = System(
    capacity: nat, children: seq<Child<S>>, next: nat, parent: Parent, log: seq<Exchange>)

  datatype Step =
    | Begin(request: seq<byte>)   // the parent takes a worker and starts writing
    | Push(bytes: nat)            // the parent writes some bytes of the request
    | Await                       // the parent turns to reading
    | Take(child: nat, bytes: nat) // a child reads some bytes
    | Handle(child: nat)          // a child has read a whole frame and computes the answer
    | Emit(child: nat, bytes: nat) // a child writes some bytes of its answer
    | Pull(bytes: nat)            // the parent reads some bytes
    | Finish                      // the parent has read a whole frame

  ghost predicate CanHandle<S>(env: Env<S>, c: Child<S>) {
    && c.pending == []
    && ReadFrame(c.part).Some?
    && var turn := TakeTurn(env, c.state, ReadFrame(c.part).value.0);
       turn.Answer? && turn.message.Some?
  }

  ghost predicate Enabled<S>(env: Env<S>, y: System<S>, step: Step) {
    match step
    case Begin(request) => y.parent.Idle? && y.next < |y.children| && Admissible(env, request)
    case Push(k) =>
      && y.parent.Sending? && y.parent.worker < |y.children|
      && 0 < k <= |y.parent.unsent| && |y.children[y.parent.worker].inbox| + k <= y.capacity
    case Await => y.parent.Sending? && y.parent.unsent == []
    case Take(i, k) => i < |y.children| && y.children[i].pending == [] && 0 < k <= |y.children[i].inbox|
    case Handle(i) => i < |y.children| && CanHandle(env, y.children[i])
    case Emit(i, k) =>
      i < |y.children| && 0 < k <= |y.children[i].pending| && |y.children[i].outbox| + k <= y.capacity
    case Pull(k) =>
      y.parent.Receiving? && y.parent.worker < |y.children| && 0 < k <= |y.children[y.parent.worker].outbox|
    case Finish => y.parent.Receiving? && ReadFrame(y.parent.got).Some?
  }

  ghost function Apply<S(!new)>(env: Env<S>, y: System<S>, step: Step): System<S>
    requires Enabled(env, y, step)
  {
    match step
    case Begin(request) =>
      y.(parent := Sending(y.next, EncodeFrame(request), request), next := Successor(y.next, |y.children|))
    case Push(k) =>
      var w := y.parent.worker;
      var c := y.children[w];
      y.(children := y.children[w := c.(inbox := c.inbox + y.parent.unsent[..k])],
         parent := y.parent.(unsent := y.parent.unsent[k..]))
    case Await =>
      y.(parent := Receiving(y.parent.worker, [], y.parent.request))
    case Take(i, k) =>
      var c := y.children[i];
      y.(children := y.children[i := c.(inbox := c.inbox[k..], part := c.part + c.inbox[..k])])
    case Handle(i) =>
      var c := y.children[i];
      var (payload, rest) := ReadFrame(c.part).value;
      var turn := TakeTurn(env, c.state, payload);
      y.(children := y.children[i := c.(state := turn.next, part := rest, pending := EncodeFrame(turn.message.value))])
    case Emit(i, k) =>
      var c := y.children[i];
      y.(children := y.children[i := c.(pending := c.pending[k..], outbox := c.outbox + c.pending[..k])])
    case Pull(k) =>
      var w := y.parent.worker;
      var c := y.children[w];
      y.(children := y.children[w := c.(outbox := c.outbox[k..])],
         parent := y.parent.(got := y.parent.got + c.outbox[..k]))
    case Finish =>
      var reply := ReadFrame(y.parent.got).value.0;
      y.(parent := Idle, log := y.log + [Exchange(y.parent.worker, y.parent.request, reply)])
  }

  // ---------------------------------------------------------------- invariant

  ghost predicate Quiet<S>(c: Child<S>, state: S) {
    c == Child(state, [], [], [], [])
  }

  /** The child has not handled the request yet; `unsent` is still on its way. */
  ghost predicate Waiting<S>(c: Child<S>, state: S, unsent: seq<byte>, got: seq<byte>, request: seq<byte>) {
    && c.state == state
    && c.part + (c.inbox + unsent) == EncodeFrame(request)
    && c.pending == c.outbox == got == []
  }

  /** The child has handled the request; its answer is spread over three places. */
  ghost predicate Answered<S>(c: Child<S>, turn: Turn<S>, unsent: seq<byte>, got: seq<byte>)
    requires turn.Answer? && turn.message.Some?
  {
    && c.state == turn.next
    && c.part == c.inbox == unsent == []
    && got + (c.outbox + c.pending) == EncodeFrame(turn.message.value)
  }

  /** The exchange in progress, with the state `s` that its worker had before. */
  ghost predicate InProgress<S(!new)>(env: Env<S>, c: Child<S>, s: S, unsent: seq<byte>, got: seq<byte>, request: seq<byte>)
    requires Encodes(env) && Admissible(env, request)
  {
    TurnAnswers(env, s, request);
    Waiting(c, s, unsent, got, request) || Answered(c, TakeTurn(env, s, request), unsent, got)
  }

  ghost predicate OthersQuiet<S>(children: seq<Child<S>>, states: seq<S>, except: nat)
    requires |children| == |states|
  {
    forall i :: 0 <= i < |children| && i != except ==> Quiet(children[i], states[i])
  }

  ghost function Unsent(parent: Parent): seq<byte> {
    if parent.Sending? then parent.unsent else []
  }

  ghost function Got(parent: Parent): seq<byte> {
    if parent.Receiving? then parent.got else []
  }

  /** The system stands between the sends that made `p` and the next one. */
  ghost predicate Inv<S(!new)>(env: Env<S>, y: System<S>, p: PoolState<S>) {
    && WellFormed(env, p)
    && |y.children| == |p.workers|
    && y.log == p.log
    && match y.parent
       case Idle => y.next == p.next && OthersQuiet(y.children, p.workers, |y.children|)
       case _ =>
         var (w, request) := (y.parent.worker, y.parent.request);
         && w == p.next
         && y.next == Successor(w, |y.children|)
         && Admissible(env, request)
         && OthersQuiet(y.children, p.workers, w)
         && InProgress(env, y.children[w], p.workers[w], Unsent(y.parent), Got(y.parent), request)
  }

  /** Only a whole frame reads as one. */
  lemma OnlyWholeFrames(part: seq<byte>, rest: seq<byte>, payload: seq<byte>)
    requires |payload| < MAX_PAYLOAD
    requires part + rest == EncodeFrame(payload)
    requires ReadFrame(part).Some?
    ensures rest == [] && ReadFrame(part) == Some((payload, []))
  {
    hide EncodeFrame;
    var frame := EncodeFrame(payload);
    assert part == frame[..|part|];
    if |part| < |frame| {
      FrameIncomplete(payload, |part|);
    } else {
      FrameRoundTrip(payload, []);
      assert frame + [] == frame && part == frame;
    }
  }

  lemma NothingToRead()
    ensures ReadFrame([]) == None
  {
  }

  lemma FrameNotEmpty(payload: seq<byte>)
    ensures EncodeFrame(payload) != []
  {
  }

  /** How many bytes are still to be moved, counted per move, and whether an answer is to be computed. */
  ghost function Left<S(!new)>(env: Env<S>, c: Child<S>, s: S, unsent: seq<byte>, got: seq<byte>, request: seq<byte>): nat
    requires Encodes(env) && Admissible(env, request)
  {
    TurnAnswers(env, s, request);
    2 * |unsent|
    + if Waiting(c, s, unsent, got, request)
      then |c.inbox| + 1 + 2 * |EncodeFrame(TakeTurn(env, s, request).message.value)|
      else 2 * |c.pending| + |c.outbox|
  }

  /** The exchange goes on from one configuration to another, with less left to do. */
  ghost predicate Advances<S(!new)>(env: Env<S>, s: S, request: seq<byte>,
      c: Child<S>, unsent: seq<byte>, got: seq<byte>, c': Child<S>, unsent': seq<byte>, got': seq<byte>)
    requires Encodes(env) && Admissible(env, request)
  {
    && InProgress(env, c', s, unsent', got', request)
    && Left(env, c', s, unsent', got', request) < Left(env, c, s, unsent, got, request)
  }

  lemma PushAdvances<S(!new)>(env: Env<S>, s: S, request: seq<byte>, c: Child<S>, unsent: seq<byte>, got: seq<byte>, k: nat)
    requires Encodes(env) && Admissible(env, request) && InProgress(env, c, s, unsent, got, request)
    requires 0 < k <= |unsent|
    ensures Advances(env, s, request, c, unsent, got, c.(inbox := c.inbox + unsent[..k]), unsent[k..], got)
  {
    hide EncodeFrame, TakeTurn;
    assert c.part + (c.inbox + unsent[..k] + unsent[k..]) == c.part + (c.inbox + unsent);
  }

  lemma TakeAdvances<S(!new)>(env: Env<S>, s: S, request: seq<byte>, c: Child<S>, unsent: seq<byte>, got: seq<byte>, k: nat)
    requires Encodes(env) && Admissible(env, request) && InProgress(env, c, s, unsent, got, request)
    requires 0 < k <= |c.inbox|
    ensures Advances(env, s, request, c, unsent, got, c.(inbox := c.inbox[k..], part := c.part + c.inbox[..k]), unsent, got)
  {
    hide EncodeFrame, TakeTurn;
    var pipe := c.inbox;
    assert c.part + pipe[..k] + (pipe[k..] + unsent) == c.part + (pipe + unsent);
  }

  lemma HandleAdvances<S(!new)>(env: Env<S>, s: S, request: seq<byte>, c: Child<S>, unsent: seq<byte>, got: seq<byte>)
    requires Encodes(env) && Admissible(env, request) && InProgress(env, c, s, unsent, got, request)
    requires CanHandle(env, c)
    ensures var (payload, rest) := ReadFrame(c.part).value;
            var turn := TakeTurn(env, c.state, payload);
            var c' := c.(state := turn.next, part := rest, pending := EncodeFrame(turn.message.value));
            Advances(env, s, request, c, unsent, got, c', unsent, got)
  {
    hide EncodeFrame, ReadFrame, TakeTurn;
    NothingToRead();
    TurnAnswers(env, s, request);
    OnlyWholeFrames(c.part, c.inbox + unsent, request);
    FrameNotEmpty(request);
    var answer := EncodeFrame(TakeTurn(env, s, request).message.value);
    assert [] + ([] + answer) == answer;
  }

  lemma EmitAdvances<S(!new)>(env: Env<S>, s: S, request: seq<byte>, c: Child<S>, unsent: seq<byte>, got: seq<byte>, k: nat)
    requires Encodes(env) && Admissible(env, request) && InProgress(env, c, s, unsent, got, request)
    requires 0 < k <= |c.pending|
    ensures Advances(env, s, request, c, unsent, got,
                     c.(pending := c.pending[k..], outbox := c.outbox + c.pending[..k]), unsent, got)
  {
    hide EncodeFrame, TakeTurn;
    FrameNotEmpty(request);
    assert c.outbox + c.pending[..k] + c.pending[k..] == c.outbox + c.pending;
  }

  lemma PullAdvances<S(!new)>(env: Env<S>, s: S, request: seq<byte>, c: Child<S>, unsent: seq<byte>, got: seq<byte>, k: nat)
    requires Encodes(env) && Admissible(env, request) && InProgress(env, c, s, unsent, got, request)
    requires 0 < k <= |c.outbox|
    ensures Advances(env, s, request, c, unsent, got, c.(outbox := c.outbox[k..]), unsent, got + c.outbox[..k])
  {
    hide EncodeFrame, TakeTurn;
    FrameNotEmpty(request);
    assert got + c.outbox[..k] + (c.outbox[k..] + c.pending) == got + (c.outbox + c.pending);
  }

  /** A quiet child can do nothing, so every step is one of the child at work or of the parent. */
  lemma OnlyOneWorks<S(!new)>(env: Env<S>, y: System<S>, p: PoolState<S>, step: Step)
    requires Inv(env, y, p) && Enabled(env, y, step)
    ensures step.Take? || step.Handle? || step.Emit? ==> !y.parent.Idle? && step.child == p.next
  {
    hide EncodeFrame, ReadFrame, TakeTurn, InProgress;
    NothingToRead();
  }

  /** How much is left to do in the current send. */
  ghost function Work<S(!new)>(env: Env<S>, y: System<S>, p: PoolState<S>): nat
    requires Inv(env, y, p)
  {
    if y.parent.Idle? then 0
    else
      (if y.parent.Sending? then 2 else 1)
      + Left(env, y.children[p.next], p.workers[p.next], Unsent(y.parent), Got(y.parent), y.parent.request)
  }

  /** A step inside a send keeps the invariant and brings the send closer to its end. */
  lemma ProgressKept<S(!new)>(env: Env<S>, y: System<S>, p: PoolState<S>, step: Step)
    requires Inv(env, y, p) && !y.parent.Idle?
    requires Enabled(env, y, step) && !step.Finish?
    ensures Inv(env, Apply(env, y, step), p)
    ensures Work(env, Apply(env, y, step), p) < Work(env, y, p)
  {
    var (c, s, request) := (y.children[p.next], p.workers[p.next], y.parent.request);
    var (unsent, got) := (Unsent(y.parent), Got(y.parent));
    OnlyOneWorks(env, y, p, step);
    match step {
      case Push(k) => PushAdvances(env, s, request, c, unsent, got, k);
      case Await =>
      case Take(_, k) => TakeAdvances(env, s, request, c, unsent, got, k);
      case Handle(_) => HandleAdvances(env, s, request, c, unsent, got);
      case Emit(_, k) => EmitAdvances(env, s, request, c, unsent, got, k);
      case Pull(k) => PullAdvances(env, s, request, c, unsent, got, k);
    }
    hide EncodeFrame, ReadFrame, TakeTurn, InProgress, Left, CanHandle, Quiet;
  }

  /** Reading the whole answer ends the send exactly as `Dispatch` says. */
  lemma FinishDispatches<S(!new)>(env: Env<S>, y: System<S>, p: PoolState<S>)
    requires Inv(env, y, p) && Enabled(env, y, Finish)
    ensures Inv(env, Apply(env, y, Finish), Dispatch(env, p, y.parent.request))
  {
    hide EncodeFrame, ReadFrame;
    var w := p.next;
    var (c, s, request) := (y.children[w], p.workers[w], y.parent.request);
    TurnAnswers(env, s, request);
    NothingToRead();
    var reply := TakeTurn(env, s, request).message.value;
    OnlyWholeFrames(y.parent.got, c.outbox + c.pending, reply);
    assert c.outbox == [] && c.pending == [];
  }

  /** The invariant along one step; only `Finish` moves the sequential pool. */
  ghost function Follow<S(!new)>(env: Env<S>, y: System<S>, p: PoolState<S>, step: Step): (q: PoolState<S>)
    requires Inv(env, y, p) && Enabled(env, y, step)
    ensures WellFormed(env, q) && |q.workers| == |p.workers|
  {
    if step.Finish? then Dispatch(env, p, y.parent.request) else p
  }

  lemma StepKept<S(!new)>(env: Env<S>, y: System<S>, p: PoolState<S>, step: Step)
    requires Inv(env, y, p) && Enabled(env, y, step)
    ensures Inv(env, Apply(env, y, step), Follow(env, y, p, step))
  {
    if step.Finish? {
      FinishDispatches(env, y, p);
    } else if y.parent.Idle? {
      NothingToRead();
      hide ReadFrame;
      match step {
        case Begin(request) =>
          assert [] + ([] + EncodeFrame(request)) == EncodeFrame(request);
        case _ =>
      }
    } else {
      ProgressKept(env, y, p, step);
    }
  }

  // ---------------------------------------------------------------- runs

  ghost function Start<S>(p: PoolState<S>, capacity: nat): System<S> {
    System(capacity,
           seq(|p.workers|, i requires 0 <= i < |p.workers| => Child(p.workers[i], [], [], [], [])), p.next, Idle, p.log)
  }

  ghost predicate Runs<S(!new)>(env: Env<S>, y: System<S>, steps: seq<Step>, z: System<S>)
    decreases steps
  {
    if steps == [] then y == z
    else Enabled(env, y, steps[0]) && Runs(env, Apply(env, y, steps[0]), steps[1..], z)
  }

  function Requests(log: seq<Exchange>): seq<seq<byte>> {
    if log == [] then [] else Requests(log[..|log| - 1]) + [log[|log| - 1].request]
  }

  /** A state that the sends of its own log lead to. */
  ghost predicate Explained<S(!new)>(env: Env<S>, start: PoolState<S>, y: System<S>)
    requires WellFormed(env, start)
  {
    var requests := Requests(y.log);
    AllAdmissible(env, requests) && Inv(env, y, DispatchAll(env, start, requests))
  }

  lemma StepExplained<S(!new)>(env: Env<S>, start: PoolState<S>, y: System<S>, step: Step)
    requires WellFormed(env, start)
    requires Explained(env, start, y) && Enabled(env, y, step)
    ensures Explained(env, start, Apply(env, y, step))
  {
    var requests := Requests(y.log);
    var p := DispatchAll(env, start, requests);
    StepKept(env, y, p, step);
    hide Inv, ReadFrame, EncodeFrame;
    if step.Finish? {
      var z := Apply(env, y, step);
      var k := |z.log| - 1;
      assert z.log[..k] == y.log;
      var more := Requests(z.log);
      assert more == requests + [y.parent.request];
      assert more[..|more| - 1] == requests;
    }
  }

  /**
   * Refinement: whatever the interleaving, a reachable system is where whole sends of the
   * logged requests lead, plus at most one exchange in progress.
   */
  lemma {:induction false} EveryRunIsSequential<S(!new)>(env: Env<S>, start: PoolState<S>, y: System<S>,
      steps: seq<Step>, z: System<S>)
    requires WellFormed(env, start)
    requires Explained(env, start, y) && Runs(env, y, steps, z)
    ensures Explained(env, start, z)
    decreases steps
  {
    hide Explained, Enabled, Apply;
    if steps != [] {
      StepExplained(env, start, y, steps[0]);
      EveryRunIsSequential(env, start, Apply(env, y, steps[0]), steps[1..], z);
    }
  }

  /** No pipe ever holds more than its capacity, and capacities stay. */
  ghost predicate PipesFit<S>(y: System<S>) {
    forall i :: 0 <= i < |y.children| ==> |y.children[i].inbox| <= y.capacity && |y.children[i].outbox| <= y.capacity
  }

  lemma {:induction false} PipesHold<S(!new)>(env: Env<S>, y: System<S>, steps: seq<Step>, z: System<S>)
    requires PipesFit(y) && Runs(env, y, steps, z)
    ensures PipesFit(z) && z.capacity == y.capacity
    decreases steps
  {
    if steps != [] {
      PipesHoldOnce(env, y, steps[0]);
      hide Enabled, Apply, PipesFit;
      PipesHold(env, Apply(env, y, steps[0]), steps[1..], z);
    }
  }

  lemma PipesHoldOnce<S(!new)>(env: Env<S>, y: System<S>, step: Step)
    requires PipesFit(y) && Enabled(env, y, step)
    ensures PipesFit(Apply(env, y, step)) && Apply(env, y, step).capacity == y.capacity
  {
    hide EncodeFrame, ReadFrame, TakeTurn;
  }

  /** Between sends all pipes are empty, and states and replies are those of whole sends. */
  lemma IdleIsSequential<S(!new)>(env: Env<S>, start: PoolState<S>, capacity: nat, steps: seq<Step>, z: System<S>)
    requires WellFormed(env, start) && start.log == []
    requires Runs(env, Start(start, capacity), steps, z) && z.parent.Idle?
    ensures AllAdmissible(env, Requests(z.log))
    ensures z == Start(DispatchAll(env, start, Requests(z.log)), capacity)
  {
    assert Explained(env, start, Start(start, capacity));
    EveryRunIsSequential(env, start, Start(start, capacity), steps, z);
    PipesHold(env, Start(start, capacity), steps, z);
    var p := DispatchAll(env, start, Requests(z.log));
    assert z.children == Start(p, capacity).children;
  }

  // ---------------------------------------------------------------- progress

  /** Every step of a send brings it closer to its end, so no schedule delays it forever. */
  lemma WorkDecreases<S(!new)>(env: Env<S>, y: System<S>, p: PoolState<S>, step: Step)
    requires Inv(env, y, p) && Enabled(env, y, step) && !step.Begin?
    ensures Inv(env, Apply(env, y, step), Follow(env, y, p, step))
    ensures Work(env, Apply(env, y, step), Follow(env, y, p, step)) < Work(env, y, p)
  {
    if step.Finish? {
      FinishDispatches(env, y, p);
    } else {
      OnlyOneWorks(env, y, p, step);
      ProgressKept(env, y, p, step);
    }
    hide EncodeFrame, ReadFrame, TakeTurn, InProgress, Left, OthersQuiet, Dispatch;
  }

  /** A send takes at most `Work` steps, whatever the scheduling. */
  lemma {:induction false} SendIsBounded<S(!new)>(env: Env<S>, y: System<S>, p: PoolState<S>, steps: seq<Step>, z: System<S>)
    requires Inv(env, y, p) && Runs(env, y, steps, z)
    requires forall i :: 0 <= i < |steps| ==> !steps[i].Begin?
    ensures |steps| <= Work(env, y, p)
    decreases steps
  {
    hide Inv, Enabled, Apply, Work;
    if steps != [] {
      WorkDecreases(env, y, p, steps[0]);
      SendIsBounded(env, Apply(env, y, steps[0]), Follow(env, y, p, steps[0]), steps[1..], z);
    }
  }

  /** A step that is possible while a send is under way. */
  ghost function SomeStep<S>(y: System<S>): Step
    requires !y.parent.Idle? && y.parent.worker < |y.children|
  {
    var (w, c) := (y.parent.worker, y.children[y.parent.worker]);
    if y.parent.Sending? && y.parent.unsent == [] then Await
    else if y.parent.Sending? && |c.inbox| < y.capacity then Push(1)
    else if c.inbox != [] then Take(w, |c.inbox|)
    else if c.part != [] then Handle(w)
    else if c.pending != [] && |c.outbox| < y.capacity then Emit(w, 1)
    else if c.outbox != [] then Pull(|c.outbox|)
    else Finish
  }

  /** While there is something to send, the child has nothing to write. */
  lemma SendingMeansWaiting<S(!new)>(env: Env<S>, c: Child<S>, s: S, unsent: seq<byte>, got: seq<byte>, request: seq<byte>)
    requires Encodes(env) && Admissible(env, request) && InProgress(env, c, s, unsent, got, request)
    requires unsent != [] || c.inbox != []
    ensures c.pending == []
  {
    hide EncodeFrame, TakeTurn;
  }

  lemma WholeFrame(payload: seq<byte>)
    requires |payload| < MAX_PAYLOAD
    ensures ReadFrame(EncodeFrame(payload)) == Some((payload, []))
  {
    FrameRoundTrip(payload, []);
    assert EncodeFrame(payload) + [] == EncodeFrame(payload);
  }

  lemma ReadyToHandle<S(!new)>(env: Env<S>, c: Child<S>, s: S, got: seq<byte>, request: seq<byte>)
    requires Encodes(env) && Admissible(env, request) && InProgress(env, c, s, [], got, request)
    requires c.inbox == [] && c.part != []
    ensures CanHandle(env, c)
  {
    hide EncodeFrame, ReadFrame, TakeTurn;
    TurnAnswers(env, s, request);
    WholeFrame(request);
    assert c.part + ([] + []) == c.part;
  }

  lemma ReadyToFinish<S(!new)>(env: Env<S>, c: Child<S>, s: S, got: seq<byte>, request: seq<byte>)
    requires Encodes(env) && Admissible(env, request) && InProgress(env, c, s, [], got, request)
    requires c.part == c.inbox == c.pending == c.outbox == []
    ensures ReadFrame(got).Some?
  {
    hide EncodeFrame, ReadFrame, TakeTurn;
    TurnAnswers(env, s, request);
    FrameNotEmpty(request);
    WholeFrame(TakeTurn(env, s, request).message.value);
    assert got + ([] + []) == got;
  }

  /**
   * However small the pipes are, the system never deadlocks in the middle of a send: a full or
   * empty pipe never keeps both sides waiting.
   */
  lemma NoDeadlock<S(!new)>(env: Env<S>, y: System<S>, p: PoolState<S>)
    requires y.capacity >= 1
    requires Inv(env, y, p) && !y.parent.Idle?
    ensures Enabled(env, y, SomeStep(y)) && !SomeStep(y).Begin?
  {
    var (c, s, request) := (y.children[p.next], p.workers[p.next], y.parent.request);
    var (unsent, got) := (Unsent(y.parent), Got(y.parent));
    if unsent != [] || c.inbox != [] {
      SendingMeansWaiting(env, c, s, unsent, got, request);
    } else if c.part != [] {
      ReadyToHandle(env, c, s, got, request);
    } else if c.pending == [] && c.outbox == [] {
      ReadyToFinish(env, c, s, got, request);
    }
    hide EncodeFrame, ReadFrame, TakeTurn, InProgress, CanHandle, OthersQuiet;
  }
}
