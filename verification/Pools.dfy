/** Round-robin dispatch over worker processes. */
module Pools {
  import opened Bytes
  import opened Division
  import opened Protocol
  import opened Workers

  /** One request and the reply that the pool read for it. */
  datatype Exchange = Exchange(worker: nat, request: seq<byte>, reply: seq<byte>)

  /** A pool between two sends: the states of the workers, whose turn it is, and the history. */
  datatype PoolState<S> = PoolState(workers: seq<S>, next: nat, log: seq<Exchange>)

  /** A request that the pool sends through `exec` or `echo`; only `drop` sends shutdowns. */
  ghost predicate Admissible<S>(env: Env<S>, request: seq<byte>) {
    !IsShutdown(env, request) && |request| < MAX_PAYLOAD
  }

  ghost predicate WellFormed<S(!new)>(env: Env<S>, p: PoolState<S>) {
    Encodes(env) && p.next < |p.workers|
  }

  /** One whole send. */
  ghost function Dispatch<S(!new)>(env: Env<S>, p: PoolState<S>, request: seq<byte>): (q: PoolState<S>)
    requires WellFormed(env, p) && Admissible(env, request)
    ensures WellFormed(env, q) && |q.workers| == |p.workers|
  {
    var turn := TakeTurn(env, p.workers[p.next], request);
    TurnAnswers(env, p.workers[p.next], request);
    PoolState(p.workers[p.next := turn.next],
              Successor(p.next, |p.workers|),
              p.log + [Exchange(p.next, request, turn.message.value)])
  }

  ghost predicate AllAdmissible<S>(env: Env<S>, requests: seq<seq<byte>>) {
    forall i :: 0 <= i < |requests| ==> Admissible(env, requests[i])
  }

  ghost function DispatchAll<S(!new)>(env: Env<S>, p: PoolState<S>, requests: seq<seq<byte>>): (q: PoolState<S>)
    requires WellFormed(env, p) && AllAdmissible(env, requests)
    ensures WellFormed(env, q) && |q.workers| == |p.workers|
  {
    if requests == [] then p
    else
      var before := DispatchAll(env, p, requests[..|requests| - 1]);
      Dispatch(env, before, requests[|requests| - 1])
  }

  // ---------------------------------------------------------------- balance

  function Served(log: seq<Exchange>, worker: nat): nat {
    if log == [] then 0
    else Served(log[..|log| - 1], worker) + (if log[|log| - 1].worker == worker then 1 else 0)
  }

  lemma {:induction false} Rotation<S(!new)>(env: Env<S>, start: PoolState<S>, requests: seq<seq<byte>>,
      worker: nat, q: nat, r: nat)
    requires WellFormed(env, start) && start.next == 0 && start.log == []
    requires AllAdmissible(env, requests)
    requires worker < |start.workers| && r < |start.workers|
    requires |requests| == |start.workers| * q + r
    ensures var p := DispatchAll(env, start, requests);
            && |p.log| == |requests|
            && p.next == r
            && Served(p.log, worker) == q + (if worker < r then 1 else 0)
    decreases requests
  {
    var n, k := |start.workers|, |requests|;
    hide Successor;
    if k == 0 {
      if q > 0 {
        Borrow(n, q);
        AtLeast(n, q);
      }
    } else {
      if r > 0 {
        Rotation(env, start, requests[..k - 1], worker, q, r - 1);
      } else {
        assert q > 0 by { NoTurns(n, q, k); }
        Borrow(n, q);
        Rotation(env, start, requests[..k - 1], worker, q - 1, n - 1);
      }
      var before := DispatchAll(env, start, requests[..k - 1]);
      SuccessorCases(before.next, n);
      assert DispatchAll(env, start, requests).log[..k - 1] == before.log;
    }
  }

  lemma NoTurns(n: nat, q: nat, k: nat)
    requires k > 0 && k == n * q
    ensures q > 0
  {
  }

  /** Whose turn it is, and how often each worker was used, after any number of sends. */
  lemma RoundRobin<S(!new)>(env: Env<S>, start: PoolState<S>, requests: seq<seq<byte>>, worker: nat)
    requires WellFormed(env, start) && start.next == 0 && start.log == []
    requires AllAdmissible(env, requests)
    requires worker < |start.workers|
    ensures var (p, n, k) := (DispatchAll(env, start, requests), |start.workers|, |requests|);
            && |p.log| == k
            && p.next == k % n
            && Served(p.log, worker) == k / n + (if worker < k % n then 1 else 0)
  {
    Fundamental(|requests|, |start.workers|);
    Rotation(env, start, requests, worker, |requests| / |start.workers|, |requests| % |start.workers|);
  }

  /** The k-th exchange is that of the k-th request with worker k mod n. */
  lemma {:induction false} ExchangeAt<S(!new)>(env: Env<S>, start: PoolState<S>, requests: seq<seq<byte>>, k: nat)
    requires WellFormed(env, start) && start.next == 0 && start.log == []
    requires AllAdmissible(env, requests) && k < |requests|
    ensures var log := DispatchAll(env, start, requests).log;
            && |log| == |requests|
            && log[k].worker == k % |start.workers|
            && log[k].request == requests[k]
    decreases requests
  {
    var last := |requests| - 1;
    hide Successor;
    RoundRobin(env, start, requests[..last], 0);
    if k < last {
      ExchangeAt(env, start, requests[..last], k);
    }
  }

  /** The numbers of requests of two workers never differ by more than one. */
  lemma Balanced<S(!new)>(env: Env<S>, start: PoolState<S>, requests: seq<seq<byte>>, a: nat, b: nat)
    requires WellFormed(env, start) && start.next == 0 && start.log == []
    requires AllAdmissible(env, requests)
    requires a < |start.workers| && b < |start.workers|
    ensures var log := DispatchAll(env, start, requests).log;
            Served(log, a) <= Served(log, b) + 1 && Served(log, b) <= Served(log, a) + 1
  {
    RoundRobin(env, start, requests, a);
    RoundRobin(env, start, requests, b);
  }

  // ---------------------------------------------------------------- replies

  /** The requests that a worker served, in order. */
  function Own(log: seq<Exchange>, worker: nat): seq<seq<byte>> {
    if log == [] then []
    else
      var last := log[|log| - 1];
      Own(log[..|log| - 1], worker) + if last.worker == worker then [last.request] else []
  }

  /** Each worker is in the state that its own requests alone lead to. */
  lemma {:induction false} WorkerStates<S(!new)>(env: Env<S>, start: PoolState<S>, requests: seq<seq<byte>>, worker: nat)
    requires WellFormed(env, start) && start.log == []
    requires AllAdmissible(env, requests) && worker < |start.workers|
    ensures var p := DispatchAll(env, start, requests);
            && NoShutdown(env, Own(p.log, worker))
            && p.workers[worker] == StateAfter(env, start.workers[worker], Own(p.log, worker))
    decreases requests
  {
    if requests != [] {
      var last := |requests| - 1;
      var p := DispatchAll(env, start, requests[..last]);
      WorkerStates(env, start, requests[..last], worker);
      var q := DispatchAll(env, start, requests);
      assert q.log[..|q.log| - 1] == p.log;
      if p.next == worker {
        StateAfterSnoc(env, start.workers[worker], Own(p.log, worker), requests[last]);
      } else {
        assert Own(p.log, worker) + [] == Own(p.log, worker);
      }
    }
  }

  /** Each reply is the answer of its worker to its request, as if the worker had served its own requests alone. */
  lemma {:induction false} RepliesAreOwn<S(!new)>(env: Env<S>, start: PoolState<S>, requests: seq<seq<byte>>, k: nat)
    requires WellFormed(env, start) && start.log == []
    requires AllAdmissible(env, requests) && k < |requests|
    ensures var log := DispatchAll(env, start, requests).log;
            && |log| == |requests| && log[k].worker < |start.workers| && log[k].request == requests[k]
            && NoShutdown(env, Own(log[..k], log[k].worker))
            && TakeTurn(env, StateAfter(env, start.workers[log[k].worker], Own(log[..k], log[k].worker)), requests[k]).message
               == Some(log[k].reply)
    decreases requests
  {
    var last := |requests| - 1;
    var p := DispatchAll(env, start, requests[..last]);
    var q := DispatchAll(env, start, requests);
    hide Successor, TakeTurn, Own;
    LogLength(env, start, requests[..last]);
    if k < last {
      RepliesAreOwn(env, start, requests[..last], k);
      assert q.log[..k] == p.log[..k];
    } else {
      WorkerStates(env, start, requests[..last], p.next);
      assert q.log[..k] == p.log;
      TurnAnswers(env, p.workers[p.next], requests[last]);
    }
  }

  lemma {:induction false} LogLength<S(!new)>(env: Env<S>, start: PoolState<S>, requests: seq<seq<byte>>)
    requires WellFormed(env, start) && start.log == [] && AllAdmissible(env, requests)
    ensures |DispatchAll(env, start, requests).log| == |requests|
    decreases requests
  {
    if requests != [] {
      LogLength(env, start, requests[..|requests| - 1]);
    }
  }

  // ---------------------------------------------------------------- the pool

  /** A worker process with its two pipes, seen from the parent. */
  class Worker<!S(!new)> {
    var state: S
    var toChild: seq<byte>
    var fromChild: seq<byte>

    constructor (state: S)
      ensures this.state == state && toChild == [] && fromChild == []
    {
      this.state, toChild, fromChild := state, [], [];
    }

    ghost predicate Quiet()
      reads this
    {
      toChild == [] && fromChild == []
    }

    /** The child process handles the frame that is waiting in its pipe. */
    method ChildTurn(env: Env<S>)
      requires Encodes(env)
      requires ReadFrame(toChild).Some? && !IsShutdown(env, ReadFrame(toChild).value.0)
      modifies this
      ensures var (payload, rest) := old(ReadFrame(toChild).value);
              var turn := TakeTurn(env, old(state), payload);
              && turn.Answer? && turn.message.Some?
              && toChild == rest
              && state == turn.next
              && fromChild == old(fromChild) + EncodeFrame(turn.message.value)
    {
      var (payload, rest) := ReadFrame(toChild).value;
      var turn := TakeTurn(env, state, payload);
      TurnAnswers(env, state, payload);
      toChild := rest;
      state := turn.next;
      fromChild := fromChild + EncodeFrame(turn.message.value);
    }

    method Send(env: Env<S>, request: seq<byte>) returns (reply: seq<byte>)
      requires Encodes(env) && Admissible(env, request)
      requires Quiet()
      modifies this
      ensures Quiet()
      ensures var turn := TakeTurn(env, old(state), request);
              turn.Answer? && turn.message == Some(reply) && state == turn.next
    {
      hide ReadFrame, EncodeFrame;
      toChild := toChild + EncodeFrame(request);
      assert toChild == EncodeFrame(request) + [];
      FrameRoundTrip(request, []);
      ChildTurn(env);
      ghost var message := TakeTurn(env, old(state), request).message.value;
      TurnAnswers(env, old(state), request);
      assert fromChild == EncodeFrame(message) + [];
      FrameRoundTrip(message, []);
      var (payload, rest) := ReadFrame(fromChild).value;
      reply, fromChild := payload, rest;
    }
  }

  ghost function States<S(!new)>(workers: seq<Worker<S>>): (states: seq<S>)
    reads workers
    ensures |states| == |workers|
    ensures forall i :: 0 <= i < |workers| ==> states[i] == workers[i].state
  {
    if workers == [] then [] else [workers[0].state] + States(workers[1..])
  }

  class Pool<!S(!new)> {
    const workers: seq<Worker<S>>
    var next: nat
    ghost var log: seq<Exchange>

    ghost predicate Valid()
      reads this, workers
    {
      && next < |workers|
      && (forall i, j :: 0 <= i < j < |workers| ==> workers[i] != workers[j])
      && (forall i :: 0 <= i < |workers| ==> workers[i].Quiet())
    }

    ghost function View(): PoolState<S>
      reads this, workers
    {
      PoolState(States(workers), next, log)
    }

    constructor (workers: seq<Worker<S>>)
      requires workers != []
      requires forall i, j :: 0 <= i < j < |workers| ==> workers[i] != workers[j]
      requires forall i :: 0 <= i < |workers| ==> workers[i].Quiet()
      ensures this.workers == workers && Valid()
      ensures View() == PoolState(States(workers), 0, [])
    {
      this.workers := workers;
      next, log := 0, [];
    }

    method Send(env: Env<S>, request: seq<byte>) returns (reply: seq<byte>)
      requires Valid() && Encodes(env) && Admissible(env, request)
      modifies this, workers
      ensures Valid()
      ensures View() == Dispatch(env, old(View()), request)
      ensures log[|old(log)|].reply == reply
    {
      var idx := next;
      next := Successor(next, |workers|);
      ghost var before := States(workers);
      reply := workers[idx].Send(env, request);
      log := log + [Exchange(idx, request, reply)];
      assert States(workers) == before[idx := workers[idx].state];
    }

    /** Dropping the pool asks every worker to stop. */
    method Drop(env: Env<S>, shutdown: seq<byte>)
      requires Valid() && IsShutdown(env, shutdown)
      modifies workers
      ensures forall i :: 0 <= i < |workers| ==>
                workers[i].toChild == EncodeFrame(shutdown) && workers[i].fromChild == []
    {
      for i := 0 to |workers|
        invariant forall j :: 0 <= j < i ==>
                    workers[j].toChild == EncodeFrame(shutdown) && workers[j].fromChild == []
        invariant forall j :: i <= j < |workers| ==> workers[j].Quiet()
      {
        workers[i].toChild := workers[i].toChild + EncodeFrame(shutdown);
        assert workers[i].toChild == [] + EncodeFrame(shutdown) == EncodeFrame(shutdown);
      }
    }
  }

  /** A worker that receives the shutdown frame exits without writing anything. */
  lemma DroppedWorkerStops<S(!new)>(env: Env<S>, s: S, shutdown: seq<byte>, out: seq<byte>, room: nat)
    requires IsShutdown(env, shutdown) && |shutdown| < MAX_PAYLOAD
    ensures Loop(env, s, EncodeFrame(shutdown), out, room) == (out, [])
  {
    FrameRoundTrip(shutdown, []);
    assert EncodeFrame(shutdown) + [] == EncodeFrame(shutdown);
    hide ReadFrame, EncodeFrame;
  }
}
