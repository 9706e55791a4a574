/** The worker side of the bridge (`instance.rs`): the top-level request and response
    types, their dispatch to the category handlers, and the worker thread's life as a
    state machine over the request channel, the spawned tasks, the shared engine handle
    and the one-shot termination signal. */
module Instance {
  import opened Wrappers
  import opened Errors
  import opened Engine
  import Collections
  import Points
  import Queries

  /** The capacity of the request channel (`RRO_CHANNEL_BUFFER`). */
  const RroChannelBuffer: nat := 1024

  datatype RroRequest =
    | Collection(collection: Collections.CollectionRequest)
    | Alias(alias: Collections.AliasRequest)
    | Points(points: Points.PointsRequest)
    | Query(query: Queries.QueryRequest)

  datatype RroResponse =
    | Collection(collection: Collections.CollectionResponse)
    | Alias(alias: Collections.AliasResponse)
    | Points(points: Points.PointsResponse)
    | Query(query: Queries.QueryResponse)

  /** A response answers a request when it is of the same category and, within it, of the
      variant the category's handler gives that request. */
  predicate Answers(req: RroRequest, resp: RroResponse) {
    match req
    case Collection(c) => resp.Collection? && Collections.CollectionAnswers(c, resp.collection)
    case Alias(a) => resp.Alias? && Collections.AliasAnswers(a, resp.alias)
    case Points(p) => resp.Points? && Points.PointsAnswers(p, resp.points)
    case Query(q) => resp.Query? && Queries.QueryAnswers(q, resp.query)
  }

  /** `Handler for RRORequest`: each category goes to its own handler, whose answer comes back
      wrapped in the same category and whose error passes unchanged. */
  function Handle(req: RroRequest, toc: Toc, fmt: Fmt): (r: Result<RroResponse, StorageError>)
    ensures r.Ok? ==> Answers(req, r.value)
    ensures req.Collection? ==>
      var sub := Collections.HandleCollection(req.collection, toc);
      (r.Err? <==> sub.Err?) && (r.Err? ==> r.error == sub.error) && (r.Ok? ==> r.value == RroResponse.Collection(sub.value))
    ensures req.Alias? ==>
      var sub := Collections.HandleAlias(req.alias, toc);
      (r.Err? <==> sub.Err?) && (r.Err? ==> r.error == sub.error) && (r.Ok? ==> r.value == RroResponse.Alias(sub.value))
    ensures req.Points? ==>
      var sub := Points.HandlePoints(req.points, toc, fmt);
      (r.Err? <==> sub.Err?) && (r.Err? ==> r.error == sub.error) && (r.Ok? ==> r.value == RroResponse.Points(sub.value))
    ensures req.Query? ==>
      var sub := Queries.HandleQuery(req.query, toc, fmt);
      (r.Err? <==> sub.Err?) && (r.Err? ==> r.error == sub.error) && (r.Ok? ==> r.value == RroResponse.Query(sub.value))
  {
    match req
    case Collection(c) =>
      (match Collections.HandleCollection(c, toc)
       case Err(e) => Err(e)
       case Ok(resp) => Ok(RroResponse.Collection(resp)))
    case Alias(a) =>
      (match Collections.HandleAlias(a, toc)
       case Err(e) => Err(e)
       case Ok(resp) => Ok(RroResponse.Alias(resp)))
    case Points(p) =>
      (match Points.HandlePoints(p, toc, fmt)
       case Err(e) => Err(e)
       case Ok(resp) => Ok(RroResponse.Points(resp)))
    case Query(q) =>
      match Queries.HandleQuery(q, toc, fmt)
      case Err(e) => Err(e)
      case Ok(resp) => Ok(RroResponse.Query(resp))
  }

  /** The handler bound to the engine `start_rro` yields. When start-up fails no request is
      ever handled, and the function is never applied. */
  function Serving(startup: Result<Toc, QdrantError>, fmt: Fmt): RroRequest -> Result<RroResponse, StorageError> {
    (req: RroRequest) => if startup.Ok? then Handle(req, startup.value, fmt) else Err(ServiceError("no engine"))
  }

  /** Once the engine is up, every task the worker spawns answers its request as the
      top-level handler does on that engine: in the right category, with the category
      handler's error unchanged. */
  lemma ServingHandles(startup: Result<Toc, QdrantError>, fmt: Fmt, req: RroRequest)
    requires startup.Ok?
    ensures Serving(startup, fmt)(req) == Handle(req, startup.value, fmt)
    ensures var r := Serving(startup, fmt)(req);
      r.Ok? ==> Answers(req, r.value)
  {
  }

  // ---- the worker thread ------------------------------------------------------------------

  /** Where the worker thread is: waiting for the engine to be built, receiving requests,
      waiting to become the engine's sole owner, finished, or ended by a failed start. */
  datatype Phase = Starting | Accepting | Reclaiming | Terminated | StartupFailed

  /** The state of one request's reply slot (its one-shot responder). `Abandoned`: the caller
      stopped waiting and dropped its end. `Unanswered`: the responder was dropped unused. */
  datatype Reply = Awaiting | Replied(result: Result<RroResponse, StorageError>) | Unanswered | Abandoned

  /** A reply slot that a reply may still be attempted on. */
  predicate Open(r: Reply) {
    r.Awaiting? || r.Abandoned?
  }

  /** A buffered request with the slot its reply goes to. */
  datatype Message = Message(request: RroRequest, slot: nat)

  /** A spawned task: the result it computed with its own engine handle, not yet sent. */
  datatype Task = Task(slot: nat, result: Result<RroResponse, StorageError>)

  /** The one-shot termination signal: not yet fired, fired, or gone without reaching anyone. */
  datatype Signal = Armed | Sent | Discarded

  /** What `tx.send(msg)` does: the message is buffered in a fresh slot; the worker's receiver
      is gone; or the buffer is full and the sender would wait for room. */
  datatype SendOutcome = Enqueued(slot: nat) | Closed | Full

  function TaskSlots(ts: seq<Task>): (r: seq<nat>)
    ensures |r| == |ts| && forall k :: 0 <= k < |ts| ==> r[k] == ts[k].slot
  {
    seq(|ts|, k requires 0 <= k < |ts| => ts[k].slot)
  }

  function QueueSlots(ms: seq<Message>): (r: seq<nat>)
    ensures |r| == |ms| && forall k :: 0 <= k < |ms| ==> r[k] == ms[k].slot
  {
    seq(|ms|, k requires 0 <= k < |ms| => ms[k].slot)
  }

  /** The tasks spawned for buffered messages, in order, each with the result `serve` gives
      its request. */
  function Spawned(ms: seq<Message>, serve: RroRequest -> Result<RroResponse, StorageError>): (ts: seq<Task>)
    ensures |ts| == |ms| && forall k :: 0 <= k < |ms| ==> ts[k] == Task(ms[k].slot, serve(ms[k].request))
  {
    seq(|ms|, k requires 0 <= k < |ms| => Task(ms[k].slot, serve(ms[k].request)))
  }

  predicate Distinct(xs: seq<nat>) {
    forall i, j :: 0 <= i < j < |xs| ==> xs[i] != xs[j]
  }

  /** Removing the `k`-th of distinct slots leaves distinct slots, among which the removed one
      is no longer found, and every other slot still is. */
  lemma RemoveDistinct(xs: seq<nat>, k: nat)
    requires Distinct(xs) && k < |xs|
    ensures Distinct(xs[..k] + xs[k + 1..])
    ensures xs[k] !in xs[..k] + xs[k + 1..]
    ensures forall x :: x in xs && x != xs[k] ==> x in xs[..k] + xs[k + 1..]
  {
    var ys := xs[..k] + xs[k + 1..];
    assert forall j :: 0 <= j < |ys| ==> ys[j] == (if j < k then xs[j] else xs[j + 1]);
    forall x | x in xs && x != xs[k]
      ensures x in ys
    {
      var i :| 0 <= i < |xs| && xs[i] == x;
      if i < k {
        assert ys[i] == x;
      } else {
        assert ys[i - 1] == x;
      }
    }
  }

  /** The slots pending after the `k`-th task finishes are the former ones without the `k`-th. */
  lemma RemoveTaskSlot(ts: seq<Task>, ms: seq<Message>, k: nat)
    requires k < |ts|
    ensures TaskSlots(ts[..k] + ts[k + 1..]) + QueueSlots(ms) ==
      (TaskSlots(ts) + QueueSlots(ms))[..k] + (TaskSlots(ts) + QueueSlots(ms))[k + 1..]
  {
  }

  /** Each pending slot has its own responder, not yet used, and every slot still awaited
      is pending. */
  ghost predicate SlotsOk(replies: map<nat, Reply>, issued: map<nat, RroRequest>, nextSlot: nat, pending: seq<nat>) {
    (forall s :: s in replies ==> s < nextSlot) &&
    issued.Keys == replies.Keys &&
    Distinct(pending) &&
    (forall k :: 0 <= k < |pending| ==> pending[k] in replies && Open(replies[pending[k]])) &&
    Awaited(replies) <= Elements(pending)
  }

  /** The slots whose caller is still waiting for its reply. */
  function Awaited(replies: map<nat, Reply>): set<nat> {
    set s | s in replies && replies[s].Awaiting?
  }

  function Elements(xs: seq<nat>): set<nat> {
    set x | x in xs
  }

  /** Buffered messages carry the request of their slot, and every result, sent or not, is
      the handling of the request its slot was opened for. */
  ghost predicate WorkOk(queue: seq<Message>, tasks: seq<Task>, replies: map<nat, Reply>, issued: map<nat, RroRequest>,
                         serve: RroRequest -> Result<RroResponse, StorageError>) {
    (forall k :: 0 <= k < |queue| ==> queue[k].slot in issued && issued[queue[k].slot] == queue[k].request) &&
    (forall k :: 0 <= k < |tasks| ==> tasks[k].slot in issued && tasks[k].result == serve(issued[tasks[k].slot])) &&
    (forall s :: s in replies && replies[s].Replied? ==> s in issued && replies[s].result == serve(issued[s]))
  }

  /** The reply slots after a task tries to reply: an awaited slot takes the result; a slot
      whose caller stopped waiting is left as it is. */
  function Delivered(replies: map<nat, Reply>, t: Task): (r: map<nat, Reply>)
    requires t.slot in replies
    ensures r.Keys == replies.Keys
    ensures forall s :: s in replies && s != t.slot ==> r[s] == replies[s]
    ensures replies[t.slot].Awaiting? ==> r[t.slot] == Replied(t.result)
    ensures !replies[t.slot].Awaiting? ==> r == replies
  {
    if replies[t.slot].Awaiting? then replies[t.slot := Replied(t.result)] else replies
  }

  /** A finished task's reply keeps every pending slot's responder unused and every awaited
      slot pending, once that task's slot leaves the pending ones. */
  lemma CompleteKeepsSlots(replies: map<nat, Reply>, issued: map<nat, RroRequest>, nextSlot: nat, pending: seq<nat>,
                           t: Task, k: nat)
    requires SlotsOk(replies, issued, nextSlot, pending) && k < |pending| && pending[k] == t.slot
    ensures t.slot in replies && Open(replies[t.slot])
    ensures SlotsOk(Delivered(replies, t), issued, nextSlot, pending[..k] + pending[k + 1..])
  {
    RemoveDistinct(pending, k);
    assert Awaited(Delivered(replies, t)) <= Awaited(replies) - {t.slot};
  }

  /** A finished task's reply is the handling of its slot's request. */
  lemma CompleteKeepsWork(queue: seq<Message>, tasks: seq<Task>, replies: map<nat, Reply>, issued: map<nat, RroRequest>,
                          serve: RroRequest -> Result<RroResponse, StorageError>, k: nat)
    requires WorkOk(queue, tasks, replies, issued, serve) && k < |tasks| && tasks[k].slot in replies
    ensures WorkOk(queue, tasks[..k] + tasks[k + 1..], Delivered(replies, tasks[k]), issued, serve)
  {
    var rest := tasks[..k] + tasks[k + 1..];
    assert forall j :: 0 <= j < |rest| ==> rest[j] == (if j < k then tasks[j] else tasks[j + 1]);
  }

  /** A new message takes a fresh slot, awaited, at the back of the pending slots. */
  lemma EnqueueKeepsSlots(replies: map<nat, Reply>, issued: map<nat, RroRequest>, nextSlot: nat, pending: seq<nat>,
                          req: RroRequest)
    requires SlotsOk(replies, issued, nextSlot, pending)
    ensures nextSlot !in replies && nextSlot !in issued
    ensures SlotsOk(replies[nextSlot := Awaiting], issued[nextSlot := req], nextSlot + 1, pending + [nextSlot])
  {
    assert nextSlot !in pending;
    assert Awaited(replies[nextSlot := Awaiting]) == Awaited(replies) + {nextSlot};
    assert Elements(pending + [nextSlot]) == Elements(pending) + {nextSlot};
  }

  /** A new message carries the request its fresh slot is opened for. */
  lemma EnqueueKeepsWork(queue: seq<Message>, tasks: seq<Task>, replies: map<nat, Reply>, issued: map<nat, RroRequest>,
                         serve: RroRequest -> Result<RroResponse, StorageError>, req: RroRequest, slot: nat)
    requires WorkOk(queue, tasks, replies, issued, serve) && slot !in issued
    ensures WorkOk(queue + [Message(req, slot)], tasks, replies[slot := Awaiting], issued[slot := req], serve)
  {
  }

  /** The reply slots once every responder still buffered is dropped unused. */
  function DroppedUnused(replies: map<nat, Reply>): (r: map<nat, Reply>)
    ensures r.Keys == replies.Keys
    ensures forall s :: s in replies ==> r[s] == (if replies[s].Awaiting? then Unanswered else replies[s])
    ensures Awaited(r) == {}
  {
    map s | s in replies :: if replies[s].Awaiting? then Unanswered else replies[s]
  }

  /** With no task running, dropping the buffered messages leaves nothing pending. */
  lemma DropKeepsSlots(replies: map<nat, Reply>, issued: map<nat, RroRequest>, nextSlot: nat, pending: seq<nat>,
                       queue: seq<Message>, serve: RroRequest -> Result<RroResponse, StorageError>)
    requires SlotsOk(replies, issued, nextSlot, pending) && WorkOk(queue, [], replies, issued, serve)
    ensures SlotsOk(DroppedUnused(replies), issued, nextSlot, [])
    ensures WorkOk([], [], DroppedUnused(replies), issued, serve)
  {
  }

  /** Every slot of `waiting` still has its caller waiting or has been given a reply; a slot
      only ever leaves `Awaiting` by being answered. */
  ghost predicate AwaitedOrReplied(replies: map<nat, Reply>, waiting: set<nat>) {
    forall s :: s in waiting ==> s in replies && (replies[s].Awaiting? || replies[s].Replied?)
  }

  /** A finished task's reply answers its slot, if awaited, and disturbs no other. */
  lemma DeliveredKeepsAnswering(replies: map<nat, Reply>, t: Task, waiting: set<nat>)
    requires t.slot in replies && AwaitedOrReplied(replies, waiting)
    ensures AwaitedOrReplied(Delivered(replies, t), waiting)
  {
  }

  /** Once no slot is awaited, every slot that was waiting holds the handling of its own
      request. */
  lemma AllAnswered(queue: seq<Message>, tasks: seq<Task>, replies: map<nat, Reply>, issued: map<nat, RroRequest>,
                    serve: RroRequest -> Result<RroResponse, StorageError>, waiting: set<nat>)
    requires WorkOk(queue, tasks, replies, issued, serve) && AwaitedOrReplied(replies, waiting)
    ensures forall s :: s in waiting ==> s in replies && (replies[s].Awaiting? || replies[s] == Replied(serve(issued[s])))
    ensures Awaited(replies) == {} ==> forall s :: s in waiting ==> s in issued && replies[s] == Replied(serve(issued[s]))
  {
    forall s | s in waiting
      ensures replies[s].Awaiting? || replies[s] == Replied(serve(issued[s]))
    {
      if replies[s].Replied? {
        assert replies[s].result == serve(issued[s]);
      }
    }
    if Awaited(replies) == {} {
      forall s | s in waiting
        ensures s in issued && replies[s] == Replied(serve(issued[s]))
      {
        assert s !in Awaited(replies);
      }
    }
  }

  class Worker {
    /** What `start_rro` will yield inside the thread: the engine, or the error it fails with. */
    const startup: Result<Toc, QdrantError>
    /** A request's handling on the started engine: `Handle` with that engine. */
    const serve: RroRequest -> Result<RroResponse, StorageError>
    var phase: Phase
    /** The engine the worker thread holds, until it drops it. */
    var engine: Option<Toc>
    /** Messages buffered in the request channel, oldest first. */
    var queue: seq<Message>
    /** Whether the caller's request sender is still alive. */
    var senderOpen: bool
    var replies: map<nat, Reply>
    /** The request each slot was opened for. */
    var issued: map<nat, RroRequest>
    var nextSlot: nat
    /** Live handles on the shared engine (`Arc` strong count). */
    var refCount: nat
    /** Spawned tasks that have not finished yet. */
    var tasks: seq<Task>
    var signal: Signal
    /** Whether the caller still holds the receiving end of the termination signal. */
    var signalReceiverOpen: bool
    /** Replies that could not be delivered, and signals that could not be; both only logged. */
    var failedReplies: nat
    var failedSignals: nat
    /** Time the reclaim loop has slept, in milliseconds. */
    var waitedMs: nat

    /** Slots still owed a reply attempt: those of running tasks, then those of buffered
        messages. Dispatching a message moves it from the back half to the front half without
        changing this sequence. */
    function Pending(): seq<nat>
      reads this
    {
      TaskSlots(tasks) + QueueSlots(queue)
    }

    ghost predicate SlotsValid()
      reads this
    {
      SlotsOk(replies, issued, nextSlot, Pending())
    }

    ghost predicate WorkValid()
      reads this
    {
      WorkOk(queue, tasks, replies, issued, serve)
    }

    /** The engine's reference count in each phase: the receive loop's handle and the reclaim
        loop's handle while accepting, only the latter while reclaiming, plus one per running
        task; the signal fires only at the very end. */
    ghost predicate PhaseValid()
      reads this
    {
      |queue| <= RroChannelBuffer &&
      (signal.Sent? ==> phase.Terminated?) &&
      match phase
      case Starting => engine.None? && refCount == 0 && tasks == [] && signal.Armed?
      case Accepting => startup.Ok? && engine == Some(startup.value) && refCount == 2 + |tasks| && signal.Armed?
      case Reclaiming =>
        startup.Ok? && engine == Some(startup.value) && refCount == 1 + |tasks| && queue == [] && !senderOpen &&
        signal.Armed?
      case Terminated =>
        startup.Ok? && engine.None? && refCount == 0 && tasks == [] && queue == [] && !senderOpen && !signal.Armed?
      case StartupFailed =>
        startup.Err? && engine.None? && refCount == 0 && tasks == [] && queue == [] && signal.Discarded?
    }

    ghost predicate Valid()
      reads this
    {
      SlotsValid() && WorkValid() && PhaseValid()
    }

    /** The worker's receiver is alive: the thread has not given up the request channel. */
    predicate ReceiverOpen()
      reads this
    {
      phase.Starting? || phase.Accepting?
    }

    /** `RROInstance::start` up to the spawn: both channels exist, the thread has not yet
        built its engine. `startup` is what building it will give. */
    constructor (fmt: Fmt, startup: Result<Toc, QdrantError>)
      ensures Valid() && this.startup == startup && serve == Serving(startup, fmt)
      ensures phase == Starting && engine.None? && queue == [] && senderOpen && replies == map[] && nextSlot == 0
      ensures refCount == 0 && tasks == [] && signal == Armed && signalReceiverOpen
      ensures failedReplies == 0 && failedSignals == 0 && waitedMs == 0
    {
      this.startup := startup;
      serve := Serving(startup, fmt);
      phase := Starting;
      engine := None;
      queue := [];
      senderOpen := true;
      replies := map[];
      issued := map[];
      nextSlot := 0;
      refCount := 0;
      tasks := [];
      signal := Armed;
      signalReceiverOpen := true;
      failedReplies := 0;
      failedSignals := 0;
      waitedMs := 0;
    }

    /** The caller's `sender.send((msg, tx))` with a fresh reply slot. */
    method Send(req: RroRequest) returns (o: SendOutcome)
      requires Valid() && senderOpen
      modifies this
      ensures Valid()
      ensures !old(ReceiverOpen()) ==> o == Closed && unchanged(this)
      ensures old(ReceiverOpen()) && old(|queue|) == RroChannelBuffer ==> o == Full && unchanged(this)
      ensures old(ReceiverOpen()) && old(|queue|) < RroChannelBuffer ==>
        o == Enqueued(old(nextSlot)) && queue == old(queue) + [Message(req, old(nextSlot))] &&
        replies == old(replies)[old(nextSlot) := Awaiting] && issued == old(issued)[old(nextSlot) := req] &&
        nextSlot == old(nextSlot) + 1
      ensures o.Enqueued? ==> phase == old(phase) && tasks == old(tasks) && refCount == old(refCount) && signal == old(signal)
      ensures engine == old(engine) && senderOpen
    {
      if !ReceiverOpen() {
        return Closed;
      }
      if |queue| == RroChannelBuffer {
        return Full;
      }
      var slot := nextSlot;
      EnqueueKeepsSlots(replies, issued, nextSlot, Pending(), req);
      EnqueueKeepsWork(queue, tasks, replies, issued, serve, req, slot);
      queue := queue + [Message(req, slot)];
      replies := replies[slot := Awaiting];
      issued := issued[slot := req];
      nextSlot := nextSlot + 1;
      assert Pending() == old(Pending()) + [slot];
      return Enqueued(slot);
    }

    /** The caller stops waiting for a reply and drops its end of the slot. */
    method Abandon(slot: nat)
      requires Valid() && slot in replies
      modifies this
      ensures Valid()
      ensures replies == old(replies)[slot := if old(replies[slot]).Awaiting? then Abandoned else old(replies[slot])]
      ensures phase == old(phase) && queue == old(queue) && tasks == old(tasks) && refCount == old(refCount)
      ensures engine == old(engine) && signal == old(signal) && senderOpen == old(senderOpen)
    {
      if replies[slot].Awaiting? {
        replies := replies[slot := Abandoned];
      }
    }

    /** `ManuallyDrop::drop(&mut self.tx)`: the caller's request sender goes away. */
    method CloseSender()
      requires Valid() && senderOpen
      modifies this
      ensures Valid() && !senderOpen
      ensures phase == old(phase) && queue == old(queue) && tasks == old(tasks) && replies == old(replies)
      ensures refCount == old(refCount) && engine == old(engine) && signal == old(signal)
    {
      senderOpen := false;
    }

    /** `start_rro` inside the thread, yielding `startup`. On success the engine is
        held twice (the receive loop's handle and `toc_clone`). On failure the closure returns
        early: the receiver and every buffered responder are dropped unused, and the
        termination sender is dropped without firing. */
    method Boot()
      requires Valid() && phase == Starting
      modifies this
      ensures Valid()
      ensures startup.Ok? ==>
        phase == Accepting && engine == Some(startup.value) && refCount == 2 &&
        queue == old(queue) && replies == old(replies) && signal == Armed
      ensures startup.Err? ==>
        phase == StartupFailed && queue == [] && signal == Discarded &&
        replies.Keys == old(replies).Keys &&
        forall s :: s in replies ==> replies[s] == (if old(replies[s]).Awaiting? then Unanswered else old(replies[s]))
      ensures nextSlot == old(nextSlot) && senderOpen == old(senderOpen) && tasks == []
    {
      if startup.Ok? {
        engine := Some(startup.value);
        refCount := 2;
        phase := Accepting;
      } else {
        DropKeepsSlots(replies, issued, nextSlot, Pending(), queue, serve);
        replies := DroppedUnused(replies);
        queue := [];
        signal := Discarded;
        phase := StartupFailed;
      }
    }

    /** One turn of the receive loop: the oldest buffered message is received, its engine
        handle cloned, and a task spawned that holds the handler's result for it. */
    method Receive()
      requires Valid() && phase == Accepting && queue != []
      modifies this
      ensures Valid() && phase == Accepting
      ensures queue == old(queue[1..])
      ensures tasks == old(tasks) + [Task(old(queue[0].slot), serve(old(queue[0].request)))]
      ensures refCount == old(refCount) + 1 && Pending() == old(Pending())
      ensures engine == old(engine) && replies == old(replies) && issued == old(issued) && senderOpen == old(senderOpen)
      ensures signal == old(signal) && nextSlot == old(nextSlot) && signalReceiverOpen == old(signalReceiverOpen)
      ensures failedReplies == old(failedReplies) && failedSignals == old(failedSignals) && waitedMs == old(waitedMs)
    {
      var m := queue[0];
      assert Pending()[|tasks|] == m.slot;
      queue := queue[1..];
      refCount := refCount + 1;
      var result := serve(m.request);
      tasks := tasks + [Task(m.slot, result)];
      assert TaskSlots(tasks) == old(TaskSlots(tasks)) + [m.slot];
      assert QueueSlots(queue) == QueueSlots(old(queue))[1..];
      assert Pending() == old(Pending());
    }

    /** The receive loop, run until the channel has nothing buffered: every message, oldest
        first, is handed to a task of its own holding its own engine handle. When the sender
        is gone as well, `recv` yields `None`, the loop ends normally and its handle is
        released. */
    method Dispatch() returns (ended: bool)
      requires Valid() && phase == Accepting
      modifies this
      ensures Valid()
      ensures engine == old(engine) && queue == []
      ensures tasks == old(tasks) + Spawned(old(queue), serve)
      ensures ended <==> !senderOpen
      ensures ended ==> phase == Reclaiming && refCount == 1 + |tasks|
      ensures !ended ==> phase == Accepting && refCount == 2 + |tasks|
      ensures replies == old(replies) && issued == old(issued) && senderOpen == old(senderOpen)
      ensures signal == old(signal) && nextSlot == old(nextSlot)
    {
      ghost var spawned := Spawned(queue, serve);
      var i := 0;
      while queue != []
        invariant 0 <= i <= |old(queue)| && queue == old(queue)[i..]
        invariant tasks == old(tasks) + spawned[..i]
        invariant Valid() && phase == Accepting
        invariant engine == old(engine) && replies == old(replies) && issued == old(issued) && senderOpen == old(senderOpen)
        invariant signal == old(signal) && nextSlot == old(nextSlot)
        decreases |queue|
      {
        Receive();
        assert spawned[..i + 1] == spawned[..i] + [spawned[i]];
        i := i + 1;
      }
      assert spawned[..i] == spawned;
      if !senderOpen {
        refCount := refCount - 1;
        phase := Reclaiming;
        return true;
      }
      return false;
    }

    /** A spawned task finishing: `resp_sender.send(res)` and the drop of its engine handle.
        A reply to a caller that stopped waiting is counted as failed, nothing more. */
    method CompleteTask(k: nat)
      requires Valid() && (phase == Accepting || phase == Reclaiming) && k < |tasks|
      modifies this
      ensures Valid()
      ensures tasks == old(tasks[..k] + tasks[k + 1..]) && refCount == old(refCount) - 1
      ensures old(tasks[k].slot) in old(replies) && Open(old(replies)[old(tasks[k].slot)])
      ensures replies == Delivered(old(replies), old(tasks[k]))
      ensures old(replies)[old(tasks[k].slot)].Awaiting? ==> failedReplies == old(failedReplies)
      ensures old(replies)[old(tasks[k].slot)].Abandoned? ==> failedReplies == old(failedReplies) + 1
      ensures phase == old(phase) && queue == old(queue) && engine == old(engine) && issued == old(issued)
      ensures signal == old(signal) && senderOpen == old(senderOpen) && nextSlot == old(nextSlot)
      ensures signalReceiverOpen == old(signalReceiverOpen) && failedSignals == old(failedSignals) && waitedMs == old(waitedMs)
    {
      var t := tasks[k];
      ghost var before := Pending();
      assert before[k] == t.slot;
      CompleteKeepsSlots(replies, issued, nextSlot, before, t, k);
      CompleteKeepsWork(queue, tasks, replies, issued, serve, k);
      RemoveTaskSlot(tasks, queue, k);
      if replies[t.slot].Abandoned? {
        failedReplies := failedReplies + 1;
      }
      replies := Delivered(replies, t);
      tasks := tasks[..k] + tasks[k + 1..];
      refCount := refCount - 1;
      assert Pending() == before[..k] + before[k + 1..];
      assert SlotsValid() && WorkValid();
    }

    /** The reclaim loop: `Arc::try_unwrap` succeeds once the reclaim handle is the only one
        left. The engine is then dropped and the signal fired, a failed delivery only
        counted; otherwise the worker sleeps 300 ms and tries again. `finishing` is the
        schedule of tasks that finish during those sleeps (an index out of range: none
        does); when it runs out while other handles remain, the worker is still waiting,
        as it would go on doing without bound. */
    method Reclaim(finishing: seq<nat>) returns (done: bool)
      requires Valid() && phase == Reclaiming
      modifies this
      ensures Valid()
      ensures done <==> phase == Terminated
      ensures done ==> engine.None? && tasks == [] && Awaited(replies) == {}
      ensures done && old(signalReceiverOpen) ==> signal == Sent && failedSignals == old(failedSignals)
      ensures done && !old(signalReceiverOpen) ==> signal == Discarded && failedSignals == old(failedSignals) + 1
      ensures !done ==> phase == Reclaiming && refCount > 1 && waitedMs == old(waitedMs) + 300 * (|finishing| + 1)
      ensures done ==> waitedMs <= old(waitedMs) + 300 * |finishing|
      ensures (waitedMs - old(waitedMs)) % 300 == 0
      ensures forall s :: s in old(replies) && old(replies[s]).Replied? ==> s in replies && replies[s] == old(replies[s])
      ensures forall s :: s in old(Awaited(replies)) ==>
        s in replies && (replies[s].Awaiting? || replies[s] == Replied(serve(issued[s])))
      ensures done ==> forall s :: s in old(Awaited(replies)) ==> replies[s] == Replied(serve(issued[s]))
      ensures forall t :: t in tasks ==> t in old(tasks)
      ensures issued == old(issued) && nextSlot == old(nextSlot) && queue == []
    {
      ghost var waiting := Awaited(replies);
      var i := 0;
      while true
        invariant 0 <= i <= |finishing|
        invariant Valid() && phase == Reclaiming
        invariant waitedMs == old(waitedMs) + 300 * i
        invariant signalReceiverOpen == old(signalReceiverOpen) && failedSignals == old(failedSignals)
        invariant forall s :: s in old(replies) && old(replies[s]).Replied? ==> s in replies && replies[s] == old(replies[s])
        invariant AwaitedOrReplied(replies, waiting)
        invariant forall t :: t in tasks ==> t in old(tasks)
        invariant issued == old(issued) && nextSlot == old(nextSlot)
        decreases |finishing| - i
      {
        if refCount == 1 {
          Finish();
          AllAnswered(queue, tasks, replies, issued, serve, waiting);
          return true;
        }
        waitedMs := waitedMs + 300;
        if i == |finishing| {
          AllAnswered(queue, tasks, replies, issued, serve, waiting);
          return false;
        }
        if finishing[i] < |tasks| {
          DeliveredKeepsAnswering(replies, tasks[finishing[i]], waiting);
          CompleteTask(finishing[i]);
        }
        i := i + 1;
      }
    }

    /** `Arc::try_unwrap` succeeding: the engine is dropped and the termination signal fired;
        a signal nobody receives any more is counted as failed. No caller is left waiting: with
        no task running and nothing buffered, every reply slot has been used or given up. */
    method Finish()
      requires Valid() && phase == Reclaiming && refCount == 1
      modifies this
      ensures Valid() && phase == Terminated && engine.None? && refCount == 0 && tasks == []
      ensures Awaited(replies) == {}
      ensures old(signalReceiverOpen) ==> signal == Sent && failedSignals == old(failedSignals)
      ensures !old(signalReceiverOpen) ==> signal == Discarded && failedSignals == old(failedSignals) + 1
      ensures replies == old(replies) && issued == old(issued) && nextSlot == old(nextSlot) && queue == old(queue)
      ensures signalReceiverOpen == old(signalReceiverOpen) && waitedMs == old(waitedMs) && failedReplies == old(failedReplies)
    {
      assert Pending() == [];
      assert Awaited(replies) == {} by {
        assert Elements(Pending()) == {};
      }
      engine := None;
      if signalReceiverOpen {
        signal := Sent;
      } else {
        signal := Discarded;
        failedSignals := failedSignals + 1;
      }
      refCount := 0;
      phase := Terminated;
    }

    /** The caller's end of the termination signal goes away (its handle is gone). */
    method CloseSignalReceiver()
      requires Valid()
      modifies this
      ensures Valid() && !signalReceiverOpen
      ensures phase == old(phase) && queue == old(queue) && tasks == old(tasks) && replies == old(replies)
      ensures refCount == old(refCount) && engine == old(engine) && signal == old(signal) && senderOpen == old(senderOpen)
    {
      signalReceiverOpen := false;
    }
  }
}
