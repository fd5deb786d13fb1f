/** The agent's telemetry queue: producers enqueue without waiting or drop, one worker collects batches and
    posts them. Each method of the agent is one atomic step; producers and worker interleave freely. */
module Queue {
  import opened Basics

  /** Where the worker stands: waiting for an event, filling a batch, about to post, or gone. */
  datatype Place = Receiving | Filling | Posting | Gone

  datatype State<T> = State(queue: seq<T>, batch: seq<T>, posts: seq<seq<T>>, dropped: seq<T>, open: bool, place: Place)

  function Start<T>(): State<T> {
    State([], [], [], [], true, Receiving)
  }

  /** Steps. `handOver` says that the worker happens to stand waiting, which only matters for a queue without
      capacity: there an event passes from hand to hand. */
  datatype Op<T> = Record(event: T, handOver: bool)
                 | Close
                 | Receive
                 | TimeOut
                 | Disconnect
                 | Fill
                 | StopFilling
                 | Post

  predicate HandsOver<T>(s: State<T>, capacity: nat, handOver: bool) {
    capacity == 0 && handOver && s.place == Receiving
  }

  /** When a step can happen. */
  predicate Enabled<T>(s: State<T>, op: Op<T>, capacity: nat, batchSize: nat) {
    match op
    case Record(_, _) => s.open
    case Close => s.open
    case Receive => s.place == Receiving && s.queue != []
    case TimeOut => s.place == Receiving && s.queue == []
    case Disconnect => s.place == Receiving && s.queue == [] && !s.open
    case Fill => s.place == Filling && |s.batch| < batchSize && s.queue != []
    case StopFilling => s.place == Filling && (|s.batch| >= batchSize || s.queue == [])
    case Post => s.place == Posting
  }

  function Step<T>(s: State<T>, op: Op<T>, capacity: nat, batchSize: nat): State<T>
    requires Enabled(s, op, capacity, batchSize)
  {
    match op
    case Record(e, handOver) =>
      if HandsOver(s, capacity, handOver) then s.(batch := s.batch + [e], place := Filling)
      else if |s.queue| < capacity then s.(queue := s.queue + [e])
      else s.(dropped := s.dropped + [e])
    case Close => s.(open := false)
    case Receive => s.(queue := s.queue[1..], batch := s.batch + [s.queue[0]], place := Filling)
    case TimeOut => if s.batch == [] then s else s.(place := Posting)
    case Disconnect => s.(posts := if s.batch == [] then s.posts else s.posts + [s.batch], batch := [], place := Gone)
    case Fill => s.(queue := s.queue[1..], batch := s.batch + [s.queue[0]])
    case StopFilling => if s.batch == [] then s.(place := Receiving) else s.(place := Posting)
    case Post => s.(posts := s.posts + [s.batch], batch := [], place := Receiving)
  }

  class Agent<T> {
    const capacity: nat
    const batchSize: nat
    var queue: seq<T>
    var batch: seq<T>
    var place: Place
    var open: bool
    var droppedEvents: nat
    ghost var posts: seq<seq<T>>
    ghost var dropped: seq<T>

    ghost function Now(): State<T>
      reads this
    {
      State(queue, batch, posts, dropped, open, place)
    }

    ghost predicate Valid()
      reads this
    {
      droppedEvents == |dropped|
    }

    constructor (capacity: nat, batchSize: nat)
      ensures Valid() && Now() == Start<T>() && this.capacity == capacity && this.batchSize == batchSize
    {
      this.capacity, this.batchSize := capacity, batchSize;
      queue, batch, posts, dropped := [], [], [], [];
      place, open, droppedEvents := Receiving, true, 0;
    }

    /** `try_send`, or one more dropped event. */
    method RecordEventNonBlocking(event: T, handOver: bool)
      requires Valid() && Enabled(Now(), Record(event, handOver), capacity, batchSize)
      modifies this
      ensures Valid() && Now() == Step(old(Now()), Record(event, handOver), capacity, batchSize)
    {
      if capacity == 0 && handOver && place == Receiving {
        batch := batch + [event];
        place := Filling;
      } else if |queue| < capacity {
        queue := queue + [event];
      } else {
        droppedEvents := droppedEvents + 1;
        dropped := dropped + [event];
      }
    }

    /** The client is dropped, and with it the sending end. */
    method CloseSender()
      requires Valid() && Enabled(Now(), Close, capacity, batchSize)
      modifies this`open
      ensures Valid() && Now() == Step(old(Now()), Close, capacity, batchSize)
    {
      open := false;
    }

    /** `recv_timeout`: an event, a time-out, or the end; which of the last two is up to the clock. */
    method ReceiveWithTimeout(timeOut: bool)
      requires Valid() && place == Receiving && (queue == [] && !timeOut ==> !open)
      modifies this
      ensures Valid()
      ensures Now() == Step(old(Now()), if old(queue) != [] then Receive else if timeOut then TimeOut else Disconnect,
                            capacity, batchSize)
    {
      if queue != [] {
        batch := batch + [queue[0]];
        queue := queue[1..];
        place := Filling;
      } else if timeOut {
        if batch != [] {
          place := Posting;
        }
      } else {
        if batch != [] {
          posts := posts + [batch];
        }
        batch := [];
        place := Gone;
      }
    }

    /** One turn of the inner loop: another event, or the end of filling. */
    method FillOnce()
      requires Valid() && place == Filling
      modifies this
      ensures Valid()
      ensures Now() == Step(old(Now()), if |old(batch)| < batchSize && old(queue) != [] then Fill else StopFilling,
                            capacity, batchSize)
    {
      if |batch| < batchSize && queue != [] {
        batch := batch + [queue[0]];
        queue := queue[1..];
      } else if batch == [] {
        place := Receiving;
      } else {
        place := Posting;
      }
    }

    /** The attempt to post; whether it succeeds makes no difference. */
    method PostBatch()
      requires Valid() && place == Posting
      modifies this
      ensures Valid() && Now() == Step(old(Now()), Post, capacity, batchSize)
    {
      posts := posts + [batch];
      batch := [];
      place := Receiving;
    }
  }

  // ---------- Every interleaving ----------

  ghost predicate IsRun<T>(states: seq<State<T>>, ops: seq<Op<T>>, capacity: nat, batchSize: nat) {
    && |states| == |ops| + 1 && states[0] == Start()
    && forall i :: 0 <= i < |ops| ==>
         && Enabled(states[i], ops[i], capacity, batchSize)
         && states[i + 1] == Step(states[i], ops[i], capacity, batchSize)
  }

  /** The step records an event and does not drop it. */
  predicate Admits<T>(s: State<T>, op: Op<T>, capacity: nat) {
    op.Record? && (HandsOver(s, capacity, op.handOver) || |s.queue| < capacity)
  }

  function Accepted<T>(states: seq<State<T>>, ops: seq<Op<T>>, capacity: nat): seq<T>
    requires |states| == |ops| + 1
  {
    if ops == [] then []
    else
      var n := |ops| - 1;
      Accepted(states[..|ops|], ops[..n], capacity) + Admitted(states[n], ops[n], capacity)
  }

  function Refused<T>(states: seq<State<T>>, ops: seq<Op<T>>, capacity: nat): seq<T>
    requires |states| == |ops| + 1
  {
    if ops == [] then []
    else
      var n := |ops| - 1;
      Refused(states[..|ops|], ops[..n], capacity) + Rejected(states[n], ops[n], capacity)
  }

  function Flatten<T>(posts: seq<seq<T>>): seq<T> {
    if posts == [] then [] else Flatten(posts[..|posts| - 1]) + posts[|posts| - 1]
  }

  lemma FlattenAppend<T>(posts: seq<seq<T>>, b: seq<T>)
    ensures Flatten(posts + [b]) == Flatten(posts) + b
  {
    assert (posts + [b])[..|posts|] == posts;
  }

  /** Everything the queue has taken in, in order: what was posted, then the batch, then the queue. */
  function Held<T>(s: State<T>): seq<T> {
    Flatten(s.posts) + s.batch + s.queue
  }

  /** The bounds of the queue, the batch and the posts, and what the worker's place says about them. */
  ghost predicate Bounded<T>(s: State<T>, capacity: nat, batchSize: nat) {
    && |s.queue| <= capacity
    && (s.place == Receiving || s.place == Gone <==> s.batch == [])
    && |s.batch| <= Max(1, batchSize)
    && (forall p <- s.posts :: 0 < |p| <= Max(1, batchSize))
    && (s.place == Gone ==> !s.open && s.queue == [])
  }

  function Admitted<T>(s: State<T>, op: Op<T>, capacity: nat): seq<T> {
    if Admits(s, op, capacity) then [op.event] else []
  }

  lemma StepHolds<T>(s: State<T>, op: Op<T>, capacity: nat, batchSize: nat)
    requires Bounded(s, capacity, batchSize) && Enabled(s, op, capacity, batchSize)
    ensures Held(Step(s, op, capacity, batchSize)) == Held(s) + Admitted(s, op, capacity)
  {
    match op
    case Record(_, _) =>
      if HandsOver(s, capacity, op.handOver) {
        assert s.queue == [];
      }
    case Receive => TakesFirst(s.posts, s.batch, s.queue);
    case Fill => TakesFirst(s.posts, s.batch, s.queue);
    case Post => FlattenAppend(s.posts, s.batch);
    case _ =>
  }

  lemma TakesFirst<T>(posts: seq<seq<T>>, batch: seq<T>, queue: seq<T>)
    requires queue != []
    ensures Flatten(posts) + (batch + [queue[0]]) + queue[1..] == Flatten(posts) + batch + queue
  {
    hide Flatten;
  }

  lemma StepStaysBounded<T>(s: State<T>, op: Op<T>, capacity: nat, batchSize: nat)
    requires Bounded(s, capacity, batchSize) && Enabled(s, op, capacity, batchSize)
    ensures Bounded(Step(s, op, capacity, batchSize), capacity, batchSize)
  {
  }

  lemma {:induction false} RunIsSound<T>(states: seq<State<T>>, ops: seq<Op<T>>, capacity: nat, batchSize: nat)
    requires IsRun(states, ops, capacity, batchSize)
    ensures Bounded(states[|ops|], capacity, batchSize)
    ensures Held(states[|ops|]) == Accepted(states, ops, capacity)
    ensures states[|ops|].dropped == Refused(states, ops, capacity)
    decreases |ops|
  {
    hide Held, Bounded, Admitted, Enabled;
    if ops == [] {
      StartIsSound<T>(capacity, batchSize);
    } else {
      var n := |ops| - 1;
      assert IsRun(states[..|ops|], ops[..n], capacity, batchSize);
      RunIsSound(states[..|ops|], ops[..n], capacity, batchSize);
      StepHolds(states[n], ops[n], capacity, batchSize);
      StepStaysBounded(states[n], ops[n], capacity, batchSize);
      StepDrops(states[n], ops[n], capacity, batchSize);
    }
  }

  lemma StartIsSound<T>(capacity: nat, batchSize: nat)
    ensures Bounded(Start<T>(), capacity, batchSize) && Held(Start<T>()) == []
  {
  }

  function Rejected<T>(s: State<T>, op: Op<T>, capacity: nat): seq<T> {
    if op.Record? && !Admits(s, op, capacity) then [op.event] else []
  }

  lemma StepDrops<T>(s: State<T>, op: Op<T>, capacity: nat, batchSize: nat)
    requires Enabled(s, op, capacity, batchSize)
    ensures Step(s, op, capacity, batchSize).dropped == s.dropped + Rejected(s, op, capacity)
  {
  }

  /** Nothing is lost or doubled: the recorded events are the accepted and the dropped ones, and the accepted ones
      are, in order, those posted, those in the batch and those in the queue; batches stay within their bound. */
  lemma {:induction false} EveryEventIsSomewhere<T>(states: seq<State<T>>, ops: seq<Op<T>>, capacity: nat,
                                                    batchSize: nat)
    requires IsRun(states, ops, capacity, batchSize)
    ensures var s := states[|ops|];
            && Accepted(states, ops, capacity) == Flatten(s.posts) + s.batch + s.queue
            && multiset(Recorded(ops)) == multiset(Accepted(states, ops, capacity)) + multiset(s.dropped)
            && |s.queue| <= capacity && |s.batch| <= Max(1, batchSize)
            && forall p :: p in s.posts ==> 0 < |p| <= Max(1, batchSize)
  {
    RunIsSound(states, ops, capacity, batchSize);
    RecordedSplits(states, ops, capacity);
  }

  function Recorded<T>(ops: seq<Op<T>>): seq<T> {
    if ops == [] then []
    else Recorded(ops[..|ops| - 1]) + (if ops[|ops| - 1].Record? then [ops[|ops| - 1].event] else [])
  }

  lemma {:induction false} RecordedSplits<T>(states: seq<State<T>>, ops: seq<Op<T>>, capacity: nat)
    requires |states| == |ops| + 1
    ensures multiset(Recorded(ops))
         == multiset(Accepted(states, ops, capacity)) + multiset(Refused(states, ops, capacity))
    decreases |ops|
  {
    if ops != [] {
      RecordedSplits(states[..|ops|], ops[..|ops| - 1], capacity);
    }
  }

  /** When the worker has gone, every accepted event was posted exactly once, in order of acceptance, and no
      event is left or can still be accepted. */
  lemma WorkerLeavesNothing<T>(states: seq<State<T>>, ops: seq<Op<T>>, capacity: nat, batchSize: nat)
    requires IsRun(states, ops, capacity, batchSize) && states[|ops|].place == Gone
    ensures Flatten(states[|ops|].posts) == Accepted(states, ops, capacity)
    ensures !states[|ops|].open
  {
    RunIsSound(states, ops, capacity, batchSize);
  }

  /** The worker finds an empty batch whenever it waits: its parting post never happens. */
  lemma PartingPostIsIdle<T>(states: seq<State<T>>, ops: seq<Op<T>>, capacity: nat, batchSize: nat)
    requires IsRun(states, ops, capacity, batchSize) && Enabled(states[|ops|], Disconnect, capacity, batchSize)
    ensures Step(states[|ops|], Disconnect, capacity, batchSize).posts == states[|ops|].posts
  {
    RunIsSound(states, ops, capacity, batchSize);
  }

  /** The worker is about to post, and its batch is full or the queue was found empty since it took the first event. */
  ghost predicate FullOrDrained<T>(states: seq<State<T>>, ops: seq<Op<T>>, batchSize: nat)
    requires |states| == |ops| + 1
  {
    var s := states[|ops|];
    && s.batch != []
    && (|s.batch| >= batchSize
        || exists k :: 0 <= k < |ops| && states[k].place == Filling && states[k].queue == []
                       && states[k].batch == s.batch)
  }

  ghost predicate PostsAreDue<T>(states: seq<State<T>>, ops: seq<Op<T>>, batchSize: nat)
    requires |states| == |ops| + 1
  {
    states[|ops|].place == Posting ==> FullOrDrained(states, ops, batchSize)
  }

  /** A batch is posted only when it is full, or when the queue was found empty while it was being filled. */
  lemma {:induction false} BatchesFill<T>(states: seq<State<T>>, ops: seq<Op<T>>, capacity: nat, batchSize: nat)
    requires IsRun(states, ops, capacity, batchSize)
    ensures PostsAreDue(states, ops, batchSize)
    decreases |ops|
  {
    if ops != [] {
      var n := |ops| - 1;
      var before := states[..|ops|];
      assert before[n] == states[n] && Enabled(states[n], ops[n], capacity, batchSize);
      assert states[n + 1] == Step(states[n], ops[n], capacity, batchSize);
      assert IsRun(before, ops[..n], capacity, batchSize);
      hide IsRun, Enabled, Step, Bounded, PostsAreDue, Held;
      BatchesFill(before, ops[..n], capacity, batchSize);
      RunIsSound(before, ops[..n], capacity, batchSize);
      BatchStep(states, ops, capacity, batchSize);
    }
  }

  lemma BatchStep<T>(states: seq<State<T>>, ops: seq<Op<T>>, capacity: nat, batchSize: nat)
    requires ops != [] && |states| == |ops| + 1
    requires PostsAreDue(states[..|ops|], ops[..|ops| - 1], batchSize)
    requires Enabled(states[|ops| - 1], ops[|ops| - 1], capacity, batchSize)
    requires states[|ops|] == Step(states[|ops| - 1], ops[|ops| - 1], capacity, batchSize)
    requires Bounded(states[|ops| - 1], capacity, batchSize)
    ensures PostsAreDue(states, ops, batchSize)
  {
    var n, before := |ops| - 1, states[..|ops|];
    var s, t := states[n], states[n + 1];
    BeforePosting(s, ops[n], capacity, batchSize);
    hide Bounded, Enabled, Step;
    if t.place == Posting && s.place == Posting && |s.batch| < batchSize {
      var k :| 0 <= k < n && before[k].place == Filling && before[k].queue == [] && before[k].batch == s.batch;
      assert states[k] == before[k];
    }
  }

  lemma BeforePosting<T>(s: State<T>, op: Op<T>, capacity: nat, batchSize: nat)
    requires Enabled(s, op, capacity, batchSize) && Bounded(s, capacity, batchSize)
    ensures var t := Step(s, op, capacity, batchSize);
            t.place == Posting ==>
              && t.batch == s.batch != []
              && (s.place == Posting || (s.place == Filling && (|s.batch| >= batchSize || s.queue == [])))
  {
  }

  /** An event is dropped exactly when the queue is full, unless there is no queue and the worker takes it by hand; a
      dropped event changes nothing else, and any other joins the end of what is held. */
  lemma DroppedIffFull<T>(states: seq<State<T>>, ops: seq<Op<T>>, event: T, handOver: bool, capacity: nat,
                          batchSize: nat)
    requires IsRun(states, ops, capacity, batchSize)
    ensures var s, op := states[|ops|], Record(event, handOver);
            && (Enabled(s, op, capacity, batchSize) <==> s.open)
            && (s.open ==>
                  var t := Step(s, op, capacity, batchSize);
                  if |s.queue| == capacity && !(capacity == 0 && handOver && s.place == Receiving)
                  then t == s.(dropped := s.dropped + [event])
                  else t.dropped == s.dropped && t.posts == s.posts
                       && t.batch + t.queue == s.batch + s.queue + [event])
  {
    RunIsSound(states, ops, capacity, batchSize);
    var s := states[|ops|];
    hide Held, IsRun, Accepted, Refused;
    assert s.batch + (s.queue + [event]) == s.batch + s.queue + [event];
    if s.queue == [] {
      assert s.batch + [event] + s.queue == s.batch + s.queue + [event];
    }
  }

  /** The worker's steps each have their place. A waiting worker takes the first event if there is one; if not it waits
      on, or leaves, which it can only when the sending end is closed. */
  lemma WaitingIs<T>(s: State<T>, op: Op<T>, capacity: nat, batchSize: nat)
    ensures Enabled(s, op, capacity, batchSize) ==>
              && (op.Receive? || op.TimeOut? || op.Disconnect? ==> s.place == Receiving)
              && (op.Fill? || op.StopFilling? ==> s.place == Filling)
              && (op.Post? ==> s.place == Posting)
    ensures s.place == Receiving && s.batch == [] && s.queue != [] ==>
              && !Enabled(s, TimeOut, capacity, batchSize) && !Enabled(s, Disconnect, capacity, batchSize)
              && Enabled(s, Receive, capacity, batchSize)
              && Step(s, Receive, capacity, batchSize)
                 == s.(queue := s.queue[1..], batch := [s.queue[0]], place := Filling)
    ensures s.place == Receiving && s.batch == [] && s.queue == [] ==>
              && !Enabled(s, Receive, capacity, batchSize)
              && Enabled(s, TimeOut, capacity, batchSize) && Step(s, TimeOut, capacity, batchSize) == s
              && (Enabled(s, Disconnect, capacity, batchSize) <==> !s.open)
              && (!s.open ==> Step(s, Disconnect, capacity, batchSize) == s.(place := Gone))
  {
    assert s.batch == [] && s.queue != [] ==> s.batch + [s.queue[0]] == [s.queue[0]];
  }

  /** A turn of the inner loop takes the next event from the queue into the batch and goes on, or it ends the filling,
      which it does only with a full batch or an empty queue. */
  lemma FillingIs<T>(s: State<T>, capacity: nat, batchSize: nat)
    requires s.place == Filling && s.batch != []
    ensures |s.batch| < batchSize && s.queue != [] ==>
              && Enabled(s, Fill, capacity, batchSize) && !Enabled(s, StopFilling, capacity, batchSize)
              && var t := Step(s, Fill, capacity, batchSize);
                 && t.place == Filling && t.batch == s.batch + [s.queue[0]] && s.queue == [s.queue[0]] + t.queue
                 && t.posts == s.posts
    ensures |s.batch| >= batchSize || s.queue == [] ==>
              && !Enabled(s, Fill, capacity, batchSize) && Enabled(s, StopFilling, capacity, batchSize)
              && var t := Step(s, StopFilling, capacity, batchSize);
                 t.place == Posting && t.batch == s.batch && t.queue == s.queue && t.posts == s.posts
  {
  }
}
