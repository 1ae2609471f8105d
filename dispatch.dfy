/** The deduplicating dispatcher: the two channels of Imagist, the in-flight
    set of listen and the executions it starts (imagist/imagist.go:72-76,
    145-180, 218-251). Goroutines and select become events that may occur in
    any order; a send on a full channel blocks, so it is an event that is not
    enabled. */
module Dispatch {
  import opened Wrappers
  import opened Anchors
  import opened Dimensions
  import opened Processing

  /** The dispatcher's state: the capacity of both channels, the jobs and
      completion signals buffered in them, the keys listen holds as in flight,
      and how many executions are running for each key. */
  datatype Dispatcher = Dispatcher(capacity: nat, queue: seq<Job>, done: seq<string>,
                                   inFlight: set<string>, running: multiset<string>)

  /** New's channel size: 10 when no size is given, otherwise the first one. */
  function ChannelSize(chansize: seq<int>): (size: int)
  {
    if |chansize| == 0 then 10 else chansize[0]
  }

  /** How many values a channel of the given capacity holds before a send
      blocks. An unbuffered channel (capacity 0) hands one value over while its
      sender waits; the model counts that value as a buffer of one. */
  function Bound(capacity: nat): (bound: nat)
  {
    if capacity == 0 then 1 else capacity
  }

  function Initial(capacity: nat): (d: Dispatcher)
  {
    Dispatcher(capacity, [], [], {}, multiset{})
  }

  /** Each key is in flight exactly while one execution for it is running or
      its completion signal is waiting in the done channel, and the channels
      hold no more than their bound. */
  ghost predicate Inv(d: Dispatcher)
  {
    |d.queue| <= Bound(d.capacity) && |d.done| <= Bound(d.capacity) &&
    d.running + multiset(d.done) == multiset(d.inFlight)
  }

  datatype Event =
    | Submit(job: Job)     // Add's send on the jobs channel
    | TakeJob              // listen receives a job
    | TakeDone             // listen receives a completion signal
    | Complete(key: string) // an execution sends its completion signal

  predicate Enabled(d: Dispatcher, e: Event)
  {
    match e
    case Submit(_) => |d.queue| < Bound(d.capacity)
    case TakeJob => |d.queue| > 0
    case TakeDone => |d.done| > 0
    case Complete(key) => key in d.running && |d.done| < Bound(d.capacity)
  }

  /** The effect of an enabled event. A received job whose key is already in
      flight is dropped; otherwise its key is marked and one execution starts.
      A received completion signal removes its key (a no-op for an absent key). */
  function Apply(d: Dispatcher, e: Event): (d': Dispatcher)
    requires Enabled(d, e)
  {
    match e
    case Submit(job) => d.(queue := d.queue + [job])
    case TakeJob =>
      var key := d.queue[0].fileDiskPath;
      if key in d.inFlight then d.(queue := d.queue[1..])
      else d.(queue := d.queue[1..], inFlight := d.inFlight + {key}, running := d.running + multiset{key})
    case TakeDone => d.(done := d.done[1..], inFlight := d.inFlight - {d.done[0]})
    case Complete(key) => d.(done := d.done + [key], running := d.running - multiset{key})
  }

  /** A run of events in any order; an event that is not enabled when its turn
      comes is one the scheduler could not have picked, and changes nothing. */
  function Run(d: Dispatcher, events: seq<Event>): (d': Dispatcher)
    decreases |events|
  {
    if events == [] then d
    else Run(if Enabled(d, events[0]) then Apply(d, events[0]) else d, events[1..])
  }

  /** Receiving a job starts an execution exactly when its key was not in
      flight, and touches no other key. */
  lemma TakeJobStartsAtMostOne(d: Dispatcher, other: string)
    requires |d.queue| > 0
    ensures var key, d' := d.queue[0].fileDiskPath, Apply(d, TakeJob);
      d'.queue == d.queue[1..] && d'.done == d.done &&
      d'.running[key] == d.running[key] + (if key in d.inFlight then 0 else 1) &&
      d'.inFlight == d.inFlight + {key} &&
      (other != key ==> d'.running[other] == d.running[other])
  {
  }

  /** Receiving a completion signal removes that key only. */
  lemma TakeDoneRemovesOnlyItsKey(d: Dispatcher)
    requires |d.done| > 0
    ensures var d' := Apply(d, TakeDone);
      d'.inFlight == d.inFlight - {d.done[0]} && d'.running == d.running &&
      (d.done[0] !in d.inFlight ==> d'.inFlight == d.inFlight)
  {
  }

  lemma TakeJobKeepsInv(d: Dispatcher)
    requires Inv(d) && |d.queue| > 0
    ensures Inv(Apply(d, TakeJob))
  {
    var key := d.queue[0].fileDiskPath;
    if key !in d.inFlight {
      assert multiset(d.inFlight + {key}) == multiset(d.inFlight) + multiset{key};
    }
  }

  lemma TakeDoneKeepsInv(d: Dispatcher)
    requires Inv(d) && |d.done| > 0
    ensures Inv(Apply(d, TakeDone))
  {
    var key, rest := d.done[0], d.done[1..];
    assert d.done == [key] + rest;
    assert multiset(d.done) == multiset{key} + multiset(rest);
    assert key in d.inFlight by {
      assert multiset(d.inFlight)[key] >= multiset(d.done)[key] >= 1;
    }
    assert multiset(d.inFlight - {key}) == multiset(d.inFlight) - multiset{key};
    assert d.running + multiset(rest) == multiset(d.inFlight) - multiset{key};
  }

  lemma CompleteKeepsInv(d: Dispatcher, key: string)
    requires Inv(d) && key in d.running && |d.done| < Bound(d.capacity)
    ensures Inv(Apply(d, Complete(key)))
  {
    assert multiset(d.done + [key]) == multiset(d.done) + multiset{key};
  }

  lemma ApplyKeepsInv(d: Dispatcher, e: Event)
    requires Inv(d) && Enabled(d, e)
    ensures Inv(Apply(d, e))
  {
    match e
    case Submit(_) =>
    case TakeJob => TakeJobKeepsInv(d);
    case TakeDone => TakeDoneKeepsInv(d);
    case Complete(key) => CompleteKeepsInv(d, key);
  }

  lemma {:induction false} RunKeepsInv(d: Dispatcher, events: seq<Event>)
    requires Inv(d)
    ensures Inv(Run(d, events))
    decreases |events|
  {
    if events != [] {
      var next := if Enabled(d, events[0]) then Apply(d, events[0]) else d;
      if Enabled(d, events[0]) {
        ApplyKeepsInv(d, events[0]);
      }
      RunKeepsInv(next, events[1..]);
    }
  }

  /** Under the invariant no key has two executions running, and a key with a
      running execution is in flight. */
  lemma AtMostOneExecution(d: Dispatcher, key: string)
    requires Inv(d)
    ensures d.running[key] <= 1
    ensures d.running[key] == 1 ==> key in d.inFlight
  {
    assert (d.running + multiset(d.done))[key] == multiset(d.inFlight)[key];
  }

  /** Whatever the order in which jobs, receptions and completions happen,
      starting from New's empty state at most one execution per path runs. */
  lemma NoDuplicateExecution(capacity: nat, events: seq<Event>, key: string)
    ensures Run(Initial(capacity), events).running[key] <= 1
  {
    RunKeepsInv(Initial(capacity), events);
    AtMostOneExecution(Run(Initial(capacity), events), key);
  }

  /** A job for a path that is still in flight is dropped, wherever it waited
      in the queue: the state after receiving it differs from the state before
      only by the dequeue. */
  lemma DuplicateIsDropped(d: Dispatcher)
    requires |d.queue| > 0 && d.queue[0].fileDiskPath in d.inFlight
    ensures Apply(d, TakeJob) == d.(queue := d.queue[1..])
  {
  }

  /** The image processing mechanism: the buffered contents of its two
      channels, the in-flight set the listen goroutine keeps, and (ghost) the
      executions running per path. */
  class Imagist {
    const capacity: nat
    var queue: seq<Job>
    var done: seq<string>
    var inFlight: set<string>
    ghost var running: multiset<string>

    ghost function State(): (d: Dispatcher)
      reads this
    {
      Dispatcher(capacity, queue, done, inFlight, running)
    }

    ghost predicate Valid()
      reads this
    {
      Inv(State())
    }

    /** New: both channels get the requested size (10 by default); nothing is
        queued, in flight or running. A negative size makes the source panic. */
    constructor New(chansize: seq<int>)
      requires ChannelSize(chansize) >= 0
      ensures Valid()
      ensures capacity == ChannelSize(chansize) && State() == Initial(capacity)
    {
      var s := if |chansize| == 0 then 10 else chansize[0];
      capacity := s;
      queue, done, inFlight := [], [], {};
      running := multiset{};
    }

    /** Add: runs the checks; on failure returns the error and enqueues
        nothing, on success enqueues exactly the validated job. A caller whose
        job would find the queue full blocks, so it may not call yet. */
    method Add(isImage: bool, decoded: Option<Decoded>, fileDiskPath: string,
               dimensions: Option<ImageDimensions>, validate: bool) returns (err: Option<AddError>)
      requires Valid()
      requires Validate(isImage, decoded, fileDiskPath, dimensions, validate).Ok? ==> |queue| < Bound(capacity)
      modifies this
      ensures Valid()
      ensures var v := Validate(isImage, decoded, fileDiskPath, dimensions, validate);
        (err.None? <==> v.Ok?) &&
        (v.Err? ==> err == Some(v.error) && State() == old(State())) &&
        (v.Ok? ==> State() == Apply(old(State()), Submit(v.value)) && queue == old(queue) + [v.value])
    {
      var v := Validate(isImage, decoded, fileDiskPath, dimensions, validate);
      match v
      case Err(e) =>
        err := Some(e);
      case Ok(job) =>
        ApplyKeepsInv(State(), Submit(job));
        queue := queue + [job];
        err := None;
    }

    /** listen's job case: the job at the head of the queue is started unless
        its path is in flight, in which case it is dropped. */
    method ReceiveJob() returns (started: Option<Job>)
      requires Valid() && |queue| > 0
      modifies this
      ensures Valid()
      ensures State() == Apply(old(State()), TakeJob)
      ensures started == if old(queue[0].fileDiskPath) in old(inFlight) then None else Some(old(queue[0]))
    {
      ApplyKeepsInv(State(), TakeJob);
      var job := queue[0];
      queue := queue[1..];
      if job.fileDiskPath !in inFlight {
        inFlight := inFlight + {job.fileDiskPath};
        running := running + multiset{job.fileDiskPath};
        started := Some(job);
      } else {
        started := None;
      }
    }

    /** listen's done case: the signalled path is no longer in flight. */
    method ReceiveDone() returns (key: string)
      requires Valid() && |done| > 0
      modifies this
      ensures Valid()
      ensures State() == Apply(old(State()), TakeDone)
      ensures key == old(done[0]) && inFlight == old(inFlight) - {key}
    {
      ApplyKeepsInv(State(), TakeDone);
      key := done[0];
      done := done[1..];
      inFlight := inFlight - {key};
    }

    /** execute: handles the job's formats in order (skipping invalid ones and
        discarding each format's error), then sends one completion signal for
        the job's path. outcomes records what each format left behind; a shared
        watermark position ends normalised exactly when some entry's turn wrote
        it back (WrittenBack), and unchanged otherwise. */
    method Execute(j: Job, cfg: Config, io: Io) returns (outcomes: seq<Option<Processed>>)
      requires Valid() && Enabled(State(), Complete(j.fileDiskPath))
      modifies this, Marks(j.dimensions.formats)
      ensures Valid()
      ensures State() == Apply(old(State()), Complete(j.fileDiskPath))
      ensures outcomes == Outcomes(j.fileDiskPath, j.config, cfg, io, old(Snapshots(j.dimensions.formats)))
      ensures var fs := j.dimensions.formats;
        forall k :: 0 <= k < |fs| && fs[k].watermark != null ==>
          fs[k].watermark.Value() == (if WrittenBack(cfg, io, fs, |fs|, fs[k].watermark)
                                      then Normalized(old(fs[k].watermark.Value())) else old(fs[k].watermark.Value()))
    {
      outcomes := ExecuteFormats(j, cfg, io);
      ApplyKeepsInv(State(), Complete(j.fileDiskPath));
      running := running - multiset{j.fileDiskPath};
      done := done + [j.fileDiskPath];
    }
  }
}
