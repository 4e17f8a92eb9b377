/**
 * The report grabber (`MSGIDGrabber`): one worker draining a FIFO queue of
 * `(msgid, nzo)` requests. Each pass of its loop fetches the current report;
 * a retry outcome keeps the same report and sleeps, a success or a permanent
 * failure drops it so the next request is dequeued. A `(None, None)`
 * sentinel, a false msgid or the shutdown flag ends the loop.
 *
 * The worker is single-threaded here: `Step` is one pass of the `while` loop
 * of `run`, and `Grab` and `Stop` may be called between passes.
 */
module Grabber {
  import opened Builtins
  import opened Dampener
  import opened DirectNzb

  /** The future job (`nzo`) waiting for a report: its id and the category set on it, if any. */
  datatype Job = Job(id: string, cat: Option<string>)

  /** A queue entry `(msgid, nzo)`; `Sentinel` is the `(None, None)` that `stop` puts. */
  datatype Item = Entry(msgid: string, job: Job) | Sentinel

  /**
   * Where the worker thread is: not started, at the head of its loop, blocked
   * inside `queue.get()` (past the loop's shutdown test), or finished.
   */
  datatype Phase = Idle | Looping | Waiting | Exited

  /** The grabber's state: its queue and shutdown flag, and the loop's `msgid` and `nzo`. */
  datatype WorkerState = WorkerState(
    queue: seq<Item>,
    shutdown: bool,
    msgid: Option<string>,
    job: Option<Job>,
    phase: Phase)

  /** What one pass of the loop did. */
  datatype StepResult =
    | Blocked                                   // `queue.get()` waits for an item
    | Stopped                                   // the loop ended
    | Delivered(msgid: string, jobId: string, filename: string, data: string,
                category: string, moreInfo: Option<string>)  // `insert_future_nzo` took the report
    | InsertFailed(msgid: string, jobId: string)             // it raised; the job is removed
    | Retried(msgid: string, delay: int)                     // slept, same report next time
    | Abandoned(msgid: string, jobId: string)                // `bad_fetch(nzo, msgid, retry=False)`
    | Crashed                                   // an exception ended the thread

  /**
   * The external helpers the worker calls on a success: `name_fixer`,
   * `CatConvert`, and the category `cat_to_opts` settles on for a category.
   */
  datatype Collaborators = Collaborators(nameFixer: string -> string, catConvert: string -> string,
                                         catToOpts: string -> string)

  /** One pass: the next state, what happened, and the seconds slept. */
  datatype StepOutcome = StepOutcome(next: WorkerState, result: StepResult, slept: nat)

  /** The pause between two grabs, `sleeper(5)`. */
  const Pause: nat := 5

  /** A current msgid always comes with its job, and the worker only waits on the queue with no msgid. */
  predicate Inv(s: WorkerState)
  {
    (Truthy(s.msgid) ==> s.job.Some?) && (s.phase == Waiting ==> !Truthy(s.msgid))
  }

  /** Seconds `sleeper(delay)` sleeps while the flag stays as it is. */
  function SleepTicks(shutdown: bool, delay: int): nat
  {
    if shutdown then 0 else Max(delay, 0)
  }

  /** `(msgid, nzo) = self.queue.get()` */
  function Pop(s: WorkerState): (s': WorkerState)
    requires s.queue != []
    ensures Inv(s') && s'.queue == s.queue[1..] && s'.shutdown == s.shutdown && s'.phase == Looping
  {
    match s.queue[0]
    case Entry(m, j) => s.(queue := s.queue[1..], msgid := Some(m), job := Some(j), phase := Looping)
    case Sentinel => s.(queue := s.queue[1..], msgid := None, job := None, phase := Looping)
  }

  /**
   * The category handed to `insert_future_nzo`: the job's own, or the
   * converted newzbin category when it has none, as `cat_to_opts` settles it.
   */
  function JobCategory(job: Job, newzbinCat: string, env: Collaborators): string
  {
    env.catToOpts(if Truthy(job.cat) then job.cat.value else env.catConvert(newzbinCat))
  }

  /** The body of the loop once a msgid is current: fetch outcome `g`, then act on it. */
  function Fetch(s: WorkerState, g: Grab, insertOk: bool, env: Collaborators): (o: StepOutcome)
    requires Inv(s) && Truthy(s.msgid) && !s.shutdown && s.phase == Looping && WellFormed(g)
    ensures Inv(o.next) && o.next.phase != Idle
  {
    var id := s.msgid.value;
    var job := s.job.value;
    match g
    case Success(name, data, cat, more) =>
      if data != "" then
        var r := if insertOk then Delivered(id, job.id, env.nameFixer(name), data, JobCategory(job, cat, env), more)
                 else InsertFailed(id, job.id);
        StepOutcome(s.(msgid := None), r, SleepTicks(s.shutdown, Pause))
      else
        // `if filename and data` fails, and `int(filename)` raises on a ".nzb" name
        StepOutcome(s.(phase := Exited), Crashed, 0)
    case Retry(n) =>
      StepOutcome(s, Retried(id, n), SleepTicks(s.shutdown, n) + SleepTicks(s.shutdown, Pause))
    case Fail(_) =>
      StepOutcome(s.(msgid := None), Abandoned(id, job.id), SleepTicks(s.shutdown, Pause))
    case Raised =>
      StepOutcome(s.(phase := Exited), Crashed, 0)
  }

  /**
   * One pass of the `while not self.shutdown` loop of `run`, given the outcome
   * `g` of `_grabnzb` for the msgid it fetches (if it fetches one) and whether
   * `insert_future_nzo` accepts the report.
   */
  function StepSpec(s: WorkerState, g: Grab, insertOk: bool, env: Collaborators): (o: StepOutcome)
    requires Inv(s) && s.phase != Idle && WellFormed(g)
    ensures Inv(o.next) && o.next.phase != Idle
  {
    if s.phase == Exited then StepOutcome(s, Stopped, 0)
    else if s.phase == Looping && s.shutdown then StepOutcome(s.(phase := Exited), Stopped, 0)
    else if !Truthy(s.msgid) then
      if s.queue == [] then StepOutcome(s.(phase := Waiting), Blocked, 0)
      else
        var s' := Pop(s);
        if s'.shutdown || !Truthy(s'.msgid) then StepOutcome(s'.(phase := Exited), Stopped, 0)
        else Fetch(s', g, insertOk, env)
    else Fetch(s, g, insertOk, env)
  }

  /** `stop()`: set the flag and queue the sentinel. */
  function StopSpec(s: WorkerState): WorkerState
  {
    s.(shutdown := true, queue := s.queue + [Sentinel])
  }

  /** The msgid the next pass fetches, or `None` when it blocks or ends the loop instead. */
  function NextId(s: WorkerState): Option<string>
  {
    if s.phase == Idle || s.phase == Exited || (s.phase == Looping && s.shutdown) then None
    else if Truthy(s.msgid) then s.msgid
    else if s.queue == [] || s.shutdown then None
    else match s.queue[0]
      case Entry(m, _) => if m != "" then Some(m) else None
      case Sentinel => None
  }

  /** The passes that reach `_grabnzb`. */
  predicate Fetched(r: StepResult)
  {
    !(r.Blocked? || r.Stopped?)
  }

  /** The outcomes after which the worker moves on to the next request. */
  predicate Final(g: Grab)
  {
    g.Fail? || (g.Success? && g.data != "")
  }

  /**
   * A pass fetches exactly the msgid `NextId` names: it reaches `_grabnzb` if
   * and only if there is one, and the result names that msgid.
   */
  lemma StepFetchesNextId(s: WorkerState, g: Grab, insertOk: bool, env: Collaborators)
    requires Inv(s) && s.phase != Idle && WellFormed(g)
    ensures var o := StepSpec(s, g, insertOk, env);
      (NextId(s).Some? <==> Fetched(o.result))
      && (Fetched(o.result) && !o.result.Crashed? ==> o.result.msgid == NextId(s).value)
  {
    if s.phase == Looping && !s.shutdown && !Truthy(s.msgid) && s.queue != [] {
      var s' := Pop(s);
      match s.queue[0]
      case Entry(m, _) => assert s'.msgid == Some(m);
      case Sentinel => assert s'.msgid == None;
    }
  }

  /**
   * A retry keeps the whole state, the msgid included, so the next pass
   * fetches the same report without dequeuing; the worker sleeps the delay and
   * then the 5-second pause.
   */
  lemma {:induction false} RetryKeepsState(s: WorkerState, g: Grab, insertOk: bool, env: Collaborators)
    requires Inv(s) && s.phase == Looping && !s.shutdown && Truthy(s.msgid)
    requires g.Retry? && WellFormed(g)
    ensures var o := StepSpec(s, g, insertOk, env);
      o.next == s && o.result == Retried(s.msgid.value, g.delay) && o.slept == g.delay + Pause
      && NextId(o.next) == NextId(s)
  {
  }

  /** A retry right after a dequeue keeps the dequeued msgid current. */
  lemma RetryAfterDequeue(s: WorkerState, g: Grab, insertOk: bool, env: Collaborators)
    requires Inv(s) && s.phase != Idle && WellFormed(g) && g.Retry?
    requires NextId(s).Some? && !Truthy(s.msgid)
    ensures var o := StepSpec(s, g, insertOk, env);
      o.next.msgid == NextId(s) && o.next.queue == s.queue[1..] && NextId(o.next) == NextId(s)
  {
  }

  /**
   * A success with data or a permanent failure clears the msgid, so the next
   * pass takes the next queue item; an empty body or an exception ends the thread.
   */
  lemma FinalClearsMsgid(s: WorkerState, g: Grab, insertOk: bool, env: Collaborators)
    requires Inv(s) && s.phase != Idle && WellFormed(g) && NextId(s).Some?
    ensures var o := StepSpec(s, g, insertOk, env);
      (Final(g) ==> (o.next.msgid == None && o.next.phase == Looping && o.slept == Pause))
      && ((g.Raised? || (g.Success? && g.data == "")) ==> o.result == Crashed && o.next.phase == Exited)
      && (g.Success? && g.data != "" && insertOk ==> (o.result.Delivered?
        && o.result.filename == env.nameFixer(g.filename) && o.result.data == g.data))
  {
  }

  /** A sentinel or a false msgid at the head of the queue ends the loop once dequeued. */
  lemma SentinelEndsLoop(s: WorkerState, g: Grab, insertOk: bool, env: Collaborators)
    requires Inv(s) && WellFormed(g) && !Truthy(s.msgid) && s.queue != []
    requires s.phase == Waiting || (s.phase == Looping && !s.shutdown)
    requires s.queue[0].Sentinel? || s.queue[0].msgid == ""
    ensures var o := StepSpec(s, g, insertOk, env);
      o.result == Stopped && o.next.phase == Exited && o.next.queue == s.queue[1..]
  {
  }

  /** The shutdown flag ends the loop at its head without dequeuing anything. */
  lemma ShutdownEndsLoop(s: WorkerState, g: Grab, insertOk: bool, env: Collaborators)
    requires Inv(s) && WellFormed(g) && s.phase == Looping && s.shutdown
    ensures var o := StepSpec(s, g, insertOk, env);
      o.result == Stopped && o.next == s.(phase := Exited)
  {
  }

  /**
   * After `stop()`, the very next pass ends the loop without fetching anything,
   * whether the worker was at its loop head, between retries or blocked on
   * the queue.
   */
  lemma {:induction false} StopEndsNextStep(s: WorkerState, g: Grab, insertOk: bool, env: Collaborators)
    requires Inv(s) && s.phase != Idle && WellFormed(g)
    ensures Inv(StopSpec(s))
    ensures var o := StepSpec(StopSpec(s), g, insertOk, env);
      o.result == Stopped && o.next.phase == Exited && o.slept == 0
  {
    var s' := StopSpec(s);
    if s'.phase == Waiting {
      assert s'.queue != [];
      assert Pop(s').shutdown;
    }
  }

  /** Several passes in a row, one outcome each: the final state and what each pass did. */
  function Drain(s: WorkerState, gs: seq<Grab>, insertOk: bool, env: Collaborators): (seq<StepResult>, WorkerState)
    requires Inv(s) && s.phase != Idle
    requires forall k :: 0 <= k < |gs| ==> WellFormed(gs[k])
    decreases |gs|
  {
    if gs == [] then ([], s)
    else
      var o := StepSpec(s, gs[0], insertOk, env);
      var (rs, last) := Drain(o.next, gs[1..], insertOk, env);
      ([o.result] + rs, last)
  }

  /**
   * FIFO order: from an idle loop head, when every outcome moves on, the
   * requests are fetched one per pass in the order they were queued, and
   * exactly that many leave the queue.
   */
  lemma {:induction false} ProcessedInOrder(s: WorkerState, gs: seq<Grab>, insertOk: bool, env: Collaborators)
    requires Inv(s) && s.phase == Looping && !s.shutdown && !Truthy(s.msgid)
    requires |gs| <= |s.queue|
    requires forall k :: 0 <= k < |gs| ==> s.queue[k].Entry? && s.queue[k].msgid != ""
    requires forall k :: 0 <= k < |gs| ==> WellFormed(gs[k]) && Final(gs[k])
    ensures var (rs, last) := Drain(s, gs, insertOk, env);
      |rs| == |gs| && last.queue == s.queue[|gs|..] && !Truthy(last.msgid)
      && last.phase == Looping && !last.shutdown
      && forall k :: 0 <= k < |gs| ==>
           (rs[k].Delivered? || rs[k].InsertFailed? || rs[k].Abandoned?) && rs[k].msgid == s.queue[k].msgid
    decreases |gs|
  {
    if gs != [] {
      var o := StepSpec(s, gs[0], insertOk, env);
      var s1 := Pop(s);
      assert o == Fetch(s1, gs[0], insertOk, env);
      assert o.next.queue == s.queue[1..];
      ProcessedInOrder(o.next, gs[1..], insertOk, env);
      var (rs, last) := Drain(o.next, gs[1..], insertOk, env);
      assert Drain(s, gs, insertOk, env) == ([o.result] + rs, last);
      assert s.queue[1..][|gs| - 1..] == s.queue[|gs|..];
      forall k | 1 <= k < |gs| ensures s.queue[1..][k - 1] == s.queue[k] { }
    }
  }

  /**
   * Retries never give up: any run of retry outcomes leaves the state as it
   * was and retries the same msgid every time.
   */
  lemma {:induction false} RetriesStayPut(s: WorkerState, gs: seq<Grab>, insertOk: bool, env: Collaborators)
    requires Inv(s) && s.phase == Looping && !s.shutdown && Truthy(s.msgid)
    requires forall k :: 0 <= k < |gs| ==> WellFormed(gs[k]) && gs[k].Retry?
    ensures var (rs, last) := Drain(s, gs, insertOk, env);
      last == s && |rs| == |gs| && forall k :: 0 <= k < |gs| ==> rs[k] == Retried(s.msgid.value, gs[k].delay)
    decreases |gs|
  {
    if gs != [] {
      RetryKeepsState(s, gs[0], insertOk, env);
      RetriesStayPut(s, gs[1..], insertOk, env);
    }
  }

  /** The grabber thread object. */
  class MsgidGrabber {
    var queue: seq<Item>
    var shutdown: bool
    var msgid: Option<string>
    var job: Option<Job>
    var phase: Phase

    function State(): WorkerState
      reads this
    {
      WorkerState(queue, shutdown, msgid, job, phase)
    }

    ghost predicate Valid()
      reads this
    {
      Inv(State())
    }

    /** `__init__`: the queue starts with the pending requests `get_msgids()` returns. */
    constructor (pending: seq<Item>)
      ensures State() == WorkerState(pending, false, None, None, Idle) && Valid()
    {
      queue := pending;
      shutdown := false;
      msgid := None;
      job := None;
      phase := Idle;
    }

    /** `grab(msgid, nzo)`: queue one request at the back. */
    method Grab(m: string, j: Job)
      requires Valid()
      modifies this
      ensures Valid()
      ensures State() == old(State()).(queue := old(queue) + [Entry(m, j)])
    {
      queue := queue + [Entry(m, j)];
    }

    /** `stop()` */
    method Stop()
      requires Valid()
      modifies this
      ensures Valid()
      ensures State() == StopSpec(old(State()))
    {
      shutdown := true;
      queue := queue + [Sentinel];
    }

    /** The start of `run`: the flag is cleared and there is no current msgid. */
    method Start()
      requires Valid() && phase == Idle
      modifies this
      ensures Valid()
      ensures State() == old(State()).(shutdown := false, msgid := None, job := None, phase := Looping)
    {
      shutdown := false;
      msgid := None;
      job := None;
      phase := Looping;
    }

    /** `sleeper(delay)`: one second per step of `range(delay)` while the flag is clear. */
    method Sleeper(delay: int) returns (slept: nat)
      ensures slept == SleepTicks(shutdown, delay)
      ensures slept <= Max(delay, 0)
    {
      slept := 0;
      var n := 0;
      while n < delay
        invariant 0 <= n <= Max(delay, 0)
        invariant slept == if shutdown then 0 else n
      {
        if !shutdown {
          slept := slept + 1;
        }
        n := n + 1;
      }
    }

    /** `(msgid, nzo) = self.queue.get()` on a queue that holds an item. */
    method Dequeue()
      requires Valid() && queue != []
      modifies this
      ensures Valid() && State() == Pop(old(State()))
    {
      var item := queue[0];
      queue := queue[1..];
      phase := Looping;
      match item {
        case Entry(m, j) =>
          msgid, job := Some(m), Some(j);
        case Sentinel =>
          msgid, job := None, None;
      }
    }

    /**
     * The rest of a pass once a msgid is current: fetch it, act on the
     * outcome, and pause.
     */
    method FetchCurrent(d: FailureDampener, t: Transport, sanitize: string -> string,
                        insertOk: bool, env: Collaborators) returns (r: StepResult, slept: nat)
      requires Valid() && Truthy(msgid) && !shutdown && phase == Looping
      modifies this, d
      ensures Valid()
      ensures var o := Fetch(old(State()), Classify(t, sanitize), insertOk, env);
        State() == o.next && r == o.result && slept == o.slept
      ensures d.failures == After(old(d.failures), CounterEffect(t))
      ensures old(d.Valid()) ==> d.Valid()
    {
      var id := msgid.value;
      var g := GrabNzb(d, t, sanitize);
      slept := 0;
      match g {
        case Success(name, data, cat, more) =>
          if data != "" {
            if insertOk {
              r := Delivered(id, job.value.id, env.nameFixer(name), data, JobCategory(job.value, cat, env), more);
            } else {
              r := InsertFailed(id, job.value.id);
            }
            msgid := None;
          } else {
            phase := Exited;
            r, slept := Crashed, 0;
            return;
          }
        case Retry(n) =>
          slept := Sleeper(n);
          r := Retried(id, n);
        case Fail(_) =>
          r := Abandoned(id, job.value.id);
          msgid := None;
        case Raised =>
          phase := Exited;
          r, slept := Crashed, 0;
          return;
      }
      var pause := Sleeper(Pause);
      slept := slept + pause;
    }

    /**
     * One pass of the loop of `run`. `t` is what the transport answers for the
     * msgid the pass fetches, `insertOk` whether `insert_future_nzo` accepts
     * the report; the dampener `d` sees the call only when the pass fetches.
     */
    method Step(d: FailureDampener, t: Transport, sanitize: string -> string,
                insertOk: bool, env: Collaborators) returns (r: StepResult, slept: nat)
      requires Valid() && phase != Idle
      modifies this, d
      ensures Valid()
      ensures var o := StepSpec(old(State()), Classify(t, sanitize), insertOk, env);
        State() == o.next && r == o.result && slept == o.slept
      ensures d.failures == if NextId(old(State())).Some? then After(old(d.failures), CounterEffect(t))
                            else old(d.failures)
      ensures old(d.Valid()) ==> d.Valid()
    {
      if phase == Exited {
        r, slept := Stopped, 0;
        return;
      }
      if phase == Looping && shutdown {
        phase := Exited;
        r, slept := Stopped, 0;
        return;
      }
      if !Truthy(msgid) {
        if queue == [] {
          phase := Waiting;
          r, slept := Blocked, 0;
          return;
        }
        Dequeue();
        if shutdown || !Truthy(msgid) {
          phase := Exited;
          r, slept := Stopped, 0;
          return;
        }
      }
      r, slept := FetchCurrent(d, t, sanitize, insertOk, env);
    }
  }
}
