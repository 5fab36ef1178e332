/** The scheduler driver: background loops that tick, may panic, and stop on cancellation, with
    a counter of the ones still running. */
module Schedulers {

  type JobId = nat

  datatype Outcome = Success | Skipped | Failure

  /** Where a loop is. Waiting: between ticks, on its ticker or the cancellation. */
  datatype Phase = Delaying | Starting | Ticking | Waiting | Exited

  /** `begun` and `panics` count ticks; `recorded` are the outcomes sent to the metrics. */
  datatype Job = Job(phase: Phase, begun: nat, panics: nat, recorded: seq<Outcome>)

  /** `counter` is the WaitGroup. */
  datatype World = World(jobs: map<JobId, Job>, counter: int, cancelled: bool)

  datatype Event =
    | Start(j: JobId, delayed: bool)
    | DelayOver(j: JobId)
    | CancelDuringDelay(j: JobId)
    | Begin(j: JobId)
    | Return(j: JobId, outcome: Outcome)
    | Panic(j: JobId)
    | Stop(j: JobId)
    | Cancel

  predicate In(w: World, j: JobId, ph: Phase) {
    j in w.jobs && w.jobs[j].phase == ph
  }

  predicate Can(w: World, e: Event) {
    match e
    case Start(j, _) => j !in w.jobs
    case DelayOver(j) => In(w, j, Delaying)
    case CancelDuringDelay(j) => In(w, j, Delaying) && w.cancelled
    // a due ticker and a cancelled context may both be ready: either may be taken
    case Begin(j) => In(w, j, Starting) || In(w, j, Waiting)
    case Return(j, _) => In(w, j, Ticking)
    case Panic(j) => In(w, j, Ticking)
    case Stop(j) => In(w, j, Waiting) && w.cancelled
    case Cancel => true
  }

  function Put(w: World, j: JobId, job: Job): World {
    w.(jobs := w.jobs[j := job])
  }

  /** The loop returns: its deferred Done runs. */
  function Leave(w: World, j: JobId): World
    requires j in w.jobs
  {
    Put(w, j, w.jobs[j].(phase := Exited)).(counter := w.counter - 1)
  }

  function Next(w: World, e: Event): World
    requires Can(w, e)
  {
    match e
    case Start(j, delayed) => Put(w, j, Job(if delayed then Delaying else Starting, 0, 0,
                                            [])).(counter := w.counter + 1)
    case DelayOver(j) => Put(w, j, w.jobs[j].(phase := Starting))
    case CancelDuringDelay(j) => Leave(w, j)
    case Begin(j) => Put(w, j, w.jobs[j].(phase := Ticking, begun := w.jobs[j].begun + 1))
    case Return(j, outcome) => Put(w, j, w.jobs[j].(phase := Waiting, recorded := w.jobs[j].recorded + [outcome]))
    case Panic(j) =>
      // recovered: recorded as a failure, and the loop goes on
      Put(w, j, w.jobs[j].(phase := Waiting, panics := w.jobs[j].panics + 1,
                           recorded := w.jobs[j].recorded + [Failure]))
    case Stop(j) => Leave(w, j)
    case Cancel => w.(cancelled := true)
  }

  predicate Run(w: World, es: seq<Event>)
    decreases |es|
  {
    es == [] || (Can(w, es[0]) && Run(Next(w, es[0]), es[1..]))
  }

  function End(w: World, es: seq<Event>): World
    requires Run(w, es)
    decreases |es|
  {
    if es == [] then w else End(Next(w, es[0]), es[1..])
  }

  const NOTHING_STARTED := World(map[], 0, false)

  function Live(w: World): set<JobId> {
    set j | j in w.jobs && w.jobs[j].phase != Exited
  }

  function Failures(s: seq<Outcome>): nat {
    if s == [] then 0 else Failures(s[..|s| - 1]) + if s[|s| - 1] == Failure then 1 else 0
  }

  /** One outcome per finished tick, panics among the failures, no tick before the delay is over,
      and no exit without a cancellation. */
  predicate Orderly(job: Job, cancelled: bool) {
    && job.begun == |job.recorded| + (if job.phase == Ticking then 1 else 0)
    && job.panics <= Failures(job.recorded)
    && (job.phase == Delaying || job.phase == Starting ==> job.begun == 0)
    && (job.phase == Exited ==> cancelled)
  }

  predicate Sound(w: World) {
    w.counter == |Live(w)| && forall j :: j in w.jobs ==> Orderly(w.jobs[j], w.cancelled)
  }

  lemma RecordOne(s: seq<Outcome>, o: Outcome)
    ensures Failures(s + [o]) == Failures(s) + if o == Failure then 1 else 0
  {
    assert (s + [o])[..|s|] == s;
  }

  /** Replacing a job changes the live ones by at most that job. */
  lemma PutLive(w: World, j: JobId, job: Job)
    ensures Live(Put(w, j, job)) == if job.phase == Exited then Live(w) - {j} else Live(w) + {j}
  {
  }

  function LiveAs(job: Job): int {
    if job.phase == Exited then 0 else 1
  }

  lemma PutIsSound(w: World, j: JobId, job: Job, counter: int)
    requires Sound(w) && Orderly(job, w.cancelled)
    requires counter == w.counter + LiveAs(job) - (if j in w.jobs then LiveAs(w.jobs[j]) else 0)
    ensures Sound(Put(w, j, job).(counter := counter))
  {
    PutLive(w, j, job);
    var v := Put(w, j, job).(counter := counter);
    assert Live(v) == Live(Put(w, j, job));
    assert j in Live(w) <==> j in w.jobs && LiveAs(w.jobs[j]) == 1;
  }

  lemma StepIsSound(w: World, e: Event)
    requires Sound(w) && Can(w, e)
    ensures Sound(Next(w, e))
  {
    var v := Next(w, e);
    if e.Start? {
      PutIsSound(w, e.j, v.jobs[e.j], v.counter);
    } else if e.Cancel? {
      assert Live(v) == Live(w);
    } else {
      var job := w.jobs[e.j];
      assert Orderly(job, w.cancelled);
      if e.Return? {
        RecordOne(job.recorded, e.outcome);
      } else if e.Panic? {
        RecordOne(job.recorded, Failure);
      }
      PutIsSound(w, e.j, v.jobs[e.j], v.counter);
      assert v == Put(w, e.j, v.jobs[e.j]).(counter := v.counter);
    }
  }

  lemma {:induction false} RunIsSound(w: World, es: seq<Event>)
    requires Sound(w) && Run(w, es)
    ensures Sound(End(w, es))
    decreases |es|
  {
    if es != [] {
      StepIsSound(w, es[0]);
      RunIsSound(Next(w, es[0]), es[1..]);
    }
  }

  /** For any jobs, tick outcomes, panics and moment of cancellation: the counter is the number
      of loops that have not returned, so a wait that sees it at zero returns only when all
      have; every finished tick recorded one outcome, a panic a failure; and no loop ends
      before the cancellation. */
  lemma DriverIsSound(es: seq<Event>)
    requires Run(NOTHING_STARTED, es)
    ensures var w := End(NOTHING_STARTED, es);
            && Sound(w)
            && (w.counter == 0 ==> forall j :: j in w.jobs ==> w.jobs[j].phase == Exited)
            && (!w.cancelled ==> forall j :: j in w.jobs ==> w.jobs[j].phase != Exited)
  {
    assert Live(NOTHING_STARTED) == {};
    RunIsSound(NOTHING_STARTED, es);
    var w := End(NOTHING_STARTED, es);
    if w.counter == 0 {
      forall j | j in w.jobs ensures w.jobs[j].phase == Exited {
        assert j !in Live(w);
      }
    }
  }

  /** The outcomes of the ticks of `j` that ended in the run, in order. */
  function OutcomesOf(es: seq<Event>, j: JobId): seq<Outcome> {
    if es == [] then [] else OutcomeOf(es[0], j) + OutcomesOf(es[1..], j)
  }

  function OutcomeOf(e: Event, j: JobId): seq<Outcome> {
    if e.Return? && e.j == j then [e.outcome] else if e == Panic(j) then [Failure] else []
  }

  function Count(es: seq<Event>, e: Event): nat {
    if es == [] then 0 else (if es[0] == e then 1 else 0) + Count(es[1..], e)
  }

  function JobOf(w: World, j: JobId): Job {
    if j in w.jobs then w.jobs[j] else Job(Delaying, 0, 0, [])
  }

  lemma StepIsRecorded(w: World, e: Event, j: JobId)
    requires Can(w, e)
    ensures var before, after := JobOf(w, j), JobOf(Next(w, e), j);
            && after.recorded == before.recorded + OutcomeOf(e, j)
            && after.begun == before.begun + (if e == Begin(j) then 1 else 0)
            && after.panics == before.panics + (if e == Panic(j) then 1 else 0)
  {
  }

  lemma {:induction false} RunIsRecorded(w: World, es: seq<Event>, j: JobId)
    requires Run(w, es)
    ensures var before, after := JobOf(w, j), JobOf(End(w, es), j);
            && after.recorded == before.recorded + OutcomesOf(es, j)
            && after.begun == before.begun + Count(es, Begin(j)) && after.panics == before.panics + Count(es, Panic(j))
    decreases |es|
  {
    if es != [] {
      StepIsRecorded(w, es[0], j);
      RunIsRecorded(Next(w, es[0]), es[1..], j);
    }
  }

  /** Over every run a job's record is exactly its history: the outcomes its ticks returned, a failure
      for each panic, in the order they ended, and as many ticks and panics as there were. */
  lemma RecordIsHistory(es: seq<Event>, j: JobId)
    requires Run(NOTHING_STARTED, es) && j in End(NOTHING_STARTED, es).jobs
    ensures var job := End(NOTHING_STARTED, es).jobs[j];
            && job.recorded == OutcomesOf(es, j) && job.begun == Count(es, Begin(j))
            && job.panics == Count(es, Panic(j))
  {
    RunIsRecorded(NOTHING_STARTED, es, j);
  }

  /** Where a job is, told by the events of the run so far. */
  predicate Told(es: seq<Event>, w: World, j: JobId) {
    var delayed, over := Start(j, true) in es, DelayOver(j) in es;
    var left, begun := CancelDuringDelay(j) in es, Begin(j) in es;
    && (j in w.jobs <==> delayed || Start(j, false) in es) && !(delayed && Start(j, false) in es)
    && (w.cancelled <==> Cancel in es) && (j !in w.jobs ==> !over && !left && !begun)
    && (j in w.jobs ==>
          match w.jobs[j].phase
          case Delaying => delayed && !over && !left && !begun
          case Starting => (delayed <==> over) && !left && !begun
          case Exited => if left then delayed && !over && !begun else begun && (delayed <==> over)
          case _ => (delayed <==> over) && !left && begun)
  }

  lemma StepIsTold(es: seq<Event>, w: World, e: Event, j: JobId)
    requires Told(es, w, j) && Can(w, e)
    ensures Told(es + [e], Next(w, e), j)
  {
  }

  lemma {:induction false} RunIsTold(before: seq<Event>, w: World, es: seq<Event>, j: JobId)
    requires Told(before, w, j) && Run(w, es)
    ensures Told(before + es, End(w, es), j)
    decreases |es|
  {
    if es == [] {
      assert before + es == before;
    } else {
      StepIsTold(before, w, es[0], j);
      RunIsTold(before + [es[0]], Next(w, es[0]), es[1..], j);
      assert before + [es[0]] + es[1..] == before + es;
    }
  }

  /** The first delay, over every run: a loop started without one may tick at once, one started with
      it ticks only once it is over, and a loop ends without a single tick exactly when it was
      cancelled during the delay. Once cancelled, a loop that waits or is delayed may end. */
  lemma DelayIsKept(es: seq<Event>, j: JobId)
    requires Run(NOTHING_STARTED, es)
    ensures var w := End(NOTHING_STARTED, es);
            && (Start(j, false) in es && Begin(j) !in es ==> Can(w, Begin(j)))
            && (Start(j, true) in es && Begin(j) in es ==> DelayOver(j) in es)
            && (Start(j, true) in es && DelayOver(j) !in es ==> !Can(w, Begin(j)))
            && (In(w, j, Exited) ==> (Begin(j) !in es <==> CancelDuringDelay(j) in es))
            && (Cancel in es && In(w, j, Waiting) ==> Can(w, Stop(j)))
            && (Cancel in es && In(w, j, Delaying) ==> Can(w, CancelDuringDelay(j)))
  {
    RunIsTold([], NOTHING_STARTED, es, j);
    assert [] + es == es;
  }

  /** A loop that left during its first delay never ticks, in any continuation. */
  lemma {:induction false} ExitIsFinal(w: World, es: seq<Event>, j: JobId)
    requires Run(w, es) && In(w, j, Exited)
    ensures j in End(w, es).jobs && End(w, es).jobs[j] == w.jobs[j]
    decreases |es|
  {
    if es != [] {
      ExitIsFinal(Next(w, es[0]), es[1..], j);
    }
  }

  lemma CancelledDelayNeverTicks(before: seq<Event>, j: JobId, after: seq<Event>)
    requires Run(NOTHING_STARTED, before) && Can(End(NOTHING_STARTED, before), CancelDuringDelay(j))
    requires Run(Next(End(NOTHING_STARTED, before), CancelDuringDelay(j)), after)
    ensures var w := End(Next(End(NOTHING_STARTED, before), CancelDuringDelay(j)), after);
            j in w.jobs && w.jobs[j] == Job(Exited, 0, 0, [])
  {
    DriverIsSound(before);
    var w := End(NOTHING_STARTED, before);
    assert Orderly(w.jobs[j], w.cancelled);
    ExitIsFinal(Next(w, CancelDuringDelay(j)), after, j);
  }
}
