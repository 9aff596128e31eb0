/**
 The per-context serialising executor.

 Any number of callers push one job each; an atomic flag decides whether a processor task has to be
 spawned; the processor pops and awaits one job at a time.  The queue mutex, the flag, the write lock
 on the context and the oneshot channels are separate parts of the state, and every step below is one
 piece of code between two suspension points or two shared accesses.
 */
module ContextQueue {
  import opened Sequences

  /** What a job's future does between two suspension points: change the context it holds the write
      guard of, or call schedule_and_wait on the very queue that is running it, which starts by locking
      that queue's mutex. */
  datatype Action<!T> = Update(f: T -> T) | Reenter

  datatype Closure<!T, !O> = Closure(body: seq<Action<T>>, result: T -> O)

  /** A caller inside schedule_and_wait. */
  datatype Phase<+O> =
    | WantsLock           // awaiting the queue mutex in push_future
    | HoldsLock
    | Enqueued            // job pushed, mutex held, flag not tested yet
    | FlagStored          // flag found clear and set, processor not spawned yet
    | Listening           // awaiting the oneshot receiver
    | Received(output: O)
    | Cancelled           // dropped before pushing
    | Dropped             // dropped while listening

  /** A processor task inside process_queue. */
  datatype Stage =
    | WantsQueue
    | Inspecting          // mutex held, emptiness not tested yet
    | FlagCleared         // queue found empty and flag cleared, mutex held
    | Popped(job: nat)    // mutex held, awaiting the write lock of the context
    | Executing(job: nat, at: nat)
    | Sent                // result sent, mutex still held
    | Exited

  datatype Lock = Free | ByCaller(c: nat) | ByProcessor(p: nat)

  /** Caller i pushes the job with closure closures[i].  `start`, `pushed` and `finished` are history. */
  datatype State<!T, !O> = State(
    start: T,
    ctx: T,
    writer: Option<nat>,
    lock: Lock,
    flag: bool,
    queue: seq<nat>,
    closures: seq<Closure<T, O>>,
    phases: seq<Phase<O>>,
    processors: seq<Stage>,
    outbox: map<nat, O>,
    pushed: seq<nat>,
    finished: seq<nat>)

  function Init<T, O>(context: T): State<T, O> {
    State(context, context, None, Free, false, [], [], [], [], map[], [], [])
  }

  datatype Step<!T, !O> =
    | Arrive(closure: Closure<T, O>)
    | CallerLock(c: nat)
    | CallerPush(c: nat)
    | CallerTest(c: nat)
    | CallerSpawn(c: nat)
    | CallerReceive(c: nat)
    | CallerDrop(c: nat)
    | ProcLock(p: nat)
    | ProcInspect(p: nat)
    | ProcExit(p: nat)
    | ProcWrite(p: nat)
    | ProcAct(p: nat)
    | ProcFinish(p: nat)
    | ProcUnlock(p: nat)

  predicate PhaseIs<T, O(==)>(s: State<T, O>, c: nat, ph: Phase<O>) {
    c < |s.phases| && s.phases[c] == ph
  }

  predicate Enabled<T, O(==)>(s: State<T, O>, step: Step<T, O>) {
    && |s.phases| == |s.closures|
    && match step
       case Arrive(_) => true
       case CallerLock(c) => PhaseIs(s, c, WantsLock) && s.lock == Free
       case CallerPush(c) => PhaseIs(s, c, HoldsLock)
       case CallerTest(c) => PhaseIs(s, c, Enqueued)
       case CallerSpawn(c) => PhaseIs(s, c, FlagStored)
       case CallerReceive(c) => PhaseIs(s, c, Listening) && c in s.outbox
       case CallerDrop(c) => PhaseIs(s, c, WantsLock) || PhaseIs(s, c, Listening)
       case ProcLock(p) => p < |s.processors| && s.processors[p] == WantsQueue && s.lock == Free
       case ProcInspect(p) => p < |s.processors| && s.processors[p] == Inspecting
       case ProcExit(p) => p < |s.processors| && s.processors[p] == FlagCleared
       case ProcWrite(p) => p < |s.processors| && s.processors[p].Popped? && s.writer == None
       case ProcAct(p) =>
         && p < |s.processors| && s.processors[p].Executing?
         && s.processors[p].job < |s.closures|
         && s.processors[p].at < |s.closures[s.processors[p].job].body|
         && (s.closures[s.processors[p].job].body[s.processors[p].at].Reenter? ==> s.lock == Free)
       case ProcFinish(p) =>
         && p < |s.processors| && s.processors[p].Executing?
         && s.processors[p].job < |s.closures|
         && s.processors[p].at == |s.closures[s.processors[p].job].body|
       case ProcUnlock(p) => p < |s.processors| && s.processors[p] == Sent
  }

  function Apply<T, O(==)>(s: State<T, O>, step: Step<T, O>): (s': State<T, O>)
    requires Enabled(s, step)
  {
    match step
    case Arrive(closure) =>
      s.(closures := s.closures + [closure], phases := s.phases + [WantsLock])
    case CallerLock(c) =>
      s.(lock := ByCaller(c), phases := s.phases[c := HoldsLock])
    case CallerPush(c) =>
      s.(queue := s.queue + [c], pushed := s.pushed + [c], phases := s.phases[c := Enqueued])
    case CallerTest(c) =>
      if s.flag then s.(lock := Free, phases := s.phases[c := Listening])
      else s.(flag := true, phases := s.phases[c := FlagStored])
    case CallerSpawn(c) =>
      s.(processors := s.processors + [WantsQueue], lock := Free, phases := s.phases[c := Listening])
    case CallerReceive(c) =>
      s.(phases := s.phases[c := Received(s.outbox[c])], outbox := s.outbox - {c})
    case CallerDrop(c) =>
      if s.phases[c] == WantsLock then s.(phases := s.phases[c := Cancelled])
      else s.(phases := s.phases[c := Dropped], outbox := s.outbox - {c})
    case ProcLock(p) =>
      s.(lock := ByProcessor(p), processors := s.processors[p := Inspecting])
    case ProcInspect(p) =>
      if s.queue == [] then s.(flag := false, processors := s.processors[p := FlagCleared])
      else s.(queue := s.queue[1..], processors := s.processors[p := Popped(s.queue[0])])
    case ProcExit(p) =>
      s.(lock := Free, processors := s.processors[p := Exited])
    case ProcWrite(p) =>
      s.(writer := Some(p), processors := s.processors[p := Executing(s.processors[p].job, 0)])
    case ProcAct(p) =>
      var j, at := s.processors[p].job, s.processors[p].at;
      var s1 := s.(processors := s.processors[p := Executing(j, at + 1)]);
      (match s.closures[j].body[at]
       case Update(f) => s1.(ctx := f(s.ctx))
       case Reenter => s1.(lock := ByProcessor(p)))
    case ProcFinish(p) =>
      var j := s.processors[p].job;
      var sent := if PhaseIs(s, j, Listening) then s.outbox[j := s.closures[j].result(s.ctx)] else s.outbox;
      s.(writer := None, outbox := sent, finished := s.finished + [j], processors := s.processors[p := Sent])
    case ProcUnlock(p) =>
      s.(lock := Free, processors := s.processors[p := WantsQueue])
  }

  predicate CallerStep<T, O>(step: Step<T, O>, c: nat) {
    && (step.CallerLock? || step.CallerPush? || step.CallerTest? || step.CallerSpawn?
        || step.CallerReceive? || step.CallerDrop?)
    && step.c == c
  }

  predicate ProcStep<T, O>(step: Step<T, O>, p: nat) {
    && (step.ProcLock? || step.ProcInspect? || step.ProcExit? || step.ProcWrite?
        || step.ProcAct? || step.ProcFinish? || step.ProcUnlock?)
    && step.p == p
  }

  /** A run is a sequence of steps, each enabled where it is taken. */
  ghost predicate CanRun<T, O>(s: State<T, O>, steps: seq<Step<T, O>>)
    decreases |steps|
  {
    steps == [] || (Enabled(s, steps[0]) && CanRun(Apply(s, steps[0]), steps[1..]))
  }

  ghost function Run<T, O>(s: State<T, O>, steps: seq<Step<T, O>>): State<T, O>
    requires CanRun(s, steps)
    decreases |steps|
  {
    if steps == [] then s else Run(Apply(s, steps[0]), steps[1..])
  }

  lemma {:induction false} RunJoin<T, O>(s: State<T, O>, steps: seq<Step<T, O>>, more: seq<Step<T, O>>)
    requires CanRun(s, steps) && CanRun(Run(s, steps), more)
    ensures CanRun(s, steps + more)
    ensures Run(s, steps + more) == Run(Run(s, steps), more)
    decreases |steps|
  {
    if steps == [] {
      assert steps + more == more;
    } else {
      assert (steps + more)[1..] == steps[1..] + more;
      RunJoin(Apply(s, steps[0]), steps[1..], more);
    }
  }

  // ----- the serial reference: run the jobs one after the other, with nothing in between

  function RunBody<T>(body: seq<Action<T>>, x: T): T {
    if body == [] then x else
      var y := RunBody(body[..|body| - 1], x);
      match body[|body| - 1]
      case Update(f) => f(y)
      case Reenter => y
  }

  ghost predicate InRange<T, O>(closures: seq<Closure<T, O>>, jobs: seq<nat>) {
    forall i :: 0 <= i < |jobs| ==> jobs[i] < |closures|
  }

  /** The context after the given jobs ran to completion in that order. */
  ghost function Serial<T, O>(closures: seq<Closure<T, O>>, start: T, jobs: seq<nat>): T
    requires InRange(closures, jobs)
  {
    if jobs == [] then start
    else RunBody(closures[jobs[|jobs| - 1]].body, Serial(closures, start, jobs[..|jobs| - 1]))
  }

  /** What the i-th of the given jobs returns when they run in that order. */
  ghost function SerialOutput<T, O>(closures: seq<Closure<T, O>>, start: T, jobs: seq<nat>, i: nat): O
    requires InRange(closures, jobs) && i < |jobs|
  {
    closures[jobs[i]].result(Serial(closures, start, jobs[..i + 1]))
  }

  /** The first action is taken first. */
  lemma {:induction false} RunBodyFront<T>(body: seq<Action<T>>, x: T)
    requires body != []
    ensures RunBody(body, x) == RunBody(body[1..], match body[0] case Update(f) => f(x) case Reenter => x)
  {
    var n := |body| - 1;
    if n > 0 {
      RunBodyFront(body[..n], x);
      assert body[..n][1..] == body[1..][..n - 1];
    } else {
      assert body[..0] == [];
    }
  }

  /** The first job runs first, and the others from where it left the context. */
  lemma {:induction false} SerialFront<T, O>(closures: seq<Closure<T, O>>, start: T, jobs: seq<nat>)
    requires InRange(closures, jobs) && jobs != []
    ensures Serial(closures, start, jobs) == Serial(closures, RunBody(closures[jobs[0]].body, start), jobs[1..])
  {
    var n := |jobs| - 1;
    if n > 0 {
      SerialFront(closures, start, jobs[..n]);
      assert jobs[..n][1..] == jobs[1..][..n - 1];
    } else {
      assert jobs[..0] == [];
    }
  }

  lemma {:induction false} SerialIgnoresNewcomers<T, O>(
    closures: seq<Closure<T, O>>, more: seq<Closure<T, O>>, start: T, jobs: seq<nat>)
    requires InRange(closures, jobs) && InRange(more, jobs) && closures <= more
    ensures Serial(closures, start, jobs) == Serial(more, start, jobs)
  {
    if jobs != [] {
      SerialIgnoresNewcomers(closures, more, start, jobs[..|jobs| - 1]);
    }
  }

  // ----- the invariant

  predicate CallerHolds<O>(ph: Phase<O>) { ph.HoldsLock? || ph.Enqueued? || ph.FlagStored? }
  predicate ProcHolds(st: Stage) { !st.WantsQueue? && !st.Exited? }
  predicate HasPushed<O>(ph: Phase<O>) { !ph.WantsLock? && !ph.HoldsLock? && !ph.Cancelled? }

  function RunningOf(st: Stage): seq<nat> {
    if st.Popped? || st.Executing? then [st.job] else []
  }

  /** The job that was popped and has not sent its result: at most one, by construction of the mutex. */
  function Running<T, O>(s: State<T, O>): seq<nat> {
    if s.lock.ByProcessor? && s.lock.p < |s.processors| then RunningOf(s.processors[s.lock.p]) else []
  }

  ghost predicate LockInv<T, O>(s: State<T, O>) {
    && |s.phases| == |s.closures|
    && (forall c :: 0 <= c < |s.phases| ==> (CallerHolds(s.phases[c]) <==> s.lock == ByCaller(c)))
    && (forall p :: 0 <= p < |s.processors| ==> (ProcHolds(s.processors[p]) <==> s.lock == ByProcessor(p)))
    && (s.lock.ByCaller? ==> s.lock.c < |s.phases|)
    && (s.lock.ByProcessor? ==> s.lock.p < |s.processors|)
  }

  ghost predicate Live<T, O>(s: State<T, O>, p: nat) { p < |s.processors| && s.processors[p] != Exited }

  /** At most one processor is live, and the flag says whether there is one, except in the two gaps
      between a store to the flag and the spawn or exit that follows it, which the mutex covers. */
  ghost predicate FlagInv<T, O>(s: State<T, O>)
    requires LockInv(s)
  {
    && (forall p, q :: Live(s, p) && Live(s, q) ==> p == q)
    && (s.lock.ByCaller? && s.phases[s.lock.c].FlagStored? ==> s.flag && forall p :: !Live(s, p))
    && (s.lock.ByProcessor? ==> (s.flag <==> !s.processors[s.lock.p].FlagCleared?))
    && (!(s.lock.ByCaller? && s.phases[s.lock.c].FlagStored?) && !s.lock.ByProcessor? ==>
          (s.flag <==> exists p :: Live(s, p)))
    && (!s.flag ==> s.queue == (if s.lock.ByCaller? && s.phases[s.lock.c].Enqueued? then [s.lock.c] else []))
  }

  ghost predicate HistoryInv<T, O>(s: State<T, O>) {
    && |s.phases| == |s.closures|
    && s.pushed == s.finished + Running(s) + s.queue
    && Distinct(s.pushed)
    && InRange(s.closures, s.pushed)
    && (forall c :: 0 <= c < |s.phases| ==> (HasPushed(s.phases[c]) <==> c in s.pushed))
  }

  /** A caller that has pushed and still holds the mutex has its job at the back of the queue. */
  ghost predicate TailInv<T, O>(s: State<T, O>) {
    s.lock.ByCaller? && s.lock.c < |s.phases| && !s.phases[s.lock.c].HoldsLock? ==>
      s.queue != [] && s.queue[|s.queue| - 1] == s.lock.c
  }

  lemma FinishedInRange<T, O>(s: State<T, O>)
    requires HistoryInv(s)
    ensures InRange(s.closures, s.finished) && InRange(s.closures, Running(s)) && InRange(s.closures, s.queue)
  {
    assert forall i :: 0 <= i < |s.finished| ==> s.finished[i] == s.pushed[i];
    assert forall i :: 0 <= i < |Running(s)| ==> Running(s)[i] == s.pushed[|s.finished| + i];
    assert forall i :: 0 <= i < |s.queue| ==> s.queue[i] == s.pushed[|s.finished| + |Running(s)| + i];
  }

  ghost predicate ContextInv<T, O>(s: State<T, O>)
    requires LockInv(s) && HistoryInv(s)
  {
    FinishedInRange(s);
    var done := Serial(s.closures, s.start, s.finished);
    if s.lock.ByProcessor? && s.processors[s.lock.p].Executing? then
      var st := s.processors[s.lock.p];
      && st.job < |s.closures|
      && st.at <= |s.closures[st.job].body|
      && s.ctx == RunBody(s.closures[st.job].body[..st.at], done)
      && s.writer == Some(s.lock.p)
    else
      s.ctx == done && s.writer == None
  }

  ghost predicate OutputInv<T, O>(s: State<T, O>)
    requires HistoryInv(s)
  {
    OutboxInv(s) && forall i :: 0 <= i < |s.finished| ==> AnsweredAt(s, i)
  }

  /** The i-th job that finished has answered its caller. */
  ghost predicate AnsweredAt<T, O>(s: State<T, O>, i: nat)
    requires HistoryInv(s) && i < |s.finished|
  {
    FinishedInRange(s);
    Answered(s.phases, s.outbox, s.finished[i], SerialOutput(s.closures, s.start, s.finished, i))
  }

  ghost predicate OutboxInv<T, O>(s: State<T, O>) {
    && (forall c :: c in s.outbox ==> PhaseIs(s, c, Listening) && c in s.finished)
    && (forall c :: 0 <= c < |s.phases| && s.phases[c].Received? ==> c in s.finished)
  }

  /** Caller c has been given nothing but `out`, and has it if it is still interested. */
  ghost predicate Answered<O>(phases: seq<Phase<O>>, outbox: map<nat, O>, c: nat, out: O) {
    c < |phases|
    && (phases[c].Listening? ==> c in outbox && outbox[c] == out)
    && (phases[c].Received? ==> phases[c].output == out)
  }

  ghost predicate Inv<T, O>(s: State<T, O>) {
    LockInv(s) && FlagInv(s) && TailInv(s) && HistoryInv(s) && ContextInv(s) && OutputInv(s)
  }

  lemma InitInv<T, O>(context: T)
    ensures Inv(Init<T, O>(context))
  {}

  // ----- every step keeps the invariant

  lemma LockCaller<T, O>(s: State<T, O>, step: Step<T, O>, c: nat)
    requires LockInv(s) && Enabled(s, step) && CallerStep(step, c)
    ensures LockInv(Apply(s, step))
  {
    var s' := Apply(s, step);
    assert s'.phases == s.phases[c := s'.phases[c]];
    assert CallerHolds(s.phases[c]) <==> s.lock == ByCaller(c);
  }

  lemma LockProcessor<T, O>(s: State<T, O>, step: Step<T, O>, p: nat)
    requires LockInv(s) && Enabled(s, step) && ProcStep(step, p)
    ensures LockInv(Apply(s, step))
  {
    var s' := Apply(s, step);
    assert s'.processors == s.processors[p := s'.processors[p]];
    assert ProcHolds(s.processors[p]) <==> s.lock == ByProcessor(p);
  }

  lemma LockStep<T, O>(s: State<T, O>, step: Step<T, O>)
    requires LockInv(s) && Enabled(s, step)
    ensures LockInv(Apply(s, step))
  {
    match step
    case Arrive(_) =>
    case ProcLock(p) => LockProcessor(s, step, p);
    case ProcInspect(p) => LockProcessor(s, step, p);
    case ProcExit(p) => LockProcessor(s, step, p);
    case ProcWrite(p) => LockProcessor(s, step, p);
    case ProcAct(p) => LockProcessor(s, step, p);
    case ProcFinish(p) => LockProcessor(s, step, p);
    case ProcUnlock(p) => LockProcessor(s, step, p);
    case _ => LockCaller(s, step, step.c);
  }

  /** A processor that is past its lock acquisition holds the mutex, so its job can never take it again. */
  lemma ReenterDisabled<T, O>(s: State<T, O>, p: nat)
    requires LockInv(s) && Enabled(s, ProcAct(p))
    ensures s.lock == ByProcessor(p)
    ensures s.closures[s.processors[p].job].body[s.processors[p].at].Update?
  {
    assert ProcHolds(s.processors[p]);
  }

  lemma FlagCaller<T, O>(s: State<T, O>, step: Step<T, O>, c: nat)
    requires LockInv(s) && FlagInv(s) && Enabled(s, step) && CallerStep(step, c) && !step.CallerSpawn?
    requires LockInv(Apply(s, step))
    ensures FlagInv(Apply(s, step))
  {
    assert CallerHolds(s.phases[c]) <==> s.lock == ByCaller(c);
    assert forall p :: Live(Apply(s, step), p) <==> Live(s, p);
  }

  lemma FlagSpawn<T, O>(s: State<T, O>, c: nat)
    requires LockInv(s) && FlagInv(s) && Enabled(s, CallerSpawn(c)) && LockInv(Apply(s, CallerSpawn(c)))
    ensures FlagInv(Apply(s, CallerSpawn(c)))
  {
    var s' := Apply(s, CallerSpawn(c));
    assert CallerHolds(s.phases[c]) && s.lock == ByCaller(c);
    assert Live(s', |s.processors|);
    assert forall p :: Live(s', p) ==> p == |s.processors| || Live(s, p);
  }

  lemma FlagExit<T, O>(s: State<T, O>, p: nat)
    requires LockInv(s) && FlagInv(s) && Enabled(s, ProcExit(p)) && LockInv(Apply(s, ProcExit(p)))
    ensures FlagInv(Apply(s, ProcExit(p)))
  {
    assert ProcHolds(s.processors[p]) && Live(s, p);
    assert forall q :: Live(Apply(s, ProcExit(p)), q) ==> Live(s, q) && q != p;
  }

  lemma FlagProcessor<T, O>(s: State<T, O>, step: Step<T, O>, p: nat)
    requires LockInv(s) && FlagInv(s) && Enabled(s, step) && ProcStep(step, p) && !step.ProcExit?
    requires LockInv(Apply(s, step))
    ensures FlagInv(Apply(s, step))
  {
    if step.ProcAct? {
      ReenterDisabled(s, p);
    }
    assert ProcHolds(s.processors[p]) <==> s.lock == ByProcessor(p);
    FlagSameLive(s, Apply(s, step), p);
  }

  lemma FlagStep<T, O>(s: State<T, O>, step: Step<T, O>)
    requires LockInv(s) && FlagInv(s) && Enabled(s, step)
    ensures LockInv(Apply(s, step)) && FlagInv(Apply(s, step))
  {
    LockStep(s, step);
    match step
    case Arrive(_) => assert forall p :: Live(Apply(s, step), p) <==> Live(s, p);
    case CallerSpawn(c) => FlagSpawn(s, c);
    case ProcExit(p) => FlagExit(s, p);
    case ProcLock(p) => FlagProcessor(s, step, p);
    case ProcInspect(p) => FlagProcessor(s, step, p);
    case ProcWrite(p) => FlagProcessor(s, step, p);
    case ProcAct(p) => FlagProcessor(s, step, p);
    case ProcFinish(p) => FlagProcessor(s, step, p);
    case ProcUnlock(p) => FlagProcessor(s, step, p);
    case _ => FlagCaller(s, step, step.c);
  }

  lemma FlagSameLive<T, O>(s: State<T, O>, s': State<T, O>, p: nat)
    requires p < |s.processors| == |s'.processors|
    requires s'.processors == s.processors[p := s'.processors[p]]
    requires s.processors[p] != Exited && s'.processors[p] != Exited
    ensures Live(s, p) && Live(s', p)
    ensures forall q :: Live(s', q) <==> Live(s, q)
  {}

  lemma HistoryPush<T, O>(s: State<T, O>, c: nat)
    requires LockInv(s) && HistoryInv(s) && Enabled(s, CallerPush(c))
    ensures HistoryInv(Apply(s, CallerPush(c)))
  {
    var s' := Apply(s, CallerPush(c));
    assert c !in s.pushed && CallerHolds(s.phases[c]);
    assert Running(s) == [] == Running(s');
    assert forall d :: d in s'.pushed <==> d in s.pushed || d == c;
  }

  /** Steps that leave the history of pushes alone: jobs only move from the queue to running to finished. */
  lemma HistoryMove<T, O>(s: State<T, O>, step: Step<T, O>)
    requires LockInv(s) && HistoryInv(s) && Enabled(s, step) && !step.CallerPush?
    ensures var s' := Apply(s, step); s'.finished + Running(s') + s'.queue == s.pushed
  {
    var s' := Apply(s, step);
    match step
    case ProcInspect(p) =>
      assert ProcHolds(s.processors[p]);
      if s.queue != [] {
        assert s.queue == [s.queue[0]] + s.queue[1..];
      }
    case ProcFinish(p) => assert ProcHolds(s.processors[p]);
    case ProcWrite(p) => assert ProcHolds(s.processors[p]);
    case ProcUnlock(p) => assert ProcHolds(s.processors[p]);
    case ProcExit(p) => assert ProcHolds(s.processors[p]);
    case ProcAct(p) => ReenterDisabled(s, p);
    case CallerTest(c) => assert CallerHolds(s.phases[c]);
    case CallerSpawn(c) => assert CallerHolds(s.phases[c]);
    case _ =>
  }

  lemma HistoryStep<T, O>(s: State<T, O>, step: Step<T, O>)
    requires LockInv(s) && HistoryInv(s) && Enabled(s, step)
    ensures HistoryInv(Apply(s, step))
  {
    if step.CallerPush? {
      HistoryPush(s, step.c);
    } else {
      HistoryMove(s, step);
      var s' := Apply(s, step);
      assert forall c :: 0 <= c < |s.phases| ==> (HasPushed(s'.phases[c]) <==> HasPushed(s.phases[c]));
    }
  }

  lemma ContextArrive<T, O>(s: State<T, O>, closure: Closure<T, O>)
    requires LockInv(s) && HistoryInv(s) && ContextInv(s)
    requires LockInv(Apply(s, Arrive(closure))) && HistoryInv(Apply(s, Arrive(closure)))
    ensures ContextInv(Apply(s, Arrive(closure)))
  {
    FinishedInRange(s);
    SerialIgnoresNewcomers(s.closures, s.closures + [closure], s.start, s.finished);
  }

  lemma ContextWrite<T, O>(s: State<T, O>, p: nat)
    requires LockInv(s) && HistoryInv(s) && ContextInv(s) && Enabled(s, ProcWrite(p))
    requires LockInv(Apply(s, ProcWrite(p))) && HistoryInv(Apply(s, ProcWrite(p)))
    ensures ContextInv(Apply(s, ProcWrite(p)))
  {
    FinishedInRange(s);
    assert ProcHolds(s.processors[p]);
    var j := s.processors[p].job;
    assert Running(s)[0] == j;
    assert s.closures[j].body[..0] == [];
  }

  lemma ContextAct<T, O>(s: State<T, O>, p: nat)
    requires LockInv(s) && HistoryInv(s) && ContextInv(s) && Enabled(s, ProcAct(p))
    requires LockInv(Apply(s, ProcAct(p))) && HistoryInv(Apply(s, ProcAct(p)))
    ensures ContextInv(Apply(s, ProcAct(p)))
  {
    ReenterDisabled(s, p);
    var body, at := s.closures[s.processors[p].job].body, s.processors[p].at;
    assert body[..at + 1][..at] == body[..at];
  }

  lemma ContextFinish<T, O>(s: State<T, O>, p: nat)
    requires LockInv(s) && HistoryInv(s) && ContextInv(s) && Enabled(s, ProcFinish(p))
    requires LockInv(Apply(s, ProcFinish(p))) && HistoryInv(Apply(s, ProcFinish(p)))
    ensures ContextInv(Apply(s, ProcFinish(p)))
  {
    var s' := Apply(s, ProcFinish(p));
    assert ProcHolds(s.processors[p]);
    FinishedInRange(s');
    var j := s.processors[p].job;
    assert s.closures[j].body[..|s.closures[j].body|] == s.closures[j].body;
    assert s'.finished[..|s.finished|] == s.finished;
  }

  /** The steps that neither touch the context nor start or finish a job. */
  lemma ContextOther<T, O>(s: State<T, O>, step: Step<T, O>)
    requires LockInv(s) && HistoryInv(s) && ContextInv(s) && Enabled(s, step)
    requires LockInv(Apply(s, step)) && HistoryInv(Apply(s, step))
    requires !step.Arrive? && !step.ProcWrite? && !step.ProcAct? && !step.ProcFinish?
    ensures ContextInv(Apply(s, step))
  {
    var s' := Apply(s, step);
    assert s'.closures == s.closures && s'.finished == s.finished && s'.ctx == s.ctx && s'.writer == s.writer;
    if p: nat :| ProcStep(step, p) {
      assert ProcHolds(s.processors[p]) <==> s.lock == ByProcessor(p);
    } else if c: nat :| CallerStep(step, c) {
      assert CallerHolds(s.phases[c]) <==> s.lock == ByCaller(c);
    }
  }

  lemma ContextStep<T, O>(s: State<T, O>, step: Step<T, O>)
    requires LockInv(s) && HistoryInv(s) && ContextInv(s) && Enabled(s, step)
    ensures LockInv(Apply(s, step)) && HistoryInv(Apply(s, step)) && ContextInv(Apply(s, step))
  {
    LockStep(s, step);
    HistoryStep(s, step);
    match step
    case Arrive(closure) => ContextArrive(s, closure);
    case ProcWrite(p) => ContextWrite(s, p);
    case ProcAct(p) => ContextAct(s, p);
    case ProcFinish(p) => ContextFinish(s, p);
    case _ => ContextOther(s, step);
  }

  lemma FinishedOnce<T, O>(s: State<T, O>)
    requires HistoryInv(s)
    ensures Distinct(s.finished)
    ensures forall i, j :: 0 <= i < |s.finished| && 0 <= j < |s.queue| ==> s.finished[i] != s.queue[j]
    ensures Running(s) != [] ==> Running(s)[0] !in s.finished
  {
    FinishedInRange(s);
    var n := |s.finished|;
    assert forall i :: 0 <= i < n ==> s.pushed[i] == s.finished[i];
    assert forall j :: 0 <= j < |s.queue| ==> s.pushed[n + |Running(s)| + j] == s.queue[j];
    assert Running(s) != [] ==> s.pushed[n] == Running(s)[0];
  }

  lemma NotYetFinished<T, O>(s: State<T, O>, c: nat)
    requires HistoryInv(s) && TailInv(s) && s.lock == ByCaller(c) && c < |s.phases| && !s.phases[c].HoldsLock?
    ensures c !in s.finished
  {
    FinishedOnce(s);
  }

  lemma TailStep<T, O>(s: State<T, O>, step: Step<T, O>)
    requires LockInv(s) && TailInv(s) && Enabled(s, step)
    ensures TailInv(Apply(s, step))
  {
    if step.ProcInspect? {
      assert ProcHolds(s.processors[step.p]);
    }
  }

  /** Outputs of jobs that have finished do not change when later jobs finish or new callers arrive. */
  lemma SerialOutputStable<T, O>(s: State<T, O>, step: Step<T, O>, i: nat)
    requires HistoryInv(s) && Enabled(s, step) && HistoryInv(Apply(s, step)) && i < |s.finished|
    ensures var s' := Apply(s, step);
      InRange(s.closures, s.finished) && InRange(s'.closures, s'.finished) &&
      s.finished <= s'.finished &&
      SerialOutput(s'.closures, s'.start, s'.finished, i) == SerialOutput(s.closures, s.start, s.finished, i)
  {
    var s' := Apply(s, step);
    FinishedInRange(s);
    FinishedInRange(s');
    assert s'.finished[..i + 1] == s.finished[..i + 1];
    SerialIgnoresNewcomers(s.closures, s'.closures, s.start, s.finished[..i + 1]);
  }

  lemma NewOutput<T, O>(s: State<T, O>, p: nat)
    requires LockInv(s) && HistoryInv(s) && ContextInv(s) && Enabled(s, ProcFinish(p))
    ensures var s', j := Apply(s, ProcFinish(p)), s.processors[p].job;
      InRange(s'.closures, s'.finished) && j !in s.finished && PhaseIs(s, j, s.phases[j]) &&
      SerialOutput(s'.closures, s'.start, s'.finished, |s.finished|) == s.closures[j].result(s.ctx)
  {
    var s', j, n := Apply(s, ProcFinish(p)), s.processors[p].job, |s.finished|;
    FinishedInRange(s);
    FinishedOnce(s);
    assert ProcHolds(s.processors[p]);
    assert Running(s) == [j];
    var body := s.closures[j].body;
    assert body[..|body|] == body;
    assert s'.finished[..n + 1] == s'.finished && s'.finished[..n] == s.finished;
  }

  lemma OutboxFinish<T, O>(s: State<T, O>, p: nat)
    requires OutboxInv(s) && Enabled(s, ProcFinish(p))
    ensures OutboxInv(Apply(s, ProcFinish(p)))
  {
    var s' := Apply(s, ProcFinish(p));
    assert s'.finished[|s.finished|] == s.processors[p].job;
    assert forall c :: c in s.finished ==> c in s'.finished;
  }

  lemma OutboxStep<T, O>(s: State<T, O>, step: Step<T, O>)
    requires OutboxInv(s) && Enabled(s, step)
    ensures OutboxInv(Apply(s, step))
  {
    if step.ProcFinish? {
      OutboxFinish(s, step.p);
    } else {
      assert Apply(s, step).finished == s.finished;
    }
  }

  /** Jobs that had finished before the step stay answered. */
  lemma AnsweredStill<T, O>(s: State<T, O>, step: Step<T, O>, i: nat)
    requires LockInv(s) && TailInv(s) && HistoryInv(s) && ContextInv(s) && OutputInv(s) && Enabled(s, step)
    requires HistoryInv(Apply(s, step)) && i < |s.finished|
    ensures i < |Apply(s, step).finished| && AnsweredAt(Apply(s, step), i)
  {
    if step.ProcFinish? {
      NewOutput(s, step.p);
    } else if step.CallerTest? || step.CallerSpawn? {
      assert CallerHolds(s.phases[step.c]);
      NotYetFinished(s, step.c);
    }
    SerialOutputStable(s, step, i);
    AnsweredStep(s, step, i);
  }

  lemma FinishedStep<T, O>(s: State<T, O>, step: Step<T, O>)
    requires Enabled(s, step)
    ensures Apply(s, step).finished == s.finished + if step.ProcFinish? then [s.processors[step.p].job] else []
  {}

  lemma AnsweredNew<T, O>(s: State<T, O>, p: nat)
    requires LockInv(s) && HistoryInv(s) && ContextInv(s) && OutboxInv(s) && Enabled(s, ProcFinish(p))
    requires HistoryInv(Apply(s, ProcFinish(p)))
    ensures |s.finished| < |Apply(s, ProcFinish(p)).finished| && AnsweredAt(Apply(s, ProcFinish(p)), |s.finished|)
  {
    NewOutput(s, p);
    assert !s.phases[s.processors[p].job].Received?;
  }

  lemma OutputFinish<T, O>(s: State<T, O>, p: nat)
    requires LockInv(s) && TailInv(s) && HistoryInv(s) && ContextInv(s) && OutputInv(s) && Enabled(s, ProcFinish(p))
    requires HistoryInv(Apply(s, ProcFinish(p))) && OutboxInv(Apply(s, ProcFinish(p)))
    ensures OutputInv(Apply(s, ProcFinish(p)))
  {
    var s' := Apply(s, ProcFinish(p));
    FinishedStep(s, ProcFinish(p));
    forall i | 0 <= i < |s'.finished| ensures AnsweredAt(s', i) {
      if i < |s.finished| {
        AnsweredStill(s, ProcFinish(p), i);
      } else {
        AnsweredNew(s, p);
      }
    }
  }

  lemma OutputOther<T, O>(s: State<T, O>, step: Step<T, O>)
    requires LockInv(s) && TailInv(s) && HistoryInv(s) && ContextInv(s) && OutputInv(s) && Enabled(s, step)
    requires HistoryInv(Apply(s, step)) && OutboxInv(Apply(s, step)) && !step.ProcFinish?
    ensures OutputInv(Apply(s, step))
  {
    var s' := Apply(s, step);
    FinishedStep(s, step);
    forall i | 0 <= i < |s'.finished| ensures AnsweredAt(s', i) {
      AnsweredStill(s, step, i);
    }
  }

  lemma OutputStep<T, O>(s: State<T, O>, step: Step<T, O>)
    requires LockInv(s) && TailInv(s) && HistoryInv(s) && ContextInv(s) && OutputInv(s) && Enabled(s, step)
    requires HistoryInv(Apply(s, step))
    ensures OutputInv(Apply(s, step))
  {
    OutboxStep(s, step);
    if step.ProcFinish? {
      OutputFinish(s, step.p);
    } else {
      OutputOther(s, step);
    }
  }

  lemma AnsweredStep<T, O>(s: State<T, O>, step: Step<T, O>, i: nat)
    requires LockInv(s) && HistoryInv(s) && OutputInv(s) && Enabled(s, step) && i < |s.finished|
    requires step.CallerTest? || step.CallerSpawn? ==> step.c !in s.finished
    requires step.ProcFinish? ==> s.processors[step.p].job !in s.finished
    ensures var s' := Apply(s, step);
      InRange(s.closures, s.finished) &&
      Answered(s'.phases, s'.outbox, s.finished[i], SerialOutput(s.closures, s.start, s.finished, i))
  {
    FinishedInRange(s);
    var c := s.finished[i];
    assert AnsweredAt(s, i);
    assert c in s.pushed by { assert s.pushed[i] == c; }
  }

  lemma StepInv<T, O>(s: State<T, O>, step: Step<T, O>)
    requires Inv(s) && Enabled(s, step)
    ensures Inv(Apply(s, step))
  {
    FlagStep(s, step);
    TailStep(s, step);
    ContextStep(s, step);
    OutputStep(s, step);
  }

  /** Safety over whole runs: the invariant holds after every interleaving of any number of callers. */
  lemma {:induction false} RunInv<T, O>(s: State<T, O>, steps: seq<Step<T, O>>)
    requires Inv(s) && CanRun(s, steps)
    ensures Inv(Run(s, steps))
    decreases |steps|
  {
    if steps != [] {
      StepInv(s, steps[0]);
      RunInv(Apply(s, steps[0]), steps[1..]);
    }
  }

  // ----- what every run guarantees

  /** First-in first-out, exactly once, one at a time, and serially equivalent: the history of pushes is
      what finished, then what is running, then what is queued; and the context is the one the finished
      jobs leave when run alone in push order, advanced by what the running job has done so far. */
  lemma SerialExecution<T, O>(context: T, steps: seq<Step<T, O>>)
    requires CanRun(Init<T, O>(context), steps)
    ensures var s := Run(Init<T, O>(context), steps);
      && s.pushed == s.finished + Running(s) + s.queue
      && |Running(s)| <= 1
      && Distinct(s.pushed)
      && InRange(s.closures, s.finished)
      && (s.writer == None ==> s.ctx == Serial(s.closures, context, s.finished))
      && (s.writer.Some? ==>
            exists j: nat, n: nat :: Running(s) == [j] && j < |s.closures| && n <= |s.closures[j].body| &&
              s.ctx == RunBody(s.closures[j].body[..n], Serial(s.closures, context, s.finished)))
  {
    InitInv<T, O>(context);
    RunInv(Init<T, O>(context), steps);
    StartKept(Init<T, O>(context), steps);
    var s := Run(Init<T, O>(context), steps);
    FinishedInRange(s);
    if s.writer.Some? {
      var st := s.processors[s.lock.p];
      assert Running(s) == [st.job];
    }
  }

  lemma {:induction false} StartKept<T, O>(s: State<T, O>, steps: seq<Step<T, O>>)
    requires CanRun(s, steps)
    ensures Run(s, steps).start == s.start
    decreases |steps|
  {
    if steps != [] {
      StartKept(Apply(s, steps[0]), steps[1..]);
    }
  }

  /** No lost wake-up: whenever the mutex is free, the flag is set exactly when one processor is live,
      there is never a second one, and a clear flag means an empty queue. */
  lemma NoLostWakeup<T, O>(context: T, steps: seq<Step<T, O>>)
    requires CanRun(Init<T, O>(context), steps)
    ensures var s := Run(Init<T, O>(context), steps);
      && (s.lock == Free ==>
            && (s.flag <==> exists p :: Live(s, p))
            && (!s.flag ==> s.queue == []))
      && (forall p, q :: Live(s, p) && Live(s, q) ==> p == q)
  {
    InitInv<T, O>(context);
    RunInv(Init<T, O>(context), steps);
  }

  lemma OwnOutputAt<T, O>(s: State<T, O>, c: nat)
    requires HistoryInv(s) && OutputInv(s) && c < |s.phases| && s.phases[c].Received?
    ensures exists i ::
      0 <= i < |s.pushed| && s.pushed[i] == c && s.phases[c].output == SerialOutput(s.closures, s.start, s.pushed, i)
  {
    FinishedInRange(s);
    var i :| 0 <= i < |s.finished| && s.finished[i] == c;
    assert s.pushed[i] == c;
    assert s.pushed[..i + 1] == s.finished[..i + 1];
    assert AnsweredAt(s, i);
  }

  /** A caller that was given a value was given its own closure's output at its place in push order. */
  lemma OwnOutput<T, O>(context: T, steps: seq<Step<T, O>>, c: nat)
    requires CanRun(Init<T, O>(context), steps)
    requires var s := Run(Init<T, O>(context), steps); c < |s.phases| && s.phases[c].Received?
    ensures var s := Run(Init<T, O>(context), steps);
      InRange(s.closures, s.pushed) &&
      exists i :: 0 <= i < |s.pushed| && s.pushed[i] == c &&
        s.phases[c].output == SerialOutput(s.closures, context, s.pushed, i)
  {
    InitInv<T, O>(context);
    RunInv(Init<T, O>(context), steps);
    StartKept(Init<T, O>(context), steps);
    OwnOutputAt(Run(Init<T, O>(context), steps), c);
  }

  // ----- progress

  function JobCost<T, O>(closure: Closure<T, O>): nat { |closure.body| + 5 }

  function PhaseCost<T, O>(closure: Closure<T, O>, ph: Phase<O>): nat {
    match ph
    case WantsLock => 8 + JobCost(closure)
    case HoldsLock => 7 + JobCost(closure)
    case Enqueued => 6
    case FlagStored => 5
    case Listening => 1
    case _ => 0
  }

  ghost function StageCost<T, O>(closures: seq<Closure<T, O>>, st: Stage): nat {
    match st
    case WantsQueue => 3
    case Inspecting => 2
    case FlagCleared => 1
    case Popped(j) => if j < |closures| then |closures[j].body| + 6 else 0
    case Executing(j, at) => if j < |closures| && at <= |closures[j].body| then |closures[j].body| - at + 5 else 0
    case Sent => 4
    case Exited => 0
  }

  ghost function PhaseCosts<T, O>(s: State<T, O>): seq<nat>
    requires |s.phases| == |s.closures|
  {
    seq(|s.phases|, i requires 0 <= i < |s.phases| => PhaseCost(s.closures[i], s.phases[i]))
  }

  ghost function StageCosts<T, O>(s: State<T, O>): seq<nat> {
    seq(|s.processors|, i requires 0 <= i < |s.processors| => StageCost(s.closures, s.processors[i]))
  }

  ghost function QueueCosts<T, O>(s: State<T, O>): seq<nat>
    requires InRange(s.closures, s.queue)
  {
    seq(|s.queue|, i requires 0 <= i < |s.queue| => JobCost(s.closures[s.queue[i]]))
  }

  /** How many steps are left at most if no further caller arrives. */
  ghost function Measure<T, O>(s: State<T, O>): nat
    requires |s.phases| == |s.closures| && InRange(s.closures, s.queue)
  {
    Sum(PhaseCosts(s)) + Sum(StageCosts(s)) + Sum(QueueCosts(s))
  }

  /** Every step but the arrival of a caller lowers the measure; an arrival adds what that caller costs. */
  lemma MeasureStep<T, O>(s: State<T, O>, step: Step<T, O>)
    requires Inv(s) && Enabled(s, step)
    ensures Inv(Apply(s, step))
    ensures InRange(s.closures, s.queue) && InRange(Apply(s, step).closures, Apply(s, step).queue)
    ensures !step.Arrive? ==> Measure(Apply(s, step)) < Measure(s)
    ensures step.Arrive? ==> Measure(Apply(s, step)) == Measure(s) + 8 + JobCost(step.closure)
  {
    StepInv(s, step);
    FinishedInRange(s);
    FinishedInRange(Apply(s, step));
    if step.Arrive? {
      MeasureArrive(s, step.closure);
    } else if step.CallerLock? || step.CallerPush? || step.CallerTest? || step.CallerSpawn?
           || step.CallerReceive? || step.CallerDrop? {
      MeasureCaller(s, step, step.c);
    } else {
      if step.ProcWrite? {
        assert ProcHolds(s.processors[step.p]);
        assert Running(s)[0] == s.processors[step.p].job;
      }
      MeasureProcessor(s, step, step.p);
    }
  }

  /** What a processor still has to do does not depend on callers that arrive later. */
  lemma StagesKept<T, O>(s: State<T, O>, more: seq<Closure<T, O>>, p: nat)
    requires LockInv(s) && HistoryInv(s) && p < |s.processors| && s.closures <= more
    ensures StageCost(more, s.processors[p]) == StageCost(s.closures, s.processors[p])
  {
    FinishedInRange(s);
    if s.processors[p].Popped? || s.processors[p].Executing? {
      assert ProcHolds(s.processors[p]);
      assert Running(s)[0] == s.processors[p].job;
    }
  }

  lemma MeasureArrive<T, O>(s: State<T, O>, closure: Closure<T, O>)
    requires LockInv(s) && HistoryInv(s) && InRange(s.closures, s.queue)
    ensures var s' := Apply(s, Arrive(closure));
      InRange(s'.closures, s'.queue) && Measure(s') == Measure(s) + 8 + JobCost(closure)
  {
    var s' := Apply(s, Arrive(closure));
    assert PhaseCosts(s') == PhaseCosts(s) + [8 + JobCost(closure)];
    SumAppend(PhaseCosts(s), [8 + JobCost(closure)]);
    assert QueueCosts(s') == QueueCosts(s);
    forall p | 0 <= p < |s.processors|
      ensures StageCosts(s')[p] == StageCosts(s)[p]
    {
      StagesKept(s, s'.closures, p);
    }
    assert StageCosts(s') == StageCosts(s);
  }

  /** A caller's step changes its own phase and may add its job to the queue or a processor. */
  lemma CallerShape<T, O>(s: State<T, O>, step: Step<T, O>, c: nat)
    requires Enabled(s, step) && CallerStep(step, c)
    ensures var s' := Apply(s, step);
      && s'.closures == s.closures && c < |s.phases| && s'.phases == s.phases[c := s'.phases[c]]
      && s'.queue == s.queue + (if step.CallerPush? then [c] else [])
      && s'.processors == s.processors + (if step.CallerSpawn? then [WantsQueue] else [])
      && PhaseCost(s.closures[c], s'.phases[c])
         + (if step.CallerPush? then JobCost(s.closures[c]) else 0) + (if step.CallerSpawn? then 3 else 0)
         < PhaseCost(s.closures[c], s.phases[c])
  {}

  lemma MeasureGrowth<T, O>(s: State<T, O>, s': State<T, O>, c: nat, pushes: bool, spawns: bool)
    requires |s.phases| == |s.closures| && InRange(s.closures, s.queue) && InRange(s'.closures, s'.queue)
    requires s'.closures == s.closures && c < |s.phases| == |s'.phases| && s'.phases == s.phases[c := s'.phases[c]]
    requires s'.queue == s.queue + (if pushes then [c] else [])
    requires s'.processors == s.processors + (if spawns then [WantsQueue] else [])
    ensures Measure(s') == Measure(s) - PhaseCost(s.closures[c], s.phases[c]) + PhaseCost(s.closures[c], s'.phases[c])
      + (if pushes then JobCost(s.closures[c]) else 0) + (if spawns then 3 else 0)
  {
    var cost := PhaseCost(s.closures[c], s'.phases[c]);
    assert PhaseCosts(s') == PhaseCosts(s)[c := cost];
    SumUpdate(PhaseCosts(s), c, cost);
    var queued, staged := if pushes then [JobCost(s.closures[c])] else [], if spawns then [3] else [];
    assert QueueCosts(s') == QueueCosts(s) + queued;
    SumAppend(QueueCosts(s), queued);
    assert StageCosts(s') == StageCosts(s) + staged;
    SumAppend(StageCosts(s), staged);
  }

  lemma MeasureCaller<T, O>(s: State<T, O>, step: Step<T, O>, c: nat)
    requires Enabled(s, step) && InRange(s.closures, s.queue) && CallerStep(step, c)
    requires InRange(Apply(s, step).closures, Apply(s, step).queue)
    ensures Measure(Apply(s, step)) < Measure(s)
  {
    CallerShape(s, step, c);
    MeasureGrowth(s, Apply(s, step), c, step.CallerPush?, step.CallerSpawn?);
  }

  /** A processor step changes its own stage and at most takes the front job off the queue, and what the
      stage gains is less than what the queue loses. */
  lemma ProcessorShape<T, O>(s: State<T, O>, step: Step<T, O>, p: nat)
    requires Enabled(s, step) && InRange(s.closures, s.queue) && ProcStep(step, p)
    requires step.ProcWrite? ==> s.processors[p].job < |s.closures|
    ensures var s' := Apply(s, step);
      && s'.phases == s.phases && s'.closures == s.closures
      && p < |s.processors| && s'.processors == s.processors[p := s'.processors[p]]
      && var before, after := StageCost(s.closures, s.processors[p]), StageCost(s.closures, s'.processors[p]);
         if step.ProcInspect? && s.queue != []
         then s'.queue == s.queue[1..] && after < before + JobCost(s.closures[s.queue[0]])
         else s'.queue == s.queue && after < before
  {}

  lemma MeasureProcessor<T, O>(s: State<T, O>, step: Step<T, O>, p: nat)
    requires Enabled(s, step) && InRange(s.closures, s.queue) && ProcStep(step, p)
    requires step.ProcWrite? ==> s.processors[p].job < |s.closures|
    requires InRange(Apply(s, step).closures, Apply(s, step).queue)
    ensures Measure(Apply(s, step)) < Measure(s)
  {
    ProcessorShape(s, step, p);
    MeasureShape(s, Apply(s, step), p, step.ProcInspect? && s.queue != []);
  }

  lemma MeasureShape<T, O>(s: State<T, O>, s': State<T, O>, p: nat, pops: bool)
    requires |s.phases| == |s.closures| && InRange(s.closures, s.queue) && InRange(s'.closures, s'.queue)
    requires s'.phases == s.phases && s'.closures == s.closures
    requires p < |s.processors| == |s'.processors| && s'.processors == s.processors[p := s'.processors[p]]
    requires pops ==> s.queue != []
    requires var before, after := StageCost(s.closures, s.processors[p]), StageCost(s.closures, s'.processors[p]);
      if pops then s'.queue == s.queue[1..] && after < before + JobCost(s.closures[s.queue[0]])
      else s'.queue == s.queue && after < before
    ensures Measure(s') < Measure(s)
  {
    var cost := StageCost(s.closures, s'.processors[p]);
    assert PhaseCosts(s') == PhaseCosts(s);
    assert StageCosts(s') == StageCosts(s)[p := cost];
    SumUpdate(StageCosts(s), p, cost);
    if pops {
      assert QueueCosts(s) == [JobCost(s.closures[s.queue[0]])] + QueueCosts(s');
      SumAppend([JobCost(s.closures[s.queue[0]])], QueueCosts(s'));
    } else {
      assert QueueCosts(s') == QueueCosts(s);
    }
  }

  ghost function ArrivalCosts<T, O>(closures: seq<Closure<T, O>>): seq<nat> {
    seq(|closures|, i requires 0 <= i < |closures| => 9 + JobCost(closures[i]))
  }

  /** Termination for any number of callers: however the steps interleave, a run is never longer than the
      total cost of the callers that arrived in it. */
  lemma RunLength<T, O>(context: T, steps: seq<Step<T, O>>)
    requires CanRun(Init<T, O>(context), steps)
    ensures |steps| <= Sum(ArrivalCosts(Run(Init<T, O>(context), steps).closures))
  {
    InitInv<T, O>(context);
    RunLengthFrom(Init<T, O>(context), steps);
  }

  lemma ArrivalSum<T, O>(closures: seq<Closure<T, O>>, closure: Closure<T, O>)
    ensures Sum(ArrivalCosts(closures + [closure])) == Sum(ArrivalCosts(closures)) + 9 + JobCost(closure)
  {
    assert ArrivalCosts(closures + [closure]) == ArrivalCosts(closures) + [9 + JobCost(closure)];
    SumAppend(ArrivalCosts(closures), [9 + JobCost(closure)]);
  }

  lemma ClosuresStep<T, O>(s: State<T, O>, step: Step<T, O>)
    requires Enabled(s, step)
    ensures Apply(s, step).closures == if step.Arrive? then s.closures + [step.closure] else s.closures
  {}

  lemma StepLength<T, O>(s: State<T, O>, step: Step<T, O>)
    requires Inv(s) && Enabled(s, step)
    ensures Inv(Apply(s, step))
    ensures InRange(s.closures, s.queue) && InRange(Apply(s, step).closures, Apply(s, step).queue)
    ensures 1 + Measure(Apply(s, step)) + Sum(ArrivalCosts(s.closures))
            <= Measure(s) + Sum(ArrivalCosts(Apply(s, step).closures))
  {
    MeasureStep(s, step);
    ClosuresStep(s, step);
    if step.Arrive? {
      ArrivalSum(s.closures, step.closure);
    }
  }

  lemma {:induction false} RunLengthFrom<T, O>(s: State<T, O>, steps: seq<Step<T, O>>)
    requires Inv(s) && InRange(s.closures, s.queue) && CanRun(s, steps)
    ensures |steps| + Sum(ArrivalCosts(s.closures)) <= Measure(s) + Sum(ArrivalCosts(Run(s, steps).closures))
    decreases |steps|
  {
    if steps != [] {
      StepLength(s, steps[0]);
      RunLengthFrom(Apply(s, steps[0]), steps[1..]);
    }
  }

  // ----- where runs end

  /** Nothing the executor has to do is enabled; arrivals and dropped receivers are the environment's. */
  ghost predicate Terminal<T, O>(s: State<T, O>) {
    && (forall c: nat ::
          && !Enabled(s, CallerLock(c)) && !Enabled(s, CallerPush(c)) && !Enabled(s, CallerTest(c))
          && !Enabled(s, CallerSpawn(c)) && !Enabled(s, CallerReceive(c)))
    && (forall p: nat ::
          && !Enabled(s, ProcLock(p)) && !Enabled(s, ProcInspect(p)) && !Enabled(s, ProcExit(p))
          && !Enabled(s, ProcWrite(p)) && !Enabled(s, ProcAct(p)) && !Enabled(s, ProcFinish(p))
          && !Enabled(s, ProcUnlock(p)))
  }

  ghost predicate Final<T, O>(s: State<T, O>) {
    && (forall c :: 0 <= c < |s.phases| ==>
          s.phases[c].Received? || s.phases[c].Cancelled? || s.phases[c].Dropped?)
    && s.queue == []
    && (forall p :: !Live(s, p))
  }

  predicate Reenters<T, O>(closure: Closure<T, O>, upTo: nat)
    requires upTo <= |closure.body|
  {
    exists i :: 0 <= i < upTo && closure.body[i].Reenter?
  }

  /** The running job has called back into the queue that runs it. */
  ghost predicate Blocked<T, O>(s: State<T, O>) {
    && s.lock.ByProcessor? && s.lock.p < |s.processors| && s.processors[s.lock.p].Executing?
    && var st := s.processors[s.lock.p];
       && st.job < |s.closures| && st.at < |s.closures[st.job].body|
       && s.closures[st.job].body[st.at].Reenter?
  }

  /** Whoever holds the mutex can move, unless it is a job calling back into this queue. */
  lemma HolderMoves<T, O>(s: State<T, O>)
    requires LockInv(s) && HistoryInv(s) && ContextInv(s) && s.lock != Free && !Blocked(s)
    ensures !Terminal(s)
  {
    if s.lock.ByCaller? {
      var c := s.lock.c;
      assert CallerHolds(s.phases[c]);
      assert Enabled(s, CallerPush(c)) || Enabled(s, CallerTest(c)) || Enabled(s, CallerSpawn(c));
    } else {
      var p := s.lock.p;
      assert ProcHolds(s.processors[p]);
      assert Enabled(s, ProcInspect(p)) || Enabled(s, ProcExit(p)) || Enabled(s, ProcWrite(p))
          || Enabled(s, ProcAct(p)) || Enabled(s, ProcFinish(p)) || Enabled(s, ProcUnlock(p));
    }
  }

  /** A listening caller whose job has left the queue has been answered. */
  lemma ListenerAnswered<T, O>(s: State<T, O>, c: nat)
    requires HistoryInv(s) && OutputInv(s) && s.pushed == s.finished && PhaseIs(s, c, Listening)
    ensures Enabled(s, CallerReceive(c))
  {
    FinishedInRange(s);
    assert HasPushed(s.phases[c]);
    var i :| 0 <= i < |s.finished| && s.finished[i] == c;
    assert AnsweredAt(s, i);
  }

  /** With the mutex free, whoever is not done can move: a live processor or a waiting caller can lock
      it, and without a live processor nothing is queued, so a listening caller has been answered. */
  lemma FreeMoves<T, O>(s: State<T, O>)
    requires LockInv(s) && FlagInv(s) && HistoryInv(s) && OutputInv(s) && s.lock == Free && !Final(s)
    ensures !Terminal(s)
  {
    if p: nat :| Live(s, p) {
      assert !ProcHolds(s.processors[p]);
      assert Enabled(s, ProcLock(p));
    } else {
      assert s.queue == [] && s.pushed == s.finished;
      var c :| 0 <= c < |s.phases| && !(s.phases[c].Received? || s.phases[c].Cancelled? || s.phases[c].Dropped?);
      assert !CallerHolds(s.phases[c]);
      if s.phases[c].WantsLock? {
        assert Enabled(s, CallerLock(c));
      } else {
        ListenerAnswered(s, c);
      }
    }
  }

  lemma Progress<T, O>(s: State<T, O>)
    requires Inv(s) && Terminal(s)
    ensures Final(s) || Blocked(s)
  {
    if !Final(s) && !Blocked(s) {
      if s.lock == Free {
        FreeMoves(s);
      } else {
        HolderMoves(s);
      }
    }
  }

  /** No job gets past a call back into its own queue. */
  ghost predicate NoReenterInv<T, O>(s: State<T, O>) {
    && (forall i :: 0 <= i < |s.finished| ==>
          s.finished[i] < |s.closures| && !Reenters(s.closures[s.finished[i]], |s.closures[s.finished[i]].body|))
    && (forall p :: 0 <= p < |s.processors| && s.processors[p].Executing? ==>
          var st := s.processors[p];
          st.job < |s.closures| && st.at <= |s.closures[st.job].body| && !Reenters(s.closures[st.job], st.at))
  }

  /** Job j has got as far as `at` without calling back. */
  ghost predicate Passed<T, O>(s: State<T, O>, j: nat, at: nat) {
    j < |s.closures| && at <= |s.closures[j].body| && !Reenters(s.closures[j], at)
  }

  lemma NoReenterStage<T, O>(s: State<T, O>, step: Step<T, O>, p: nat)
    requires LockInv(s) && HistoryInv(s) && NoReenterInv(s) && Enabled(s, step)
    requires p < |Apply(s, step).processors| && Apply(s, step).processors[p].Executing?
    ensures var st := Apply(s, step).processors[p]; Passed(Apply(s, step), st.job, st.at)
  {
    ClosuresStep(s, step);
    if step == ProcAct(p) {
      ReenterDisabled(s, p);
    } else if step == ProcWrite(p) {
      FinishedInRange(s);
      assert ProcHolds(s.processors[p]);
      assert Running(s)[0] == s.processors[p].job;
    }
  }

  lemma NoReenterStep<T, O>(s: State<T, O>, step: Step<T, O>)
    requires LockInv(s) && HistoryInv(s) && NoReenterInv(s) && Enabled(s, step)
    ensures NoReenterInv(Apply(s, step))
  {
    var s' := Apply(s, step);
    ClosuresStep(s, step);
    FinishedStep(s, step);
    forall p | 0 <= p < |s'.processors| && s'.processors[p].Executing?
      ensures Passed(s', s'.processors[p].job, s'.processors[p].at)
    {
      NoReenterStage(s, step, p);
    }
    forall i | 0 <= i < |s'.finished|
      ensures s'.finished[i] < |s'.closures| && Passed(s', s'.finished[i], |s'.closures[s'.finished[i]].body|)
    {
      if i < |s.finished| {
        assert s'.finished[i] == s.finished[i];
      }
    }
  }

  lemma {:induction false} NoReenterRun<T, O>(s: State<T, O>, steps: seq<Step<T, O>>)
    requires Inv(s) && NoReenterInv(s) && CanRun(s, steps)
    ensures NoReenterInv(Run(s, steps))
    decreases |steps|
  {
    if steps != [] {
      StepInv(s, steps[0]);
      NoReenterStep(s, steps[0]);
      NoReenterRun(Apply(s, steps[0]), steps[1..]);
    }
  }

  lemma NoReenterReached<T, O>(context: T, steps: seq<Step<T, O>>)
    requires CanRun(Init<T, O>(context), steps)
    ensures Inv(Run(Init<T, O>(context), steps)) && NoReenterInv(Run(Init<T, O>(context), steps))
  {
    InitInv<T, O>(context);
    RunInv(Init<T, O>(context), steps);
    NoReenterRun(Init<T, O>(context), steps);
  }

  lemma Ending<T, O>(s: State<T, O>)
    requires Inv(s) && NoReenterInv(s) && Terminal(s)
    ensures Final(s) <==>
      forall i :: 0 <= i < |s.pushed| ==> !Reenters(s.closures[s.pushed[i]], |s.closures[s.pushed[i]].body|)
  {
    Progress(s);
    FinalIff(s);
  }

  lemma FinalIff<T, O>(s: State<T, O>)
    requires LockInv(s) && HistoryInv(s) && NoReenterInv(s) && (Final(s) || Blocked(s))
    ensures Final(s) <==>
      forall i :: 0 <= i < |s.pushed| ==> !Reenters(s.closures[s.pushed[i]], |s.closures[s.pushed[i]].body|)
  {
    if Final(s) {
      assert s.lock.ByProcessor? ==> !Live(s, s.lock.p);
      assert s.pushed == s.finished;
    } else {
      var st, n := s.processors[s.lock.p], |s.finished|;
      assert Running(s) == [st.job];
      assert s.pushed[n] == st.job;
    }
  }

  /** Where a run that can do no more has ended: with everybody served exactly when no pushed job calls
      back into its own queue.  (Together with RunLength, every run can only be continued finitely often.) */
  lemma Completion<T, O>(context: T, steps: seq<Step<T, O>>)
    requires CanRun(Init<T, O>(context), steps)
    requires Terminal(Run(Init<T, O>(context), steps))
    ensures var s := Run(Init<T, O>(context), steps);
      InRange(s.closures, s.pushed) &&
      (Final(s) <==>
         forall i :: 0 <= i < |s.pushed| ==> !Reenters(s.closures[s.pushed[i]], |s.closures[s.pushed[i]].body|))
  {
    NoReenterReached(context, steps);
    Ending(Run(Init<T, O>(context), steps));
  }

  lemma FinalAnswersAt<T, O>(s: State<T, O>)
    requires LockInv(s) && HistoryInv(s) && ContextInv(s) && OutputInv(s) && Final(s)
    ensures s.finished == s.pushed && s.ctx == Serial(s.closures, s.start, s.pushed)
    ensures forall i :: 0 <= i < |s.pushed| ==>
      s.phases[s.pushed[i]] == Dropped ||
      s.phases[s.pushed[i]] == Received(SerialOutput(s.closures, s.start, s.pushed, i))
  {
    FinishedInRange(s);
    assert s.lock.ByProcessor? ==> !Live(s, s.lock.p);
    assert s.pushed == s.finished;
    forall i | 0 <= i < |s.pushed|
      ensures s.phases[s.pushed[i]] == Dropped ||
              s.phases[s.pushed[i]] == Received(SerialOutput(s.closures, s.start, s.pushed, i))
    {
      assert HasPushed(s.phases[s.pushed[i]]);
      assert AnsweredAt(s, i);
    }
  }

  /** What a final state holds: every pushed job ran exactly once, in push order, and every caller that
      neither gave up nor stopped listening has its own closure's output, whatever the others did. */
  lemma FinalAnswers<T, O>(context: T, steps: seq<Step<T, O>>)
    requires CanRun(Init<T, O>(context), steps)
    requires Final(Run(Init<T, O>(context), steps))
    ensures var s := Run(Init<T, O>(context), steps);
      && s.finished == s.pushed && Distinct(s.finished)
      && InRange(s.closures, s.pushed) && |s.phases| == |s.closures|
      && s.ctx == Serial(s.closures, context, s.pushed)
      && (forall i :: 0 <= i < |s.pushed| ==>
            s.phases[s.pushed[i]] == Dropped ||
            s.phases[s.pushed[i]] == Received(SerialOutput(s.closures, context, s.pushed, i)))
      && (forall c :: 0 <= c < |s.phases| && c !in s.pushed ==> s.phases[c] == Cancelled)
  {
    InitInv<T, O>(context);
    RunInv(Init<T, O>(context), steps);
    StartKept(Init<T, O>(context), steps);
    FinalAnswersAt(Run(Init<T, O>(context), steps));
  }

  lemma BlockedStep<T, O>(s: State<T, O>, step: Step<T, O>)
    requires LockInv(s) && FlagInv(s) && Blocked(s) && Enabled(s, step)
    ensures var t := Apply(s, step);
      && Blocked(t) && t.lock == s.lock && t.processors == s.processors
      && t.queue == s.queue && t.pushed == s.pushed && t.finished == s.finished && t.ctx == s.ctx
  {
    if step.ProcAct? {
      ReenterDisabled(s, step.p);
    }
    assert forall p :: Live(s, p) ==> p == s.lock.p by { assert Live(s, s.lock.p); }
    assert forall p :: ProcStep(step, p) ==> Live(s, p);
  }

  /** A job that schedules onto its own queue stops that queue for good: in every continuation the mutex
      stays taken, nothing else starts or finishes, and the context stays as it is. */
  lemma {:induction false} BlockedForever<T, O>(s: State<T, O>, steps: seq<Step<T, O>>)
    requires Inv(s) && Blocked(s) && CanRun(s, steps)
    ensures var t := Run(s, steps);
      && Blocked(t) && t.lock == s.lock && t.processors == s.processors
      && t.queue == s.queue && t.pushed == s.pushed && t.finished == s.finished && t.ctx == s.ctx
    decreases |steps|
  {
    if steps != [] {
      StepInv(s, steps[0]);
      BlockedStep(s, steps[0]);
      BlockedForever(Apply(s, steps[0]), steps[1..]);
    }
  }
}
