/**
 The queue as an object that its functions update in place.  Each method is one of the source's
 functions running without being interrupted; what it computes is given as a function on states, and
 that function is proved to be one of the runs that module ContextQueue quantifies over.
 */
module Executor {
  import opened Sequences
  import opened ContextQueue

  // ----- what push_future and process_queue do when nobody interrupts them

  ghost predicate CanPush<T, O>(s: State<T, O>, c: nat) {
    |s.phases| == |s.closures| && s.lock == Free && c < |s.phases| && s.phases[c].WantsLock?
  }

  ghost function AfterPush<T, O>(s: State<T, O>, c: nat): State<T, O>
    requires CanPush(s, c)
  {
    s.(queue := s.queue + [c], pushed := s.pushed + [c], phases := s.phases[c := Listening], flag := true,
       processors := if s.flag then s.processors else s.processors + [WantsQueue])
  }

  /** How far a job gets: to its end, or to where it calls back into the queue that runs it. */
  function Reach<T>(body: seq<Action<T>>, at: nat): (r: nat)
    requires at <= |body|
    ensures at <= r <= |body| && (r < |body| ==> body[r].Reenter?)
    ensures forall i :: at <= i < r ==> body[i].Update?
    decreases |body| - at
  {
    if at == |body| || body[at].Reenter? then at else Reach(body, at + 1)
  }

  predicate Stuck<T, O>(closure: Closure<T, O>) { Reach(closure.body, 0) < |closure.body| }

  lemma StuckIff<T, O>(closure: Closure<T, O>)
    ensures Stuck(closure) <==> Reenters(closure, |closure.body|)
  {
    if Stuck(closure) {
      assert closure.body[Reach(closure.body, 0)].Reenter?;
    }
  }

  ghost predicate CanAwait<T, O>(s: State<T, O>, p: nat, j: nat) {
    && |s.phases| == |s.closures| && s.writer == None
    && p < |s.processors| && s.processors[p] == Popped(j) && j < |s.closures|
  }

  /** The state in which job j of processor p has taken its first `at` actions. */
  ghost function Midway<T, O>(s: State<T, O>, p: nat, j: nat, at: nat): State<T, O>
    requires CanAwait(s, p, j) && at <= |s.closures[j].body|
  {
    s.(writer := Some(p), ctx := RunBody(s.closures[j].body[..at], s.ctx),
       processors := s.processors[p := Executing(j, at)])
  }

  ghost function AfterAwait<T, O>(s: State<T, O>, p: nat, j: nat): State<T, O>
    requires CanAwait(s, p, j)
  {
    if Stuck(s.closures[j]) then Midway(s, p, j, Reach(s.closures[j].body, 0))
    else
      var ctx := RunBody(s.closures[j].body, s.ctx);
      s.(ctx := ctx, finished := s.finished + [j], processors := s.processors[p := Sent],
         outbox := if s.phases[j].Listening? then s.outbox[j := s.closures[j].result(ctx)] else s.outbox)
  }

  ghost predicate CanProcess<T, O>(s: State<T, O>, p: nat) {
    && |s.phases| == |s.closures| && s.writer == None && s.lock == Free
    && p < |s.processors| && s.processors[p] == WantsQueue
    && InRange(s.closures, s.queue)
  }

  ghost function AfterPop<T, O>(s: State<T, O>, p: nat): State<T, O>
    requires CanProcess(s, p) && s.queue != []
  {
    s.(lock := ByProcessor(p), queue := s.queue[1..], processors := s.processors[p := Popped(s.queue[0])])
  }

  /** The front job never comes back from its await. */
  ghost predicate FrontStuck<T, O>(s: State<T, O>)
    requires InRange(s.closures, s.queue) && s.queue != []
  {
    Stuck(s.closures[s.queue[0]])
  }

  /** One turn of the processing loop; it keeps the mutex for good if the job gets stuck. */
  ghost function AfterTurn<T, O>(s: State<T, O>, p: nat): State<T, O>
    requires CanProcess(s, p) && s.queue != []
  {
    var s1 := AfterAwait(AfterPop(s, p), p, s.queue[0]);
    if FrontStuck(s) then s1 else s1.(lock := Free, processors := s1.processors[p := WantsQueue])
  }

  ghost function AfterProcess<T, O>(s: State<T, O>, p: nat): State<T, O>
    requires CanProcess(s, p)
    decreases |s.queue|
  {
    if s.queue == [] then s.(flag := false, processors := s.processors[p := Exited])
    else if FrontStuck(s) then AfterTurn(s, p)
    else AfterProcess(AfterTurn(s, p), p)
  }

  // ----- each of them is a run

  lemma RunOne<T, O>(s: State<T, O>, step: Step<T, O>)
    requires Enabled(s, step)
    ensures CanRun(s, [step]) && Run(s, [step]) == Apply(s, step)
  {
    assert CanRun(Apply(s, step), []);
  }

  lemma RunCons<T, O>(s: State<T, O>, step: Step<T, O>, s': State<T, O>, more: seq<Step<T, O>>)
    requires Enabled(s, step) && s' == Apply(s, step) && CanRun(s', more)
    ensures CanRun(s, [step] + more) && Run(s, [step] + more) == Run(s', more)
  {
    assert ([step] + more)[1..] == more;
  }

  lemma PushIsRun<T, O>(s: State<T, O>, c: nat) returns (steps: seq<Step<T, O>>)
    requires CanPush(s, c)
    ensures CanRun(s, steps) && Run(s, steps) == AfterPush(s, c)
  {
    var s1 := s.(lock := ByCaller(c), phases := s.phases[c := HoldsLock]);
    var s2 := s1.(queue := s.queue + [c], pushed := s.pushed + [c], phases := s1.phases[c := Enqueued]);
    if s.flag {
      RunOne(s2, CallerTest(c));
      steps := [CallerTest(c)];
    } else {
      var s3 := s2.(flag := true, phases := s2.phases[c := FlagStored]);
      RunOne(s3, CallerSpawn(c));
      RunCons(s2, CallerTest(c), s3, [CallerSpawn(c)]);
      steps := [CallerTest(c)] + [CallerSpawn(c)];
    }
    assert Run(s2, steps) == AfterPush(s, c) by {
      assert s2.phases[c := Listening] == s.phases[c := Listening];
      assert s2.phases[c := FlagStored][c := Listening] == s.phases[c := Listening];
    }
    RunCons(s1, CallerPush(c), s2, steps);
    RunCons(s, CallerLock(c), s1, [CallerPush(c)] + steps);
    steps := [CallerLock(c)] + ([CallerPush(c)] + steps);
  }

  lemma MidwayActs<T, O>(s: State<T, O>, p: nat, j: nat, at: nat)
    requires CanAwait(s, p, j) && at < |s.closures[j].body| && s.closures[j].body[at].Update?
    ensures Enabled(Midway(s, p, j, at), ProcAct(p))
    ensures Apply(Midway(s, p, j, at), ProcAct(p)) == Midway(s, p, j, at + 1)
  {
    var body, m := s.closures[j].body, Midway(s, p, j, at);
    assert body[..at + 1][..at] == body[..at];
    assert m.processors[p := Executing(j, at + 1)] == s.processors[p := Executing(j, at + 1)];
  }

  lemma MidwayFinishes<T, O>(s: State<T, O>, p: nat, j: nat)
    requires CanAwait(s, p, j) && !Stuck(s.closures[j])
    ensures var m := Midway(s, p, j, |s.closures[j].body|);
      Enabled(m, ProcFinish(p)) && Apply(m, ProcFinish(p)) == AfterAwait(s, p, j)
  {
    var body, m := s.closures[j].body, Midway(s, p, j, |s.closures[j].body|);
    assert body[..|body|] == body;
    assert m.processors[p := Sent] == s.processors[p := Sent];
  }

  lemma {:induction false} AwaitFrom<T, O>(s: State<T, O>, p: nat, j: nat, at: nat) returns (steps: seq<Step<T, O>>)
    requires CanAwait(s, p, j) && at <= Reach(s.closures[j].body, 0)
    ensures CanRun(Midway(s, p, j, at), steps) && Run(Midway(s, p, j, at), steps) == AfterAwait(s, p, j)
    decreases Reach(s.closures[j].body, 0) - at
  {
    var body, m := s.closures[j].body, Midway(s, p, j, at);
    if at == |body| {
      MidwayFinishes(s, p, j);
      RunOne(m, ProcFinish(p));
      steps := [ProcFinish(p)];
    } else if at == Reach(body, 0) {
      steps := [];
    } else {
      var more := AwaitFrom(s, p, j, at + 1);
      MidwayActs(s, p, j, at);
      RunCons(m, ProcAct(p), Midway(s, p, j, at + 1), more);
      steps := [ProcAct(p)] + more;
    }
  }

  lemma TurnIsRun<T, O>(s: State<T, O>, p: nat) returns (steps: seq<Step<T, O>>)
    requires CanProcess(s, p) && s.queue != []
    ensures CanRun(s, steps) && Run(s, steps) == AfterTurn(s, p)
  {
    var j := s.queue[0];
    var s1 := s.(lock := ByProcessor(p), processors := s.processors[p := Inspecting]);
    var s2 := AfterPop(s, p);
    assert s1.processors[p := Popped(j)] == s2.processors;
    var s3 := Midway(s2, p, j, 0);
    assert s.closures[j].body[..0] == [];
    var more := AwaitFrom(s2, p, j, 0);
    if !FrontStuck(s) {
      RunOne(AfterAwait(s2, p, j), ProcUnlock(p));
      RunJoin(s3, more, [ProcUnlock(p)]);
      more := more + [ProcUnlock(p)];
    }
    assert Run(s3, more) == AfterTurn(s, p);
    RunCons(s2, ProcWrite(p), s3, more);
    RunCons(s1, ProcInspect(p), s2, [ProcWrite(p)] + more);
    RunCons(s, ProcLock(p), s1, [ProcInspect(p)] + ([ProcWrite(p)] + more));
    steps := [ProcLock(p)] + ([ProcInspect(p)] + ([ProcWrite(p)] + more));
  }

  lemma {:induction false} ProcessIsRun<T, O>(s: State<T, O>, p: nat) returns (steps: seq<Step<T, O>>)
    requires CanProcess(s, p)
    ensures CanRun(s, steps) && Run(s, steps) == AfterProcess(s, p)
    decreases |s.queue|
  {
    if s.queue == [] {
      var s1 := s.(lock := ByProcessor(p), processors := s.processors[p := Inspecting]);
      var s2 := s1.(flag := false, processors := s1.processors[p := FlagCleared]);
      RunOne(s2, ProcExit(p));
      RunCons(s1, ProcInspect(p), s2, [ProcExit(p)]);
      RunCons(s, ProcLock(p), s1, [ProcInspect(p)] + [ProcExit(p)]);
      steps := [ProcLock(p)] + ([ProcInspect(p)] + [ProcExit(p)]);
      assert s2.processors[p := Exited] == s.processors[p := Exited];
    } else if FrontStuck(s) {
      steps := TurnIsRun(s, p);
    } else {
      var turn := TurnIsRun(s, p);
      TurnKeeps(s, p);
      var rest := ProcessIsRun(AfterTurn(s, p), p);
      RunJoin(s, turn, rest);
      steps := turn + rest;
    }
  }

  // ----- the object

  class Executor<T, O(==)> {
    var inner: T
    var queue: seq<nat>
    var processorActive: bool

    // callers and processors around the queue and what they hold
    var lock: Lock
    var writer: Option<nat>
    var closures: seq<Closure<T, O>>
    var phases: seq<Phase<O>>
    var processors: seq<Stage>
    var outbox: map<nat, O>
    ghost var start: T
    ghost var pushed: seq<nat>
    ghost var finished: seq<nat>

    ghost function View(): State<T, O>
      reads this
    {
      State(start, inner, writer, lock, processorActive, queue, closures, phases, processors, outbox,
            pushed, finished)
    }

    constructor (context: T)
      ensures View() == Init<T, O>(context)
    {
      inner, queue, processorActive := context, [], false;
      lock, writer, closures, phases, processors, outbox := Free, None, [], [], [], map[];
      start, pushed, finished := context, [], [];
    }

    /** The critical section of push_future. */
    method PushFuture(c: nat)
      requires CanPush(View(), c)
      modifies this
      ensures View() == AfterPush(old(View()), c)
    {
      lock, phases := ByCaller(c), phases[c := HoldsLock];
      queue, pushed, phases := queue + [c], pushed + [c], phases[c := Enqueued];
      if !processorActive {
        processorActive, phases := true, phases[c := FlagStored];
        processors := processors + [WantsQueue];
      }
      lock, phases := Free, phases[c := Listening];
    }

    /** `fut.await`: the popped job takes the write lock, runs its closure and sends the result.  Where the
        job calls back into its own queue the await never returns; the method then says `blocked`. */
    method Await(p: nat, job: nat) returns (blocked: bool)
      requires CanAwait(View(), p, job)
      modifies this
      ensures View() == AfterAwait(old(View()), p, job)
      ensures blocked <==> Reenters(old(closures)[job], |old(closures)[job].body|)
    {
      StuckIff(closures[job]);
      var body := closures[job].body;
      writer := Some(p);
      assert body[..0] == [];
      var at := 0;
      while at < |body|
        invariant at <= |body| && Reach(body, at) == Reach(body, 0)
        invariant View() == old(View()).(ctx := RunBody(body[..at], old(inner)), writer := Some(p))
      {
        if body[at].Reenter? {
          processors := processors[p := Executing(job, at)];
          return true;
        }
        assert body[..at + 1][..at] == body[..at];
        inner := body[at].f(inner);
        at := at + 1;
      }
      assert body[..|body|] == body;
      Send(p, job);
      blocked := false;
    }

    /** The end of the boxed future: the guard is dropped and the result goes to a receiver still there. */
    method Send(p: nat, job: nat)
      requires p < |processors| && job < |phases| && |phases| == |closures|
      modifies this
      ensures var s := old(View());
        View() == s.(writer := None, finished := s.finished + [job], processors := s.processors[p := Sent],
                     outbox := if s.phases[job].Listening? then s.outbox[job := s.closures[job].result(s.ctx)] else s.outbox)
    {
      if phases[job].Listening? {
        outbox := outbox[job := closures[job].result(inner)];
      }
      writer, finished, processors := None, finished + [job], processors[p := Sent];
    }

    /** One turn of the loop of process_queue, for a queue that is not empty. */
    method Turn(p: nat) returns (blocked: bool)
      requires CanProcess(View(), p) && queue != []
      modifies this
      ensures View() == AfterTurn(old(View()), p)
      ensures blocked <==> old(FrontStuck(View()))
    {
      lock := ByProcessor(p);
      var job := queue[0];
      StuckIff(closures[job]);
      queue, processors := queue[1..], processors[p := Popped(job)];
      assert View() == AfterPop(old(View()), p);
      blocked := Await(p, job);
      if !blocked {
        lock, processors := Free, processors[p := WantsQueue];
      }
    }

    /** process_queue: pops and awaits one job at a time until the queue is empty, then clears the flag. */
    method ProcessQueue(p: nat) returns (blocked: bool)
      requires CanProcess(View(), p)
      modifies this
      ensures View() == AfterProcess(old(View()), p)
      ensures blocked <==> !Passes(old(closures), old(queue))
    {
      while queue != []
        invariant CanProcess(View(), p) && AfterProcess(View(), p) == AfterProcess(old(View()), p)
        invariant closures == old(closures) && InRange(closures, old(queue))
        invariant Passes(closures, queue) <==> Passes(closures, old(queue))
        decreases |queue|
      {
        TurnKeeps(View(), p);
        PassesFront(closures, queue);
        blocked := Turn(p);
        if blocked {
          return;
        }
      }
      processorActive, processors := false, processors[p := Exited];
      blocked := false;
    }
  }

  /** None of the jobs calls back into the queue. */
  ghost predicate Passes<T, O>(closures: seq<Closure<T, O>>, jobs: seq<nat>)
    requires InRange(closures, jobs)
  {
    forall i :: 0 <= i < |jobs| ==> !Reenters(closures[jobs[i]], |closures[jobs[i]].body|)
  }

  lemma PassesFront<T, O>(closures: seq<Closure<T, O>>, jobs: seq<nat>)
    requires InRange(closures, jobs) && jobs != []
    ensures InRange(closures, jobs[1..])
    ensures Passes(closures, jobs) <==> !Stuck(closures[jobs[0]]) && Passes(closures, jobs[1..])
  {
    StuckIff(closures[jobs[0]]);
    assert forall i :: 1 <= i < |jobs| ==> jobs[i] == jobs[1..][i - 1];
    if Passes(closures, jobs) {
      assert !Reenters(closures[jobs[0]], |closures[jobs[0]].body|);
    }
    if !Stuck(closures[jobs[0]]) && Passes(closures, jobs[1..]) {
      forall i | 0 <= i < |jobs| ensures !Reenters(closures[jobs[i]], |closures[jobs[i]].body|) {
        if i > 0 {
          assert jobs[i] == jobs[1..][i - 1];
        }
      }
    }
  }

  lemma TurnKeeps<T, O>(s: State<T, O>, p: nat)
    requires CanProcess(s, p) && s.queue != []
    ensures AfterTurn(s, p).queue == s.queue[1..] && AfterTurn(s, p).closures == s.closures
    ensures !FrontStuck(s) ==> CanProcess(AfterTurn(s, p), p) && AfterProcess(s, p) == AfterProcess(AfterTurn(s, p), p)
    ensures FrontStuck(s) ==> AfterProcess(s, p) == AfterTurn(s, p)
  {}

  lemma TurnSerial<T, O>(s: State<T, O>, p: nat)
    requires CanProcess(s, p) && s.queue != [] && InRange(s.closures, s.finished) && !FrontStuck(s)
    requires s.ctx == Serial(s.closures, s.start, s.finished)
    ensures var t := AfterTurn(s, p);
      && t.processors == s.processors && t.closures == s.closures && t.start == s.start && t.lock == Free
      && t.finished == s.finished + [s.queue[0]] && InRange(s.closures, t.finished)
      && t.ctx == Serial(s.closures, s.start, t.finished)
  {
    var t := AfterTurn(s, p);
    assert t.finished[..|s.finished|] == s.finished;
    assert AfterAwait(AfterPop(s, p), p, s.queue[0]).processors[p := WantsQueue] == s.processors;
  }

  /** From s to t the processor ran everything that was queued, in order, and left the context the serial
      execution of those jobs would leave. */
  ghost predicate Drained<T, O>(s: State<T, O>, t: State<T, O>, p: nat) {
    && t.queue == [] && !t.flag && t.lock == Free
    && p < |s.processors| && t.processors == s.processors[p := Exited]
    && t.closures == s.closures && t.start == s.start
    && t.finished == s.finished + s.queue && InRange(s.closures, t.finished)
    && t.ctx == Serial(s.closures, s.start, t.finished)
  }

  lemma DrainedAfter<T, O>(s: State<T, O>, mid: State<T, O>, t: State<T, O>, p: nat)
    requires s.queue != [] && mid.queue == s.queue[1..] && mid.finished == s.finished + [s.queue[0]]
    requires mid.processors == s.processors && mid.closures == s.closures && mid.start == s.start
    requires Drained(mid, t, p)
    ensures Drained(s, t, p)
  {
    assert s.finished + s.queue == mid.finished + mid.queue;
  }

  /** From s to t the processor ran the first k queued jobs and is stuck in the next one. */
  ghost predicate StoppedAt<T, O>(s: State<T, O>, t: State<T, O>, p: nat, k: nat)
    requires InRange(s.closures, s.queue)
  {
    && Blocked(t) && t.lock == ByProcessor(p)
    && k < |s.queue| && Passes(s.closures, s.queue[..k]) && Stuck(s.closures[s.queue[k]])
    && t.closures == s.closures && t.start == s.start && t.processors[p].job == s.queue[k]
    && t.finished == s.finished + s.queue[..k] && t.queue == s.queue[k + 1..] && InRange(s.closures, t.finished)
  }

  lemma StoppedAfter<T, O>(s: State<T, O>, mid: State<T, O>, t: State<T, O>, p: nat, k: nat)
    requires InRange(s.closures, s.queue) && s.queue != [] && !FrontStuck(s)
    requires mid.queue == s.queue[1..] && mid.finished == s.finished + [s.queue[0]]
    requires mid.closures == s.closures && mid.start == s.start && InRange(mid.closures, mid.queue)
    requires StoppedAt(mid, t, p, k)
    ensures StoppedAt(s, t, p, k + 1)
  {
    var first := s.queue[..k + 1];
    assert first[1..] == mid.queue[..k] && first[0] == s.queue[0];
    PassesFront(s.closures, first);
    assert s.finished + first == mid.finished + mid.queue[..k];
    assert mid.queue[k + 1..] == s.queue[k + 2..];
  }

  lemma TurnStops<T, O>(s: State<T, O>, p: nat)
    requires CanProcess(s, p) && s.queue != [] && FrontStuck(s) && InRange(s.closures, s.finished)
    ensures StoppedAt(s, AfterTurn(s, p), p, 0)
  {
    assert s.finished + s.queue[..0] == s.finished;
  }

  /** Left alone, the processor drains the queue exactly if no queued job calls back into it; otherwise it
      runs the jobs before the first that does, and hangs in that one with the mutex held. */
  lemma {:induction false} ProcessRunsAll<T, O>(s: State<T, O>, p: nat)
    requires CanProcess(s, p) && InRange(s.closures, s.finished)
    requires s.ctx == Serial(s.closures, s.start, s.finished)
    ensures Passes(s.closures, s.queue) ==> Drained(s, AfterProcess(s, p), p)
    ensures !Passes(s.closures, s.queue) ==> exists k: nat :: StoppedAt(s, AfterProcess(s, p), p, k)
    decreases |s.queue|
  {
    if s.queue != [] {
      PassesFront(s.closures, s.queue);
      TurnKeeps(s, p);
      if FrontStuck(s) {
        TurnStops(s, p);
      } else {
        var mid := AfterTurn(s, p);
        TurnSerial(s, p);
        ProcessRunsAll(mid, p);
        if Passes(s.closures, s.queue) {
          DrainedAfter(s, mid, AfterProcess(s, p), p);
        } else {
          var k: nat :| StoppedAt(mid, AfterProcess(mid, p), p, k);
          StoppedAfter(s, mid, AfterProcess(s, p), p, k);
        }
      }
    }
  }

  /** The queue after its first caller has pushed. */
  ghost function OnePushed<T, O>(context: T, closure: Closure<T, O>): State<T, O> {
    Init<T, O>(context).(closures := [closure], phases := [Listening], queue := [0], pushed := [0], flag := true,
                         processors := [WantsQueue])
  }

  lemma FirstPush<T, O>(context: T, closure: Closure<T, O>) returns (steps: seq<Step<T, O>>)
    ensures CanRun(Init<T, O>(context), steps) && Run(Init<T, O>(context), steps) == OnePushed(context, closure)
  {
    var s0 := Init<T, O>(context);
    var s1 := s0.(closures := [closure], phases := [WantsLock]);
    var push := PushIsRun(s1, 0);
    assert AfterPush(s1, 0) == OnePushed(context, closure);
    RunCons(s0, Arrive(closure), s1, push);
    steps := [Arrive(closure)] + push;
  }

  /** Jobs that block their queue exist: one caller with a closure that calls back is enough. */
  lemma BlockedHappens<T, O>(context: T, closure: Closure<T, O>) returns (steps: seq<Step<T, O>>)
    requires Reenters(closure, |closure.body|)
    ensures CanRun(Init<T, O>(context), steps) && Blocked(Run(Init<T, O>(context), steps))
  {
    var s := OnePushed(context, closure);
    var push := FirstPush(context, closure);
    StuckIff(closure);
    TurnKeeps(s, 0);
    TurnStops(s, 0);
    var process := ProcessIsRun(s, 0);
    RunJoin(Init<T, O>(context), push, process);
    steps := push + process;
  }

  // ----- one call from beginning to end

  ghost predicate Idle<T, O>(s: State<T, O>) {
    |s.phases| == |s.closures| && s.lock == Free && s.writer == None && !s.flag && s.queue == []
  }

  lemma {:induction false} NoArrivals<T, O>(s: State<T, O>, steps: seq<Step<T, O>>)
    requires CanRun(s, steps)
    ensures |s.closures| <= |Run(s, steps).closures|
    ensures |Run(s, steps).closures| == |s.closures| ==> forall i :: 0 <= i < |steps| ==> !steps[i].Arrive?
    decreases |steps|
  {
    if steps != [] {
      ClosuresStep(s, steps[0]);
      NoArrivals(Apply(s, steps[0]), steps[1..]);
      if |Run(s, steps).closures| == |s.closures| {
        forall i | 0 <= i < |steps| ensures !steps[i].Arrive? {
          assert i > 0 ==> steps[i] == steps[1..][i - 1];
        }
      }
    }
  }

  /** Caller c has got its output, and the queue is idle again with the context its closure left. */
  ghost predicate Served<T, O>(s: State<T, O>, t: State<T, O>, c: nat) {
    && c < |s.closures| == |s.phases| && Idle(t) && t.closures == s.closures && t.start == s.start
    && t.ctx == RunBody(s.closures[c].body, s.ctx)
    && t.phases == s.phases[c := Received(s.closures[c].result(t.ctx))]
    && t.pushed == s.pushed + [c] && t.finished == s.finished + [c]
  }

  lemma DrainOne<T, O>(s: State<T, O>, p: nat, c: nat)
    requires CanProcess(s, p) && s.queue == [c] && c < |s.closures| && !Stuck(s.closures[c]) && s.phases[c].Listening?
    ensures var t := AfterProcess(s, p);
      && t.queue == [] && !t.flag && t.lock == Free && t.writer == None
      && t.closures == s.closures && t.phases == s.phases && t.start == s.start
      && t.ctx == RunBody(s.closures[c].body, s.ctx)
      && t.outbox == s.outbox[c := s.closures[c].result(t.ctx)]
      && t.pushed == s.pushed && t.finished == s.finished + [c]
  {
    TurnKeeps(s, p);
    var mid := AfterTurn(s, p);
    assert mid.queue == [];
    assert AfterProcess(mid, p) == mid.(flag := false, processors := mid.processors[p := Exited]);
  }

  /** schedule_and_wait on an idle queue, with nobody else around: the caller receives what its closure makes
      of the context. */
  lemma ServeIsRun<T, O>(s: State<T, O>, c: nat) returns (steps: seq<Step<T, O>>)
    requires Idle(s) && c < |s.phases| && s.phases[c].WantsLock? && !Reenters(s.closures[c], |s.closures[c].body|)
    ensures CanRun(s, steps) && Served(s, Run(s, steps), c)
    ensures forall i :: 0 <= i < |steps| ==> !steps[i].Arrive?
  {
    StuckIff(s.closures[c]);
    var p := |s.processors|;
    var push := PushIsRun(s, c);
    var s1 := AfterPush(s, c);
    assert s1.queue == [c];
    var process := ProcessIsRun(s1, p);
    DrainOne(s1, p, c);
    var s2 := AfterProcess(s1, p);
    RunOne(s2, CallerReceive(c));
    assert s2.phases[c := Received(s2.outbox[c])] == s.phases[c := Received(s2.outbox[c])];
    RunJoin(s1, process, [CallerReceive(c)]);
    RunJoin(s, push, process + [CallerReceive(c)]);
    steps := push + (process + [CallerReceive(c)]);
    NoArrivals(s, steps);
  }
}
