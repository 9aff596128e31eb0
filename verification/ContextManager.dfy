/**
 The manager of context queues: a concurrent map from identifiers to queues, used by any number of
 add_context, change_id and with_context calls.  Each access to the map is a step of its own.  The
 queues themselves run as in module ContextQueue.
 */
module ContextManager {
  import opened Sequences
  import Q = ContextQueue
  import Executor

  datatype ChangeError = OldIdNotFound | NewIdAlreadyExists

  /** A call in progress or finished.  `q` is the index of a queue object. */
  datatype Task<!Id, !T, !O> =
    | Adding(id: Id, q: nat)
    | Added(id: Id, q: nat)
    | AddAborted(id: Id, q: nat)           // its tokio task panicked, see AddContext
    | Renaming(oldId: Id, newId: Id)
    | Moving(oldId: Id, newId: Id, q: nat)    // taken out, not yet inserted under the new id
    | Restoring(oldId: Id, newId: Id, q: nat) // new id taken, not yet put back
    | Renamed(oldId: Id, newId: Id, q: nat)
    | NotRenamed(oldId: Id, newId: Id)        // Err(OldIdNotFound)
    | PutBack(oldId: Id, newId: Id, q: nat)   // Err(NewIdAlreadyExists), queue back under the old id
    | Lost(oldId: Id, newId: Id, q: nat)      // Err(NewIdAlreadyExists), old id taken meanwhile
    | LookingUp(id: Id, closure: Q.Closure<T, O>)
    | Scheduled(id: Id, q: nat, c: nat)
    | NotFound(id: Id)

  datatype State<!Id, !T, !O> = State(
    table: map<Id, nat>,
    queues: seq<Q.State<T, O>>,
    tasks: seq<Task<Id, T, O>>)

  function Init<Id, T, O>(): State<Id, T, O> { State(map[], [], []) }

  datatype Step<!Id, !T, !O> =
    | BeginAdd(id: Id, context: T)
    | Insert(t: nat)
    | BeginRename(oldId: Id, newId: Id)
    | Remove(t: nat)
    | InsertNew(t: nat)
    | Restore(t: nat)
    | BeginWith(id: Id, closure: Q.Closure<T, O>)
    | Lookup(t: nat)
    | QueueStep(q: nat, step: Q.Step<T, O>)

  ghost predicate Enabled<Id, T, O>(s: State<Id, T, O>, step: Step<Id, T, O>) {
    match step
    case BeginAdd(_, _) => true
    case Insert(t) => t < |s.tasks| && s.tasks[t].Adding?
    case BeginRename(_, _) => true
    case Remove(t) => t < |s.tasks| && s.tasks[t].Renaming?
    case InsertNew(t) => t < |s.tasks| && s.tasks[t].Moving?
    case Restore(t) => t < |s.tasks| && s.tasks[t].Restoring?
    case BeginWith(_, _) => true
    case Lookup(t) => t < |s.tasks| && s.tasks[t].LookingUp? &&
                      (s.tasks[t].id in s.table ==>
                         s.table[s.tasks[t].id] < |s.queues| &&
                         Q.Enabled(s.queues[s.table[s.tasks[t].id]], Q.Arrive(s.tasks[t].closure)))
    case QueueStep(q, step) => q < |s.queues| && !step.Arrive? && Q.Enabled(s.queues[q], step)
  }

  ghost function Apply<Id, T, O>(s: State<Id, T, O>, step: Step<Id, T, O>): State<Id, T, O>
    requires Enabled(s, step)
  {
    match step
    case BeginAdd(id, context) =>
      s.(queues := s.queues + [Q.Init(context)], tasks := s.tasks + [Adding(id, |s.queues|)])
    case Insert(t) =>
      var Adding(id, q) := s.tasks[t];
      if id in s.table then s.(tasks := s.tasks[t := AddAborted(id, q)])
      else s.(table := s.table[id := q], tasks := s.tasks[t := Added(id, q)])
    case BeginRename(oldId, newId) =>
      s.(tasks := s.tasks + [Renaming(oldId, newId)])
    case Remove(t) =>
      var Renaming(oldId, newId) := s.tasks[t];
      if oldId in s.table then s.(table := s.table - {oldId}, tasks := s.tasks[t := Moving(oldId, newId, s.table[oldId])])
      else s.(tasks := s.tasks[t := NotRenamed(oldId, newId)])
    case InsertNew(t) =>
      var Moving(oldId, newId, q) := s.tasks[t];
      if newId in s.table then s.(tasks := s.tasks[t := Restoring(oldId, newId, q)])
      else s.(table := s.table[newId := q], tasks := s.tasks[t := Renamed(oldId, newId, q)])
    case Restore(t) =>
      var Restoring(oldId, newId, q) := s.tasks[t];
      if oldId in s.table then s.(tasks := s.tasks[t := Lost(oldId, newId, q)])
      else s.(table := s.table[oldId := q], tasks := s.tasks[t := PutBack(oldId, newId, q)])
    case BeginWith(id, closure) =>
      s.(tasks := s.tasks + [LookingUp(id, closure)])
    case Lookup(t) =>
      var LookingUp(id, closure) := s.tasks[t];
      if id in s.table then
        var q := s.table[id];
        s.(queues := s.queues[q := Q.Apply(s.queues[q], Q.Arrive(closure))],
           tasks := s.tasks[t := Scheduled(id, q, |s.queues[q].closures|)])
      else s.(tasks := s.tasks[t := NotFound(id)])
    case QueueStep(q, step) =>
      s.(queues := s.queues[q := Q.Apply(s.queues[q], step)])
  }

  ghost predicate CanRun<Id, T, O>(s: State<Id, T, O>, steps: seq<Step<Id, T, O>>)
    decreases |steps|
  {
    steps == [] || (Enabled(s, steps[0]) && CanRun(Apply(s, steps[0]), steps[1..]))
  }

  ghost function Run<Id, T, O>(s: State<Id, T, O>, steps: seq<Step<Id, T, O>>): State<Id, T, O>
    requires CanRun(s, steps)
    decreases |steps|
  {
    if steps == [] then s else Run(Apply(s, steps[0]), steps[1..])
  }

  // ----- where a queue is

  predicate Holds<Id, T, O>(task: Task<Id, T, O>) {
    task.Adding? || task.AddAborted? || task.Moving? || task.Restoring? || task.Lost?
  }

  ghost predicate InTable<Id, T, O>(s: State<Id, T, O>, q: nat) {
    exists k :: k in s.table && s.table[k] == q
  }

  ghost predicate HeldBy<Id, T, O>(s: State<Id, T, O>, t: nat, q: nat) {
    t < |s.tasks| && Holds(s.tasks[t]) && s.tasks[t].q == q
  }

  /** Every queue object is in exactly one place: under one key, or in the hands of one call. */
  ghost predicate Inv<Id, T, O>(s: State<Id, T, O>) {
    && (forall k :: k in s.table ==> s.table[k] < |s.queues|)
    && (forall k, l :: k in s.table && l in s.table && s.table[k] == s.table[l] ==> k == l)
    && (forall t: nat, q: nat :: HeldBy(s, t, q) ==> q < |s.queues| && !InTable(s, q))
    && (forall t: nat, u: nat, q: nat :: HeldBy(s, t, q) && HeldBy(s, u, q) ==> t == u)
    && (forall q: nat :: q < |s.queues| ==> InTable(s, q) || exists t: nat :: HeldBy(s, t, q))
  }

  lemma TasksOnly<Id, T, O>(s: State<Id, T, O>, s': State<Id, T, O>, t: nat)
    requires Inv(s) && s'.table == s.table && |s'.queues| == |s.queues|
    requires t <= |s.tasks| && t < |s'.tasks|
    requires |s'.tasks| == (if t == |s.tasks| then |s.tasks| + 1 else |s.tasks|)
    requires forall u :: 0 <= u < |s'.tasks| && u != t ==> s'.tasks[u] == s.tasks[u]
    requires t == |s.tasks| ==> !Holds(s'.tasks[t])
    requires t < |s.tasks| ==> (Holds(s.tasks[t]) <==> Holds(s'.tasks[t]))
    requires t < |s.tasks| && Holds(s.tasks[t]) ==> s'.tasks[t].q == s.tasks[t].q
    ensures Inv(s')
  {
    assert forall u: nat, q: nat :: HeldBy(s', u, q) <==> HeldBy(s, u, q);
    assert forall q: nat :: InTable(s', q) <==> InTable(s, q);
  }

  /** A call that holds a queue puts it under a key that is free. */
  lemma Puts<Id, T, O>(s: State<Id, T, O>, s': State<Id, T, O>, t: nat, k: Id)
    requires Inv(s) && t < |s.tasks| && Holds(s.tasks[t]) && k !in s.table
    requires s'.table == s.table[k := s.tasks[t].q] && s'.queues == s.queues
    requires |s'.tasks| == |s.tasks| && s'.tasks == s.tasks[t := s'.tasks[t]] && !Holds(s'.tasks[t])
    ensures Inv(s')
  {
    var q := s.tasks[t].q;
    assert HeldBy(s, t, q);
    assert InTable(s', q) by { assert k in s'.table && s'.table[k] == q; }
    assert forall u: nat, r: nat :: HeldBy(s', u, r) <==> HeldBy(s, u, r) && u != t;
    forall r: nat ensures InTable(s', r) <==> InTable(s, r) || r == q {
      if InTable(s, r) {
        var l :| l in s.table && s.table[l] == r;
        assert l in s'.table && s'.table[l] == r;
      }
    }
  }

  /** A rename takes a queue out of the table. */
  lemma Takes<Id, T, O>(s: State<Id, T, O>, s': State<Id, T, O>, t: nat, k: Id)
    requires Inv(s) && t < |s.tasks| && !Holds(s.tasks[t]) && k in s.table
    requires s'.table == s.table - {k} && s'.queues == s.queues
    requires |s'.tasks| == |s.tasks| && s'.tasks == s.tasks[t := s'.tasks[t]] && Holds(s'.tasks[t]) && s'.tasks[t].q == s.table[k]
    ensures Inv(s')
  {
    var q := s.table[k];
    assert InTable(s, q);
    assert HeldBy(s', t, q);
    assert forall u: nat, r: nat :: u != t ==> (HeldBy(s', u, r) <==> HeldBy(s, u, r));
    forall r: nat ensures InTable(s', r) <==> InTable(s, r) && r != q {
      if InTable(s, r) && r != q {
        var l :| l in s.table && s.table[l] == r;
        assert l in s'.table && s'.table[l] == r;
      }
    }
  }

  lemma BeginAddInv<Id, T, O>(s: State<Id, T, O>, id: Id, context: T)
    requires Inv(s)
    ensures Inv(Apply(s, BeginAdd(id, context)))
  {
    var s', n, q := Apply(s, BeginAdd(id, context)), |s.tasks|, |s.queues|;
    assert HeldBy(s', n, q);
    assert forall t: nat, r: nat :: HeldBy(s', t, r) <==> HeldBy(s, t, r) || (t == n && r == q);
    assert forall r: nat :: InTable(s', r) <==> InTable(s, r);
  }

  lemma StepInv<Id, T, O>(s: State<Id, T, O>, step: Step<Id, T, O>)
    requires Inv(s) && Enabled(s, step)
    ensures Inv(Apply(s, step))
  {
    var s' := Apply(s, step);
    match step
    case BeginAdd(id, context) => BeginAddInv(s, id, context);
    case BeginRename(_, _) => TasksOnly(s, s', |s.tasks|);
    case BeginWith(_, _) => TasksOnly(s, s', |s.tasks|);
    case Insert(t) =>
      if s.tasks[t].id in s.table { TasksOnly(s, s', t); } else { Puts(s, s', t, s.tasks[t].id); }
    case Remove(t) =>
      if s.tasks[t].oldId in s.table { Takes(s, s', t, s.tasks[t].oldId); } else { TasksOnly(s, s', t); }
    case InsertNew(t) =>
      if s.tasks[t].newId in s.table { TasksOnly(s, s', t); } else { Puts(s, s', t, s.tasks[t].newId); }
    case Restore(t) =>
      if s.tasks[t].oldId in s.table { TasksOnly(s, s', t); } else { Puts(s, s', t, s.tasks[t].oldId); }
    case Lookup(t) => TasksOnly(s, s', t);
    case QueueStep(_, _) =>
      assert forall t: nat, q: nat :: HeldBy(s', t, q) <==> HeldBy(s, t, q);
      assert forall q: nat :: InTable(s', q) <==> InTable(s, q);
  }

  predicate IsAdd<Id, T, O>(task: Task<Id, T, O>) { task.Adding? || task.Added? || task.AddAborted? }

  /** Each queue object was made by one add_context call, which holds it until the map takes it. */
  ghost predicate AddInv<Id, T, O>(s: State<Id, T, O>) {
    && (forall t :: 0 <= t < |s.tasks| && IsAdd(s.tasks[t]) ==> s.tasks[t].q < |s.queues|)
    && (forall t, u :: 0 <= t < u < |s.tasks| && IsAdd(s.tasks[t]) && IsAdd(s.tasks[u]) ==>
          s.tasks[t].q != s.tasks[u].q)
  }

  lemma AddStep<Id, T, O>(s: State<Id, T, O>, step: Step<Id, T, O>)
    requires AddInv(s) && Enabled(s, step)
    ensures AddInv(Apply(s, step))
  {}

  lemma {:induction false} RunInv<Id, T, O>(s: State<Id, T, O>, steps: seq<Step<Id, T, O>>)
    requires Inv(s) && AddInv(s) && CanRun(s, steps)
    ensures Inv(Run(s, steps)) && AddInv(Run(s, steps))
    decreases |steps|
  {
    if steps != [] {
      StepInv(s, steps[0]);
      AddStep(s, steps[0]);
      RunInv(Apply(s, steps[0]), steps[1..]);
    }
  }

  predicate InFlight<Id, T, O>(task: Task<Id, T, O>) { task.Moving? || task.Restoring? }

  ghost predicate RenamedBy<Id, T, O>(s: State<Id, T, O>, t: nat, q: nat) {
    t < |s.tasks| && InFlight(s.tasks[t]) && s.tasks[t].q == q
  }

  ghost predicate LostBy<Id, T, O>(s: State<Id, T, O>, t: nat, q: nat) {
    t < |s.tasks| && s.tasks[t].Lost? && s.tasks[t].q == q
  }

  /** Over any interleaving, a queue that was added is under exactly one key, or in the hands of exactly
      one rename, or was dropped by exactly one rename that could not put it back; never two of these. */
  lemma OnePlace<Id, T, O>(steps: seq<Step<Id, T, O>>, a: nat)
    requires CanRun(Init<Id, T, O>(), steps)
    requires var s := Run(Init<Id, T, O>(), steps); a < |s.tasks| && s.tasks[a].Added?
    ensures var s := Run(Init<Id, T, O>(), steps);
      var q := s.tasks[a].q;
      && (InTable(s, q) || (exists t: nat :: RenamedBy(s, t, q)) || (exists t: nat :: LostBy(s, t, q)))
      && (forall t: nat, u: nat :: RenamedBy(s, t, q) && RenamedBy(s, u, q) ==> t == u)
      && (forall t: nat, u: nat :: !(RenamedBy(s, t, q) && LostBy(s, u, q)))
      && (InTable(s, q) ==> forall t: nat :: !RenamedBy(s, t, q) && !LostBy(s, t, q))
      && (forall k, l :: k in s.table && l in s.table && s.table[k] == q == s.table[l] ==> k == l)
  {
    RunInv(Init<Id, T, O>(), steps);
    var s := Run(Init<Id, T, O>(), steps);
    var q := s.tasks[a].q;
    assert forall t: nat :: RenamedBy(s, t, q) || LostBy(s, t, q) ==> HeldBy(s, t, q);
    if !InTable(s, q) {
      var t: nat :| HeldBy(s, t, q);
      assert !IsAdd(s.tasks[t]) || t == a;
      assert RenamedBy(s, t, q) || LostBy(s, t, q);
    }
  }

  // ----- when a failed rename restores the map

  predicate Reserves<Id(==), T, O>(task: Task<Id, T, O>, k: Id) { InFlight(task) && task.oldId == k }

  ghost predicate Unreserved<Id, T, O>(s: State<Id, T, O>, t: nat, k: Id) {
    forall u :: 0 <= u < |s.tasks| && u != t ==> !Reserves(s.tasks[u], k)
  }

  /** No call takes an id that another rename has just vacated. */
  ghost predicate Guarded<Id, T, O>(s: State<Id, T, O>, step: Step<Id, T, O>)
    requires Enabled(s, step)
  {
    match step
    case Insert(t) => Unreserved(s, t, s.tasks[t].id)
    case InsertNew(t) => Unreserved(s, t, s.tasks[t].newId)
    case Restore(t) => Unreserved(s, t, s.tasks[t].oldId)
    case _ => true
  }

  ghost predicate GuardedRun<Id, T, O>(s: State<Id, T, O>, steps: seq<Step<Id, T, O>>)
    requires CanRun(s, steps)
    decreases |steps|
  {
    steps == [] || (Guarded(s, steps[0]) && GuardedRun(Apply(s, steps[0]), steps[1..]))
  }

  ghost predicate VacantInv<Id, T, O>(s: State<Id, T, O>) {
    && (forall t :: 0 <= t < |s.tasks| && InFlight(s.tasks[t]) ==> s.tasks[t].oldId !in s.table)
    && (forall t :: 0 <= t < |s.tasks| ==> !s.tasks[t].Lost?)
  }

  lemma VacantStep<Id, T, O>(s: State<Id, T, O>, step: Step<Id, T, O>)
    requires VacantInv(s) && Enabled(s, step) && Guarded(s, step)
    ensures VacantInv(Apply(s, step))
    ensures step.Restore? ==>
      var task := s.tasks[step.t];
      && Apply(s, step).tasks[step.t] == PutBack(task.oldId, task.newId, task.q)
      && Apply(s, step).table == s.table[task.oldId := task.q]
  {
    var s' := Apply(s, step);
    forall u | 0 <= u < |s'.tasks| && InFlight(s'.tasks[u])
      ensures s'.tasks[u].oldId !in s'.table
    {
      if u < |s.tasks| && InFlight(s.tasks[u]) {
        assert Reserves(s.tasks[u], s.tasks[u].oldId);
      }
    }
  }

  /** If no call takes an id while another rename has vacated it, no queue is ever lost: each added queue
      is under exactly one key or in the hands of exactly one rename. */
  lemma {:induction false} GuardedRenames<Id, T, O>(s: State<Id, T, O>, steps: seq<Step<Id, T, O>>)
    requires VacantInv(s) && CanRun(s, steps) && GuardedRun(s, steps)
    ensures VacantInv(Run(s, steps))
    decreases |steps|
  {
    if steps != [] {
      VacantStep(s, steps[0]);
      GuardedRenames(Apply(s, steps[0]), steps[1..]);
    }
  }

  lemma NothingLost<Id, T, O>(steps: seq<Step<Id, T, O>>, a: nat)
    requires CanRun(Init<Id, T, O>(), steps) && GuardedRun(Init<Id, T, O>(), steps)
    requires var s := Run(Init<Id, T, O>(), steps); a < |s.tasks| && s.tasks[a].Added?
    ensures var s := Run(Init<Id, T, O>(), steps);
      var q := s.tasks[a].q;
      InTable(s, q) <==> !(exists t: nat :: RenamedBy(s, t, q))
  {
    GuardedRenames(Init<Id, T, O>(), steps);
    OnePlace(steps, a);
  }

  /** Exactly when a rename drops its queue: the new id is taken and, by the time it puts the queue back,
      so is the old one. */
  lemma LosesIff<Id, T, O>(s: State<Id, T, O>, step: Step<Id, T, O>, q: nat)
    requires Inv(s) && Enabled(s, step)
    ensures ((exists t: nat :: LostBy(Apply(s, step), t, q)) && !(exists t: nat :: LostBy(s, t, q)))
            <==> step.Restore? && s.tasks[step.t].q == q && s.tasks[step.t].oldId in s.table
  {
    var s' := Apply(s, step);
    if step.Restore? && s.tasks[step.t].q == q && s.tasks[step.t].oldId in s.table {
      assert LostBy(s', step.t, q);
      assert HeldBy(s, step.t, q);
      assert forall t: nat :: LostBy(s, t, q) ==> HeldBy(s, t, q);
    } else if t: nat :| LostBy(s', t, q) {
      assert t < |s.tasks| && s'.tasks[t] == s.tasks[t];
      assert LostBy(s, t, q);
    }
  }

  /** A dropped queue never comes back into the map. */
  lemma {:induction false} LostForever<Id, T, O>(s: State<Id, T, O>, steps: seq<Step<Id, T, O>>, t: nat, q: nat)
    requires Inv(s) && CanRun(s, steps) && LostBy(s, t, q)
    ensures LostBy(Run(s, steps), t, q) && !InTable(Run(s, steps), q)
    decreases |steps|
  {
    assert HeldBy(s, t, q);
    if steps != [] {
      StepInv(s, steps[0]);
      assert LostBy(Apply(s, steps[0]), t, q);
      LostForever(Apply(s, steps[0]), steps[1..], t, q);
    }
  }

  /** One call more than the guard allows is enough: an id vacated by a rename is taken by an addition,
      the rename's new id is taken as well, and the renamed queue is gone although nobody removed it. */
  lemma LossHappens<Id, T, O>(a: Id, b: Id, x: T, y: T, z: T) returns (steps: seq<Step<Id, T, O>>)
    requires a != b
    ensures CanRun(Init<Id, T, O>(), steps)
    ensures var s := Run(Init<Id, T, O>(), steps);
      && s.table == map[b := 1, a := 2] && |s.queues| == 3 && |s.tasks| == 4 && s.tasks[0] == Added(a, 0)
      && LostBy(s, 2, 0) && !InTable(s, 0)
  {
    var s0 := TwoAdded<Id, T, O>(a, b, x, y);
    var first := TwoAdditions<Id, T, O>(a, b, x, y);
    var rest := LossRun<Id, T, O>(a, b, x, y, z);
    RunJoin(Init<Id, T, O>(), first, rest);
    steps := first + rest;
    assert LostBy(Run(s0, rest), 2, 0);
    assert !InTable(Run(s0, rest), 0);
  }

  ghost function TwoAdded<Id, T, O>(a: Id, b: Id, x: T, y: T): State<Id, T, O> {
    State(map[a := 0, b := 1], [Q.Init(x), Q.Init(y)], [Added(a, 0), Added(b, 1)])
  }

  lemma TwoAdditions<Id, T, O>(a: Id, b: Id, x: T, y: T) returns (steps: seq<Step<Id, T, O>>)
    requires a != b
    ensures CanRun(Init<Id, T, O>(), steps) && Run(Init<Id, T, O>(), steps) == TwoAdded<Id, T, O>(a, b, x, y)
  {
    var first := AddRun(Init<Id, T, O>(), a, x);
    var s: State<Id, T, O> := State(map[a := 0], [Q.Init(x)], [Added(a, 0)]);
    assert Run(Init<Id, T, O>(), first) == s;
    var rest := AddRun(s, b, y);
    assert Run(s, rest) == TwoAdded<Id, T, O>(a, b, x, y);
    RunJoin(Init<Id, T, O>(), first, rest);
    steps := first + rest;
  }

  lemma LossRun<Id, T, O>(a: Id, b: Id, x: T, y: T, z: T) returns (steps: seq<Step<Id, T, O>>)
    requires a != b
    ensures CanRun(TwoAdded<Id, T, O>(a, b, x, y), steps)
    ensures Run(TwoAdded<Id, T, O>(a, b, x, y), steps) ==
      State(map[b := 1, a := 2], [Q.Init(x), Q.Init(y), Q.Init(z)],
            [Added(a, 0), Added(b, 1), Lost(a, b, 0), Added(a, 2)])
  {
    var s0 := TwoAdded<Id, T, O>(a, b, x, y);
    var s1 := s0.(table := map[b := 1], tasks := s0.tasks + [Moving(a, b, 0)]);
    var s2 := State(map[b := 1, a := 2], s0.queues + [Q.Init(z)], s1.tasks + [Added(a, 2)]);
    var takes := Two(s0, BeginRename(a, b), Remove(2));
    assert s0.table - {a} == map[b := 1];
    assert Run(s0, takes) == s1;
    var adds := AddRun(s1, a, z);
    assert Run(s1, adds) == s2;
    var drops := Two(s2, InsertNew(2), Restore(2));
    RunJoin(s1, adds, drops);
    RunJoin(s0, takes, adds + drops);
    steps := takes + (adds + drops);
  }

  lemma Two<Id, T, O>(s: State<Id, T, O>, a: Step<Id, T, O>, b: Step<Id, T, O>)
    returns (steps: seq<Step<Id, T, O>>)
    requires Enabled(s, a) && Enabled(Apply(s, a), b)
    ensures CanRun(s, steps) && Run(s, steps) == Apply(Apply(s, a), b)
  {
    steps := [a, b];
    assert steps[1..] == [b] && [b][1..] == [];
    assert CanRun(Apply(Apply(s, a), b), []);
    assert CanRun(Apply(s, a), [b]) && Run(Apply(s, a), [b]) == Apply(Apply(s, a), b);
  }

  /** An addition that nothing interrupts. */
  lemma AddRun<Id, T, O>(s: State<Id, T, O>, id: Id, context: T) returns (steps: seq<Step<Id, T, O>>)
    ensures CanRun(s, steps)
    ensures Run(s, steps) ==
      if id in s.table then
        s.(queues := s.queues + [Q.Init(context)], tasks := s.tasks + [AddAborted(id, |s.queues|)])
      else
        State(s.table[id := |s.queues|], s.queues + [Q.Init(context)], s.tasks + [Added(id, |s.queues|)])
  {
    steps := Two(s, BeginAdd(id, context), Insert(|s.tasks|));
  }

  lemma {:induction false} RunJoin<Id, T, O>(
    s: State<Id, T, O>, steps: seq<Step<Id, T, O>>, more: seq<Step<Id, T, O>>)
    requires CanRun(s, steps) && CanRun(Run(s, steps), more)
    ensures CanRun(s, steps + more)
    ensures Run(s, steps + more) == Run(Run(s, steps), more)
    decreases |steps|
  {
    if steps == [] {
      assert steps + more == more;
    } else {
      assert (steps + more)[1..] == steps[1..] + more;
      RunJoin(Apply(s, steps[0]), steps[1..], more);
    }
  }

  // ----- the queues run as if the map did not exist

  lemma QueueStepShape<Id, T, O>(s: State<Id, T, O>, step: Step<Id, T, O>, q: nat) returns (own: seq<Q.Step<T, O>>)
    requires Enabled(s, step) && q < |s.queues|
    ensures |Apply(s, step).queues| >= |s.queues|
    ensures Q.CanRun(s.queues[q], own) && Q.Run(s.queues[q], own) == Apply(s, step).queues[q]
  {
    own := [];
    if step.QueueStep? && step.q == q {
      own := [step.step];
      assert Q.CanRun(Q.Apply(s.queues[q], step.step), []);
    } else if step.Lookup? && s.tasks[step.t].id in s.table && s.table[s.tasks[step.t].id] == q {
      own := [Q.Arrive(s.tasks[step.t].closure)];
      assert Q.CanRun(Q.Apply(s.queues[q], own[0]), []);
    }
  }

  /** What happens to one queue while the manager runs is a run of that queue, whatever additions, renames
      and lookups go on; so everything module ContextQueue proves of runs holds of every queue, and jobs
      pushed through a handle obtained before a rename run on the same queue, in push order. */
  lemma {:induction false} QueueProjection<Id, T, O>(s: State<Id, T, O>, steps: seq<Step<Id, T, O>>, q: nat)
    returns (own: seq<Q.Step<T, O>>)
    requires CanRun(s, steps) && q < |s.queues|
    ensures |Run(s, steps).queues| >= |s.queues|
    ensures Q.CanRun(s.queues[q], own) && Q.Run(s.queues[q], own) == Run(s, steps).queues[q]
    ensures s.queues[q].closures <= Run(s, steps).queues[q].closures
    decreases |steps|
  {
    own := [];
    if steps != [] {
      var first := QueueStepShape(s, steps[0], q);
      var rest := QueueProjection(Apply(s, steps[0]), steps[1..], q);
      Q.RunJoin(s.queues[q], first, rest);
      own := first + rest;
      ClosuresGrow(s.queues[q], first);
    }
  }

  lemma {:induction false} ClosuresGrow<T, O>(s: Q.State<T, O>, steps: seq<Q.Step<T, O>>)
    requires Q.CanRun(s, steps)
    ensures s.closures <= Q.Run(s, steps).closures
    decreases |steps|
  {
    if steps != [] {
      Q.ClosuresStep(s, steps[0]);
      ClosuresGrow(Q.Apply(s, steps[0]), steps[1..]);
    }
  }

  /** The other way round: whatever a queue can do on its own it can do in the manager, with the map, the
      calls and the other queues as they were. */
  lemma {:induction false} LiftQueue<Id, T, O>(s: State<Id, T, O>, q: nat, own: seq<Q.Step<T, O>>)
    returns (steps: seq<Step<Id, T, O>>)
    requires q < |s.queues| && Q.CanRun(s.queues[q], own) && forall i :: 0 <= i < |own| ==> !own[i].Arrive?
    ensures CanRun(s, steps) && Run(s, steps) == s.(queues := s.queues[q := Q.Run(s.queues[q], own)])
    decreases |own|
  {
    if own == [] {
      steps := [];
      assert s.queues[q := s.queues[q]] == s.queues;
    } else {
      var first := QueueStep(q, own[0]);
      var s1 := Apply(s, first);
      assert s1.queues[q] == Q.Apply(s.queues[q], own[0]);
      var rest := LiftQueue(s1, q, own[1..]);
      steps := [first] + rest;
      assert steps[1..] == rest;
      assert s1.queues[q := Q.Run(s.queues[q], own)] == s.queues[q := Q.Run(s.queues[q], own)];
    }
  }

  /** An uninterrupted with_context: on a present id whose queue is idle, with a closure that does not call
      back, the caller receives what the closure makes of that context; on an absent id it is refused. */
  lemma WithContextIsRun<Id, T, O>(s: State<Id, T, O>, id: Id, closure: Q.Closure<T, O>)
    returns (steps: seq<Step<Id, T, O>>)
    requires id in s.table ==> s.table[id] < |s.queues| && Executor.Idle(s.queues[s.table[id]])
    requires !Q.Reenters(closure, |closure.body|)
    ensures CanRun(s, steps)
    ensures var s', n := Run(s, steps), |s.tasks|;
      && s'.table == s.table && |s'.tasks| == n + 1 && s'.tasks[..n] == s.tasks
      && (id !in s.table ==> s'.tasks[n] == NotFound(id) && s'.queues == s.queues)
      && (id in s.table ==>
            var q := s.table[id]; var c := |s.queues[q].closures|;
            && s'.tasks[n] == Scheduled(id, q, c)
            && |s'.queues| == |s.queues| && (forall k :: 0 <= k < |s.queues| && k != q ==> s'.queues[k] == s.queues[k])
            && s'.queues[q].ctx == Q.RunBody(closure.body, s.queues[q].ctx)
            && c < |s'.queues[q].phases| && s'.queues[q].phases[c] == Q.Received(closure.result(s'.queues[q].ctx)))
  {
    var n := |s.tasks|;
    steps := Two(s, BeginWith(id, closure), Lookup(n));
    var s2 := Run(s, steps);
    if id in s.table {
      var q := s.table[id];
      var c := |s.queues[q].closures|;
      var own := Executor.ServeIsRun(s2.queues[q], c);
      var more := LiftQueue(s2, q, own);
      RunJoin(s, steps, more);
      steps := steps + more;
    }
  }

  /** What a call got from the map it keeps. */
  lemma {:induction false} ScheduledStays<Id, T, O>(s: State<Id, T, O>, steps: seq<Step<Id, T, O>>, t: nat)
    requires CanRun(s, steps) && t < |s.tasks| && s.tasks[t].Scheduled?
    ensures t < |Run(s, steps).tasks| && Run(s, steps).tasks[t] == s.tasks[t]
    decreases |steps|
  {
    if steps != [] {
      ScheduledStays(Apply(s, steps[0]), steps[1..], t);
    }
  }

  /** A with_context call that found its queue: whatever additions and renames follow, it stays a caller of
      that same queue, its own closure is the one the queue holds for it, and what it receives is that
      closure's output at its place among the jobs pushed onto that queue. */
  lemma HandleSurvivesRenames<Id, T, O>(s: State<Id, T, O>, t: nat, steps: seq<Step<Id, T, O>>)
    requires Inv(s) && QueuesInv(s) && Enabled(s, Lookup(t)) && s.tasks[t].id in s.table
    requires CanRun(Apply(s, Lookup(t)), steps)
    ensures var q := s.table[s.tasks[t].id];
      var c, s' := |s.queues[q].closures|, Run(Apply(s, Lookup(t)), steps);
      && t < |s'.tasks| && s'.tasks[t] == Scheduled(s.tasks[t].id, q, c)
      && q < |s'.queues| && c < |s'.queues[q].closures| && c < |s'.queues[q].phases|
      && s'.queues[q].closures[c] == s.tasks[t].closure
      && (s'.queues[q].phases[c].Received? ==> OwnAnswer(s'.queues[q], c))
  {
    var s1, q := Apply(s, Lookup(t)), s.table[s.tasks[t].id];
    StepInv(s, Lookup(t));
    QueuesStep(s, Lookup(t));
    ScheduledStays(s1, steps, t);
    var own := QueueProjection(s1, steps, q);
    QueuesSound(s1, steps);
    var c, s' := |s.queues[q].closures|, Run(s1, steps);
    if s'.queues[q].phases[c].Received? {
      Q.OwnOutputAt(s'.queues[q], c);
    }
  }

  /** Caller c of the queue holds its own closure's output at its place in push order. */
  ghost predicate OwnAnswer<T, O>(queue: Q.State<T, O>, c: nat) {
    && c < |queue.phases| && queue.phases[c].Received? && Q.InRange(queue.closures, queue.pushed)
    && exists i :: 0 <= i < |queue.pushed| && queue.pushed[i] == c &&
                   queue.phases[c].output == Q.SerialOutput(queue.closures, queue.start, queue.pushed, i)
  }

  ghost predicate QueuesInv<Id, T, O>(s: State<Id, T, O>) {
    && (forall q :: 0 <= q < |s.queues| ==> Q.Inv(s.queues[q]))
    && (forall k :: k in s.table ==> s.table[k] < |s.queues|)
  }

  lemma QueuesStep<Id, T, O>(s: State<Id, T, O>, step: Step<Id, T, O>)
    requires QueuesInv(s) && Inv(s) && Enabled(s, step)
    ensures QueuesInv(Apply(s, step))
  {
    var s' := Apply(s, step);
    StepInv(s, step);
    forall q: nat | q < |s'.queues| ensures Q.Inv(s'.queues[q]) {
      if q < |s.queues| {
        var own := QueueStepShape(s, step, q);
        Q.RunInv(s.queues[q], own);
      } else {
        Q.InitInv<T, O>(step.context);
      }
    }
  }

  /** In every reachable state every queue satisfies the queue invariant, and a lookup is never refused. */
  lemma {:induction false} QueuesSound<Id, T, O>(s: State<Id, T, O>, steps: seq<Step<Id, T, O>>)
    requires QueuesInv(s) && Inv(s) && CanRun(s, steps)
    ensures QueuesInv(Run(s, steps))
    ensures forall t: nat :: t < |Run(s, steps).tasks| && Run(s, steps).tasks[t].LookingUp? ==>
              Enabled(Run(s, steps), Lookup(t))
    decreases |steps|
  {
    if steps != [] {
      StepInv(s, steps[0]);
      QueuesStep(s, steps[0]);
      QueuesSound(Apply(s, steps[0]), steps[1..]);
    }
  }

  // ----- the manager as an object, its functions uninterrupted

  datatype AddResult = AddOk | ContextAlreadyExists | TaskAborted

  datatype ChangeResult = ChangeOk | ChangeFailed(error: ChangeError)

  /** What an uninterrupted change_id does to the map and returns. */
  function ChangeEffect<Id>(table: map<Id, nat>, oldId: Id, newId: Id): (map<Id, nat>, ChangeResult) {
    if oldId !in table then (table, ChangeFailed(OldIdNotFound))
    else if newId in table && newId != oldId then (table, ChangeFailed(NewIdAlreadyExists))
    else ((table - {oldId})[newId := table[oldId]], ChangeOk)
  }

  /** How the call that made the change ends. */
  predicate EndsAs<Id, T, O>(task: Task<Id, T, O>, r: ChangeResult) {
    match r
    case ChangeOk => task.Renamed?
    case ChangeFailed(OldIdNotFound) => task.NotRenamed?
    case ChangeFailed(NewIdAlreadyExists) => task.PutBack?
  }

  /** An uninterrupted change_id is a run; it neither loses a queue nor touches one. */
  lemma ChangeIsRun<Id, T, O>(s: State<Id, T, O>, oldId: Id, newId: Id) returns (steps: seq<Step<Id, T, O>>)
    ensures CanRun(s, steps)
    ensures var s' := Run(s, steps);
      var (table, r) := ChangeEffect(s.table, oldId, newId);
      && s'.table == table && s'.queues == s.queues && |s'.tasks| == |s.tasks| + 1
      && EndsAs(s'.tasks[|s.tasks|], r)
  {
    var n := |s.tasks|;
    steps := Two(s, BeginRename(oldId, newId), Remove(n));
    var s2 := Run(s, steps);
    if oldId in s.table {
      var s3 := Apply(s2, InsertNew(n));
      var more: seq<Step<Id, T, O>>;
      if newId in s2.table {
        more := Two(s2, InsertNew(n), Restore(n));
        assert Run(s2, more).table == s.table;
      } else {
        more := [InsertNew(n)];
        assert CanRun(s3, []);
      }
      RunJoin(s, steps, more);
      steps := steps + more;
    }
  }

  class Manager<Id(==)> {
    var table: map<Id, nat>

    constructor ()
      ensures table == map[]
    {
      table := map[];
    }

    /** add_context.  When the id is taken, the map hands the clone back, but the binding the clone was
        made from is still alive, so `Arc::into_inner` finds two references and the unwrap aborts the
        task: the documented ContextAlreadyExists error is never returned. */
    method AddContext(id: Id, queue: nat) returns (r: AddResult)
      modifies this
      ensures r == AddOk <==> id !in old(table)
      ensures r != AddOk ==> r == TaskAborted
      ensures table == if id in old(table) then old(table) else old(table)[id := queue]
    {
      var strong := 1;
      strong := strong + 1;
      if id !in table {
        table := table[id := queue];
        r := AddOk;
      } else {
        r := if strong == 1 then ContextAlreadyExists else TaskAborted;
      }
    }

    /** change_id.  Without interference a failed change leaves the map as it was. */
    method ChangeId(oldId: Id, newId: Id) returns (r: ChangeResult)
      modifies this
      ensures r == ChangeFailed(OldIdNotFound) <==> oldId !in old(table)
      ensures r == ChangeFailed(NewIdAlreadyExists) <==> oldId in old(table) && newId in old(table) && newId != oldId
      ensures r == ChangeOk ==>
        oldId in old(table) && table == (old(table) - {oldId})[newId := old(table)[oldId]]
      ensures r != ChangeOk ==> table == old(table)
      ensures (table, r) == ChangeEffect(old(table), oldId, newId)
    {
      if oldId in table {
        var q := table[oldId];
        table := table - {oldId};
        if newId !in table {
          table := table[newId := q];
          return ChangeOk;
        }
        if oldId !in table {
          table := table[oldId := q];
        }
        return ChangeFailed(NewIdAlreadyExists);
      } else {
        return ChangeFailed(OldIdNotFound);
      }
    }

    /** contains_context, in a state of the system whose map this is: a with_context call on the id that
        looks it up now is scheduled exactly if the answer is yes. */
    method ContainsContext<T, O>(ghost s: State<Id, T, O>, id: Id) returns (r: bool)
      requires s.table == table
      ensures forall t: nat :: Enabled(s, Lookup(t)) && s.tasks[t].id == id ==>
        (r <==> Apply(s, Lookup(t)).tasks[t].Scheduled?) && (!r <==> Apply(s, Lookup(t)).tasks[t].NotFound?)
    {
      r := id in table;
    }
  }
}
