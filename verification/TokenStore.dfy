/**
 The token store: a concurrent map from keys to token states, read by `get`, written by `set`, and used
 by `get_token`, which gets and, if there is nothing, sets.  Every access to the map, the creation of
 the `Notified` future and `notify_waiters` are steps of their own; any number of calls interleave.
 */
module TokenStore {
  import opened Sequences
  import Counter

  /** `for _ in 1..10` */
  const MAX_READS: nat := 9

  /** The counter behind token ids is an AtomicU32 that starts at 1 and wraps. */
  const ID_RANGE: nat := 0x1_0000_0000

  function TokenId(ticket: nat): nat { Counter.Draw(ticket, ID_RANGE) }

  datatype Outcome<+V> = Produced(value: V) | Errored

  /** Each update has its own Notify, named by the call that made it. */
  datatype Inner<+V> = Ready(value: V) | Updating(notify: nat) | Failed

  /** `author` is history: the set that wrote the state. */
  datatype TokenState<+V> = TokenState(id: nat, state: Inner<V>, author: nat)

  datatype Answer<+V> =
    | Nothing
    | Entry(token: TokenState<V>)
    | ReadError(id: nat)
    | UpdateAlreadyInProgress(id: nat)
    | InnerFutureError

  datatype Kind = GetCall | SetCall | GetTokenCall

  datatype Phase<+V> =
    | Reading(readsDone: nat)
    | HasNotify(readsDone: nat, n: nat)             // saw Updating, not registered yet
    | Waiting(readsDone: nat, n: nat, late: bool)   // late: the Notify had fired when registering
    | Entering                                  // about to make a Notify and draw an id
    | Checking
    | Checked                                   // no update seen, not upserted yet
    | InFlight                                  // Updating upserted, future running
    | Resolved
    | Stored                                    // result in the map, waiters not notified yet
    | Done(answer: Answer<V>)

  /** `ticket`, `outcome` and `fired` belong to the call's own set, if it got that far. */
  datatype Task<!K, +V> = Task(
    kind: Kind, key: K, phase: Phase<V>, ticket: Option<nat>, outcome: Option<Outcome<V>>, fired: bool)

  datatype State<!K, +V> = State(entries: map<K, TokenState<V>>, tasks: seq<Task<K, V>>, counter: nat)

  function Init<K, V>(): State<K, V> { State(map[], [], 0) }

  datatype Step<!K, +V> =
    | Call(kind: Kind, key: K)
    | Read(t: nat)
    | Register(t: nat)
    | Enter(t: nat)
    | Check(t: nat)
    | Upsert(t: nat)
    | Resolve(t: nat, outcome: Outcome<V>)
    | Store(t: nat)
    | Notify(t: nat)

  ghost predicate Enabled<K, V>(s: State<K, V>, step: Step<K, V>) {
    match step
    case Call(_, _) => true
    case Read(t) => t < |s.tasks| && s.tasks[t].phase.Reading?
    case Register(t) => t < |s.tasks| && s.tasks[t].phase.HasNotify? && s.tasks[t].phase.n < |s.tasks|
    case Enter(t) => t < |s.tasks| && s.tasks[t].phase.Entering?
    case Check(t) => t < |s.tasks| && s.tasks[t].phase.Checking?
    case Upsert(t) => t < |s.tasks| && s.tasks[t].phase.Checked? && s.tasks[t].ticket.Some?
    case Resolve(t, _) => t < |s.tasks| && s.tasks[t].phase.InFlight?
    case Store(t) =>
      t < |s.tasks| && s.tasks[t].phase.Resolved? && s.tasks[t].ticket.Some? && s.tasks[t].outcome.Some?
    case Notify(t) =>
      t < |s.tasks| && s.tasks[t].phase.Stored? && s.tasks[t].ticket.Some? && s.tasks[t].outcome.Some?
  }

  /** Where a call goes when its get yields no entry. */
  function AfterNothing<V>(kind: Kind): Phase<V> {
    if kind.GetTokenCall? then Entering else Done(Nothing)
  }

  /** What a reader does when its Notify fires: read again, unless it has read often enough. */
  function Woken<K, V>(task: Task<K, V>, t: nat): Task<K, V> {
    if task.phase.Waiting? && task.phase.n == t then
      task.(phase := if task.phase.readsDone < MAX_READS then Reading(task.phase.readsDone) else AfterNothing(task.kind))
    else task
  }

  function StateOf<V>(ticket: nat, outcome: Outcome<V>, t: nat): TokenState<V> {
    TokenState(TokenId(ticket), if outcome.Produced? then Ready(outcome.value) else Failed, t)
  }

  function ReadPhase<V>(kind: Kind, seen: Option<TokenState<V>>, readsDone: nat): Phase<V> {
    match seen
    case None => AfterNothing(kind)
    case Some(token) =>
      match token.state
      case Ready(_) => Done(Entry(token))
      case Failed => Done(ReadError(token.id))
      case Updating(n) => HasNotify(readsDone + 1, n)
  }

  function Lookup<K, V>(entries: map<K, V>, key: K): Option<V> {
    if key in entries then Some(entries[key]) else None
  }

  ghost function Apply<K, V>(s: State<K, V>, step: Step<K, V>): State<K, V>
    requires Enabled(s, step)
  {
    if step.Call? then
      s.(tasks := s.tasks + [Task(step.kind, step.key, if step.kind.SetCall? then Entering else Reading(0),
                                  None, None, false)])
    else
      var t := step.t;
      var task := s.tasks[t];
      match step
      case Call(_, _) => s
      case Read(_) =>
        s.(tasks := s.tasks[t := task.(phase := ReadPhase(task.kind, Lookup(s.entries, task.key), task.phase.readsDone))])
      case Register(_) =>
        s.(tasks := s.tasks[t := task.(phase := Waiting(task.phase.readsDone, task.phase.n, s.tasks[task.phase.n].fired))])
      case Enter(_) =>
        s.(tasks := s.tasks[t := task.(phase := Checking, ticket := Some(s.counter))], counter := s.counter + 1)
      case Check(_) =>
        if task.key in s.entries && s.entries[task.key].state.Updating? then
          s.(tasks := s.tasks[t := task.(phase := Done(UpdateAlreadyInProgress(s.entries[task.key].id)))])
        else s.(tasks := s.tasks[t := task.(phase := Checked)])
      case Upsert(_) =>
        s.(entries := s.entries[task.key := TokenState(TokenId(task.ticket.value), Updating(t), t)],
           tasks := s.tasks[t := task.(phase := InFlight)])
      case Resolve(_, outcome) =>
        s.(tasks := s.tasks[t := task.(phase := Resolved, outcome := Some(outcome))])
      case Store(_) =>
        var token := StateOf(task.ticket.value, task.outcome.value, t);
        s.(entries := if task.key in s.entries then s.entries[task.key := token] else s.entries,
           tasks := s.tasks[t := task.(phase := Stored)])
      case Notify(_) =>
        var answer := if task.outcome.value.Produced?
                      then Entry(StateOf(task.ticket.value, task.outcome.value, t)) else InnerFutureError;
        var awake := seq(|s.tasks|, u requires 0 <= u < |s.tasks| => Woken(s.tasks[u], t));
        s.(tasks := awake[t := task.(phase := Done(answer), fired := true)])
  }

  ghost predicate CanRun<K, V>(s: State<K, V>, steps: seq<Step<K, V>>)
    decreases |steps|
  {
    steps == [] || (Enabled(s, steps[0]) && CanRun(Apply(s, steps[0]), steps[1..]))
  }

  ghost function Run<K, V>(s: State<K, V>, steps: seq<Step<K, V>>): State<K, V>
    requires CanRun(s, steps)
    decreases |steps|
  {
    if steps == [] then s else Run(Apply(s, steps[0]), steps[1..])
  }

  // ----- the invariant

  /** A set past its upsert whose result is not in the map yet. */
  predicate Updates<K, V>(task: Task<K, V>) { task.phase.InFlight? || task.phase.Resolved? }

  /** A set past its upsert. */
  predicate Upserted<K, V>(task: Task<K, V>) { Updates(task) || task.phase.Stored? || task.fired }

  predicate EndedSet<K, V>(task: Task<K, V>) {
    !task.phase.Checking? && !task.phase.Checked? && !Updates(task) && !task.phase.Stored?
  }

  /** `token` is the Ready or Failed state that set t on that key made of its future's outcome. */
  ghost predicate Made<K, V>(s: State<K, V>, token: TokenState<V>, key: K) {
    && token.author < |s.tasks|
    && var setter := s.tasks[token.author];
       && setter.key == key && setter.ticket.Some? && setter.outcome.Some?
       && token == StateOf(setter.ticket.value, setter.outcome.value, token.author)
  }

  ghost predicate EntryOk<K, V>(s: State<K, V>, key: K)
    requires key in s.entries
  {
    var token := s.entries[key];
    if token.state.Updating? then
      && token.author == token.state.notify < |s.tasks|
      && s.tasks[token.author].key == key && Updates(s.tasks[token.author])
      && s.tasks[token.author].ticket.Some? && token.id == TokenId(s.tasks[token.author].ticket.value)
    else Made(s, token, key)
  }

  ghost predicate ReaderOk<K, V>(s: State<K, V>, task: Task<K, V>) {
    && (task.phase.Reading? ==> task.phase.readsDone < MAX_READS)
    && (task.phase.HasNotify? || task.phase.Waiting? ==>
          && 1 <= task.phase.readsDone <= MAX_READS && task.phase.n < |s.tasks|
          && s.tasks[task.phase.n].key == task.key && Upserted(s.tasks[task.phase.n]))
    && (task.phase.Waiting? ==> (task.phase.late <==> s.tasks[task.phase.n].fired))
  }

  ghost predicate SetterOk<K, V>(s: State<K, V>, task: Task<K, V>) {
    && (task.phase.Checking? || task.phase.Checked? || Updates(task) || task.phase.Stored? ==>
          task.ticket.Some? && !task.fired)
    && (task.phase.Reading? || task.phase.HasNotify? || task.phase.Waiting? || task.phase.Entering? ==>
          task.ticket.None? && !task.fired)
    && (task.ticket.Some? ==> task.ticket.value < s.counter)
    && (Updates(task) ==> task.key in s.entries)
    && (task.phase.Resolved? || task.phase.Stored? <==> task.outcome.Some? && !task.fired)
    && (task.fired ==> task.ticket.Some? && task.outcome.Some? && task.phase.Done?)
    && (task.phase.Done? && task.phase.answer.Entry? ==>
          Made(s, task.phase.answer.token, task.key) && task.phase.answer.token.state.Ready?)
  }

  ghost predicate Inv<K, V>(s: State<K, V>) {
    && (forall k :: k in s.entries ==> EntryOk(s, k))
    && (forall t :: 0 <= t < |s.tasks| ==> ReaderOk(s, s.tasks[t]) && SetterOk(s, s.tasks[t]))
  }

  /** What no step undoes. */
  ghost predicate Later<K, V>(s: State<K, V>, s': State<K, V>) {
    && |s.tasks| <= |s'.tasks| && s.counter <= s'.counter && s.entries.Keys <= s'.entries.Keys
    && (forall t :: 0 <= t < |s.tasks| ==> TaskLater(s.tasks[t], s'.tasks[t]))
  }

  ghost predicate TaskLater<K, V>(a: Task<K, V>, b: Task<K, V>) {
    && b.key == a.key && b.kind == a.kind
    && (a.ticket.Some? ==> b.ticket == a.ticket)
    && (a.outcome.Some? ==> b.outcome == a.outcome)
    && (a.fired ==> b.fired)
    && (Upserted(a) ==> Upserted(b))
  }

  lemma StepLater<K, V>(s: State<K, V>, step: Step<K, V>)
    requires Inv(s) && Enabled(s, step)
    ensures Later(s, Apply(s, step))
  {
    var s' := Apply(s, step);
    forall t | 0 <= t < |s.tasks| ensures TaskLater(s.tasks[t], s'.tasks[t]) {
      assert ReaderOk(s, s.tasks[t]) && SetterOk(s, s.tasks[t]);
    }
  }

  lemma EntriesStep<K, V>(s: State<K, V>, step: Step<K, V>, key: K)
    requires Inv(s) && Enabled(s, step) && key in Apply(s, step).entries
    ensures EntryOk(Apply(s, step), key)
  {
    StepLater(s, step);
    if !step.Call? {
      assert SetterOk(s, s.tasks[step.t]);
    }
    if key in s.entries {
      assert EntryOk(s, key);
      assert TaskLater(s.tasks[s.entries[key].author], Apply(s, step).tasks[s.entries[key].author]);
    }
  }

  lemma ReadersStep<K, V>(s: State<K, V>, step: Step<K, V>, u: nat)
    requires Inv(s) && Enabled(s, step) && u < |Apply(s, step).tasks|
    ensures ReaderOk(Apply(s, step), Apply(s, step).tasks[u])
  {
    var s' := Apply(s, step);
    StepLater(s, step);
    if u < |s.tasks| {
      var task := s.tasks[u];
      assert ReaderOk(s, task) && SetterOk(s, task);
      if task.phase.HasNotify? || task.phase.Waiting? {
        assert TaskLater(s.tasks[task.phase.n], s'.tasks[task.phase.n]);
        assert SetterOk(s, s.tasks[task.phase.n]);
      }
      if step.Read? && step.t == u && task.key in s.entries {
        assert EntryOk(s, task.key);
        assert TaskLater(s.tasks[s.entries[task.key].author], s'.tasks[s.entries[task.key].author]);
      }
    }
  }

  lemma MadeLater<K, V>(s: State<K, V>, s': State<K, V>, token: TokenState<V>, key: K)
    requires Later(s, s') && Made(s, token, key)
    ensures Made(s', token, key)
  {
    assert TaskLater(s.tasks[token.author], s'.tasks[token.author]);
  }

  /** Of a call that the step does not belong to, at most a reader's phase changes. */
  lemma OthersKept<K, V>(s: State<K, V>, step: Step<K, V>, u: nat)
    requires Enabled(s, step) && u < |s.tasks| && (step.Call? || step.t != u)
    ensures Apply(s, step).tasks[u] == if step.Notify? then Woken(s.tasks[u], step.t) else s.tasks[u]
  {}

  lemma SettersOther<K, V>(s: State<K, V>, step: Step<K, V>, u: nat)
    requires Inv(s) && Enabled(s, step) && u < |s.tasks| && (step.Call? || step.t != u)
    requires Later(s, Apply(s, step))
    ensures SetterOk(Apply(s, step), Apply(s, step).tasks[u])
  {
    var task := s.tasks[u];
    OthersKept(s, step, u);
    assert SetterOk(s, task);
    if task.phase.Done? && task.phase.answer.Entry? {
      MadeLater(s, Apply(s, step), task.phase.answer.token, task.key);
    }
  }

  lemma SettersOwn<K, V>(s: State<K, V>, step: Step<K, V>, u: nat)
    requires Inv(s) && Enabled(s, step) && !step.Call? && step.t == u
    requires Later(s, Apply(s, step))
    ensures SetterOk(Apply(s, step), Apply(s, step).tasks[u])
  {
    var task := s.tasks[u];
    assert SetterOk(s, task);
    if step.Read? && task.key in s.entries {
      assert EntryOk(s, task.key);
      if s.entries[task.key].state.Ready? {
        MadeLater(s, Apply(s, step), s.entries[task.key], task.key);
      }
    }
  }

  lemma SettersStep<K, V>(s: State<K, V>, step: Step<K, V>, u: nat)
    requires Inv(s) && Enabled(s, step) && u < |Apply(s, step).tasks|
    ensures SetterOk(Apply(s, step), Apply(s, step).tasks[u])
  {
    StepLater(s, step);
    if u < |s.tasks| {
      if step.Call? || step.t != u {
        SettersOther(s, step, u);
      } else {
        SettersOwn(s, step, u);
      }
    }
  }

  lemma StepInv<K, V>(s: State<K, V>, step: Step<K, V>)
    requires Inv(s) && Enabled(s, step)
    ensures Inv(Apply(s, step)) && Later(s, Apply(s, step))
  {
    var s' := Apply(s, step);
    StepLater(s, step);
    forall k | k in s'.entries ensures EntryOk(s', k) { EntriesStep(s, step, k); }
    forall u | 0 <= u < |s'.tasks| ensures ReaderOk(s', s'.tasks[u]) && SetterOk(s', s'.tasks[u]) {
      ReadersStep(s, step, u);
      SettersStep(s, step, u);
    }
  }

  lemma LaterTransitive<K, V>(a: State<K, V>, b: State<K, V>, c: State<K, V>)
    requires Later(a, b) && Later(b, c)
    ensures Later(a, c)
  {
    forall t | 0 <= t < |a.tasks| ensures TaskLater(a.tasks[t], c.tasks[t]) {
      assert TaskLater(a.tasks[t], b.tasks[t]) && TaskLater(b.tasks[t], c.tasks[t]);
    }
  }

  /** Safety over whole runs, and nothing that has happened is undone. */
  lemma {:induction false} RunInv<K, V>(s: State<K, V>, steps: seq<Step<K, V>>)
    requires Inv(s) && CanRun(s, steps)
    ensures Inv(Run(s, steps)) && Later(s, Run(s, steps))
    decreases |steps|
  {
    if steps != [] {
      StepInv(s, steps[0]);
      RunInv(Apply(s, steps[0]), steps[1..]);
      LaterTransitive(s, Apply(s, steps[0]), Run(s, steps));
    } else {
      assert forall t :: 0 <= t < |s.tasks| ==> TaskLater(s.tasks[t], s.tasks[t]);
    }
  }

  // ----- what every interleaving guarantees

  /** Every entry a call returns is Ready, and its value was produced by the future of a set on the very
      key the call asked for; the id it carries is that set's id. */
  lemma ReturnedEntries<K, V>(steps: seq<Step<K, V>>, t: nat)
    requires CanRun(Init<K, V>(), steps)
    requires var s := Run(Init<K, V>(), steps);
      t < |s.tasks| && s.tasks[t].phase.Done? && s.tasks[t].phase.answer.Entry?
    ensures var s := Run(Init<K, V>(), steps);
      var token := s.tasks[t].phase.answer.token;
      && token.state.Ready? && token.author < |s.tasks|
      && s.tasks[token.author].key == s.tasks[t].key
      && s.tasks[token.author].outcome == Some(Produced(token.state.value))
      && s.tasks[token.author].ticket.Some? && token.id == TokenId(s.tasks[token.author].ticket.value)
  {
    RunInv(Init<K, V>(), steps);
    var s := Run(Init<K, V>(), steps);
    assert SetterOk(s, s.tasks[t]);
  }

  /** An entry that is being updated belongs to a set on its key that is still running, so once all sets
      have ended no key is being updated; and a key that is present stays present. */
  lemma UpdatingIsOwned<K, V>(steps: seq<Step<K, V>>, more: seq<Step<K, V>>, key: K)
    requires CanRun(Init<K, V>(), steps) && key in Run(Init<K, V>(), steps).entries
    requires CanRun(Run(Init<K, V>(), steps), more)
    ensures var s := Run(Init<K, V>(), steps);
      && (s.entries[key].state.Updating? ==>
            s.entries[key].state.notify < |s.tasks| &&
            s.tasks[s.entries[key].state.notify].key == key && Updates(s.tasks[s.entries[key].state.notify]))
      && ((forall t :: 0 <= t < |s.tasks| ==> EndedSet(s.tasks[t])) ==> !s.entries[key].state.Updating?)
      && key in Run(s, more).entries
  {
    RunInv(Init<K, V>(), steps);
    var s := Run(Init<K, V>(), steps);
    assert EntryOk(s, key);
    RunInv(s, more);
  }

  // ----- ids

  ghost predicate TicketsInv<K, V>(s: State<K, V>) {
    && (forall t :: 0 <= t < |s.tasks| && s.tasks[t].ticket.Some? ==> s.tasks[t].ticket.value < s.counter)
    && (forall t, u :: 0 <= t < u < |s.tasks| && s.tasks[t].ticket.Some? && s.tasks[u].ticket.Some? ==>
          s.tasks[t].ticket != s.tasks[u].ticket)
  }

  lemma {:induction false} TicketsRun<K, V>(s: State<K, V>, steps: seq<Step<K, V>>)
    requires TicketsInv(s) && CanRun(s, steps)
    ensures TicketsInv(Run(s, steps))
    decreases |steps|
  {
    if steps != [] {
      TicketsRun(Apply(s, steps[0]), steps[1..]);
    }
  }

  /** Two sets carry the same id exactly when their draws are a multiple of 2^32 apart; so with at most
      2^32 sets, ids tell sets apart. */
  lemma IdsDistinct<K, V>(steps: seq<Step<K, V>>, t: nat, u: nat)
    requires CanRun(Init<K, V>(), steps)
    requires var s := Run(Init<K, V>(), steps);
      t < |s.tasks| && u < |s.tasks| && t != u && s.tasks[t].ticket.Some? && s.tasks[u].ticket.Some?
      && s.tasks[t].ticket.value <= s.tasks[u].ticket.value
    ensures var s := Run(Init<K, V>(), steps);
      var a, b := s.tasks[t].ticket.value, s.tasks[u].ticket.value;
      && (TokenId(a) == TokenId(b) <==> (b - a) % 0x1_0000_0000 == 0)
      && (s.counter <= 0x1_0000_0000 ==> TokenId(a) != TokenId(b))
  {
    TicketsRun(Init<K, V>(), steps);
    var s := Run(Init<K, V>(), steps);
    Counter.SameDraw(s.tasks[t].ticket.value, s.tasks[u].ticket.value, ID_RANGE);
  }

  // ----- one future per key

  predicate IsUpdating<K, V>(entries: map<K, TokenState<V>>, key: K) {
    key in entries && entries[key].state.Updating?
  }

  ghost predicate ChecksOn<K, V>(s: State<K, V>, t: nat, key: K) {
    t < |s.tasks| && s.tasks[t].key == key && s.tasks[t].phase.Checked?
  }

  ghost predicate UpdatesOn<K, V>(s: State<K, V>, t: nat, key: K) {
    t < |s.tasks| && s.tasks[t].key == key && Updates(s.tasks[t])
  }

  /** No other set on the key upserts between a set's check and its own upsert. */
  ghost predicate NoOverlap<K, V>(s: State<K, V>, step: Step<K, V>)
    requires Enabled(s, step)
  {
    step.Upsert? ==> forall u: nat :: ChecksOn(s, u, s.tasks[step.t].key) ==> u == step.t
  }

  ghost predicate NoOverlapRun<K, V>(s: State<K, V>, steps: seq<Step<K, V>>)
    requires CanRun(s, steps)
    decreases |steps|
  {
    steps == [] || (NoOverlap(s, steps[0]) && NoOverlapRun(Apply(s, steps[0]), steps[1..]))
  }

  ghost predicate SingleFlight<K, V>(s: State<K, V>) {
    forall t :: 0 <= t < |s.tasks| && Updates(s.tasks[t]) ==> Alone(s, t, s.tasks[t].key)
  }

  /** Set t is the only one on the key past its check, and the map says it is updating. */
  ghost predicate Alone<K, V>(s: State<K, V>, t: nat, key: K) {
    && key in s.entries && s.entries[key].state == Updating(t)
    && forall u :: 0 <= u < |s.tasks| && u != t ==> !UpdatesOn(s, u, key) && !ChecksOn(s, u, key)
  }

  lemma SingleFlightStep<K, V>(s: State<K, V>, step: Step<K, V>)
    requires Inv(s) && SingleFlight(s) && Enabled(s, step) && NoOverlap(s, step)
    ensures SingleFlight(Apply(s, step))
  {
    var s' := Apply(s, step);
    forall t | 0 <= t < |s'.tasks| && Updates(s'.tasks[t])
      ensures Alone(s', t, s'.tasks[t].key)
    {
      AloneStep(s, step, t);
    }
  }

  /** Who comes to check or update a key in a step. */
  lemma NewRival<K, V>(s: State<K, V>, step: Step<K, V>, u: nat, key: K)
    requires Enabled(s, step)
    ensures UpdatesOn(Apply(s, step), u, key) ==> UpdatesOn(s, u, key) || (step == Upsert(u) && ChecksOn(s, u, key))
    ensures ChecksOn(Apply(s, step), u, key) ==>
      ChecksOn(s, u, key) || (step == Check(u) && !(key in s.entries && s.entries[key].state.Updating?))
  {}

  /** Only a set on the key that updates, or upserts, changes what the map says of the key. */
  lemma EntryKept<K, V>(s: State<K, V>, step: Step<K, V>, key: K)
    requires Enabled(s, step) && key in s.entries
    requires step.Store? ==> !UpdatesOn(s, step.t, key)
    requires step.Upsert? ==> !ChecksOn(s, step.t, key)
    ensures key in Apply(s, step).entries && Apply(s, step).entries[key] == s.entries[key]
  {}

  lemma AloneStep<K, V>(s: State<K, V>, step: Step<K, V>, t: nat)
    requires Inv(s) && SingleFlight(s) && Enabled(s, step) && NoOverlap(s, step)
    requires t < |Apply(s, step).tasks| && Updates(Apply(s, step).tasks[t])
    ensures Alone(Apply(s, step), t, Apply(s, step).tasks[t].key)
  {
    var s' := Apply(s, step);
    var key := s'.tasks[t].key;
    assert UpdatesOn(s', t, key);
    assert forall u: nat :: UpdatesOn(s, u, key) ==> Alone(s, u, key);
    NewRival(s, step, t, key);
    if UpdatesOn(s, t, key) {
      assert Alone(s, t, key);
      assert step != Store(t);
      EntryKept(s, step, key);
    }
    forall u | 0 <= u < |s'.tasks| && u != t ensures !UpdatesOn(s', u, key) && !ChecksOn(s', u, key) {
      NewRival(s, step, u, key);
    }
  }

  /** In runs without such an overlap at most one future per key is in flight. */
  lemma {:induction false} OneFuturePerKey<K, V>(s: State<K, V>, steps: seq<Step<K, V>>)
    requires Inv(s) && SingleFlight(s) && CanRun(s, steps) && NoOverlapRun(s, steps)
    ensures Inv(Run(s, steps)) && SingleFlight(Run(s, steps))
    decreases |steps|
  {
    if steps != [] {
      StepInv(s, steps[0]);
      SingleFlightStep(s, steps[0]);
      OneFuturePerKey(Apply(s, steps[0]), steps[1..]);
    }
  }

  // The exact condition is the code's own guard, evaluated again where the set upserts.

  /** At most one set per key is between its upsert and its store. */
  ghost predicate Single<K, V>(s: State<K, V>) {
    forall t, u :: 0 <= t < u < |s.tasks| && Updates(s.tasks[t]) && Updates(s.tasks[u]) ==>
      s.tasks[t].key != s.tasks[u].key
  }

  ghost predicate AlwaysSingle<K, V>(s: State<K, V>, steps: seq<Step<K, V>>)
    requires CanRun(s, steps)
    decreases |steps|
  {
    Single(s) && (steps == [] || AlwaysSingle(Apply(s, steps[0]), steps[1..]))
  }

  /** Every upsert finds its key as its own check found it: not being updated. */
  ghost predicate GuardedUpserts<K, V>(s: State<K, V>, steps: seq<Step<K, V>>)
    requires CanRun(s, steps)
    decreases |steps|
  {
    steps == [] ||
    (!Intrudes(s, steps[0]) && GuardedUpserts(Apply(s, steps[0]), steps[1..]))
  }

  /** The step upserts a key that another set is updating. */
  ghost predicate Intrudes<K, V>(s: State<K, V>, step: Step<K, V>)
    requires Enabled(s, step)
  {
    step.Upsert? && IsUpdating(s.entries, s.tasks[step.t].key)
  }

  /** The map names every set that is updating. */
  ghost predicate Named<K, V>(s: State<K, V>) {
    forall t :: 0 <= t < |s.tasks| && Updates(s.tasks[t]) ==>
      s.tasks[t].key in s.entries && s.entries[s.tasks[t].key].state == Updating(t)
  }

  lemma NamedStep<K, V>(s: State<K, V>, step: Step<K, V>)
    requires Named(s) && Enabled(s, step) && !Intrudes(s, step)
    ensures Named(Apply(s, step))
  {
    var s' := Apply(s, step);
    forall t | 0 <= t < |s'.tasks| && Updates(s'.tasks[t])
      ensures s'.tasks[t].key in s'.entries && s'.entries[s'.tasks[t].key].state == Updating(t)
    {
      NewRival(s, step, t, s'.tasks[t].key);
      assert UpdatesOn(s', t, s'.tasks[t].key);
    }
  }

  /** An intruder puts a second future for its key in flight. */
  lemma IntruderIsSecond<K, V>(s: State<K, V>, step: Step<K, V>)
    requires Inv(s) && Enabled(s, step) && Intrudes(s, step)
    ensures !Single(Apply(s, step))
  {
    var key, s' := s.tasks[step.t].key, Apply(s, step);
    assert EntryOk(s, key);
    var u := s.entries[key].author;
    assert u != step.t && Updates(s'.tasks[u]) && Updates(s'.tasks[step.t]);
  }

  lemma {:induction false} SingleIff<K, V>(s: State<K, V>, steps: seq<Step<K, V>>)
    requires Inv(s) && Named(s) && CanRun(s, steps)
    ensures AlwaysSingle(s, steps) <==> GuardedUpserts(s, steps)
    ensures GuardedUpserts(s, steps) ==> Named(Run(s, steps))
    decreases |steps|
  {
    assert Single(s);
    if steps != [] {
      StepInv(s, steps[0]);
      if Intrudes(s, steps[0]) {
        IntruderIsSecond(s, steps[0]);
      } else {
        NamedStep(s, steps[0]);
        SingleIff(Apply(s, steps[0]), steps[1..]);
      }
    }
  }

  /** Exactly when no key ever has two futures in flight: every set that upserts finds its key not being
      updated then, as it found it at its check. */
  lemma OneFutureIff<K, V>(steps: seq<Step<K, V>>)
    requires CanRun(Init<K, V>(), steps)
    ensures AlwaysSingle(Init<K, V>(), steps) <==> GuardedUpserts(Init<K, V>(), steps)
  {
    SingleIff(Init<K, V>(), steps);
  }

  /** Runs without overlapping checks are among them. */
  lemma {:induction false} NoOverlapIsGuarded<K, V>(s: State<K, V>, steps: seq<Step<K, V>>)
    requires Inv(s) && SingleFlight(s) && CanRun(s, steps) && NoOverlapRun(s, steps)
    ensures GuardedUpserts(s, steps)
    decreases |steps|
  {
    if steps != [] {
      if steps[0].Upsert? && IsUpdating(s.entries, s.tasks[steps[0].t].key) {
        var key := s.tasks[steps[0].t].key;
        assert EntryOk(s, key);
        assert Alone(s, s.entries[key].author, key);
        assert ChecksOn(s, steps[0].t, key);
      }
      StepInv(s, steps[0]);
      SingleFlightStep(s, steps[0]);
      NoOverlapIsGuarded(Apply(s, steps[0]), steps[1..]);
    }
  }

  /** In such runs a set that checks while the update of its key is in flight is refused and leaves the
      map alone. */
  lemma RefusedMeanwhile<K, V>(steps: seq<Step<K, V>>, t: nat, u: nat)
    requires CanRun(Init<K, V>(), steps) && GuardedUpserts(Init<K, V>(), steps)
    requires var s := Run(Init<K, V>(), steps); Enabled(s, Check(t)) && UpdatesOn(s, u, s.tasks[t].key)
    ensures var s := Run(Init<K, V>(), steps); var s' := Apply(s, Check(t));
      && s.tasks[u].ticket.Some?
      && s'.tasks[t].phase == Done(UpdateAlreadyInProgress(TokenId(s.tasks[u].ticket.value)))
      && s'.entries == s.entries
  {
    SingleIff(Init<K, V>(), steps);
    RunInv(Init<K, V>(), steps);
    var s := Run(Init<K, V>(), steps);
    assert EntryOk(s, s.tasks[t].key);
  }

  /** The condition is needed: whenever two sets on a key are both past their check, two steps put two
      futures for that key in flight. */
  lemma OverlapBreaksIt<K, V>(s: State<K, V>, t: nat, u: nat, key: K)
    requires Inv(s) && t != u && ChecksOn(s, t, key) && ChecksOn(s, u, key)
    ensures Enabled(s, Upsert(t)) && Enabled(Apply(s, Upsert(t)), Upsert(u))
    ensures var s' := Apply(Apply(s, Upsert(t)), Upsert(u));
      UpdatesOn(s', t, key) && UpdatesOn(s', u, key)
  {
    assert SetterOk(s, s.tasks[t]) && SetterOk(s, s.tasks[u]);
  }

  /** ...and such a state is reached from the empty store. */
  lemma OverlapHappens<K, V>(key: K) returns (steps: seq<Step<K, V>>)
    ensures CanRun(Init<K, V>(), steps)
    ensures var s := Run(Init<K, V>(), steps); ChecksOn(s, 0, key) && ChecksOn(s, 1, key)
  {
    var s0 := Init<K, V>();
    var s1 := Apply(s0, Call(SetCall, key));
    var s2 := Apply(s1, Call(SetCall, key));
    var s3 := Apply(s2, Enter(0));
    var s4 := Apply(s3, Enter(1));
    var s5 := Apply(s4, Check(0));
    var s6 := Apply(s5, Check(1));
    assert ChecksOn(s6, 0, key) && ChecksOn(s6, 1, key);
    steps := [];
    RunCons(s5, Check(1), steps); steps := [Check(1)] + steps;
    RunCons(s4, Check(0), steps); steps := [Check(0)] + steps;
    RunCons(s3, Enter(1), steps); steps := [Enter(1)] + steps;
    RunCons(s2, Enter(0), steps); steps := [Enter(0)] + steps;
    RunCons(s1, Call(SetCall, key), steps); steps := [Call(SetCall, key)] + steps;
    RunCons(s0, Call(SetCall, key), steps); steps := [Call(SetCall, key)] + steps;
  }

  // ----- wake-ups

  ghost predicate WaitsOn<K, V>(s: State<K, V>, u: nat, n: nat, late: bool) {
    u < |s.tasks| && s.tasks[u].phase.Waiting? && s.tasks[u].phase.n == n && s.tasks[u].phase.late == late
  }

  /** The steps that are left to a set past its upsert; none of them ever has to wait. */
  function RestOfSet<K, V>(task: Task<K, V>, n: nat, outcome: Outcome<V>): seq<Step<K, V>> {
    match task.phase
    case InFlight => [Resolve(n, outcome), Store(n), Notify(n)]
    case Resolved => [Store(n), Notify(n)]
    case _ => [Notify(n)]
  }

  lemma RunCons<K, V>(s: State<K, V>, a: Step<K, V>, rest: seq<Step<K, V>>)
    requires Enabled(s, a) && CanRun(Apply(s, a), rest)
    ensures CanRun(s, [a] + rest) && Run(s, [a] + rest) == Run(Apply(s, a), rest)
  {
    assert ([a] + rest)[1..] == rest;
  }

  /** A step of the set a reader waits for, short of the notification. */
  lemma SetGoesOn<K, V>(s: State<K, V>, u: nat, n: nat, outcome: Outcome<V>)
    requires WaitsOn(s, u, n, false) && n < |s.tasks| && Updates(s.tasks[n]) && SetterOk(s, s.tasks[n])
    ensures var rest := RestOfSet(s.tasks[n], n, outcome);
      && Enabled(s, rest[0])
      && var s' := Apply(s, rest[0]);
         && WaitsOn(s', u, n, false) && s'.tasks[u] == s.tasks[u] && n < |s'.tasks|
         && rest == [rest[0]] + RestOfSet(s'.tasks[n], n, outcome)
  {}

  /** A reader that registered before its Notify fired is waiting for a set that is still running, and the
      remaining steps of that set, which are enabled whatever everybody else does, wake it. */
  lemma {:induction false} EarlyReaderIsWoken<K, V>(s: State<K, V>, u: nat, n: nat, outcome: Outcome<V>)
    requires Inv(s) && WaitsOn(s, u, n, false)
    ensures n < |s.tasks| && !EndedSet(s.tasks[n])
    ensures CanRun(s, RestOfSet(s.tasks[n], n, outcome))
    ensures var s' := Run(s, RestOfSet(s.tasks[n], n, outcome));
      u < |s'.tasks| && s'.tasks[u] == Woken(s.tasks[u], n) && !s'.tasks[u].phase.Waiting?
    decreases |RestOfSet(s.tasks[s.tasks[u].phase.n], n, outcome)|
  {
    assert ReaderOk(s, s.tasks[u]) && SetterOk(s, s.tasks[n]);
    var rest := RestOfSet(s.tasks[n], n, outcome);
    if s.tasks[n].phase.Stored? {
      assert CanRun(Apply(s, rest[0]), []);
      assert rest[1..] == [];
    } else {
      SetGoesOn(s, u, n, outcome);
      var s' := Apply(s, rest[0]);
      StepInv(s, rest[0]);
      EarlyReaderIsWoken(s', u, n, outcome);
      RunCons(s, rest[0], RestOfSet(s'.tasks[n], n, outcome));
    }
  }

  /** Whenever a Notify fires, everybody registered on it goes on. */
  lemma NotifyWakesAll<K, V>(s: State<K, V>, n: nat, u: nat)
    requires Inv(s) && Enabled(s, Notify(n)) && u < |s.tasks| && s.tasks[u].phase.Waiting? && s.tasks[u].phase.n == n
    ensures WaitsOn(s, u, n, false)
    ensures !Apply(s, Notify(n)).tasks[u].phase.Waiting?
  {
    assert ReaderOk(s, s.tasks[u]) && SetterOk(s, s.tasks[n]);
  }

  /** Once all sets have ended, whoever still waits registered after its Notify had fired. */
  lemma OnlyLateReadersRemain<K, V>(steps: seq<Step<K, V>>, u: nat)
    requires CanRun(Init<K, V>(), steps)
    requires var s := Run(Init<K, V>(), steps);
      && (forall t :: 0 <= t < |s.tasks| ==> EndedSet(s.tasks[t]))
      && u < |s.tasks| && s.tasks[u].phase.Waiting?
    ensures var s := Run(Init<K, V>(), steps); WaitsOn(s, u, s.tasks[u].phase.n, true)
  {
    RunInv(Init<K, V>(), steps);
    var s := Run(Init<K, V>(), steps);
    assert ReaderOk(s, s.tasks[u]);
    assert SetterOk(s, s.tasks[s.tasks[u].phase.n]);
  }

  /** ...and such a reader waits for ever, because a Notify fires once and keeps no permit. */
  lemma {:induction false} LateReaderWaitsForever<K, V>(s: State<K, V>, steps: seq<Step<K, V>>, u: nat, n: nat)
    requires Inv(s) && WaitsOn(s, u, n, true) && CanRun(s, steps)
    ensures WaitsOn(Run(s, steps), u, n, true)
    decreases |steps|
  {
    if steps != [] {
      assert ReaderOk(s, s.tasks[u]) && SetterOk(s, s.tasks[n]);
      StepInv(s, steps[0]);
      LateReaderWaitsForever(Apply(s, steps[0]), steps[1..], u, n);
    }
  }

  function Reads<K, V>(steps: seq<Step<K, V>>, t: nat): nat {
    if steps == [] then 0 else (if steps[0].Read? && steps[0].t == t then 1 else 0) + Reads(steps[1..], t)
  }

  ghost function ReadsLeft<K, V>(s: State<K, V>, t: nat): nat {
    if t >= |s.tasks| then MAX_READS else
      var ph := s.tasks[t].phase;
      if (ph.Reading? || ph.HasNotify? || ph.Waiting?) && ph.readsDone <= MAX_READS
      then MAX_READS - ph.readsDone else 0
  }

  /** A call reads the map at most nine times, whatever happens around it. */
  lemma {:induction false} ReadBudget<K, V>(s: State<K, V>, steps: seq<Step<K, V>>, t: nat)
    requires Inv(s) && CanRun(s, steps)
    ensures Reads(steps, t) <= ReadsLeft(s, t) <= 9
    decreases |steps|
  {
    if steps != [] {
      StepInv(s, steps[0]);
      if t < |s.tasks| {
        assert ReaderOk(s, s.tasks[t]);
      }
      ReadBudget(Apply(s, steps[0]), steps[1..], t);
    }
  }

  // ----- get_token

  /** No call on the key can still come to ask for a token: none has read nothing, none has spent its
      ninth read, and the key holds a result. */
  ghost predicate Quiet<K, V>(s: State<K, V>, key: K) {
    && key in s.entries && !s.entries[key].state.Updating?
    && forall t :: 0 <= t < |s.tasks| && s.tasks[t].key == key ==> QuietCall(s.tasks[t])
  }

  predicate QuietCall<K, V>(task: Task<K, V>) {
    && !task.kind.SetCall?
    && (task.phase.Reading? || task.phase.Done? ||
        ((task.phase.HasNotify? || task.phase.Waiting?) && task.phase.readsDone < MAX_READS))
  }

  /** What a call on a key that holds this result answers. */
  function AnswerFor<V>(token: TokenState<V>): Answer<V> {
    if token.state.Ready? then Entry(token) else ReadError(token.id)
  }

  ghost predicate OnlyGetToken<K, V>(steps: seq<Step<K, V>>, key: K) {
    forall i :: 0 <= i < |steps| && steps[i].Call? && steps[i].key == key ==> !steps[i].kind.SetCall?
  }

  /** From a quiet state on, no continuation driven through get_token ever upserts, that is, ever issues
      a token request for the key; the entry, a failure included, stays as it is for good, and every call
      that still finishes answers with it. */
  lemma {:induction false} NoMoreRequests<K, V>(s: State<K, V>, steps: seq<Step<K, V>>, key: K)
    requires Inv(s) && Quiet(s, key) && CanRun(s, steps) && OnlyGetToken(steps, key)
    ensures var s' := Run(s, steps);
      && Quiet(s', key) && s'.entries[key] == s.entries[key] && |s.tasks| <= |s'.tasks|
      && (forall i :: 0 <= i < |steps| && steps[i].Upsert? ==>
            steps[i].t < |s'.tasks| && s'.tasks[steps[i].t].key != key)
      && (forall t :: 0 <= t < |s'.tasks| && s'.tasks[t].key == key && s'.tasks[t].phase.Done? ==>
            (t < |s.tasks| && s'.tasks[t] == s.tasks[t]) ||
            s'.tasks[t].phase.answer == AnswerFor(s.entries[key]))
    decreases |steps|
  {
    if steps != [] {
      var s1, rest := Apply(s, steps[0]), steps[1..];
      StepInv(s, steps[0]);
      QuietStep(s, steps[0], key);
      NoMoreRequests(s1, rest, key);
      RunInv(s1, rest);
      var s' := Run(s1, rest);
      forall i | 0 <= i < |steps| && steps[i].Upsert?
        ensures steps[i].t < |s'.tasks| && s'.tasks[steps[i].t].key != key
      {
        if i == 0 {
          assert TaskLater(s1.tasks[steps[0].t], s'.tasks[steps[0].t]);
        } else {
          assert rest[i - 1] == steps[i];
        }
      }
    }
  }

  lemma QuietStep<K, V>(s: State<K, V>, step: Step<K, V>, key: K)
    requires Inv(s) && Quiet(s, key) && Enabled(s, step)
    requires step.Call? && step.key == key ==> !step.kind.SetCall?
    ensures var s' := Apply(s, step);
      && Quiet(s', key) && s'.entries[key] == s.entries[key]
      && (step.Upsert? ==> s.tasks[step.t].key != key)
      && (forall t :: 0 <= t < |s'.tasks| && s'.tasks[t].key == key && s'.tasks[t].phase.Done? ==>
            (t < |s.tasks| && s'.tasks[t] == s.tasks[t]) ||
            s'.tasks[t].phase.answer == AnswerFor(s.entries[key]))
  {
    var s' := Apply(s, step);
    forall t | 0 <= t < |s'.tasks| && s'.tasks[t].key == key
      ensures QuietCall(s'.tasks[t])
      ensures s'.tasks[t].phase.Done? ==>
        (t < |s.tasks| && s'.tasks[t] == s.tasks[t]) || s'.tasks[t].phase.answer == AnswerFor(s.entries[key])
    {
      QuietCallStep(s, step, key, t);
    }
    QuietEntryStep(s, step, key);
  }

  lemma QuietEntryStep<K, V>(s: State<K, V>, step: Step<K, V>, key: K)
    requires Quiet(s, key) && Enabled(s, step)
    ensures key in Apply(s, step).entries && Apply(s, step).entries[key] == s.entries[key]
    ensures step.Upsert? ==> s.tasks[step.t].key != key
  {
    if !step.Call? && s.tasks[step.t].key == key {
      assert QuietCall(s.tasks[step.t]);
    }
  }

  lemma QuietCallStep<K, V>(s: State<K, V>, step: Step<K, V>, key: K, t: nat)
    requires Inv(s) && Quiet(s, key) && Enabled(s, step) && t < |Apply(s, step).tasks|
    requires step.Call? && step.key == key ==> !step.kind.SetCall?
    requires Apply(s, step).tasks[t].key == key
    ensures var task := Apply(s, step).tasks[t];
      && QuietCall(task)
      && (task.phase.Done? ==> (t < |s.tasks| && task == s.tasks[t]) || task.phase.answer == AnswerFor(s.entries[key]))
  {
    if t < |s.tasks| {
      assert s.tasks[t].key == key && QuietCall(s.tasks[t]) && ReaderOk(s, s.tasks[t]);
    }
  }

  // ----- when exactly another request can still come

  ghost predicate Settled<K, V>(s: State<K, V>, key: K) { key in s.entries && !s.entries[key].state.Updating? }

  /** Call t on the key may still request a token: it is on its way to its upsert, or it is a get_token that
      has spent its ninth read on a Notify that has not fired. */
  ghost predicate Asks<K, V>(s: State<K, V>, t: nat, key: K) {
    && t < |s.tasks| && s.tasks[t].key == key
    && (Asking(s.tasks[t].phase) || SpentReader(s, s.tasks[t]))
  }

  predicate Asking<V>(ph: Phase<V>) { ph.Entering? || ph.Checking? || ph.Checked? }

  ghost predicate SpentReader<K, V>(s: State<K, V>, task: Task<K, V>) {
    && task.kind.GetTokenCall? && (task.phase.HasNotify? || task.phase.Waiting?)
    && task.phase.readsDone == MAX_READS && task.phase.n < |s.tasks| && !s.tasks[task.phase.n].fired
  }

  /** Some step of the run issues a request for the key. */
  ghost predicate Requests<K, V>(s: State<K, V>, steps: seq<Step<K, V>>, key: K)
    requires CanRun(s, steps)
    decreases |steps|
  {
    steps != [] &&
    ((steps[0].Upsert? && s.tasks[steps[0].t].key == key) || Requests(Apply(s, steps[0]), steps[1..], key))
  }

  lemma SettledStep<K, V>(s: State<K, V>, step: Step<K, V>, key: K)
    requires Settled(s, key) && Enabled(s, step) && (step.Upsert? ==> s.tasks[step.t].key != key)
    ensures Settled(Apply(s, step), key)
  {}

  /** A step of a call that does not ask, on a key that holds a result, does not make it ask. */
  lemma OwnStepAsksNot<K, V>(s: State<K, V>, step: Step<K, V>, key: K, t: nat)
    requires Inv(s) && Settled(s, key) && Enabled(s, step) && !step.Call? && step.t == t
    requires s.tasks[t].key == key && !Asks(s, t, key)
    ensures !Asks(Apply(s, step), t, key)
  {
    var task := s.tasks[t];
    assert ReaderOk(s, task);
    if task.phase.HasNotify? {
      assert s.tasks[task.phase.n].key == key;
    }
  }

  lemma NobodyAsksStep<K, V>(s: State<K, V>, step: Step<K, V>, key: K, t: nat)
    requires Inv(s) && Settled(s, key) && Enabled(s, step) && !Asks(s, t, key)
    requires step.Call? && step.key == key ==> !step.kind.SetCall?
    ensures !Asks(Apply(s, step), t, key)
  {
    if t < |s.tasks| && s.tasks[t].key == key {
      if !step.Call? && step.t == t {
        OwnStepAsksNot(s, step, key, t);
      } else {
        OthersKept(s, step, t);
        var task := s.tasks[t];
        assert ReaderOk(s, task);
        StepLater(s, step);
        if task.phase.HasNotify? || task.phase.Waiting? {
          assert SetterOk(s, s.tasks[task.phase.n]);
          assert TaskLater(s.tasks[task.phase.n], Apply(s, step).tasks[task.phase.n]);
        }
      }
    } else if t < |s.tasks| {
      StepLater(s, step);
      assert TaskLater(s.tasks[t], Apply(s, step).tasks[t]);
    }
  }

  lemma {:induction false} NobodyRequests<K, V>(s: State<K, V>, steps: seq<Step<K, V>>, key: K)
    requires Inv(s) && Settled(s, key) && CanRun(s, steps) && OnlyGetToken(steps, key)
    requires forall t: nat :: !Asks(s, t, key)
    ensures !Requests(s, steps, key)
    decreases |steps|
  {
    if steps != [] {
      var s1 := Apply(s, steps[0]);
      if steps[0].Upsert? {
        assert !Asks(s, steps[0].t, key);
      }
      StepInv(s, steps[0]);
      SettledStep(s, steps[0], key);
      forall t: nat ensures !Asks(s1, t, key) { NobodyAsksStep(s, steps[0], key, t); }
      NobodyRequests(s1, steps[1..], key);
    }
  }

  lemma {:induction false} SettledRun<K, V>(s: State<K, V>, steps: seq<Step<K, V>>, key: K)
    requires Settled(s, key) && CanRun(s, steps) && forall i :: 0 <= i < |steps| ==> !steps[i].Upsert?
    ensures Settled(Run(s, steps), key)
    decreases |steps|
  {
    if steps != [] {
      SettledStep(s, steps[0], key);
      SettledRun(Apply(s, steps[0]), steps[1..], key);
    }
  }

  lemma {:induction false} RequestsLater<K, V>(s: State<K, V>, steps: seq<Step<K, V>>, more: seq<Step<K, V>>, key: K)
    requires CanRun(s, steps) && CanRun(Run(s, steps), more) && Requests(Run(s, steps), more, key)
    ensures CanRun(s, steps + more) && Requests(s, steps + more, key)
    decreases |steps|
  {
    if steps == [] {
      assert steps + more == more;
    } else {
      assert (steps + more)[1..] == steps[1..] + more;
      RequestsLater(Apply(s, steps[0]), steps[1..], more, key);
    }
  }

  /** A call on its way to its upsert gets there. */
  lemma {:induction false} AskerRequests<K, V>(s: State<K, V>, t: nat, key: K) returns (steps: seq<Step<K, V>>)
    requires Inv(s) && Settled(s, key) && t < |s.tasks| && s.tasks[t].key == key && Asking(s.tasks[t].phase)
    ensures CanRun(s, steps) && Requests(s, steps, key) && forall i :: 0 <= i < |steps| ==> !steps[i].Call?
    decreases if s.tasks[t].phase.Entering? then 2 else if s.tasks[t].phase.Checking? then 1 else 0
  {
    assert SetterOk(s, s.tasks[t]);
    if s.tasks[t].phase.Checked? {
      steps := [Upsert(t)];
      assert CanRun(Apply(s, Upsert(t)), []);
    } else {
      var step := if s.tasks[t].phase.Entering? then Enter(t) else Check(t);
      StepInv(s, step);
      var rest := AskerRequests(Apply(s, step), t, key);
      RunCons(s, step, rest);
      steps := [step] + rest;
      assert steps[1..] == rest;
    }
  }

  lemma RestIsPlain<K, V>(task: Task<K, V>, n: nat, outcome: Outcome<V>)
    ensures var rest := RestOfSet(task, n, outcome);
      forall i :: 0 <= i < |rest| ==> !rest[i].Call? && !rest[i].Upsert?
  {}

  /** A get_token that has spent its reads asks once its Notify fires. */
  lemma WaiterAsks<K, V>(s: State<K, V>, t: nat, n: nat, key: K)
    requires Inv(s) && Settled(s, key) && WaitsOn(s, t, n, false) && s.tasks[t].key == key && SpentReader(s, s.tasks[t])
    ensures n < |s.tasks| && CanRun(s, RestOfSet(s.tasks[n], n, Errored))
    ensures var s' := Run(s, RestOfSet(s.tasks[n], n, Errored));
      Inv(s') && Settled(s', key) && t < |s'.tasks| && s'.tasks[t].key == key && s'.tasks[t].phase.Entering?
  {
    EarlyReaderIsWoken(s, t, n, Errored);
    RestIsPlain(s.tasks[n], n, Errored);
    RunInv(s, RestOfSet(s.tasks[n], n, Errored));
    SettledRun(s, RestOfSet(s.tasks[n], n, Errored), key);
  }

  lemma WaiterRequests<K, V>(s: State<K, V>, t: nat, n: nat, key: K) returns (steps: seq<Step<K, V>>)
    requires Inv(s) && Settled(s, key) && WaitsOn(s, t, n, false) && s.tasks[t].key == key && SpentReader(s, s.tasks[t])
    ensures CanRun(s, steps) && Requests(s, steps, key) && forall i :: 0 <= i < |steps| ==> !steps[i].Call?
  {
    WaiterAsks(s, t, n, key);
    var first := RestOfSet(s.tasks[n], n, Errored);
    RestIsPlain(s.tasks[n], n, Errored);
    var rest := AskerRequests(Run(s, first), t, key);
    RequestsLater(s, first, rest, key);
    steps := first + rest;
  }

  lemma SpentReaderRequests<K, V>(s: State<K, V>, t: nat, key: K) returns (steps: seq<Step<K, V>>)
    requires Inv(s) && Settled(s, key) && t < |s.tasks| && s.tasks[t].key == key && SpentReader(s, s.tasks[t])
    ensures CanRun(s, steps) && Requests(s, steps, key) && forall i :: 0 <= i < |steps| ==> !steps[i].Call?
  {
    var n := s.tasks[t].phase.n;
    assert ReaderOk(s, s.tasks[t]);
    if s.tasks[t].phase.Waiting? {
      steps := WaiterRequests(s, t, n, key);
    } else {
      StepInv(s, Register(t));
      var rest := WaiterRequests(Apply(s, Register(t)), t, n, key);
      RunCons(s, Register(t), rest);
      steps := [Register(t)] + rest;
      assert steps[1..] == rest;
    }
  }

  /** For a key that holds a result, a continuation driven through get_token can issue another request
      exactly when some call on the key still asks. */
  lemma RequestIff<K, V>(s: State<K, V>, key: K)
    requires Inv(s) && Settled(s, key)
    ensures (exists steps :: CanRun(s, steps) && OnlyGetToken(steps, key) && Requests(s, steps, key)) <==>
            exists t: nat :: Asks(s, t, key)
  {
    if t: nat :| Asks(s, t, key) {
      var steps;
      if SpentReader(s, s.tasks[t]) {
        steps := SpentReaderRequests(s, t, key);
      } else {
        steps := AskerRequests(s, t, key);
      }
      assert CanRun(s, steps) && OnlyGetToken(steps, key) && Requests(s, steps, key);
    } else {
      forall steps | CanRun(s, steps) && OnlyGetToken(steps, key) ensures !Requests(s, steps, key) {
        NobodyRequests(s, steps, key);
      }
    }
  }

  /** Late readers exist: the set finishes between a reader's look at the map and its registration. */
  lemma LateReaderHappens<K, V>(key: K, value: V) returns (steps: seq<Step<K, V>>)
    ensures CanRun(Init<K, V>(), steps) && WaitsOn(Run(Init<K, V>(), steps), 1, 0, true)
  {
    var s0 := Init<K, V>();
    var s1 := Apply(s0, Call(SetCall, key));
    var s2 := Apply(s1, Call(GetCall, key));
    var s3 := Apply(s2, Enter(0));
    var s4 := Apply(s3, Check(0));
    var s5 := Apply(s4, Upsert(0));
    var s6 := Apply(s5, Read(1));
    var s7 := Apply(s6, Resolve(0, Produced(value)));
    var s8 := Apply(s7, Store(0));
    var s9 := Apply(s8, Notify(0));
    assert s9.tasks[1].phase == HasNotify(1, 0) && s9.tasks[0].fired;
    var s10 := Apply(s9, Register(1));
    steps := [];
    RunCons(s9, Register(1), steps); steps := [Register(1)] + steps;
    RunCons(s8, Notify(0), steps); steps := [Notify(0)] + steps;
    RunCons(s7, Store(0), steps); steps := [Store(0)] + steps;
    RunCons(s6, Resolve(0, Produced(value)), steps); steps := [Resolve(0, Produced(value))] + steps;
    RunCons(s5, Read(1), steps); steps := [Read(1)] + steps;
    RunCons(s4, Upsert(0), steps); steps := [Upsert(0)] + steps;
    RunCons(s3, Check(0), steps); steps := [Check(0)] + steps;
    RunCons(s2, Enter(0), steps); steps := [Enter(0)] + steps;
    RunCons(s1, Call(GetCall, key), steps); steps := [Call(GetCall, key)] + steps;
    RunCons(s0, Call(SetCall, key), steps); steps := [Call(SetCall, key)] + steps;
  }

  // ----- the store as an object

  /** What an uninterrupted set does to the map and answers. */
  function SetEffect<K, V>(entries: map<K, TokenState<V>>, key: K, ticket: nat, outcome: Outcome<V>, t: nat)
    : (map<K, TokenState<V>>, Answer<V>)
  {
    if IsUpdating(entries, key) then (entries, UpdateAlreadyInProgress(entries[key].id))
    else
      var token := StateOf(ticket, outcome, t);
      (entries[key := token], if outcome.Produced? then Entry(token) else InnerFutureError)
  }

  /** What an uninterrupted set does once its check has passed. */
  lemma UpdateIsRun<K, V>(s: State<K, V>, t: nat, outcome: Outcome<V>) returns (steps: seq<Step<K, V>>)
    requires Enabled(s, Upsert(t))
    ensures CanRun(s, steps)
    ensures var s', token := Run(s, steps), StateOf(s.tasks[t].ticket.value, outcome, t);
      && s'.entries == s.entries[s.tasks[t].key := token] && t < |s'.tasks|
      && s'.tasks[t].phase == Done(if outcome.Produced? then Entry(token) else InnerFutureError)
  {
    var s1 := Apply(s, Upsert(t));
    var s2 := Apply(s1, Resolve(t, outcome));
    var s3 := Apply(s2, Store(t));
    assert s3.entries == s.entries[s.tasks[t].key := StateOf(s.tasks[t].ticket.value, outcome, t)];
    steps := [];
    RunCons(s3, Notify(t), steps); steps := [Notify(t)] + steps;
    RunCons(s2, Store(t), steps); steps := [Store(t)] + steps;
    RunCons(s1, Resolve(t, outcome), steps); steps := [Resolve(t, outcome)] + steps;
    RunCons(s, Upsert(t), steps); steps := [Upsert(t)] + steps;
  }

  /** An uninterrupted set is one of the runs above. */
  lemma SetIsRun<K, V>(s: State<K, V>, t: nat, outcome: Outcome<V>) returns (steps: seq<Step<K, V>>)
    requires Enabled(s, Enter(t))
    ensures CanRun(s, steps)
    ensures var s' := Run(s, steps);
      var (entries, answer) := SetEffect(s.entries, s.tasks[t].key, s.counter, outcome, t);
      s'.entries == entries && t < |s'.tasks| && s'.tasks[t].phase == Done(answer)
  {
    var s1 := Apply(s, Enter(t));
    var s2 := Apply(s1, Check(t));
    steps := [];
    if !IsUpdating(s.entries, s.tasks[t].key) {
      steps := UpdateIsRun(s2, t, outcome);
    }
    RunCons(s1, Check(t), steps); steps := [Check(t)] + steps;
    RunCons(s, Enter(t), steps); steps := [Enter(t)] + steps;
  }

  /** What a get finds: the key in the first view in which it is not being updated. */
  function Seen<K, V>(views: seq<map<K, TokenState<V>>>, key: K): Option<TokenState<V>> {
    if views == [] then None
    else if IsUpdating(views[0], key) then Seen(views[1..], key)
    else Lookup(views[0], key)
  }

  // ----- what a get reads over a run

  /** The maps that the reads of call t find, in order. */
  ghost function ViewsOf<K, V>(s: State<K, V>, steps: seq<Step<K, V>>, t: nat): seq<map<K, TokenState<V>>>
    requires CanRun(s, steps)
    decreases |steps|
  {
    if steps == [] then [] else OwnView(s, steps[0], t) + ViewsOf(Apply(s, steps[0]), steps[1..], t)
  }

  ghost function OwnView<K, V>(s: State<K, V>, step: Step<K, V>, t: nat): seq<map<K, TokenState<V>>> {
    if step == Read(t) then [s.entries] else []
  }

  ghost predicate AllUpdating<K, V>(views: seq<map<K, TokenState<V>>>, key: K) {
    forall j :: 0 <= j < |views| ==> IsUpdating(views[j], key)
  }

  /** The views suffice for an answer: the last one does not update the key, or it is the ninth. */
  ghost predicate Decided<K, V>(views: seq<map<K, TokenState<V>>>, key: K) {
    && 1 <= |views| <= 9 && AllUpdating(views[..|views| - 1], key)
    && (IsUpdating(views[|views| - 1], key) ==> |views| == 9)
  }

  /** Where a get or get_token stands after these views. */
  ghost predicate Follows<K, V>(task: Task<K, V>, views: seq<map<K, TokenState<V>>>) {
    if task.phase.Reading? || task.phase.HasNotify? || task.phase.Waiting? then
      |views| == task.phase.readsDone && AllUpdating(views, task.key)
    else
      && Decided(views, task.key)
      && match Seen(views, task.key)
         case Some(token) => task.phase == Done(AnswerFor(token)) && task.ticket == None
         case None =>
           if task.kind.GetCall? then task.phase == Done(Nothing) else task.phase.Entering? || task.ticket.Some?
  }

  lemma {:induction false} SeenNext<K, V>(views: seq<map<K, TokenState<V>>>, more: seq<map<K, TokenState<V>>>, key: K)
    requires AllUpdating(views, key)
    ensures Seen(views + more, key) == Seen(more, key)
  {
    if views == [] {
      assert views + more == more;
    } else {
      assert (views + more)[1..] == views[1..] + more;
      SeenNext(views[1..], more, key);
    }
  }

  lemma SeenLast<K, V>(views: seq<map<K, TokenState<V>>>, view: map<K, TokenState<V>>, key: K)
    requires AllUpdating(views, key)
    ensures Seen(views, key) == None
    ensures Seen(views + [view], key) == if IsUpdating(view, key) then None else Lookup(view, key)
  {
    SeenNext(views, [], key);
    assert views + [] == views;
    SeenNext(views, [view], key);
    assert [view][1..] == [];
  }

  lemma FollowsRead<K, V>(task: Task<K, V>, views: seq<map<K, TokenState<V>>>, entries: map<K, TokenState<V>>)
    requires !task.kind.SetCall? && task.phase.Reading? && task.phase.readsDone < MAX_READS && task.ticket == None
    requires Follows(task, views)
    ensures Follows(task.(phase := ReadPhase(task.kind, Lookup(entries, task.key), task.phase.readsDone)), views + [entries])
  {
    SeenLast(views, entries, task.key);
    assert (views + [entries])[..|views|] == views;
  }

  lemma FollowsWoken<K, V>(task: Task<K, V>, views: seq<map<K, TokenState<V>>>, n: nat)
    requires !task.kind.SetCall? && task.phase.Waiting? && 1 <= task.phase.readsDone <= MAX_READS && Follows(task, views)
    ensures Follows(Woken(task, n), views)
  {
    SeenLast(views, map[], task.key);
  }

  lemma FollowsOwn<K, V>(s: State<K, V>, step: Step<K, V>, t: nat, views: seq<map<K, TokenState<V>>>)
    requires Enabled(s, step) && !step.Call? && step.t == t && !step.Read?
    requires !s.tasks[t].kind.SetCall? && SetterOk(s, s.tasks[t]) && Follows(s.tasks[t], views)
    ensures Follows(Apply(s, step).tasks[t], views)
  {}

  lemma FollowsStep<K, V>(s: State<K, V>, step: Step<K, V>, t: nat, views: seq<map<K, TokenState<V>>>)
    requires Inv(s) && Enabled(s, step) && t < |s.tasks| && !s.tasks[t].kind.SetCall? && Follows(s.tasks[t], views)
    ensures Follows(Apply(s, step).tasks[t], views + OwnView(s, step, t))
  {
    var task := s.tasks[t];
    assert ReaderOk(s, task) && SetterOk(s, task);
    assert views + [] == views;
    if step == Read(t) {
      FollowsRead(task, views, s.entries);
    } else if !step.Call? && step.t == t {
      FollowsOwn(s, step, t, views);
    } else if step.Notify? && task.phase.Waiting? {
      FollowsWoken(task, views, step.t);
    } else {
      assert Apply(s, step).tasks[t] == task;
    }
  }

  /** A call that has not been made yet has read nothing. */
  ghost predicate FollowsIn<K, V>(s: State<K, V>, t: nat, views: seq<map<K, TokenState<V>>>) {
    if t < |s.tasks| then s.tasks[t].kind.SetCall? || Follows(s.tasks[t], views) else views == []
  }

  lemma FollowsOne<K, V>(s: State<K, V>, step: Step<K, V>, t: nat, views: seq<map<K, TokenState<V>>>)
    requires Inv(s) && Enabled(s, step) && FollowsIn(s, t, views)
    ensures FollowsIn(Apply(s, step), t, views + OwnView(s, step, t))
  {
    StepInv(s, step);
    if t < |s.tasks| {
      assert TaskLater(s.tasks[t], Apply(s, step).tasks[t]);
      if !s.tasks[t].kind.SetCall? {
        FollowsStep(s, step, t, views);
      }
    }
  }

  lemma {:induction false} FollowsRun<K, V>(
    s: State<K, V>, steps: seq<Step<K, V>>, t: nat, views: seq<map<K, TokenState<V>>>)
    requires Inv(s) && CanRun(s, steps) && FollowsIn(s, t, views)
    ensures FollowsIn(Run(s, steps), t, views + ViewsOf(s, steps, t))
    decreases |steps|
  {
    if steps == [] {
      assert views + [] == views;
    } else {
      var s1, own := Apply(s, steps[0]), OwnView(s, steps[0], t);
      StepInv(s, steps[0]);
      FollowsOne(s, steps[0], t, views);
      FollowsRun(s1, steps[1..], t, views + own);
      Assoc(views, own, ViewsOf(s1, steps[1..], t));
    }
  }

  /** In every interleaving, a get answers, and a get_token answers or goes on to its set, as decided by the
      first of the maps it finds at its own reads in which the key is not being updated, nine maps at most. */
  lemma GetFollowsViews<K, V>(steps: seq<Step<K, V>>, t: nat)
    requires CanRun(Init<K, V>(), steps)
    requires var s := Run(Init<K, V>(), steps); t < |s.tasks| && !s.tasks[t].kind.SetCall?
    ensures Follows(Run(Init<K, V>(), steps).tasks[t], ViewsOf(Init<K, V>(), steps, t))
  {
    FollowsRun(Init<K, V>(), steps, t, []);
    assert [] + ViewsOf(Init<K, V>(), steps, t) == ViewsOf(Init<K, V>(), steps, t);
  }

  /** What that answer is: a Ready token that a read finds is returned as it is, a Failed one as an error with
      its id, and a key that is not there leads to nothing, or on to the request. */
  lemma FoundIsReturned<K, V>(steps: seq<Step<K, V>>, t: nat, k: nat)
    requires CanRun(Init<K, V>(), steps)
    requires var s, views := Run(Init<K, V>(), steps), ViewsOf(Init<K, V>(), steps, t);
      && t < |s.tasks| && !s.tasks[t].kind.SetCall? && k < |views|
      && (s.tasks[t].key in views[k] ==> !views[k][s.tasks[t].key].state.Updating?)
    ensures var task, view := Run(Init<K, V>(), steps).tasks[t], ViewsOf(Init<K, V>(), steps, t)[k];
      && (task.key in view && view[task.key].state.Ready? ==> task.phase == Done(Entry(view[task.key])))
      && (task.key in view && view[task.key].state.Failed? ==> task.phase == Done(ReadError(view[task.key].id)))
      && (task.key !in view && task.kind.GetCall? ==> task.phase == Done(Nothing))
      && (task.key !in view && task.kind.GetTokenCall? ==> task.phase.Entering? || task.ticket.Some?)
  {
    GetFollowsViews(steps, t);
    var task, views := Run(Init<K, V>(), steps).tasks[t], ViewsOf(Init<K, V>(), steps, t);
    assert !IsUpdating(views[k], task.key);
    var n := |views| - 1;
    assert k == n;
    SeenLast(views[..n], views[n], task.key);
    assert views[..n] + [views[n]] == views;
  }

  /** What a set that has notified was told: its own value under its own id if its future produced one, and
      an error otherwise. */
  ghost predicate Told<K, V>(task: Task<K, V>, t: nat) {
    task.fired ==>
      && task.outcome.Some? && task.ticket.Some?
      && match task.outcome.value
         case Produced(v) => task.phase == Done(Entry(TokenState(TokenId(task.ticket.value), Ready(v), t)))
         case Errored => task.phase == Done(InnerFutureError)
  }

  lemma ToldStep<K, V>(s: State<K, V>, step: Step<K, V>, t: nat)
    requires Enabled(s, step) && (t < |s.tasks| ==> Told(s.tasks[t], t)) && t < |Apply(s, step).tasks|
    ensures Told(Apply(s, step).tasks[t], t)
  {
    if t < |s.tasks| && (step.Call? || step.t != t) {
      OthersKept(s, step, t);
    }
  }

  lemma {:induction false} SetAnswersFrom<K, V>(s: State<K, V>, steps: seq<Step<K, V>>, t: nat)
    requires CanRun(s, steps) && (t < |s.tasks| ==> Told(s.tasks[t], t)) && t < |Run(s, steps).tasks|
    ensures Told(Run(s, steps).tasks[t], t)
    decreases |steps|
  {
    if steps != [] {
      if t < |Apply(s, steps[0]).tasks| {
        ToldStep(s, steps[0], t);
      }
      SetAnswersFrom(Apply(s, steps[0]), steps[1..], t);
    }
  }

  /** In every interleaving. */
  lemma SetAnswers<K, V>(steps: seq<Step<K, V>>, t: nat)
    requires CanRun(Init<K, V>(), steps) && t < |Run(Init<K, V>(), steps).tasks|
    ensures Told(Run(Init<K, V>(), steps).tasks[t], t)
  {
    SetAnswersFrom(Init<K, V>(), steps, t);
  }

  /** So the method below, given those maps, whatever it is given beyond them, answers as the call did. */
  lemma GetIsRun<K, V>(steps: seq<Step<K, V>>, t: nat, more: seq<map<K, TokenState<V>>>)
    requires CanRun(Init<K, V>(), steps)
    requires var s := Run(Init<K, V>(), steps); t < |s.tasks| && s.tasks[t].kind.GetCall? && s.tasks[t].phase.Done?
    ensures var task, views := Run(Init<K, V>(), steps).tasks[t], ViewsOf(Init<K, V>(), steps, t);
      |views| + |more| <= MAX_READS ==>
        task.phase.answer == match Seen(views + more, task.key) case None => Nothing case Some(token) => AnswerFor(token)
  {
    GetFollowsViews(steps, t);
    var task, views := Run(Init<K, V>(), steps).tasks[t], ViewsOf(Init<K, V>(), steps, t);
    var before, last := views[..|views| - 1], views[|views| - 1];
    assert views + more == before + ([last] + more) && views == before + [last];
    SeenNext(before, [last] + more, task.key);
    SeenNext(before, [last], task.key);
    assert ([last] + more)[1..] == more && [last][1..] == [];
  }

  class Store<K(==), V> {
    var entries: map<K, TokenState<V>>
    var counter: nat

    constructor ()
      ensures entries == map[] && counter == 0
    {
      entries, counter := map[], 0;
    }

    /** `set`, with what its future resolves to. */
    method Set(key: K, outcome: Outcome<V>, t: nat) returns (answer: Answer<V>)
      modifies this
      ensures (entries, answer) == SetEffect(old(entries), key, old(counter), outcome, t)
      ensures counter == old(counter) + 1
    {
      var ticket := counter;
      counter := counter + 1;
      if key in entries && entries[key].state.Updating? {
        return UpdateAlreadyInProgress(entries[key].id);
      }
      entries := entries[key := TokenState(TokenId(ticket), Updating(t), t)];
      var state := match outcome case Produced(v) => Ready(v) case Errored => Failed;
      var token := TokenState(TokenId(ticket), state, t);
      if key in entries {
        entries := entries[key := token];
      }
      assert entries == old(entries)[key := StateOf(ticket, outcome, t)];
      answer := if outcome.Produced? then Entry(token) else InnerFutureError;
    }

    /** `get`: `views` are the maps this call finds at its successive reads, each after having been woken.
        The answer is decided by the first of nine views that is not updating the key. */
    static method Get(key: K, views: seq<map<K, TokenState<V>>>) returns (answer: Answer<V>, used: nat)
      requires |views| == MAX_READS
      ensures 1 <= used <= MAX_READS
      ensures forall j :: 0 <= j < used - 1 ==> IsUpdating(views[j], key)
      ensures IsUpdating(views[used - 1], key) ==> used == MAX_READS
      ensures answer == match Seen(views, key) case None => Nothing case Some(token) => AnswerFor(token)
    {
      used := 0;
      assert views[0..] == views;
      while used < MAX_READS
        invariant used <= MAX_READS
        invariant forall j :: 0 <= j < used ==> IsUpdating(views[j], key)
        invariant Seen(views, key) == Seen(views[used..], key)
      {
        var view := views[used];
        used := used + 1;
        assert views[used - 1..][1..] == views[used..];
        if key !in view {
          return Nothing, used;
        }
        match view[key].state
        case Ready(_) => return Entry(view[key]), used;
        case Failed => return ReadError(view[key].id), used;
        case Updating(_) =>
      }
      answer := Nothing;
    }

    /** `get_token`: a token is requested only if the get found nothing, and a failure is passed on. */
    method GetToken(key: K, views: seq<map<K, TokenState<V>>>, outcome: Outcome<V>, t: nat) returns (answer: Answer<V>)
      requires |views| == MAX_READS
      modifies this
      ensures Seen(views, key).Some? ==>
        entries == old(entries) && counter == old(counter) && answer == AnswerFor(Seen(views, key).value)
      ensures Seen(views, key).None? ==>
        (entries, answer) == SetEffect(old(entries), key, old(counter), outcome, t) && counter == old(counter) + 1
    {
      var used;
      answer, used := Get(key, views);
      if answer.Nothing? {
        answer := Set(key, outcome, t);
      }
    }
  }
}
