/**
 The life of NGAP associations: bounded NG Setup attempts, the registry of gNBs, the message loop and
 its end, for any number of connections at once.  What a connection reads, and whether a write
 succeeds, is up to the environment; every access to the registry is a step of its own.
 */
module Association {
  import opened Sequences
  import opened NgSetup
  import Codecs
  import UeContexts
  import Counter

  const INITIALIZATION_RETRIES: nat := 3

  /** What reading from the connection during setup can yield. */
  datatype SetupInput<+Node> =
    | SetupReadError
    | SocketClosed
    | Undecodable
    | OtherMessage
    | SetupRequest(request: Request<Node>)

  /** What reading from the connection in the message loop can yield. */
  datatype LoopInput<+Ran> =
    | LoopReadError
    | EndOfStream
    | InitialUe(ranId: Ran)
    | OtherPdu

  datatype Phase<+Node> =
    | ReadingSetup(attempt: nat)
    | GotRequest(attempt: nat, request: Request<Node>)
    | PassedCheck(attempt: nat, request: Request<Node>)  // the registry did not have the node
    | Responding(attempt: nat, accepted: Option<Node>)   // response built, not written yet
    | Inserting(node: Node)
    | Aborted(node: Node)                                // unwrap of the failed insert
    | Looping(node: Node)
    | LoopFailed(node: Node)                             // read error: its tokio task ends without closing
    | Closing(node: Node)
    | Closed(node: Node)
    | GaveUp

  /** `answered` is history: a successful NG Setup response has been written.  `readCount` counts the reads
      made for setup. */
  datatype Conn<+Node, !Ran> = Conn(phase: Phase<Node>, ue: UeContexts.State<Ran>, answered: bool, readCount: nat)

  datatype State<!Node, !Ran> = State(served: seq<Tai>, registry: map<Node, nat>, conns: seq<Conn<Node, Ran>>)

  function Init<Node, Ran>(served: seq<Tai>): State<Node, Ran> { State(served, map[], []) }

  datatype Step<+Node, !Ran> =
    | Accept
    | ReadSetup(c: nat, input: SetupInput<Node>)
    | CheckDuplicate(c: nat)
    | Evaluate(c: nat)
    | Respond(c: nat, written: bool)
    | Insert(c: nat)
    | ReadLoop(c: nat, message: LoopInput<Ran>)
    | Handle(c: nat, step: UeContexts.Step<Ran>)
    | Close(c: nat)

  ghost predicate Enabled<Node, Ran>(s: State<Node, Ran>, step: Step<Node, Ran>) {
    match step
    case Accept => true
    case ReadSetup(c, _) => c < |s.conns| && s.conns[c].phase.ReadingSetup?
    case CheckDuplicate(c) => c < |s.conns| && s.conns[c].phase.GotRequest?
    case Evaluate(c) => c < |s.conns| && s.conns[c].phase.PassedCheck?
    case Respond(c, _) => c < |s.conns| && s.conns[c].phase.Responding?
    case Insert(c) => c < |s.conns| && s.conns[c].phase.Inserting?
    case ReadLoop(c, _) => c < |s.conns| && s.conns[c].phase.Looping?
    case Handle(c, ustep) => c < |s.conns| && !ustep.Message? && UeContexts.Enabled(s.conns[c].ue, ustep)
    case Close(c) => c < |s.conns| && s.conns[c].phase.Closing?
  }

  /** The next attempt, or none. */
  function Retry<Node>(attempt: nat): Phase<Node> {
    if attempt < INITIALIZATION_RETRIES then ReadingSetup(attempt + 1) else GaveUp
  }

  ghost function SetPhase<Node, Ran>(s: State<Node, Ran>, c: nat, phase: Phase<Node>): State<Node, Ran>
    requires c < |s.conns|
  {
    s.(conns := s.conns[c := s.conns[c].(phase := phase)])
  }

  ghost function Apply<Node, Ran>(s: State<Node, Ran>, step: Step<Node, Ran>): State<Node, Ran>
    requires Enabled(s, step)
  {
    match step
    case Accept => s.(conns := s.conns + [Conn(ReadingSetup(1), UeContexts.Init(), false, 0)])
    case ReadSetup(c, input) =>
      var attempt := s.conns[c].phase.attempt;
      var next := match input
        case SetupReadError => Retry(attempt)
        case SocketClosed => Retry(attempt)
        case Undecodable => Responding(attempt, None)
        case OtherMessage => Responding(attempt, None)
        case SetupRequest(request) => GotRequest(attempt, request);
      s.(conns := s.conns[c := s.conns[c].(phase := next, readCount := s.conns[c].readCount + 1)])
    case CheckDuplicate(c) =>
      var GotRequest(attempt, request) := s.conns[c].phase;
      SetPhase(s, c, if request.nodeId in s.registry then Responding(attempt, None) else PassedCheck(attempt, request))
    case Evaluate(c) =>
      var PassedCheck(attempt, request) := s.conns[c].phase;
      SetPhase(s, c, Responding(attempt, if Accepts(request, s.served) then Some(request.nodeId) else None))
    case Respond(c, written) =>
      var Responding(attempt, accepted) := s.conns[c].phase;
      if written && accepted.Some?
      then s.(conns := s.conns[c := s.conns[c].(phase := Inserting(accepted.value), answered := true)])
      else SetPhase(s, c, Retry(attempt))
    case Insert(c) =>
      var node := s.conns[c].phase.node;
      if node in s.registry then SetPhase(s, c, Phase.Aborted(node))
      else SetPhase(s, c, Looping(node)).(registry := s.registry[node := c])
    case ReadLoop(c, message) =>
      var node := s.conns[c].phase.node;
      (match message
       case LoopReadError => SetPhase(s, c, LoopFailed(node))
       case EndOfStream => SetPhase(s, c, Closing(node))
       case InitialUe(ranId) =>
         s.(conns := s.conns[c := s.conns[c].(ue := UeContexts.Apply(s.conns[c].ue, UeContexts.Message(ranId)))])
       case OtherPdu => s)
    case Handle(c, ustep) =>
      s.(conns := s.conns[c := s.conns[c].(ue := UeContexts.Apply(s.conns[c].ue, ustep))])
    case Close(c) =>
      var node := s.conns[c].phase.node;
      SetPhase(s, c, Closed(node)).(registry := s.registry - {node})
  }

  ghost predicate CanRun<Node, Ran>(s: State<Node, Ran>, steps: seq<Step<Node, Ran>>)
    decreases |steps|
  {
    steps == [] || (Enabled(s, steps[0]) && CanRun(Apply(s, steps[0]), steps[1..]))
  }

  ghost function Run<Node, Ran>(s: State<Node, Ran>, steps: seq<Step<Node, Ran>>): State<Node, Ran>
    requires CanRun(s, steps)
    decreases |steps|
  {
    if steps == [] then s else Run(Apply(s, steps[0]), steps[1..])
  }

  // ----- the invariant

  predicate Owns<Node>(ph: Phase<Node>) { ph.Looping? || ph.LoopFailed? || ph.Closing? }

  predicate BeforeInsert<Node>(ph: Phase<Node>) { !Owns(ph) && !ph.Closed? }

  ghost predicate ConnOk<Node, Ran>(s: State<Node, Ran>, c: nat)
    requires c < |s.conns|
  {
    ConnLinks(s, c) && SetupCount(s.conns[c]) && UeContexts.Inv(s.conns[c].ue)
  }

  ghost predicate ConnLinks<Node, Ran>(s: State<Node, Ran>, c: nat)
    requires c < |s.conns|
  {
    var conn := s.conns[c];
    && (Owns(conn.phase) ==> conn.phase.node in s.registry && s.registry[conn.phase.node] == c)
    && (conn.phase.Inserting? || conn.phase.Aborted? || Owns(conn.phase) || conn.phase.Closed? ==> conn.answered)
    && (BeforeInsert(conn.phase) ==> conn.ue == UeContexts.Init())
  }

  /** Each attempt of setup reads once. */
  ghost predicate SetupCount<Node, Ran>(conn: Conn<Node, Ran>) {
    && (conn.phase.ReadingSetup? ==> 1 <= conn.phase.attempt <= INITIALIZATION_RETRIES && conn.readCount == conn.phase.attempt - 1)
    && (conn.phase.GotRequest? || conn.phase.PassedCheck? || conn.phase.Responding? ==>
          1 <= conn.phase.attempt <= INITIALIZATION_RETRIES && conn.readCount == conn.phase.attempt)
    && (conn.phase.GaveUp? ==> conn.readCount == INITIALIZATION_RETRIES)
    && conn.readCount <= INITIALIZATION_RETRIES
  }

  ghost predicate EntryOk<Node, Ran>(s: State<Node, Ran>, node: Node)
    requires node in s.registry
  {
    var c := s.registry[node];
    c < |s.conns| && Owns(s.conns[c].phase) && s.conns[c].phase.node == node
  }

  ghost predicate Inv<Node, Ran>(s: State<Node, Ran>) {
    && (forall c :: 0 <= c < |s.conns| ==> ConnOk(s, c))
    && (forall node :: node in s.registry ==> EntryOk(s, node))
  }

  lemma UeStep<Node, Ran>(s: State<Node, Ran>, step: Step<Node, Ran>, d: nat)
    requires Enabled(s, step) && d < |Apply(s, step).conns|
    requires d < |s.conns| ==> UeContexts.Inv(s.conns[d].ue)
    ensures UeContexts.Inv(Apply(s, step).conns[d].ue)
  {
    if step.Handle? && step.c == d {
      UeContexts.StepInv(s.conns[d].ue, step.step);
    } else if step.ReadLoop? && step.c == d && step.message.InitialUe? {
      UeContexts.StepInv(s.conns[d].ue, UeContexts.Message(step.message.ranId));
    } else {
      assert d < |s.conns| ==> Apply(s, step).conns[d].ue == s.conns[d].ue;
    }
  }

  lemma LinksStep<Node, Ran>(s: State<Node, Ran>, step: Step<Node, Ran>, d: nat)
    requires Enabled(s, step) && d < |Apply(s, step).conns|
    requires forall c :: 0 <= c < |s.conns| ==> ConnLinks(s, c)
    ensures ConnLinks(Apply(s, step), d)
  {
    if d < |s.conns| {
      assert ConnLinks(s, d);
    }
    if !step.Accept? {
      assert ConnLinks(s, step.c);
    }
  }

  lemma CountStep<Node, Ran>(s: State<Node, Ran>, step: Step<Node, Ran>, d: nat)
    requires Enabled(s, step) && d < |Apply(s, step).conns|
    requires d < |s.conns| ==> SetupCount(s.conns[d])
    ensures SetupCount(Apply(s, step).conns[d])
  {}

  lemma ConnStep<Node, Ran>(s: State<Node, Ran>, step: Step<Node, Ran>, d: nat)
    requires Inv(s) && Enabled(s, step) && d < |Apply(s, step).conns|
    ensures ConnOk(Apply(s, step), d)
  {
    if d < |s.conns| {
      assert ConnOk(s, d);
    }
    forall c | 0 <= c < |s.conns| ensures ConnLinks(s, c) { assert ConnOk(s, c); }
    LinksStep(s, step, d);
    CountStep(s, step, d);
    UeStep(s, step, d);
  }

  /** An owner stays one, under the same node, until it closes. */
  lemma OwnerStays<Node, Ran>(s: State<Node, Ran>, step: Step<Node, Ran>, c: nat)
    requires Enabled(s, step) && c < |s.conns| && Owns(s.conns[c].phase) && step != Close(c)
    ensures var s' := Apply(s, step);
      c < |s'.conns| && Owns(s'.conns[c].phase) && s'.conns[c].phase.node == s.conns[c].phase.node
  {}

  lemma RegistryStep<Node, Ran>(s: State<Node, Ran>, step: Step<Node, Ran>)
    requires Enabled(s, step)
    ensures var s' := Apply(s, step);
      s'.registry ==
        if step.Insert? && s.conns[step.c].phase.node !in s.registry then s.registry[s.conns[step.c].phase.node := step.c]
        else if step.Close? then s.registry - {s.conns[step.c].phase.node}
        else s.registry
  {}

  lemma EntryStep<Node, Ran>(s: State<Node, Ran>, step: Step<Node, Ran>, node: Node)
    requires Inv(s) && Enabled(s, step) && node in Apply(s, step).registry
    ensures EntryOk(Apply(s, step), node)
  {
    RegistryStep(s, step);
    if node in s.registry {
      assert EntryOk(s, node);
      var c := s.registry[node];
      OwnerStays(s, step, c);
      assert Apply(s, step).registry[node] == c;
    } else {
      assert Apply(s, step).conns[step.c].phase == Looping(node);
    }
  }

  lemma StepInv<Node, Ran>(s: State<Node, Ran>, step: Step<Node, Ran>)
    requires Inv(s) && Enabled(s, step)
    ensures Inv(Apply(s, step))
  {
    var s' := Apply(s, step);
    forall c | 0 <= c < |s'.conns| ensures ConnOk(s', c) { ConnStep(s, step, c); }
    forall node | node in s'.registry ensures EntryOk(s', node) { EntryStep(s, step, node); }
  }

  lemma {:induction false} RunInv<Node, Ran>(s: State<Node, Ran>, steps: seq<Step<Node, Ran>>)
    requires Inv(s) && CanRun(s, steps)
    ensures Inv(Run(s, steps))
    decreases |steps|
  {
    if steps != [] {
      StepInv(s, steps[0]);
      RunInv(Apply(s, steps[0]), steps[1..]);
    }
  }

  // ----- what every interleaving of connections guarantees

  /** Every registry entry sits under its owner's own node id, and its owner has written a successful NG
      Setup response; a connection that has not got into the registry has routed no message; no
      connection reads more than three setup messages or gives up before the third; and each gNB's UE table is sound. */
  lemma RegistrySound<Node, Ran>(served: seq<Tai>, steps: seq<Step<Node, Ran>>)
    requires CanRun(Init<Node, Ran>(served), steps)
    ensures var s := Run(Init<Node, Ran>(served), steps);
      && (forall node :: node in s.registry ==>
            var c := s.registry[node];
            && c < |s.conns| && Owns(s.conns[c].phase) && s.conns[c].phase.node == node && s.conns[c].answered)
      && (forall c :: 0 <= c < |s.conns| ==>
            && (BeforeInsert(s.conns[c].phase) ==> s.conns[c].ue == UeContexts.Init())
            && s.conns[c].readCount <= INITIALIZATION_RETRIES
            && (s.conns[c].phase.GaveUp? ==> s.conns[c].readCount == INITIALIZATION_RETRIES)
            && UeContexts.TableSound(s.conns[c].ue))
  {
    RunInv(Init<Node, Ran>(served), steps);
    var s := Run(Init<Node, Ran>(served), steps);
    forall node | node in s.registry
      ensures var c := s.registry[node];
        c < |s.conns| && Owns(s.conns[c].phase) && s.conns[c].phase.node == node && s.conns[c].answered
    {
      assert EntryOk(s, node);
      assert ConnOk(s, s.registry[node]);
    }
    forall c | 0 <= c < |s.conns|
      ensures BeforeInsert(s.conns[c].phase) ==> s.conns[c].ue == UeContexts.Init()
      ensures s.conns[c].readCount <= INITIALIZATION_RETRIES && UeContexts.TableSound(s.conns[c].ue)
      ensures s.conns[c].phase.GaveUp? ==> s.conns[c].readCount == INITIALIZATION_RETRIES
    {
      assert ConnOk(s, c);
      UeContexts.InvSound(s.conns[c].ue);
    }
  }

  /** The registry changes in two ways only: a connection that has answered its node's setup request adds
      itself under that node's free id, and an entry's own connection removes it after its loop has ended
      normally.  In particular no entry is ever replaced. */
  lemma RegistryChanges<Node, Ran>(s: State<Node, Ran>, step: Step<Node, Ran>, node: Node)
    requires Inv(s) && Enabled(s, step)
    ensures var s' := Apply(s, step);
      && (node in s.registry && node !in s'.registry <==>
            step.Close? && s.conns[step.c].phase == Closing(node) && node in s.registry && s.registry[node] == step.c)
      && (node !in s.registry && node in s'.registry ==>
            step.Insert? && s.conns[step.c].phase == Inserting(node) && s.conns[step.c].answered
            && s'.registry[node] == step.c)
      && (node in s.registry && node in s'.registry ==> s'.registry[node] == s.registry[node])
  {
    if !step.Accept? {
      assert ConnOk(s, step.c);
    }
  }

  /** A connection whose loop ends with a read error keeps its node id registered for ever: every later
      setup request of that node is refused as a duplicate. */
  lemma {:induction false} FailedLoopBlocksNode<Node, Ran>(
    s: State<Node, Ran>, steps: seq<Step<Node, Ran>>, c: nat, node: Node)
    requires Inv(s) && CanRun(s, steps) && c < |s.conns| && s.conns[c].phase == LoopFailed(node)
    ensures var s' := Run(s, steps);
      && c < |s'.conns| && s'.conns[c].phase == LoopFailed(node)
      && node in s'.registry && s'.registry[node] == c
      && forall d: nat :: Enabled(s', CheckDuplicate(d)) && s'.conns[d].phase.request.nodeId == node ==>
           Apply(s', CheckDuplicate(d)).conns[d].phase == Responding(s'.conns[d].phase.attempt, None)
    decreases |steps|
  {
    assert ConnOk(s, c);
    if steps != [] {
      StepInv(s, steps[0]);
      FailedLoopBlocksNode(Apply(s, steps[0]), steps[1..], c, node);
    }
  }

  // ----- the insert that must not fail

  /** Connection c has passed the duplicate check for the node and has not inserted it yet. */
  ghost predicate InWindow<Node, Ran>(s: State<Node, Ran>, c: nat, node: Node) {
    && c < |s.conns|
    && ((s.conns[c].phase.PassedCheck? && s.conns[c].phase.request.nodeId == node)
        || (s.conns[c].phase.Responding? && s.conns[c].phase.accepted == Some(node))
        || s.conns[c].phase == Inserting(node))
  }

  /** No connection passes the check for a node that another one has passed and not inserted yet. */
  ghost predicate NoOverlap<Node, Ran>(s: State<Node, Ran>, step: Step<Node, Ran>)
    requires Enabled(s, step)
  {
    step.CheckDuplicate? && s.conns[step.c].phase.request.nodeId !in s.registry ==>
      forall d: nat :: !InWindow(s, d, s.conns[step.c].phase.request.nodeId)
  }

  ghost predicate NoOverlapRun<Node, Ran>(s: State<Node, Ran>, steps: seq<Step<Node, Ran>>)
    requires CanRun(s, steps)
    decreases |steps|
  {
    steps == [] || (NoOverlap(s, steps[0]) && NoOverlapRun(Apply(s, steps[0]), steps[1..]))
  }

  ghost function WindowNode<Node, Ran>(s: State<Node, Ran>, c: nat): Option<Node> {
    if c >= |s.conns| then None else
      match s.conns[c].phase
      case PassedCheck(_, request) => Some(request.nodeId)
      case Responding(_, accepted) => accepted
      case Inserting(node) => Some(node)
      case _ => None
  }

  /** A window's node is unregistered and in no other window, and no insert has failed. */
  ghost predicate WindowInv<Node, Ran>(s: State<Node, Ran>) {
    && (forall c: nat :: WindowNode(s, c).Some? ==> WindowNode(s, c).value !in s.registry)
    && (forall c: nat, d: nat :: WindowNode(s, c).Some? && WindowNode(s, c) == WindowNode(s, d) ==> c == d)
    && (forall c :: 0 <= c < |s.conns| ==> !s.conns[c].phase.Aborted?)
  }

  /** Windows open only when a duplicate check passes. */
  lemma WindowFrame<Node, Ran>(s: State<Node, Ran>, step: Step<Node, Ran>, d: nat)
    requires Enabled(s, step)
    ensures var s' := Apply(s, step);
      WindowNode(s', d) == WindowNode(s, d)
      || (!step.Accept? && step.c == d && WindowNode(s', d) == None)
      || (step == CheckDuplicate(d) && s.conns[d].phase.request.nodeId !in s.registry
          && WindowNode(s', d) == Some(s.conns[d].phase.request.nodeId))
    ensures step == Insert(d) ==>
      WindowNode(s, d) == Some(s.conns[d].phase.node) && WindowNode(Apply(s, step), d) == None
  {}

  lemma WindowStep<Node, Ran>(s: State<Node, Ran>, step: Step<Node, Ran>)
    requires WindowInv(s) && Enabled(s, step) && NoOverlap(s, step)
    ensures WindowInv(Apply(s, step))
  {
    var s' := Apply(s, step);
    RegistryStep(s, step);
    forall d: nat | WindowNode(s', d).Some?
      ensures WindowNode(s', d).value !in s'.registry
      ensures forall e: nat :: WindowNode(s', d) == WindowNode(s', e) ==> d == e
    {
      WindowFrame(s, step, d);
      if step.Insert? {
        WindowFrame(s, step, step.c);
      }
      forall e: nat | WindowNode(s', d) == WindowNode(s', e) ensures d == e {
        WindowFrame(s, step, e);
        WindowIsWindow(s, d);
        WindowIsWindow(s, e);
      }
    }
    NotAborted(s, step);
  }

  lemma WindowIsWindow<Node, Ran>(s: State<Node, Ran>, d: nat)
    ensures WindowNode(s, d).Some? ==> InWindow(s, d, WindowNode(s, d).value)
  {}

  lemma NotAborted<Node, Ran>(s: State<Node, Ran>, step: Step<Node, Ran>)
    requires WindowInv(s) && Enabled(s, step)
    ensures var s' := Apply(s, step); forall c :: 0 <= c < |s'.conns| ==> !s'.conns[c].phase.Aborted?
  {
    if step.Insert? {
      WindowFrame(s, step, step.c);
    }
  }

  /** In runs without such an overlap the unwrapped insert never meets a registered id. */
  lemma {:induction false} InsertNeverFails<Node, Ran>(s: State<Node, Ran>, steps: seq<Step<Node, Ran>>)
    requires WindowInv(s) && CanRun(s, steps) && NoOverlapRun(s, steps)
    ensures WindowInv(Run(s, steps))
    ensures var s' := Run(s, steps);
      && (forall c :: 0 <= c < |s'.conns| ==> !s'.conns[c].phase.Aborted?)
      && (forall c: nat :: Enabled(s', Insert(c)) ==> s'.conns[c].phase.node !in s'.registry)
    decreases |steps|
  {
    if steps != [] {
      WindowStep(s, steps[0]);
      InsertNeverFails(Apply(s, steps[0]), steps[1..]);
    } else {
      assert forall c: nat :: Enabled(s, Insert(c)) ==> WindowNode(s, c) == Some(s.conns[c].phase.node);
    }
  }

  // Exactly when an insert fails.

  /** Connection c has registered the node and has not closed. */
  ghost predicate OwnsNode<Node, Ran>(s: State<Node, Ran>, c: nat, node: Node) {
    c < |s.conns| && Owns(s.conns[c].phase) && s.conns[c].phase.node == node
  }

  lemma RegisteredIff<Node, Ran>(s: State<Node, Ran>, node: Node)
    requires Inv(s)
    ensures node in s.registry <==> exists c: nat :: OwnsNode(s, c, node)
  {
    if node in s.registry {
      assert EntryOk(s, node);
      assert OwnsNode(s, s.registry[node], node);
    }
    if c: nat :| OwnsNode(s, c, node) {
      assert ConnOk(s, c);
    }
  }

  /** From its check to its insert a connection has one and the same node in mind. */
  lemma {:induction false} SameNode<Node, Ran>(s: State<Node, Ran>, steps: seq<Step<Node, Ran>>, d: nat)
    requires CanRun(s, steps) && forall i :: 0 <= i < |steps| ==> steps[i] != CheckDuplicate(d)
    ensures WindowNode(Run(s, steps), d).Some? ==> WindowNode(Run(s, steps), d) == WindowNode(s, d)
    decreases |steps|
  {
    if steps != [] {
      WindowFrame(s, steps[0], d);
      SameNode(Apply(s, steps[0]), steps[1..], d);
    }
  }

  /** The insert of connection d aborts exactly when another connection has registered d's node since d's
      duplicate check and has not closed.  `more` are the steps between that check and the insert. */
  lemma AbortsIff<Node, Ran>(served: seq<Tai>, steps: seq<Step<Node, Ran>>, d: nat, more: seq<Step<Node, Ran>>)
    requires CanRun(Init<Node, Ran>(served), steps)
    requires Enabled(Run(Init<Node, Ran>(served), steps), CheckDuplicate(d))
    requires CanRun(Apply(Run(Init<Node, Ran>(served), steps), CheckDuplicate(d)), more)
    requires forall i :: 0 <= i < |more| ==> more[i] != CheckDuplicate(d)
    requires Enabled(Run(Apply(Run(Init<Node, Ran>(served), steps), CheckDuplicate(d)), more), Insert(d))
    ensures var s := Run(Init<Node, Ran>(served), steps);
      var t := Run(Apply(s, CheckDuplicate(d)), more);
      var node := t.conns[d].phase.node;
      Apply(t, Insert(d)).conns[d].phase.Aborted? <==>
        exists c: nat :: c != d && OwnsNode(t, c, node) && !OwnsNode(s, c, node)
  {
    var s := Run(Init<Node, Ran>(served), steps);
    var s1 := Apply(s, CheckDuplicate(d));
    RunInv(Init<Node, Ran>(served), steps);
    StepInv(s, CheckDuplicate(d));
    RunInv(s1, more);
    SameNode(s1, more, d);
    AbortsWhen(s, Run(s1, more), d, s.conns[d].phase.request.nodeId);
  }

  lemma AbortsWhen<Node, Ran>(s: State<Node, Ran>, t: State<Node, Ran>, d: nat, node: Node)
    requires Inv(s) && Inv(t) && node !in s.registry && Enabled(t, Insert(d)) && t.conns[d].phase.node == node
    ensures Apply(t, Insert(d)).conns[d].phase.Aborted? <==>
      exists c: nat :: c != d && OwnsNode(t, c, node) && !OwnsNode(s, c, node)
  {
    RegisteredIff(s, node);
    RegisteredIff(t, node);
  }

  /** Whenever two connections of one node are both past the check with an accepted request, the second
      one's insert does abort. */
  lemma OverlapAborts<Node, Ran>(s: State<Node, Ran>, c: nat, d: nat, node: Node)
    requires c < |s.conns| && d < |s.conns| && c != d && node !in s.registry
    requires s.conns[c].phase == Inserting(node) && s.conns[d].phase == Inserting(node)
    ensures Enabled(s, Insert(c)) && Enabled(Apply(s, Insert(c)), Insert(d))
    ensures Apply(Apply(s, Insert(c)), Insert(d)).conns[d].phase == Phase.Aborted(node)
    ensures Apply(Apply(s, Insert(c)), Insert(d)).registry[node] == c
  {}

  lemma RunCons<Node, Ran>(s: State<Node, Ran>, a: Step<Node, Ran>, rest: seq<Step<Node, Ran>>)
    requires Enabled(s, a) && CanRun(Apply(s, a), rest)
    ensures CanRun(s, [a] + rest) && Run(s, [a] + rest) == Run(Apply(s, a), rest)
  {
    assert ([a] + rest)[1..] == rest;
  }

  lemma {:induction false} RunJoin<Node, Ran>(
    s: State<Node, Ran>, steps: seq<Step<Node, Ran>>, more: seq<Step<Node, Ran>>)
    requires CanRun(s, steps) && CanRun(Run(s, steps), more)
    ensures CanRun(s, steps + more) && Run(s, steps + more) == Run(Run(s, steps), more)
    decreases |steps|
  {
    if steps == [] {
      assert steps + more == more;
    } else {
      assert (steps + more)[1..] == steps[1..] + more;
      RunJoin(Apply(s, steps[0]), steps[1..], more);
    }
  }

  /** Such a state is reached from the start with any request that the configuration accepts. */
  lemma OverlapHappens<Node, Ran>(served: seq<Tai>, request: Request<Node>) returns (steps: seq<Step<Node, Ran>>)
    requires Accepts(request, served)
    ensures CanRun(Init<Node, Ran>(served), steps)
    ensures var s := Run(Init<Node, Ran>(served), steps);
      && |s.conns| == 2 && request.nodeId !in s.registry
      && s.conns[0].phase == Inserting(request.nodeId) && s.conns[1].phase == Inserting(request.nodeId)
  {
    var s0 := Init<Node, Ran>(served);
    var s1 := Apply(s0, Accept);
    var s2 := Apply(s1, Accept);
    var s3 := Apply(s2, ReadSetup(0, SetupRequest(request)));
    var s4 := Apply(s3, ReadSetup(1, SetupRequest(request)));
    var s5 := Apply(s4, CheckDuplicate(0));
    var s6 := Apply(s5, CheckDuplicate(1));
    assert s6.conns[0].phase == PassedCheck(1, request) == s6.conns[1].phase;
    var s7 := Apply(s6, Evaluate(0));
    var s8 := Apply(s7, Evaluate(1));
    assert s8.conns[0].phase == Responding(1, Some(request.nodeId)) == s8.conns[1].phase;
    var s9 := Apply(s8, Respond(0, true));
    var s10 := Apply(s9, Respond(1, true));
    assert s10.conns[0].phase == Inserting(request.nodeId) == s10.conns[1].phase;
    steps := [];
    RunCons(s9, Respond(1, true), steps); steps := [Respond(1, true)] + steps;
    RunCons(s8, Respond(0, true), steps); steps := [Respond(0, true)] + steps;
    RunCons(s7, Evaluate(1), steps); steps := [Evaluate(1)] + steps;
    RunCons(s6, Evaluate(0), steps); steps := [Evaluate(0)] + steps;
    RunCons(s5, CheckDuplicate(1), steps); steps := [CheckDuplicate(1)] + steps;
    RunCons(s4, CheckDuplicate(0), steps); steps := [CheckDuplicate(0)] + steps;
    RunCons(s3, ReadSetup(1, SetupRequest(request)), steps);
    steps := [ReadSetup(1, SetupRequest(request))] + steps;
    RunCons(s2, ReadSetup(0, SetupRequest(request)), steps);
    steps := [ReadSetup(0, SetupRequest(request))] + steps;
    RunCons(s1, Accept, steps); steps := [Accept] + steps;
    RunCons(s0, Accept, steps); steps := [Accept] + steps;
  }

  // ----- the controller as an object, its functions uninterrupted

  /** What one setup attempt comes to: the node that was accepted and told so, if any. */
  ghost function AttemptOutcome<Node>(registered: set<Node>, served: seq<Tai>, input: SetupInput<Node>, written: bool)
    : Option<Node>
  {
    if input.SetupRequest? && input.request.nodeId !in registered && Accepts(input.request, served) && written
    then Some(input.request.nodeId) else None
  }

  /** An attempt that nothing interrupts ends where the steps above end. */
  lemma AttemptIsRun<Node, Ran>(s: State<Node, Ran>, c: nat, input: SetupInput<Node>, written: bool)
    returns (steps: seq<Step<Node, Ran>>)
    requires Enabled(s, ReadSetup(c, input))
    ensures CanRun(s, steps)
    ensures var s' := Run(s, steps);
      && s'.registry == s.registry && c < |s'.conns| == |s.conns|
      && s'.conns[c].phase ==
           (match AttemptOutcome(s.registry.Keys, s.served, input, written)
            case Some(node) => Inserting(node)
            case None => Retry(s.conns[c].phase.attempt))
  {
    var s1 := Apply(s, ReadSetup(c, input));
    steps := [];
    if s1.conns[c].phase.GotRequest? {
      var s2 := Apply(s1, CheckDuplicate(c));
      if s2.conns[c].phase.PassedCheck? {
        var s3 := Apply(s2, Evaluate(c));
        RunCons(s3, Respond(c, written), steps); steps := [Respond(c, written)] + steps;
        RunCons(s2, Evaluate(c), steps); steps := [Evaluate(c)] + steps;
      } else {
        RunCons(s2, Respond(c, written), steps); steps := [Respond(c, written)] + steps;
      }
      RunCons(s1, CheckDuplicate(c), steps); steps := [CheckDuplicate(c)] + steps;
    } else if s1.conns[c].phase.Responding? {
      RunCons(s1, Respond(c, written), steps); steps := [Respond(c, written)] + steps;
    }
    RunCons(s, ReadSetup(c, input), steps); steps := [ReadSetup(c, input)] + steps;
  }

  /** A node whose connection ends with a read error stays registered: any accepted request leads there. */
  lemma FailedLoopHappens<Node, Ran>(served: seq<Tai>, request: Request<Node>) returns (steps: seq<Step<Node, Ran>>)
    requires Accepts(request, served)
    ensures CanRun(Init<Node, Ran>(served), steps)
    ensures var s := Run(Init<Node, Ran>(served), steps);
      && |s.conns| == 1 && s.conns[0].phase == LoopFailed(request.nodeId)
      && s.registry == map[request.nodeId := 0]
  {
    var s0 := Init<Node, Ran>(served);
    var s1 := Apply(s0, Accept);
    var setup := AttemptIsRun(s1, 0, SetupRequest(request), true);
    var s2 := Run(s1, setup);
    var s3 := Apply(s2, Insert(0));
    steps := [];
    RunCons(s3, ReadLoop(0, LoopReadError), steps); steps := [ReadLoop(0, LoopReadError)] + steps;
    RunCons(s2, Insert(0), steps); steps := [Insert(0)] + steps;
    RunJoin(s1, setup, steps); steps := setup + steps;
    RunCons(s0, Accept, steps); steps := [Accept] + steps;
  }

  // ----- what is routed, and how the loop ends

  /** The RAN UE ids of the InitialUEMessages that a connection read in its loop. */
  ghost function InitialUes<Node, Ran>(steps: seq<Step<Node, Ran>>, c: nat): seq<Ran> {
    if steps == [] then [] else InitialUeOf(steps[0], c) + InitialUes(steps[1..], c)
  }

  ghost function InitialUeOf<Node, Ran>(step: Step<Node, Ran>, c: nat): seq<Ran> {
    if step.ReadLoop? && step.c == c && step.message.InitialUe? then [step.message.ranId] else []
  }

  ghost function Handled<Node, Ran>(s: State<Node, Ran>, c: nat): seq<Ran> {
    if c < |s.conns| then UeContexts.RanIds(s.conns[c].ue.handlers) else []
  }

  lemma HandledStep<Node, Ran>(s: State<Node, Ran>, step: Step<Node, Ran>, c: nat)
    requires Enabled(s, step)
    ensures Handled(Apply(s, step), c) == Handled(s, c) + InitialUeOf(step, c)
  {
    if step.Handle? && step.c == c {
      UeContexts.RanIdsStep(s.conns[c].ue, step.step);
    } else if step.ReadLoop? && step.c == c && step.message.InitialUe? {
      UeContexts.RanIdsStep(s.conns[c].ue, UeContexts.Message(step.message.ranId));
    } else {
      UeKept(s, step, c);
    }
  }

  lemma UeKept<Node, Ran>(s: State<Node, Ran>, step: Step<Node, Ran>, c: nat)
    requires Enabled(s, step)
    requires step.Handle? || (step.ReadLoop? && step.message.InitialUe?) ==> step.c != c
    ensures c < |s.conns| ==> c < |Apply(s, step).conns| && Apply(s, step).conns[c].ue == s.conns[c].ue
    ensures |s.conns| <= c < |Apply(s, step).conns| ==> Apply(s, step).conns[c].ue.handlers == []
  {}

  lemma {:induction false} HandledRun<Node, Ran>(s: State<Node, Ran>, steps: seq<Step<Node, Ran>>, c: nat)
    requires CanRun(s, steps)
    ensures Handled(Run(s, steps), c) == Handled(s, c) + InitialUes(steps, c)
    decreases |steps|
  {
    if steps != [] {
      HandledStep(s, steps[0], c);
      HandledRun(Apply(s, steps[0]), steps[1..], c);
      Assoc(Handled(s, c), InitialUeOf(steps[0], c), InitialUes(steps[1..], c));
    }
  }

  /** In every interleaving the handlers of a connection are exactly those of the messages it read, one each, in
      order: nothing is dropped, repeated or routed to another gNB. */
  lemma RoutedExactly<Node, Ran>(served: seq<Tai>, steps: seq<Step<Node, Ran>>, c: nat)
    requires CanRun(Init<Node, Ran>(served), steps) && c < |Run(Init<Node, Ran>(served), steps).conns|
    ensures UeContexts.RanIds(Run(Init<Node, Ran>(served), steps).conns[c].ue.handlers) == InitialUes(steps, c)
  {
    HandledRun(Init<Node, Ran>(served), steps, c);
  }

  /** Whatever the handlers of a connection can do on their own they can do here, everything else unchanged. */
  lemma {:induction false} LiftHandlers<Node, Ran>(s: State<Node, Ran>, c: nat, own: seq<UeContexts.Step<Ran>>)
    returns (steps: seq<Step<Node, Ran>>)
    requires c < |s.conns| && UeContexts.CanRun(s.conns[c].ue, own) && forall i :: 0 <= i < |own| ==> !own[i].Message?
    ensures CanRun(s, steps)
    ensures Run(s, steps) == s.(conns := s.conns[c := s.conns[c].(ue := UeContexts.Run(s.conns[c].ue, own))])
    decreases |own|
  {
    if own == [] {
      steps := [];
      assert s.conns[c := s.conns[c].(ue := s.conns[c].ue)] == s.conns;
    } else {
      var s1 := Apply(s, Handle(c, own[0]));
      var rest := LiftHandlers(s1, c, own[1..]);
      RunCons(s, Handle(c, own[0]), rest);
      steps := [Handle(c, own[0])] + rest;
      var conn := s.conns[c].(ue := UeContexts.Run(s.conns[c].ue, own));
      assert s1.conns[c := conn] == s.conns[c := conn];
    }
  }

  /** A registered gNB's InitialUEMessage, handled without interruption: an unknown RAN UE id gets a context with
      the next AMF UE id and is served, a known one is refused; nothing else changes. */
  lemma MessageIsServed<Node, Ran>(s: State<Node, Ran>, c: nat, ranId: Ran) returns (steps: seq<Step<Node, Ran>>)
    requires c < |s.conns| && s.conns[c].phase.Looping?
    ensures CanRun(s, steps)
    ensures var s', ue := Run(s, steps), s.conns[c].ue;
      && s'.registry == s.registry && |s'.conns| == |s.conns|
      && (forall d :: 0 <= d < |s.conns| && d != c ==> s'.conns[d] == s.conns[d])
      && s'.conns[c].phase == s.conns[c].phase
      && s'.conns[c].ue ==
           (if ranId in ue.ues then ue.(handlers := ue.handlers + [UeContexts.Handler(ranId, UeContexts.AlreadyExists)])
            else UeContexts.State(
              ue.ues[ranId := UeContexts.Ue(ranId, Counter.Draw(ue.counter, UeContexts.AMF_ID_RANGE), ue.counter)],
              ue.counter + 1, ue.handlers + [UeContexts.Handler(ranId, UeContexts.Served(ue.counter))]))
  {
    var read := ReadLoop(c, InitialUe(ranId));
    var s1, h := Apply(s, read), |s.conns[c].ue.handlers|;
    var own := UeContexts.HandleRest(s1.conns[c].ue, h, ranId);
    var rest := LiftHandlers(s1, c, own);
    RunCons(s, read, rest);
    steps := [read] + rest;
    assert s1.conns[c].ue.handlers[..h] == s.conns[c].ue.handlers;
  }

  lemma EndStep<Node, Ran>(s: State<Node, Ran>, step: Step<Node, Ran>, c: nat)
    requires Enabled(s, step) && c < |Apply(s, step).conns|
    ensures LoopFailedIn(Apply(s, step), c) <==> LoopFailedIn(s, c) || step == ReadLoop(c, LoopReadError)
    ensures LoopEndedIn(Apply(s, step), c) <==> LoopEndedIn(s, c) || step == ReadLoop(c, EndOfStream)
    ensures ClosedIn(Apply(s, step), c) <==> ClosedIn(s, c) || step == Close(c)
  {}

  ghost predicate LoopFailedIn<Node, Ran>(s: State<Node, Ran>, c: nat) { c < |s.conns| && s.conns[c].phase.LoopFailed? }
  ghost predicate LoopEndedIn<Node, Ran>(s: State<Node, Ran>, c: nat) {
    c < |s.conns| && (s.conns[c].phase.Closing? || s.conns[c].phase.Closed?)
  }
  ghost predicate ClosedIn<Node, Ran>(s: State<Node, Ran>, c: nat) { c < |s.conns| && s.conns[c].phase.Closed? }

  lemma {:induction false} EndsRun<Node, Ran>(s: State<Node, Ran>, steps: seq<Step<Node, Ran>>, c: nat)
    requires CanRun(s, steps)
    ensures |s.conns| <= |Run(s, steps).conns|
    ensures LoopFailedIn(Run(s, steps), c) <==> LoopFailedIn(s, c) || ReadLoop(c, LoopReadError) in steps
    ensures LoopEndedIn(Run(s, steps), c) <==> LoopEndedIn(s, c) || ReadLoop(c, EndOfStream) in steps
    ensures ClosedIn(Run(s, steps), c) <==> ClosedIn(s, c) || Close(c) in steps
    decreases |steps|
  {
    if steps != [] {
      var s1 := Apply(s, steps[0]);
      if c < |s1.conns| {
        EndStep(s, steps[0], c);
      }
      EndsRun(s1, steps[1..], c);
      assert forall x :: x in steps <==> x == steps[0] || x in steps[1..];
    }
  }

  /** In every interleaving a connection's loop has failed exactly if a read failed, has ended normally exactly if
      it read the end of the stream, and is closed exactly if it was closed after that. */
  lemma LoopEndsAs<Node, Ran>(served: seq<Tai>, steps: seq<Step<Node, Ran>>, c: nat)
    requires CanRun(Init<Node, Ran>(served), steps)
    ensures var s := Run(Init<Node, Ran>(served), steps);
      && (LoopFailedIn(s, c) <==> ReadLoop(c, LoopReadError) in steps)
      && (LoopEndedIn(s, c) <==> ReadLoop(c, EndOfStream) in steps)
      && (ClosedIn(s, c) <==> Close(c) in steps)
  {
    EndsRun(Init<Node, Ran>(served), steps, c);
  }

  /** A connection that reads the end of its stream gives its node id back, and nothing else changes. */
  lemma NodeIsFreed<Node, Ran>(s: State<Node, Ran>, c: nat) returns (steps: seq<Step<Node, Ran>>)
    requires Inv(s) && c < |s.conns| && s.conns[c].phase.Looping?
    ensures CanRun(s, steps)
    ensures var s' := Run(s, steps);
      && s'.registry == s.registry - {s.conns[c].phase.node} && s.conns[c].phase.node in s.registry
      && |s'.conns| == |s.conns| && ClosedIn(s', c)
      && (forall d :: 0 <= d < |s.conns| && d != c ==> s'.conns[d] == s.conns[d])
  {
    assert ConnOk(s, c);
    var s1 := Apply(s, ReadLoop(c, EndOfStream));
    RunCons(s1, Close(c), []);
    RunCons(s, ReadLoop(c, EndOfStream), [Close(c)] + []);
    steps := [ReadLoop(c, EndOfStream)] + ([Close(c)] + []);
  }

  // ----- what the attempts of a connection come to, in any interleaving

  /** One attempt: what was read, which nodes the duplicate check found registered, and whether the response
      was written. */
  datatype Attempt<Node(==)> = Attempt(input: SetupInput<Node>, registered: set<Node>, written: bool)

  ghost function Outcome<Node>(served: seq<Tai>, a: Attempt<Node>): Option<Node> {
    AttemptOutcome(a.registered, served, a.input, a.written)
  }

  /** An attempt succeeds for a node exactly when it read that node's request, the node was not registered, every
      PLMN of the request decodes and a pair of it is served, octet for octet, and the response was written. */
  lemma OutcomeIff<Node>(served: seq<Tai>, a: Attempt<Node>, node: Node)
    ensures Outcome(served, a) == Some(node) <==>
      && a.written && a.input.SetupRequest? && a.input.request.nodeId == node && node !in a.registered
      && (forall tac, item :: Sends(a.input.request.tas, tac, item) ==> Codecs.DecodePlmn(item.plmn).Some?)
      && (exists tac, item, i :: Sends(a.input.request.tas, tac, item) && 0 <= i < |served| &&
            Matches(tac, item.plmn, served[i]))
  {
    if a.input.SetupRequest? {
      AcceptsIff(a.input.request, served);
    }
  }

  ghost predicate AllFailed<Node>(served: seq<Tai>, attempts: seq<Attempt<Node>>) {
    forall i :: 0 <= i < |attempts| ==> Outcome(served, attempts[i]) == None
  }

  /** A step of connection c in the log of its attempts. */
  ghost function Logged<Node, Ran>(s: State<Node, Ran>, step: Step<Node, Ran>, c: nat, log: seq<Attempt<Node>>)
    : seq<Attempt<Node>>
  {
    var n := |log| - 1;
    match step
    case ReadSetup(d, input) => if d == c then log + [Attempt(input, {}, false)] else log
    case CheckDuplicate(d) => if d == c && n >= 0 then log[n := log[n].(registered := s.registry.Keys)] else log
    case Respond(d, written) => if d == c && n >= 0 then log[n := log[n].(written := written)] else log
    case _ => log
  }

  ghost function Attempts<Node, Ran>(s: State<Node, Ran>, steps: seq<Step<Node, Ran>>, c: nat, log: seq<Attempt<Node>>)
    : seq<Attempt<Node>>
    requires CanRun(s, steps)
    decreases |steps|
  {
    if steps == [] then log else Attempts(Apply(s, steps[0]), steps[1..], c, Logged(s, steps[0], c, log))
  }

  /** Where a connection stands after these attempts. */
  ghost predicate Follows<Node>(ph: Phase<Node>, served: seq<Tai>, log: seq<Attempt<Node>>) {
    if ph.ReadingSetup? then AllFailed(served, log)
    else if ph.GaveUp? then AllFailed(served, log) && |log| == 3
    else
      && log != [] && AllFailed(served, log[..|log| - 1])
      && FollowsLast(ph, served, log[|log| - 1])
  }

  ghost predicate FollowsLast<Node>(ph: Phase<Node>, served: seq<Tai>, last: Attempt<Node>)
    requires !ph.ReadingSetup? && !ph.GaveUp?
  {
    match ph
    case GotRequest(_, request) => last == Attempt(SetupRequest(request), {}, false)
    case PassedCheck(_, request) => last.input == SetupRequest(request) && request.nodeId !in last.registered
    case Responding(_, accepted) => accepted == Outcome(served, last.(written := true))
    case Inserting(node) => Outcome(served, last) == Some(node)
    case Aborted(node) => Outcome(served, last) == Some(node)
    case Looping(node) => Outcome(served, last) == Some(node)
    case LoopFailed(node) => Outcome(served, last) == Some(node)
    case Closing(node) => Outcome(served, last) == Some(node)
    case Closed(node) => Outcome(served, last) == Some(node)
  }

  ghost predicate FollowsIn<Node, Ran>(s: State<Node, Ran>, c: nat, log: seq<Attempt<Node>>) {
    if c < |s.conns| then |log| == s.conns[c].readCount && Follows(s.conns[c].phase, s.served, log) else log == []
  }

  lemma AllFailedNext<Node>(served: seq<Tai>, log: seq<Attempt<Node>>, i: nat)
    requires i < |log| && AllFailed(served, log[..i]) && Outcome(served, log[i]) == None
    ensures AllFailed(served, log[..i + 1])
  {
    var next := log[..i + 1];
    forall j | 0 <= j < |next| ensures Outcome(served, next[j]) == None {
      if j < i {
        assert log[..i][j] == next[j];
      }
    }
  }

  lemma AllFailedLast<Node>(served: seq<Tai>, log: seq<Attempt<Node>>)
    requires log != [] && AllFailed(served, log)
    ensures AllFailed(served, log[..|log| - 1]) && Outcome(served, log[|log| - 1]) == None
  {}

  lemma FollowsRead<Node, Ran>(s: State<Node, Ran>, c: nat, input: SetupInput<Node>, log: seq<Attempt<Node>>)
    requires Enabled(s, ReadSetup(c, input)) && SetupCount(s.conns[c]) && FollowsIn(s, c, log)
    ensures FollowsIn(Apply(s, ReadSetup(c, input)), c, log + [Attempt(input, {}, false)])
  {
    var log', n := log + [Attempt(input, {}, false)], |log|;
    assert log'[..n] == log && log'[..n + 1] == log';
    if input.SetupReadError? || input.SocketClosed? {
      AllFailedNext(s.served, log', n);
    }
  }

  lemma Unwritten<Node>(served: seq<Tai>, a: Attempt<Node>)
    ensures Outcome(served, a) == if a.written then Outcome(served, a.(written := true)) else None
  {}

  /** The response decides the attempt: next attempt, none left, or the insert. */
  lemma FollowsRespond<Node>(served: seq<Tai>, attempt: nat, accepted: Option<Node>, written: bool, log: seq<Attempt<Node>>)
    requires Follows(Responding(attempt, accepted), served, log) && |log| == attempt <= INITIALIZATION_RETRIES
    ensures var n := |log| - 1;
      Follows(if written && accepted.Some? then Inserting(accepted.value) else Retry(attempt), served,
              log[n := log[n].(written := written)])
  {
    var n := |log| - 1;
    var last := log[n].(written := written);
    var log' := log[n := last];
    assert log'[..n] == log[..n] && log'[..n + 1] == log' && log'[n] == last;
    Unwritten(served, last);
    if Outcome(served, last) == None {
      AllFailedNext(served, log', n);
    }
  }

  /** The handler's decision, as the response will carry it. */
  lemma FollowsCheck<Node>(served: seq<Tai>, attempt: nat, request: Request<Node>, registered: set<Node>, log: seq<Attempt<Node>>)
    requires Follows(GotRequest(attempt, request), served, log)
    ensures var n := |log| - 1;
      Follows(if request.nodeId in registered then Responding(attempt, None) else PassedCheck(attempt, request), served,
              log[n := log[n].(registered := registered)])
  {
    var n := |log| - 1;
    var log' := log[n := log[n].(registered := registered)];
    assert log'[..n] == log[..n];
  }

  /** Steps that leave the log alone. */
  lemma FollowsQuietly<Node, Ran>(s: State<Node, Ran>, step: Step<Node, Ran>, c: nat, log: seq<Attempt<Node>>)
    requires Enabled(s, step) && c < |s.conns| && FollowsIn(s, c, log)
    requires step.ReadSetup? || step.CheckDuplicate? || step.Respond? ==> step.c != c
    ensures FollowsIn(Apply(s, step), c, log)
  {
    var ph, s' := s.conns[c].phase, Apply(s, step);
    assert s'.served == s.served && s'.conns[c].readCount == s.conns[c].readCount;
    if !step.Accept? && step.c == c && !step.Evaluate? && !step.Handle? {
      assert ph.Inserting? || ph.Looping? || ph.Closing?;
      assert s'.conns[c].phase.node == ph.node && (Owns(s'.conns[c].phase) || s'.conns[c].phase.Aborted? || s'.conns[c].phase.Closed?);
    }
  }

  lemma FollowsStep<Node, Ran>(s: State<Node, Ran>, step: Step<Node, Ran>, c: nat, log: seq<Attempt<Node>>)
    requires Enabled(s, step) && (c < |s.conns| ==> SetupCount(s.conns[c])) && FollowsIn(s, c, log)
    ensures FollowsIn(Apply(s, step), c, Logged(s, step, c, log))
  {
    if c < |s.conns| {
      if step == CheckDuplicate(c) {
        var GotRequest(attempt, request) := s.conns[c].phase;
        FollowsCheck(s.served, attempt, request, s.registry.Keys, log);
      } else if step.ReadSetup? && step.c == c {
        FollowsRead(s, c, step.input, log);
      } else if step.Respond? && step.c == c {
        var Responding(attempt, accepted) := s.conns[c].phase;
        FollowsRespond(s.served, attempt, accepted, step.written, log);
      } else {
        FollowsQuietly(s, step, c, log);
      }
    }
  }

  lemma {:induction false} FollowsRun<Node, Ran>(
    s: State<Node, Ran>, steps: seq<Step<Node, Ran>>, c: nat, log: seq<Attempt<Node>>)
    requires Inv(s) && CanRun(s, steps) && FollowsIn(s, c, log)
    ensures FollowsIn(Run(s, steps), c, Attempts(s, steps, c, log))
    decreases |steps|
  {
    if steps != [] {
      if c < |s.conns| {
        assert ConnOk(s, c);
      }
      StepInv(s, steps[0]);
      FollowsStep(s, steps[0], c, log);
      FollowsRun(Apply(s, steps[0]), steps[1..], c, Logged(s, steps[0], c, log));
    }
  }

  /** In every interleaving, whatever the registry does meanwhile: a connection gets past setup with the node
      of its first successful attempt, and gives up exactly after three attempts that all failed. */
  lemma SetupFollowsAttempts<Node, Ran>(served: seq<Tai>, steps: seq<Step<Node, Ran>>, c: nat)
    requires CanRun(Init<Node, Ran>(served), steps) && c < |Run(Init<Node, Ran>(served), steps).conns|
    ensures var s := Run(Init<Node, Ran>(served), steps);
      var log := Attempts(Init<Node, Ran>(served), steps, c, []);
      && |log| == s.conns[c].readCount <= INITIALIZATION_RETRIES
      && Follows(s.conns[c].phase, s.served, log)
  {
    RunInv(Init<Node, Ran>(served), steps);
    assert ConnOk(Run(Init<Node, Ran>(served), steps), c);
    FollowsRun(Init<Node, Ran>(served), steps, c, []);
  }

  class NgapContext<Node(==)> {
    var gnbContexts: map<Node, nat>
    const served: seq<Tai>

    constructor (served: seq<Tai>)
      ensures gnbContexts == map[] && this.served == served
    {
      gnbContexts := map[];
      this.served := served;
    }

    /** try_ng_setup: read, decide, write the response. */
    method TryNgSetup(a: Attempt<Node>) returns (accepted: Option<Node>)
      ensures accepted == Outcome(served, a)
    {
      var result := None;
      match a.input {
        case SetupReadError => return None;
        case SocketClosed => return None;
        case Undecodable =>
        case OtherMessage =>
        case SetupRequest(request) =>
          if request.nodeId !in a.registered {
            var tais := ConvertRequest(request.tas);
            if tais.Some? && AnyServed(tais.value, served) {
              result := Some(request.nodeId);
            }
          }
      }
      accepted := if a.written then result else None;
    }

    /** try_ng_setup_with_retries: the first of at most three attempts that succeeds decides. */
    method TryNgSetupWithRetries(attempts: seq<Attempt<Node>>) returns (accepted: Option<Node>, used: nat)
      requires |attempts| == INITIALIZATION_RETRIES
      ensures 1 <= used <= INITIALIZATION_RETRIES && AllFailed(served, attempts[..used - 1])
      ensures accepted == Outcome(served, attempts[used - 1])
      ensures accepted == None ==> used == INITIALIZATION_RETRIES
    {
      for i := 0 to INITIALIZATION_RETRIES
        invariant AllFailed(served, attempts[..i])
      {
        accepted := TryNgSetup(attempts[i]);
        if accepted.Some? {
          return accepted, i + 1;
        }
        AllFailedNext(served, attempts, i);
      }
      assert attempts[..INITIALIZATION_RETRIES] == attempts;
      AllFailedLast(served, attempts);
      return None, INITIALIZATION_RETRIES;
    }

    /** The insert of start_ngap_processing, in a state of the system whose registry this is: `ok` says that
        the connection owns its node from now on; otherwise the unwrap aborts its tokio task. */
    method Register<Ran>(ghost s: State<Node, Ran>, node: Node, c: nat) returns (ok: bool)
      requires Inv(s) && s.registry == gnbContexts && Enabled(s, Insert(c)) && s.conns[c].phase.node == node
      modifies this
      ensures var s' := Apply(s, Insert(c));
        && Inv(s') && s'.registry == gnbContexts
        && (ok <==> OwnsNode(s', c, node)) && (!ok <==> s'.conns[c].phase.Aborted?)
        && (!ok <==> exists d: nat :: OwnsNode(s, d, node))
    {
      StepInv(s, Insert(c));
      RegisteredIff(s, node);
      ok := node !in gnbContexts;
      if ok {
        gnbContexts := gnbContexts[node := c];
      }
    }

    /** close_ran_connection, in a state of the system whose registry this is: the node is free again, and
        whoever else owns a node keeps it. */
    method CloseRanConnection<Ran>(ghost s: State<Node, Ran>, node: Node, c: nat)
      requires Inv(s) && s.registry == gnbContexts && Enabled(s, Close(c)) && s.conns[c].phase.node == node
      modifies this
      ensures Inv(Apply(s, Close(c))) && Apply(s, Close(c)).registry == gnbContexts && node !in gnbContexts
      ensures forall d: nat, other :: d != c && OwnsNode(s, d, other) ==> other in gnbContexts && gnbContexts[other] == d
    {
      StepInv(s, Close(c));
      assert ConnOk(s, c);
      forall d: nat, other | d != c && OwnsNode(s, d, other)
        ensures other in s.registry && s.registry[other] == d && other != node
      {
        assert ConnOk(s, d);
      }
      gnbContexts := gnbContexts - {node};
    }
  }
}
