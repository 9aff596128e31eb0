/**
 The UE contexts of one gNB, created by InitialUEMessage handlers.  Every message has its own task, so
 any number of handlers run the steps below interleaved: check, draw an id, insert, schedule.
 */
module UeContexts {
  import opened Sequences
  import Counter

  /** AmfUeNgapId comes from an AtomicU64. */
  const AMF_ID_RANGE: nat := 0x1_0000_0000_0000_0000

  /** `ticket` is history: which draw from the counter the AMF id was. */
  datatype Ue<+Ran> = Ue(ranId: Ran, amfId: nat, ticket: nat)

  datatype Phase =
    | Checking
    | Allocating
    | Adding(ticket: nat)
    | Scheduling(ticket: nat)   // context inserted, with_context pending
    | Served(ticket: nat)
    | AlreadyExists             // refused by the first check
    | Aborted                   // refused by the insert, where the tokio task panics
    | NotFound

  datatype Handler<+Ran> = Handler(ranId: Ran, phase: Phase)

  datatype State<!Ran> = State(ues: map<Ran, Ue<Ran>>, counter: nat, handlers: seq<Handler<Ran>>)

  function Init<Ran>(): State<Ran> { State(map[], 0, []) }

  datatype Step<!Ran> =
    | Message(ranId: Ran)
    | Check(h: nat)
    | Allocate(h: nat)
    | Add(h: nat)
    | Schedule(h: nat)

  ghost predicate Enabled<Ran>(s: State<Ran>, step: Step<Ran>) {
    match step
    case Message(_) => true
    case Check(h) => h < |s.handlers| && s.handlers[h].phase.Checking?
    case Allocate(h) => h < |s.handlers| && s.handlers[h].phase.Allocating?
    case Add(h) => h < |s.handlers| && s.handlers[h].phase.Adding?
    case Schedule(h) => h < |s.handlers| && s.handlers[h].phase.Scheduling?
  }

  ghost function Apply<Ran>(s: State<Ran>, step: Step<Ran>): State<Ran>
    requires Enabled(s, step)
  {
    match step
    case Message(ranId) => s.(handlers := s.handlers + [Handler(ranId, Checking)])
    case Check(h) =>
      var ph := if s.handlers[h].ranId in s.ues then AlreadyExists else Allocating;
      s.(handlers := s.handlers[h := s.handlers[h].(phase := ph)])
    case Allocate(h) =>
      s.(handlers := s.handlers[h := s.handlers[h].(phase := Adding(s.counter))], counter := s.counter + 1)
    case Add(h) =>
      var Handler(ranId, Adding(ticket)) := s.handlers[h];
      if ranId in s.ues then s.(handlers := s.handlers[h := Handler(ranId, Aborted)])
      else s.(ues := s.ues[ranId := Ue(ranId, Counter.Draw(ticket, AMF_ID_RANGE), ticket)],
              handlers := s.handlers[h := Handler(ranId, Scheduling(ticket))])
    case Schedule(h) =>
      var Handler(ranId, Scheduling(ticket)) := s.handlers[h];
      s.(handlers := s.handlers[h := Handler(ranId, if ranId in s.ues then Served(ticket) else NotFound)])
  }

  ghost predicate CanRun<Ran>(s: State<Ran>, steps: seq<Step<Ran>>)
    decreases |steps|
  {
    steps == [] || (Enabled(s, steps[0]) && CanRun(Apply(s, steps[0]), steps[1..]))
  }

  ghost function Run<Ran>(s: State<Ran>, steps: seq<Step<Ran>>): State<Ran>
    requires CanRun(s, steps)
    decreases |steps|
  {
    if steps == [] then s else Run(Apply(s, steps[0]), steps[1..])
  }

  predicate HasTicket(ph: Phase) { ph.Adding? || ph.Scheduling? || ph.Served? }
  predicate Inserted(ph: Phase) { ph.Scheduling? || ph.Served? }

  ghost predicate Inv<Ran>(s: State<Ran>) {
    TableInv(s) && TicketInv(s) && s.counter + Undrawn(s.handlers) <= |s.handlers|
  }

  /** Every context has its own id and its own draw, and belongs to a handler that got through. */
  ghost predicate TableInv<Ran>(s: State<Ran>) {
    && (forall r :: r in s.ues ==>
          && s.ues[r].ranId == r && s.ues[r].ticket < s.counter
          && s.ues[r].amfId == Counter.Draw(s.ues[r].ticket, AMF_ID_RANGE))
    && (forall r, q :: r in s.ues && q in s.ues && s.ues[r].ticket == s.ues[q].ticket ==> r == q)
    && (forall h :: 0 <= h < |s.handlers| ==> HandlerOk(s, s.handlers[h]))
  }

  ghost predicate HandlerOk<Ran>(s: State<Ran>, handler: Handler<Ran>) {
    && (Inserted(handler.phase) ==> handler.ranId in s.ues && s.ues[handler.ranId].ticket == handler.phase.ticket)
    && (handler.phase.Adding? ==> forall r :: r in s.ues ==> s.ues[r].ticket != handler.phase.ticket)
    && !handler.phase.NotFound?
  }

  ghost predicate TicketInv<Ran>(s: State<Ran>) {
    && (forall h :: 0 <= h < |s.handlers| && HasTicket(s.handlers[h].phase) ==> s.handlers[h].phase.ticket < s.counter)
    && (forall h, i :: 0 <= h < i < |s.handlers| && HasTicket(s.handlers[h].phase) && HasTicket(s.handlers[i].phase) ==>
          s.handlers[h].phase.ticket != s.handlers[i].phase.ticket)
  }

  /** Handlers that may still draw an id. */
  function Undrawn<Ran>(handlers: seq<Handler<Ran>>): nat {
    if handlers == [] then 0 else
      (if handlers[0].phase.Checking? || handlers[0].phase.Allocating? then 1 else 0) + Undrawn(handlers[1..])
  }

  lemma {:induction false} UndrawnUpdate<Ran>(handlers: seq<Handler<Ran>>, h: nat, x: Handler<Ran>)
    requires h < |handlers|
    ensures var a := (if handlers[h].phase.Checking? || handlers[h].phase.Allocating? then 1 else 0);
            var b := (if x.phase.Checking? || x.phase.Allocating? then 1 else 0);
            Undrawn(handlers[h := x]) == Undrawn(handlers) - a + b
  {
    if h == 0 {
      assert handlers[0 := x][1..] == handlers[1..];
    } else {
      UndrawnUpdate(handlers[1..], h - 1, x);
      assert handlers[h := x][1..] == handlers[1..][h - 1 := x];
    }
  }

  lemma {:induction false} UndrawnAppend<Ran>(handlers: seq<Handler<Ran>>, x: Handler<Ran>)
    ensures Undrawn(handlers + [x]) == Undrawn(handlers) + (if x.phase.Checking? || x.phase.Allocating? then 1 else 0)
  {
    if handlers == [] {
      assert handlers + [x] == [x] && [x][1..] == [];
    } else {
      UndrawnAppend(handlers[1..], x);
      assert (handlers + [x])[1..] == handlers[1..] + [x];
    }
  }

  lemma TicketStep<Ran>(s: State<Ran>, step: Step<Ran>)
    requires TicketInv(s) && Enabled(s, step)
    ensures TicketInv(Apply(s, step))
  {}

  lemma TableAdd<Ran>(s: State<Ran>, h: nat)
    requires TableInv(s) && TicketInv(s) && Enabled(s, Add(h)) && s.handlers[h].ranId !in s.ues
    ensures TableInv(Apply(s, Add(h)))
  {
    var s', ranId, ticket := Apply(s, Add(h)), s.handlers[h].ranId, s.handlers[h].phase.ticket;
    assert HasTicket(s.handlers[h].phase);
    assert s'.ues.Keys == s.ues.Keys + {ranId};
    assert forall r :: r in s.ues ==> s'.ues[r] == s.ues[r] && s.ues[r].ticket != ticket;
    assert forall i :: 0 <= i < |s.handlers| && i != h ==> s'.handlers[i] == s.handlers[i];
    forall i | 0 <= i < |s'.handlers| ensures HandlerOk(s', s'.handlers[i]) {
      if i != h {
        assert HandlerOk(s, s.handlers[i]);
        assert HasTicket(s.handlers[i].phase) ==> s.handlers[i].phase.ticket != ticket;
      }
    }
  }

  /** Steps that insert nothing. */
  lemma TableSame<Ran>(s: State<Ran>, step: Step<Ran>)
    requires TableInv(s) && TicketInv(s) && Enabled(s, step)
    requires step.Add? ==> s.handlers[step.h].ranId in s.ues
    ensures TableInv(Apply(s, step))
  {
    var s' := Apply(s, step);
    assert s'.ues == s.ues && s.counter <= s'.counter;
    forall h | 0 <= h < |s'.handlers| ensures HandlerOk(s', s'.handlers[h]) {
      if h < |s.handlers| {
        assert HandlerOk(s, s.handlers[h]);
      }
    }
  }

  lemma TableStep<Ran>(s: State<Ran>, step: Step<Ran>)
    requires TableInv(s) && TicketInv(s) && Enabled(s, step)
    ensures TableInv(Apply(s, step))
  {
    if step.Add? && s.handlers[step.h].ranId !in s.ues {
      TableAdd(s, step.h);
    } else {
      TableSame(s, step);
    }
  }

  lemma StepInv<Ran>(s: State<Ran>, step: Step<Ran>)
    requires Inv(s) && Enabled(s, step)
    ensures Inv(Apply(s, step))
  {
    TicketStep(s, step);
    TableStep(s, step);
    CountStep(s, step);
  }

  lemma CountStep<Ran>(s: State<Ran>, step: Step<Ran>)
    requires s.counter + Undrawn(s.handlers) <= |s.handlers| && Enabled(s, step)
    ensures Apply(s, step).counter + Undrawn(Apply(s, step).handlers) <= |Apply(s, step).handlers|
  {
    if step.Message? {
      UndrawnAppend(s.handlers, Handler(step.ranId, Checking));
    } else {
      UndrawnUpdate(s.handlers, step.h, Apply(s, step).handlers[step.h]);
    }
  }

  lemma {:induction false} RunInv<Ran>(s: State<Ran>, steps: seq<Step<Ran>>)
    requires Inv(s) && CanRun(s, steps)
    ensures Inv(Run(s, steps))
    decreases |steps|
  {
    if steps != [] {
      StepInv(s, steps[0]);
      RunInv(Apply(s, steps[0]), steps[1..]);
    }
  }

  /** What holds of one gNB's table after any interleaving: every context sits under its own RAN UE id,
      each id was added by one handler, a scheduled job always finds its context, and AMF UE ids of two
      contexts coincide exactly when their draws are a multiple of 2^64 apart. */
  ghost predicate TableSound<Ran>(s: State<Ran>) {
    && (forall r :: r in s.ues ==> s.ues[r].ranId == r)
    && (forall h, i :: 0 <= h < i < |s.handlers| && Inserted(s.handlers[h].phase) && Inserted(s.handlers[i].phase) ==>
          s.handlers[h].ranId != s.handlers[i].ranId)
    && (forall h :: 0 <= h < |s.handlers| ==> !s.handlers[h].phase.NotFound?)
    && (forall r, q :: r in s.ues && q in s.ues && r != q ==> IdsApart(s.ues[r], s.ues[q], |s.handlers|))
  }

  /** AMF ids coincide exactly when their draws are a multiple of 2^64 apart, which takes that many messages. */
  predicate IdsApart<Ran>(a: Ue<Ran>, b: Ue<Ran>, messages: nat) {
    && a.ticket != b.ticket
    && (a.ticket < b.ticket ==> (a.amfId == b.amfId <==> (b.ticket - a.ticket) % 0x1_0000_0000_0000_0000 == 0))
    && (messages <= 0x1_0000_0000_0000_0000 ==> a.amfId != b.amfId)
  }

  lemma TwoDraws<Ran>(a: Ue<Ran>, b: Ue<Ran>, messages: nat)
    requires a.ticket != b.ticket && a.ticket < messages && b.ticket < messages
    requires a.amfId == Counter.Draw(a.ticket, AMF_ID_RANGE) && b.amfId == Counter.Draw(b.ticket, AMF_ID_RANGE)
    ensures IdsApart(a, b, messages)
  {
    if a.ticket < b.ticket {
      Counter.SameDraw(a.ticket, b.ticket, AMF_ID_RANGE);
    } else {
      Counter.SameDraw(b.ticket, a.ticket, AMF_ID_RANGE);
    }
  }

  lemma InvSound<Ran>(s: State<Ran>)
    requires Inv(s)
    ensures TableSound(s)
  {
    assert forall h :: 0 <= h < |s.handlers| ==> HandlerOk(s, s.handlers[h]);
    forall r, q | r in s.ues && q in s.ues && r != q ensures IdsApart(s.ues[r], s.ues[q], |s.handlers|) {
      TwoDraws(s.ues[r], s.ues[q], |s.handlers|);
    }
  }

  lemma HandlersSound<Ran>(steps: seq<Step<Ran>>)
    requires CanRun(Init<Ran>(), steps)
    ensures TableSound(Run(Init<Ran>(), steps))
  {
    RunInv(Init<Ran>(), steps);
    InvSound(Run(Init<Ran>(), steps));
  }

  // ----- when a handler aborts

  /** Handler h has inserted the context of this RAN UE id. */
  ghost predicate InsertedFor<Ran>(s: State<Ran>, h: nat, ranId: Ran) {
    h < |s.handlers| && s.handlers[h].ranId == ranId && Inserted(s.handlers[h].phase)
  }

  ghost predicate Owned<Ran>(s: State<Ran>) {
    forall r :: r in s.ues ==> exists h: nat :: InsertedFor(s, h, r)
  }

  lemma InsertedStays<Ran>(s: State<Ran>, step: Step<Ran>, h: nat, ranId: Ran)
    requires Enabled(s, step) && ranId in s.ues && InsertedFor(s, h, ranId)
    ensures InsertedFor(Apply(s, step), h, ranId)
  {}

  lemma NewContext<Ran>(s: State<Ran>, step: Step<Ran>, ranId: Ran)
    requires Enabled(s, step) && ranId !in s.ues && ranId in Apply(s, step).ues
    ensures step.Add? && InsertedFor(Apply(s, step), step.h, ranId)
  {}

  lemma OwnedStep<Ran>(s: State<Ran>, step: Step<Ran>)
    requires Owned(s) && Enabled(s, step)
    ensures Owned(Apply(s, step))
  {
    var s' := Apply(s, step);
    forall r | r in s'.ues ensures exists h: nat :: InsertedFor(s', h, r) {
      if r in s.ues {
        var h: nat :| InsertedFor(s, h, r);
        InsertedStays(s, step, h, r);
      } else {
        NewContext(s, step, r);
      }
    }
  }

  lemma {:induction false} OwnedRun<Ran>(s: State<Ran>, steps: seq<Step<Ran>>)
    requires Owned(s) && CanRun(s, steps)
    ensures Owned(Run(s, steps))
    decreases |steps|
  {
    if steps != [] {
      OwnedStep(s, steps[0]);
      OwnedRun(Apply(s, steps[0]), steps[1..]);
    }
  }

  lemma {:induction false} SameHandler<Ran>(s: State<Ran>, steps: seq<Step<Ran>>, h: nat)
    requires h < |s.handlers| && CanRun(s, steps)
    ensures h < |Run(s, steps).handlers| && Run(s, steps).handlers[h].ranId == s.handlers[h].ranId
    decreases |steps|
  {
    if steps != [] {
      SameHandler(Apply(s, steps[0]), steps[1..], h);
    }
  }

  /** A handler whose check passed aborts at its insert exactly when another handler of the same RAN UE id
      has inserted since that check. */
  lemma AbortsIff<Ran>(steps: seq<Step<Ran>>, h: nat, more: seq<Step<Ran>>)
    requires CanRun(Init<Ran>(), steps) && Enabled(Run(Init<Ran>(), steps), Check(h))
    requires Apply(Run(Init<Ran>(), steps), Check(h)).handlers[h].phase.Allocating?
    requires CanRun(Apply(Run(Init<Ran>(), steps), Check(h)), more)
    requires Enabled(Run(Apply(Run(Init<Ran>(), steps), Check(h)), more), Add(h))
    ensures var s := Run(Init<Ran>(), steps);
      var t, ranId := Run(Apply(s, Check(h)), more), s.handlers[h].ranId;
      Apply(t, Add(h)).handlers[h].phase.Aborted? <==>
        exists g: nat :: g != h && InsertedFor(t, g, ranId) && !InsertedFor(s, g, ranId)
  {
    var s := Run(Init<Ran>(), steps);
    var s1 := Apply(s, Check(h));
    var t, ranId := Run(s1, more), s.handlers[h].ranId;
    RunInv(Init<Ran>(), steps);
    OwnedRun(Init<Ran>(), steps);
    OwnedStep(s, Check(h));
    StepInv(s, Check(h));
    RunInv(s1, more);
    OwnedRun(s1, more);
    SameHandler(s1, more, h);
    AbortsWhen(s, t, h, ranId);
  }

  lemma AbortsWhen<Ran>(s: State<Ran>, t: State<Ran>, h: nat, ranId: Ran)
    requires TableInv(s) && ranId !in s.ues
    requires TableInv(t) && Owned(t) && Enabled(t, Add(h)) && t.handlers[h].ranId == ranId
    ensures Apply(t, Add(h)).handlers[h].phase.Aborted? <==>
      exists g: nat :: g != h && InsertedFor(t, g, ranId) && !InsertedFor(s, g, ranId)
  {
    forall g: nat ensures !InsertedFor(s, g, ranId) {
      assert g < |s.handlers| ==> HandlerOk(s, s.handlers[g]);
    }
    assert HandlerOk(t, t.handlers[h]);
    if ranId in t.ues {
      var g: nat :| InsertedFor(t, g, ranId);
    }
  }

  /** Two messages with one id are enough: both checks pass, and the second insert aborts. */
  lemma AbortHappens<Ran>(ranId: Ran) returns (steps: seq<Step<Ran>>)
    ensures CanRun(Init<Ran>(), steps)
    ensures var s := Run(Init<Ran>(), steps); |s.handlers| == 2 && s.handlers[1] == Handler(ranId, Aborted)
  {
    var s0 := Init<Ran>();
    var s1 := Apply(s0, Message(ranId));
    var s2 := Apply(s1, Message(ranId));
    var s3 := Apply(s2, Check(0));
    var s4 := Apply(s3, Check(1));
    var s5 := Apply(s4, Allocate(0));
    var s6 := Apply(s5, Allocate(1));
    var s7 := Apply(s6, Add(0));
    assert s7.handlers[1].phase == Adding(1) && ranId in s7.ues;
    steps := [];
    RunCons(s7, Add(1), steps); steps := [Add(1)] + steps;
    RunCons(s6, Add(0), steps); steps := [Add(0)] + steps;
    RunCons(s5, Allocate(1), steps); steps := [Allocate(1)] + steps;
    RunCons(s4, Allocate(0), steps); steps := [Allocate(0)] + steps;
    RunCons(s3, Check(1), steps); steps := [Check(1)] + steps;
    RunCons(s2, Check(0), steps); steps := [Check(0)] + steps;
    RunCons(s1, Message(ranId), steps); steps := [Message(ranId)] + steps;
    RunCons(s0, Message(ranId), steps); steps := [Message(ranId)] + steps;
  }

  // ----- the handler as a method, uninterrupted

  lemma RunCons<Ran>(s: State<Ran>, a: Step<Ran>, rest: seq<Step<Ran>>)
    requires Enabled(s, a) && CanRun(Apply(s, a), rest)
    ensures CanRun(s, [a] + rest) && Run(s, [a] + rest) == Run(Apply(s, a), rest)
  {
    assert ([a] + rest)[1..] == rest;
  }

  /** The table, the counter and the outcome after one message that nothing interrupts. */
  function HandleEffect<Ran>(ues: map<Ran, Ue<Ran>>, counter: nat, ranId: Ran): (map<Ran, Ue<Ran>>, nat, Phase) {
    if ranId in ues then (ues, counter, AlreadyExists)
    else (ues[ranId := Ue(ranId, Counter.Draw(counter, AMF_ID_RANGE), counter)], counter + 1, Served(counter))
  }

  /** The rest of a handler after its message has come in. */
  lemma HandleRest<Ran>(s: State<Ran>, h: nat, ranId: Ran) returns (steps: seq<Step<Ran>>)
    requires h < |s.handlers| && s.handlers[h] == Handler(ranId, Checking)
    ensures CanRun(s, steps) && forall i :: 0 <= i < |steps| ==> !steps[i].Message?
    ensures Run(s, steps) ==
      if ranId in s.ues then s.(handlers := s.handlers[h := Handler(ranId, AlreadyExists)])
      else State(s.ues[ranId := Ue(ranId, Counter.Draw(s.counter, AMF_ID_RANGE), s.counter)], s.counter + 1,
                 s.handlers[h := Handler(ranId, Served(s.counter))])
  {
    var s1 := Apply(s, Check(h));
    steps := [];
    if ranId !in s.ues {
      var s2 := Apply(s1, Allocate(h));
      var s3 := Apply(s2, Add(h));
      var s4 := Apply(s3, Schedule(h));
      assert s4.handlers == s.handlers[h := Handler(ranId, Served(s.counter))];
      RunCons(s3, Schedule(h), steps); steps := [Schedule(h)] + steps;
      RunCons(s2, Add(h), steps); steps := [Add(h)] + steps;
      RunCons(s1, Allocate(h), steps); steps := [Allocate(h)] + steps;
    }
    RunCons(s, Check(h), steps); steps := [Check(h)] + steps;
  }

  lemma HandleIsRun<Ran>(s: State<Ran>, ranId: Ran) returns (steps: seq<Step<Ran>>)
    ensures CanRun(s, steps)
    ensures var s' := Run(s, steps);
      && |s'.handlers| == |s.handlers| + 1
      && (s'.ues, s'.counter, s'.handlers[|s.handlers|].phase) == HandleEffect(s.ues, s.counter, ranId)
  {
    var s1 := Apply(s, Message(ranId));
    var rest := HandleRest(s1, |s.handlers|, ranId);
    RunCons(s, Message(ranId), rest);
    steps := [Message(ranId)] + rest;
  }

  // ----- who is handled

  function RanIds<Ran>(handlers: seq<Handler<Ran>>): (ids: seq<Ran>)
    ensures |ids| == |handlers| && forall i :: 0 <= i < |ids| ==> ids[i] == handlers[i].ranId
  {
    if handlers == [] then [] else [handlers[0].ranId] + RanIds(handlers[1..])
  }

  /** Each message gets a handler of its own, and handlers keep their ids. */
  lemma RanIdsStep<Ran>(s: State<Ran>, step: Step<Ran>)
    requires Enabled(s, step)
    ensures RanIds(Apply(s, step).handlers) == RanIds(s.handlers) + if step.Message? then [step.ranId] else []
  {}

  class GnbContext<Ran(==)> {
    var ues: map<Ran, Ue<Ran>>
    const generator: Counter.AtomicCounter

    ghost predicate Valid()
      reads this, generator
    {
      generator.Valid() && generator.range == AMF_ID_RANGE
    }

    constructor ()
      ensures Valid() && ues == map[] && generator.draws == 0 && fresh(generator)
    {
      ues := map[];
      generator := new Counter.AtomicCounter(AMF_ID_RANGE);
    }

    /** handle_request of InitialUEMessage */
    method HandleRequest(ranId: Ran) returns (outcome: Phase)
      requires Valid()
      modifies this, generator
      ensures Valid() && (ues, generator.draws, outcome) == HandleEffect(old(ues), old(generator.draws), ranId)
    {
      if ranId in ues {
        return AlreadyExists;
      }
      var ticket := generator.draws;
      var amfId := generator.Increment();
      var added := ranId !in ues;
      if added {
        ues := ues[ranId := Ue(ranId, amfId, ticket)];
      }
      outcome := if !added then Aborted else if ranId in ues then Served(ticket) else NotFound;
    }
  }
}
