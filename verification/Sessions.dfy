/**
 The sessions of the master and the sends of its ticks, comms/volpe/master.go and master/master.go. A
 worker may reconnect at any time, also while an earlier session under its ID is still being wound up.
 Every session has a channel of its own; a call looks its worker's channel up when it is made, and then
 waits on that channel until the handler of the session takes the message.
 */
module Sessions {
  import opened Protocol
  import opened Schedules

  datatype Phase =
    | Opening    // the channel is registered, the handler does not run yet
    | Receiving  // the handler takes messages
    | Over       // the handler has returned, the worker is still with the scheduler
    | Removed    // the worker has been removed from the scheduler

  datatype Session = Session(worker: string, phase: Phase)

  datatype Master = Master(
    sessions: seq<Session>,      // by the number of their channel
    channs: map<string, nat>,    // the channel registered under each worker ID
    workers: set<string>,        // the workers that the scheduler knows
    outbox: seq<Entry>,          // calls that the tick has still to finish
    waiting: Option<nat>)        // the channel on which the first of them waits

  datatype Step =
    | Open(w: string)
    | Serve(c: nat)
    | Break(c: nat)
    | Remove(c: nat)
    | Fill(calls: seq<Entry>)
    | Call
    | Take

  ghost predicate Init(s: Master) {
    s == Master([], map[], {}, [], None)
  }

  /** The handler of channel `c` has returned: nothing takes a message from the channel any more. */
  ghost predicate Ended(s: Master, c: nat) {
    c < |s.sessions| && (s.sessions[c].phase.Over? || s.sessions[c].phase.Removed?)
  }

  ghost predicate InPhase(s: Master, c: nat, phase: Phase) {
    c < |s.sessions| && s.sessions[c].phase == phase
  }

  function WithPhase(s: Master, c: nat, phase: Phase): Master
    requires c < |s.sessions|
  {
    s.(sessions := s.sessions[c := s.sessions[c].(phase := phase)])
  }

  // ---- Steps --------------------------------------------------------------------------

  /** A call for an unknown worker is over at once; any other waits on the channel that is registered now. */
  ghost predicate CallStep(s: Master, s': Master) {
    && s.outbox != [] && s.waiting == None
    && s' == if s.outbox[0].worker in s.channs then s.(waiting := Some(s.channs[s.outbox[0].worker]))
             else s.(outbox := s.outbox[1..])
  }

  ghost predicate TakeStep(s: Master, s': Master) {
    && s.outbox != [] && s.waiting.Some? && InPhase(s, s.waiting.value, Receiving)
    && s' == s.(outbox := s.outbox[1..], waiting := None)
  }

  /** A tick begins when the one before has finished, with calls for workers of the scheduler. */
  ghost predicate FillStep(s: Master, calls: seq<Entry>, s': Master) {
    && s.outbox == []
    && (forall i :: 0 <= i < |calls| ==> calls[i].worker in s.workers)
    && s' == s.(outbox := calls)
  }

  ghost predicate Next(s: Master, step: Step, s': Master) {
    match step
    case Open(w) => s' == s.(sessions := s.sessions + [Session(w, Opening)], channs := s.channs[w := |s.sessions|])
    case Serve(c) =>
      InPhase(s, c, Opening) && s' == WithPhase(s, c, Receiving).(workers := s.workers + {s.sessions[c].worker})
    case Break(c) => InPhase(s, c, Receiving) && s' == WithPhase(s, c, Over)
    case Remove(c) =>
      InPhase(s, c, Over) && s' == WithPhase(s, c, Removed).(workers := s.workers - {s.sessions[c].worker})
    case Fill(calls) => FillStep(s, calls, s')
    case Call => CallStep(s, s')
    case Take => TakeStep(s, s')
  }

  /** Steps from one state to another. */
  ghost predicate Path(states: seq<Master>, steps: seq<Step>) {
    && |states| == |steps| + 1
    && forall i :: 0 <= i < |steps| ==> Next(states[i], steps[i], states[i + 1])
  }

  ghost predicate Run(states: seq<Master>, steps: seq<Step>) {
    Path(states, steps) && Init(states[0])
  }

  // ---- Every call finds its channel -----------------------------------------------------

  ghost predicate Inv(s: Master) {
    && (forall w :: w in s.channs ==> s.channs[w] < |s.sessions| && s.sessions[s.channs[w]].worker == w)
    && (forall c :: 0 <= c < |s.sessions| ==> s.sessions[c].worker in s.channs)
    && s.workers <= s.channs.Keys
    && (forall i :: 0 <= i < |s.outbox| ==> s.outbox[i].worker in s.channs)
    && (s.waiting.Some? ==>
          && s.outbox != [] && s.waiting.value < |s.sessions|
          && s.sessions[s.waiting.value].worker == s.outbox[0].worker)
  }

  lemma {:induction false} NextKeeps(s: Master, step: Step, s': Master)
    requires Inv(s) && Next(s, step, s')
    ensures Inv(s')
  {
    hide Inv, Ended;
    match step
    case Open(w) => OpenKeeps(s, w, s');
    case Serve(c) => PhaseKeeps(s, c, Receiving, s.workers + {s.sessions[c].worker});
    case Break(c) => PhaseKeeps(s, c, Over, s.workers);
    case Remove(c) => PhaseKeeps(s, c, Removed, s.workers - {s.sessions[c].worker});
    case Fill(calls) => TickKeeps(s, step, s');
    case Call => TickKeeps(s, step, s');
    case Take => TickKeeps(s, step, s');
  }

  lemma {:induction false} OpenKeeps(s: Master, w: string, s': Master)
    requires Inv(s) && Next(s, Open(w), s')
    ensures Inv(s')
  {
  }

  lemma {:induction false} PhaseKeeps(s: Master, c: nat, phase: Phase, workers: set<string>)
    requires Inv(s) && c < |s.sessions| && workers <= s.workers + {s.sessions[c].worker}
    ensures Inv(WithPhase(s, c, phase).(workers := workers))
  {
  }

  lemma {:induction false} TickKeeps(s: Master, step: Step, s': Master)
    requires Inv(s) && Next(s, step, s') && (step.Fill? || step.Call? || step.Take?)
    ensures Inv(s')
  {
  }

  lemma {:induction false} PathKeeps(states: seq<Master>, steps: seq<Step>, i: nat)
    requires Path(states, steps) && i < |states| && Inv(states[0])
    ensures Inv(states[i])
    decreases i
  {
    hide Inv, Next;
    if i == 0 {
    } else {
      PathKeeps(states, steps, i - 1);
      NextKeeps(states[i - 1], steps[i - 1], states[i]);
    }
  }

  /** In every run, whoever reconnects when, no call is for an unknown worker. */
  lemma {:induction false} EveryCallFindsAChannel(states: seq<Master>, steps: seq<Step>, i: nat)
    requires Run(states, steps) && i < |steps|
    ensures states[i].workers <= states[i].channs.Keys
    ensures steps[i].Call? ==>
              states[i + 1].waiting.Some? && states[i + 1].outbox == states[i].outbox &&
              states[i].outbox[0].worker in states[i].channs
  {
    assert Inv(states[0]);
    PathKeeps(states, steps, i);
    assert Next(states[i], steps[i], states[i + 1]);
  }

  // ---- Sends that nothing takes ---------------------------------------------------------

  /** The send that was made waits on the channel of a session that is over. */
  ghost predicate Dead(s: Master) {
    s.waiting.Some? && Ended(s, s.waiting.value)
  }

  lemma {:induction false} NextWhenDead(s: Master, step: Step, s': Master)
    requires Inv(s) && Next(s, step, s') && Dead(s)
    ensures !step.Fill? && !step.Call? && !step.Take?
    ensures s'.outbox == s.outbox && s'.waiting == s.waiting && Dead(s')
  {
  }

  /**
   No reconnect helps a send on the channel of a session that is over: the tick stays as it is, and no
   other begins.
   */
  lemma {:induction false} DeadForever(states: seq<Master>, steps: seq<Step>, i: nat)
    requires Path(states, steps) && i < |states| && Inv(states[0]) && Dead(states[0])
    ensures Dead(states[i]) && states[i].outbox == states[0].outbox
    ensures forall k :: 0 <= k < i ==> !steps[k].Fill? && !steps[k].Call? && !steps[k].Take?
    decreases i
  {
    hide Inv, Dead, Next;
    if i == 0 {
    } else {
      var last := i - 1;
      DeadForever(states, steps, last);
      PathKeeps(states, steps, last);
      NextWhenDead(states[last], steps[last], states[i]);
    }
  }

  // ---- When a tick can end --------------------------------------------------------------

  ghost predicate EndsBy(s: Master, states: seq<Master>, steps: seq<Step>) {
    Path(states, steps) && states[0] == s && states[|steps|].outbox == []
  }

  ghost predicate CanEnd(s: Master) {
    exists states, steps :: EndsBy(s, states, steps)
  }

  ghost predicate OpensNone(steps: seq<Step>) {
    forall i :: 0 <= i < |steps| ==> !steps[i].Open?
  }

  ghost predicate CanEndAsIs(s: Master) {
    exists states, steps :: EndsBy(s, states, steps) && OpensNone(steps)
  }

  lemma {:induction false} EndsNow(s: Master)
    requires s.outbox == []
    ensures CanEnd(s) && CanEndAsIs(s)
  {
    assert EndsBy(s, [s], []) && OpensNone([]);
  }

  /** One step more in front. */
  lemma {:induction false} EndsAfter(s: Master, step: Step, s': Master, states: seq<Master>, steps: seq<Step>)
    requires Next(s, step, s') && EndsBy(s', states, steps)
    ensures EndsBy(s, [s] + states, [step] + steps)
    ensures !step.Open? && OpensNone(steps) ==> OpensNone([step] + steps)
  {
    var longer, more := [s] + states, [step] + steps;
    forall i | 0 <= i < |more|
      ensures Next(longer[i], more[i], longer[i + 1])
    {
      if i > 0 {
        assert longer[i] == states[i - 1] && longer[i + 1] == states[i] && more[i] == steps[i - 1];
      }
    }
  }

  lemma {:induction false} CanEndAfter(s: Master, step: Step, s': Master)
    requires Next(s, step, s')
    ensures CanEnd(s') ==> CanEnd(s)
    ensures CanEndAsIs(s') && !step.Open? ==> CanEndAsIs(s)
  {
    hide EndsBy, Next, OpensNone;
    if CanEnd(s') {
      var states, steps :| EndsBy(s', states, steps);
      EndsAfter(s, step, s', states, steps);
    }
    if CanEndAsIs(s') && !step.Open? {
      var states, steps :| EndsBy(s', states, steps) && OpensNone(steps);
      EndsAfter(s, step, s', states, steps);
    }
  }

  /** A tick can come to its end, with workers reconnecting as needed, exactly if its send is not dead. */
  lemma {:induction false} CanEndUnlessDead(s: Master)
    requires Inv(s)
    ensures CanEnd(s) <==> !Dead(s)
    decreases |s.outbox|, if s.waiting.None? then 2 else 1, 1
  {
    if Dead(s) {
      forall states, steps | EndsBy(s, states, steps)
        ensures false
      {
        DeadForever(states, steps, |steps|);
      }
    } else if s.outbox == [] {
      EndsNow(s);
    } else if s.waiting.None? {
      var w := s.outbox[0].worker;
      if Ended(s, s.channs[w]) {
        var again := s.(sessions := s.sessions + [Session(w, Opening)], channs := s.channs[w := |s.sessions|]);
        NextKeeps(s, Open(w), again);
        CallThenEnds(again);
        CanEndAfter(s, Open(w), again);
      } else {
        CallThenEnds(s);
      }
    } else {
      TakenThenEnds(s);
    }
  }

  lemma {:induction false} CallThenEnds(s: Master)
    requires Inv(s) && s.outbox != [] && s.waiting.None? && !Ended(s, s.channs[s.outbox[0].worker])
    ensures CanEnd(s)
    decreases |s.outbox|, 2, 0
  {
    var called := s.(waiting := Some(s.channs[s.outbox[0].worker]));
    assert CallStep(s, called);
    NextKeeps(s, Call, called);
    CanEndUnlessDead(called);
    CanEndAfter(s, Call, called);
  }

  lemma {:induction false} TakenThenEnds(s: Master)
    requires Inv(s) && s.waiting.Some? && !Dead(s)
    ensures CanEnd(s)
    decreases |s.outbox|, 1, 0
  {
    var c := s.waiting.value;
    var served := if InPhase(s, c, Opening)
                  then WithPhase(s, c, Receiving).(workers := s.workers + {s.sessions[c].worker}) else s;
    if served != s {
      NextKeeps(s, Serve(c), served);
      CanEndAfter(s, Serve(c), served);
    }
    var taken := served.(outbox := s.outbox[1..], waiting := None);
    assert TakeStep(served, taken);
    NextKeeps(served, Take, taken);
    CanEndUnlessDead(taken);
    CanEndAfter(served, Take, taken);
    if served != s { CanEndAfter(s, Serve(c), served); }
  }

  // ---- When a tick can end without reconnects ---------------------------------------------

  /** The channel on which call `i` waits or, as things are, will wait. */
  ghost predicate OnChannel(s: Master, i: nat, c: nat)
    requires i < |s.outbox|
  {
    if i == 0 && s.waiting.Some? then c == s.waiting.value
    else s.outbox[i].worker in s.channs && c == s.channs[s.outbox[i].worker]
  }

  /** Some call of the tick is for a session that is over. */
  ghost predicate Doomed(s: Master) {
    exists i, c :: 0 <= i < |s.outbox| && OnChannel(s, i, c) && Ended(s, c)
  }

  lemma {:induction false} CallsAreKnown(s: Master)
    requires Inv(s)
    ensures forall i :: 0 <= i < |s.outbox| ==> s.outbox[i].worker in s.channs
  {
  }

  lemma {:induction false} NextWhenDoomed(s: Master, step: Step, s': Master)
    requires Inv(s) && Next(s, step, s') && Doomed(s) && !step.Open?
    ensures Doomed(s')
  {
    CallsAreKnown(s);
    hide Inv;
    var i, c :| 0 <= i < |s.outbox| && OnChannel(s, i, c) && Ended(s, c);
    if !step.Fill? {
      var j := if step.Take? then i - 1 else i;
      assert OnChannel(s', j, c) && Ended(s', c);
    }
  }

  lemma {:induction false} DoomedStays(states: seq<Master>, steps: seq<Step>, i: nat)
    requires Path(states, steps) && i < |states| && Inv(states[0]) && Doomed(states[0]) && OpensNone(steps)
    ensures Doomed(states[i])
    decreases i
  {
    hide Inv, Doomed, Next;
    if i == 0 {
    } else {
      DoomedStays(states, steps, i - 1);
      PathKeeps(states, steps, i - 1);
      NextWhenDoomed(states[i - 1], steps[i - 1], states[i]);
    }
  }

  /** Without reconnects a tick can come to its end exactly if no call of it is for a session that is over. */
  lemma {:induction false} CanEndAsIsUnlessDoomed(s: Master)
    requires Inv(s)
    ensures CanEndAsIs(s) <==> !Doomed(s)
    decreases |s.outbox|, if s.waiting.None? then 1 else 0
  {
    if Doomed(s) {
      forall states, steps | EndsBy(s, states, steps) && OpensNone(steps)
        ensures false
      {
        DoomedStays(states, steps, |steps|);
      }
    } else if s.outbox == [] {
      EndsNow(s);
    } else if s.waiting.None? {
      var called := s.(waiting := Some(s.channs[s.outbox[0].worker]));
      assert CallStep(s, called);
      StaysUndoomed(s, Call, called);
      NextKeeps(s, Call, called);
      CanEndAsIsUnlessDoomed(called);
      CanEndAfter(s, Call, called);
    } else {
      var c := s.waiting.value;
      assert OnChannel(s, 0, c);
      var served := if InPhase(s, c, Opening)
                    then WithPhase(s, c, Receiving).(workers := s.workers + {s.sessions[c].worker}) else s;
      if served != s {
        NextKeeps(s, Serve(c), served);
        StaysUndoomed(s, Serve(c), served);
      }
      var taken := served.(outbox := s.outbox[1..], waiting := None);
      assert TakeStep(served, taken);
      NextKeeps(served, Take, taken);
      StaysUndoomed(served, Take, taken);
      CanEndAsIsUnlessDoomed(taken);
      CanEndAfter(served, Take, taken);
      if served != s { CanEndAfter(s, Serve(c), served); }
    }
  }

  lemma {:induction false} StaysUndoomed(s: Master, step: Step, s': Master)
    requires Inv(s) && Next(s, step, s') && !Doomed(s) && (step.Call? || step.Take? || step.Serve?)
    ensures !Doomed(s')
  {
    CallsAreKnown(s);
    hide Inv;
    forall i, c | 0 <= i < |s'.outbox| && OnChannel(s', i, c)
      ensures !Ended(s', c)
    {
      assert OnChannel(s, if step.Take? then i + 1 else i, c);
    }
  }

  // ---- Both things happen ---------------------------------------------------------------

  lemma {:induction false} Extend(states: seq<Master>, steps: seq<Step>, step: Step, s': Master)
    returns (longer: seq<Master>, more: seq<Step>)
    requires Run(states, steps) && Next(states[|steps|], step, s')
    ensures Run(longer, more) && |longer| == |more| + 1 && longer[|more|] == s'
    ensures longer == states + [s'] && more == steps + [step]
  {
    hide Init, Next;
    longer, more := states + [s'], steps + [step];
    forall i | 0 <= i < |more|
      ensures Next(longer[i], more[i], longer[i + 1])
    {
      if i < |steps| {
        assert longer[i] == states[i] && longer[i + 1] == states[i + 1] && more[i] == steps[i];
      }
    }
  }

  /** A worker is connected, and a tick has a call for it. */
  lemma {:induction false} TickBegins(w: string, e: Entry) returns (states: seq<Master>, steps: seq<Step>)
    requires e.worker == w
    ensures Run(states, steps)
    ensures states[|steps|] == Master([Session(w, Receiving)], map[w := 0], {w}, [e], None)
  {
    var live := Master([Session(w, Receiving)], map[w := 0], {w}, [], None);
    steps := [Open(w), Serve(0), Fill([e])];
    states := [
      Master([], map[], {}, [], None),
      Master([Session(w, Opening)], map[w := 0], {}, [], None),
      live,
      live.(outbox := [e])];
  }

  /** The worker leaves while its call waits: the tick will never end. */
  lemma {:induction false} DeadIsReached(w: string, e: Entry) returns (states: seq<Master>, steps: seq<Step>)
    requires e.worker == w
    ensures Run(states, steps) && Dead(states[|steps|])
  {
    hide Run;
    states, steps := TickBegins(w, e);
    states, steps := Extend(states, steps, Call, Master([Session(w, Receiving)], map[w := 0], {w}, [e], Some(0)));
    states, steps := Extend(states, steps, Break(0), Master([Session(w, Over)], map[w := 0], {w}, [e], Some(0)));
  }

  /**
   The worker leaves with its call still to be made, so that the tick cannot end as things are; it is back
   before the call is made, the call goes to the new session, and the tick ends.
   */
  lemma {:induction false} ReconnectFrees(w: string, e: Entry)
    returns (states: seq<Master>, steps: seq<Step>, longer: seq<Master>, more: seq<Step>)
    requires e.worker == w
    ensures Run(states, steps) && Doomed(states[|steps|]) && !Dead(states[|steps|])
    ensures Run(longer, more) && states <= longer && steps <= more && longer[|more|].outbox == []
  {
    states, steps := TickBegins(w, e);
    hide Run;
    var left := Master([Session(w, Over)], map[w := 0], {w}, [e], None);
    states, steps := Extend(states, steps, Break(0), left);
    assert OnChannel(left, 0, 0) && Ended(left, 0);
    longer, more := BackAgain(states, steps, w, e);
  }

  lemma {:induction false} BackAgain(states: seq<Master>, steps: seq<Step>, w: string, e: Entry)
    returns (longer: seq<Master>, more: seq<Step>)
    requires e.worker == w && Run(states, steps)
    requires states[|steps|] == Master([Session(w, Over)], map[w := 0], {w}, [e], None)
    ensures Run(longer, more) && states <= longer && steps <= more && longer[|more|].outbox == []
  {
    hide Run;
    var back := Master([Session(w, Over), Session(w, Opening)], map[w := 1], {w}, [e], None);
    var serving := Master([Session(w, Over), Session(w, Receiving)], map[w := 1], {w}, [e], Some(1));
    longer, more := Extend(states, steps, Open(w), back);
    longer, more := Extend(longer, more, Call, back.(waiting := Some(1)));
    longer, more := Extend(longer, more, Serve(1), serving);
    longer, more := Extend(longer, more, Take, serving.(outbox := [], waiting := None));
  }
}
