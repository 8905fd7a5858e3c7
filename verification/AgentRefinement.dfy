/**
  The sequential agent of AgentController and the interleaved one of AgentProcess: a handler that
  runs to its end without interruption is a sequence of the state machine's steps with the same
  effect.
 */
module AgentRefinement {
  import opened Selection
  import opened Wire
  import opened AgentHandlers
  import opened AgentProcess
  import opened AgentController
  import opened QueryTracking

  function ProxiesOf(vs: seq<Live>): (ps: seq<Proxy>)
    ensures |ps| == |vs|
  {
    seq(|vs|, i requires 0 <= i < |vs| => vs[i].proxy)
  }

  function InputsOf(hs: seq<Handed>): (xs: seq<Input>)
    ensures |xs| == |hs|
  {
    seq(|hs|, i requires 0 <= i < |hs| => hs[i].input)
  }

  /** What the sequential agent shows of a process. */
  function EffectsOf(p: Process): (e: Effects) {
    Effects(p.store, PacketsOf(p.emitted), ProxiesOf(p.proxies), InputsOf(p.inputs))
  }

  /** `n` steps of goroutine `i`, nothing else in between. */
  function Uninterrupted(p: Process, i: nat, n: nat): (r: Option<Process>)
    decreases n
  {
    if n == 0 then Some(p)
    else
      var next := Step(p, AgentStep.Perform(i));
      if next.None? then None else Uninterrupted(next.value, i, n - 1)
  }

  lemma OneAct(p: Process, cause: nat, act: Act)
    ensures EffectsOf(PerformAct(p, cause, act)) == AgentController.Perform(EffectsOf(p), act)
  {
    var r := PerformAct(p, cause, act);
    if act.Send? {
      assert PacketsOf(r.emitted) == PacketsOf(p.emitted) + [act.p];
    }
    if act.Start? {
      assert ProxiesOf(r.proxies) == ProxiesOf(p.proxies) + [act.proxy];
    }
    if act.Write? {
      assert InputsOf(r.inputs) == InputsOf(p.inputs) + [act.input];
    }
  }

  /** A goroutine left to itself has the effect of its acts performed one after the other. */
  lemma {:induction false} TaskRuns(p: Process, i: nat)
    requires i < |p.tasks|
    ensures var r := Uninterrupted(p, i, |p.tasks[i].acts|);
            && r.Some? && i < |r.value.tasks| && r.value.tasks[i].acts == []
            && EffectsOf(r.value) == PerformAll(EffectsOf(p), p.tasks[i].acts)
    decreases |p.tasks[i].acts|
  {
    hide EffectsOf, AgentController.Perform;
    var acts := p.tasks[i].acts;
    if acts != [] {
      var popped := Pop(p, i);
      var q := PerformAct(popped, p.tasks[i].cause, acts[0]);
      assert q.tasks[i].acts == acts[1..];
      OneAct(popped, p.tasks[i].cause, acts[0]);
      SameEffects(p, popped);
      TaskRuns(q, i);
    }
  }

  lemma SameEffects(p: Process, q: Process)
    requires p.store == q.store && p.emitted == q.emitted && p.proxies == q.proxies && p.inputs == q.inputs
    ensures EffectsOf(p) == EffectsOf(q)
  {
  }

  /** The contract of Agent.Dispatch, met by the state machine: taking a packet and running its
      handler to the end changes store, stream, proxies and what connections are handed as the
      handler's reaction says, and leaves the goroutine it spawns to be run. */
  lemma DispatchIsSteps(p: Process, out: Outcome)
    requires p.taken < |p.arrivals| && LoopIdle(p)
    requires Handle(TurnOf(p), p.store, p.arrivals[p.taken].pkt, out).Some?
    ensures var re := Handle(TurnOf(p), p.store, p.arrivals[p.taken].pkt, out).value;
            var taken := Step(p, Take(out));
            && taken.Some? && taken.value.current < |taken.value.tasks|
            && var done := Uninterrupted(taken.value, taken.value.current, |re.main|);
               && done.Some? && LoopIdle(done.value)
               && EffectsOf(done.value) == PerformAll(Handing(EffectsOf(p), re), re.main)
               && done.value.tasks == p.tasks + [Task(p.taken, []), Task(p.taken, re.spawn)]
  {
    hide Handle, Uninterrupted, PerformAll;
    var re := Handle(TurnOf(p), p.store, p.arrivals[p.taken].pkt, out).value;
    var q := React(p, re);
    assert q.tasks[q.current] == Task(p.taken, re.main);
    TaskRuns(q, q.current);
    SameCurrent(q, q.current, |re.main|);
    ReactEffects(p, re);
    assert q.tasks[q.current := Task(p.taken, [])] == p.tasks + [Task(p.taken, []), Task(p.taken, re.spawn)];
  }

  /** What taking a packet records, and that it touches nothing else. */
  lemma TakeExactly(p: Process, out: Outcome)
    ensures Step(p, Take(out)).Some? <==>
            && p.taken < |p.arrivals| && (p.current < |p.tasks| ==> p.tasks[p.current].acts == [])
            && Handle(Turn(p.setup, p.taken), p.store, p.arrivals[p.taken].pkt, out).Some?
    ensures Step(p, Take(out)).Some? ==>
              var r, re := Step(p, Take(out)).value, Handle(Turn(p.setup, p.taken), p.store, p.arrivals[p.taken].pkt, out).value;
              && r.taken == p.taken + 1 && r.store == re.store && r.current == |p.tasks|
              && r.tasks == p.tasks + [Task(p.taken, re.main), Task(p.taken, re.spawn)]
              && (if re.run.Some? then r.runs == p.runs + [re.run.value] else r.runs == p.runs)
              && (forall c :: c in r.missed <==> c in p.missed || (re.missing && c == p.taken))
              && (if re.decoded.Some? then r.opens == p.opens + [Opening(p.taken, re.decoded.value)] else r.opens == p.opens)
              && (if re.input.Some? then r.inputs == p.inputs + [Handed(p.taken, p.taken + 1, re.input.value)] else r.inputs == p.inputs)
              && r.lookups == p.lookups + [re.found]
              && r.name == p.name && r.running == p.running && r.arrivals == p.arrivals && r.proxies == p.proxies
              && r.emitted == p.emitted && r.routed == p.routed && r.carrying == p.carrying && r.reports == p.reports && r.setup == p.setup
  {
    hide Handle;
  }

  /** What one act does, and that it does nothing else. */
  lemma PerformExactly(p: Process, i: nat)
    ensures Step(p, AgentStep.Perform(i)).Some? <==> i < |p.tasks| && p.tasks[i].acts != []
    ensures Step(p, AgentStep.Perform(i)).Some? ==>
              var t, r := p.tasks[i], Step(p, AgentStep.Perform(i)).value;
              && r.tasks == p.tasks[i := Task(t.cause, t.acts[1..])] && r.current == p.current
              && (match t.acts[0]
                  case Send(q) =>
                    r.emitted == p.emitted + [Msg(t.cause, q)] && r.store == p.store && r.proxies == p.proxies && r.inputs == p.inputs
                  case Put(k, proxy) =>
                    r.store == p.store[k := ConnEntry(proxy)] && r.emitted == p.emitted && r.proxies == p.proxies && r.inputs == p.inputs
                  case Del(k) =>
                    r.store == p.store - {k} && r.emitted == p.emitted && r.proxies == p.proxies && r.inputs == p.inputs
                  case Start(proxy) =>
                    r.proxies == p.proxies + [Live(t.cause, proxy)] && r.store == p.store && r.emitted == p.emitted && r.inputs == p.inputs
                  case Write(input) =>
                    r.inputs == p.inputs + [Handed(t.cause, p.taken, input)] && r.store == p.store && r.emitted == p.emitted && r.proxies == p.proxies)
              && r.taken == p.taken && r.arrivals == p.arrivals && r.runs == p.runs && r.missed == p.missed && r.opens == p.opens
              && r.lookups == p.lookups && r.reports == p.reports && r.setup == p.setup && r.routed == p.routed
  {
  }

  lemma ReactEffects(p: Process, re: Reaction)
    ensures EffectsOf(React(p, re)) == Handing(EffectsOf(p), re)
  {
    if re.input.Some? {
      var h := Handed(p.taken, p.taken + 1, re.input.value);
      assert InputsOf(p.inputs + [h]) == InputsOf(p.inputs) + [h.input];
    }
  }

  /** One act changes nothing of the goroutines but that it is done. */
  lemma PerformKeeps(p: Process, i: nat)
    requires Step(p, AgentStep.Perform(i)).Some?
    ensures i < |p.tasks| && p.tasks[i].acts != []
    ensures var q := Step(p, AgentStep.Perform(i)).value;
            && q.current == p.current && q.tasks == p.tasks[i := Task(p.tasks[i].cause, p.tasks[i].acts[1..])]
            && q.setup == p.setup && q.taken == p.taken && q.arrivals == p.arrivals && q.running == p.running
            && (p.tasks[i].acts[0].Write? || q.inputs == p.inputs)
  {
  }

  lemma {:induction false} SameCurrent(p: Process, i: nat, n: nat)
    requires Uninterrupted(p, i, n).Some? && i < |p.tasks| && n == |p.tasks[i].acts|
    ensures Uninterrupted(p, i, n).value.current == p.current
    ensures Uninterrupted(p, i, n).value.tasks == p.tasks[i := Task(p.tasks[i].cause, [])]
    decreases n
  {
    hide Step;
    if n == 0 {
      assert p.tasks[i] == Task(p.tasks[i].cause, []);
    } else {
      PerformKeeps(p, i);
      SameCurrent(Step(p, AgentStep.Perform(i)).value, i, n - 1);
    }
  }
}
