/** The engine that executes a list of tasks, the wait for the other cluster, and the
    adapter that runs a failover with them. */
module WorkflowEngine {
  import opened Records
  import opened Workflow
  import opened WorkflowOrder
  import opened WorkflowRun
  import opened WorkflowFailures
  import opened WorkflowCompletion

  datatype Status = NEW | IN_PROGRESS | TASK(task: Task) | SUCCESS | FAILED

  /** How many of the events are steps of the given engine. */
  function Steps(es: seq<Event>, id: nat): nat {
    if es == [] then 0
    else Steps(es[..|es| - 1], id) + (if es[|es| - 1].Exec? && es[|es| - 1].id == id then 1 else 0)
  }

  /** Events that are not this engine's. */
  predicate Foreign(es: seq<Event>, id: nat) {
    forall e :: e in es ==> (e.Exec? || e.Start?) ==> e.id != id
  }

  lemma {:induction false} ForeignKeeps(coded: bool, w: World, es: seq<Event>, id: nat)
    requires Foreign(es, id) && id in w.runners
    ensures id in Run(coded, w, es).runners && Run(coded, w, es).runners[id] == w.runners[id]
    ensures Steps(es, id) == 0
  {
    if es != [] {
      var n := |es| - 1;
      assert es[n] in es && forall e :: e in es[..n] ==> e in es;
      ForeignKeeps(coded, w, es[..n], id);
      NextKeepsOther(coded, Run(coded, w, es[..n]), es[n], id);
    }
  }

  lemma NextKeepsOther(coded: bool, w: World, e: Event, id: nat)
    requires id in w.runners && ((e.Exec? || e.Start?) ==> e.id != id)
    ensures id in Next(coded, w, e).runners && Next(coded, w, e).runners[id] == w.runners[id]
  {
  }

  lemma {:induction false} StepsAppend(es: seq<Event>, es': seq<Event>, id: nat)
    ensures Steps(es + es', id) == Steps(es, id) + Steps(es', id)
  {
    if es' == [] {
      assert es + es' == es;
    } else {
      var n := |es'| - 1;
      assert (es + es')[..|es + es'| - 1] == es + es'[..n];
      StepsAppend(es, es'[..n], id);
    }
  }

  /** What others do before each task, and how each task ends. */
  datatype Script = Script(others: nat -> seq<Event>, fates: nat -> Fate, parts: nat -> set<string>)

  ghost predicate ScriptOk(s: Script, id: nat) {
    forall k :: Foreign(s.others(k), id)
  }

  /** All lists that others start meanwhile are ordered. */
  ghost predicate OthersAreOrdered(s: Script, mode: Mode, coded: bool) {
    forall k :: AllOrdered(s.others(k), mode, coded)
  }

  class Engine {
    const coded: bool
    var world: World
    var status: Status

    constructor (coded: bool, world: World)
      ensures this.coded == coded && this.world == world && status == NEW
    {
      this.coded, this.world, status := coded, world, NEW;
    }

    /** Between two tasks, others act. */
    method Others(es: seq<Event>)
      modifies this`world
      ensures world == Run(coded, old(world), es)
    {
      var i := 0;
      while i < |es|
        invariant 0 <= i <= |es|
        invariant world == Run(coded, old(world), es[..i])
      {
        RunSnoc(coded, old(world), es[..i], es[i]);
        assert es[..i + 1] == es[..i] + [es[i]];
        world := Next(coded, world, es[i]);
        i := i + 1;
      }
      assert es[..i] == es;
    }

    /** One task, as ExecuteTask runs it. */
    method ExecuteTask(id: nat, fate: Fate, part: set<string>) returns (ok: bool)
      requires id in world.runners && !world.runners[id].failed && world.runners[id].pc < |world.runners[id].tasks|
      modifies this
      ensures world == Next(coded, old(world), Exec(id, fate, part))
      ensures var r := old(world).runners[id];
              && id in world.runners && world.runners[id].tasks == r.tasks
              && world.runners[id].pc == (if ok then r.pc + 1 else r.pc) && world.runners[id].failed == !ok
      ensures LeaseOk(old(world).runners[id]) ==> LeaseOk(world.runners[id])
      ensures status == TASK(old(world).runners[id].tasks[old(world).runners[id].pc])
    {
      if LeaseOk(world.runners[id]) { StepKeepsLease(coded, world, id, fate, part); }
      status := TASK(world.runners[id].tasks[world.runners[id].pc]);
      world := Next(coded, world, Exec(id, fate, part));
      ok := !world.runners[id].failed;
    }

    /** Execute: the tasks one after the other, and none after a failure. The engine's run
        is a run of the machine, in which it takes exactly one step for each task it starts. */
    method Execute(id: nat, script: Script) returns (ok: bool, ghost es: seq<Event>)
      requires id in world.runners && world.runners[id].pc == 0 && !world.runners[id].failed
      requires ScriptOk(script, id)
      modifies this
      ensures world == Run(coded, old(world), es)
      ensures id in world.runners && world.runners[id].tasks == old(world).runners[id].tasks
      ensures forall mode :: OthersAreOrdered(script, mode, coded) ==> AllOrdered(es, mode, coded)
      ensures LeaseOk(old(world).runners[id]) ==> LeaseOk(world.runners[id])
      ensures ok <==> !world.runners[id].failed
      ensures ok ==> world.runners[id].pc == |world.runners[id].tasks| == Steps(es, id)
      ensures !ok ==> world.runners[id].pc < |world.runners[id].tasks| && Steps(es, id) == world.runners[id].pc + 1
      ensures !ok ==> status == TASK(world.runners[id].tasks[world.runners[id].pc])
    {
      var tasks := world.runners[id].tasks;
      es := [];
      var i := 0;
      while i < |tasks|
        invariant 0 <= i <= |tasks|
        invariant world == Run(coded, old(world), es)
        invariant id in world.runners && !world.runners[id].failed
        invariant world.runners[id].tasks == tasks && world.runners[id].pc == i
        invariant forall mode :: OthersAreOrdered(script, mode, coded) ==> AllOrdered(es, mode, coded)
        invariant LeaseOk(old(world).runners[id]) ==> LeaseOk(world.runners[id])
        invariant Steps(es, id) == i
      {
        var others := script.others(i);
        ForeignKeeps(coded, world, others, id);
        StepsAppend(es, others, id);
        RunAppend(coded, old(world), es, others);
        Others(others);
        es := es + others;
        var e := Exec(id, script.fates(i), script.parts(i));
        RunSnoc(coded, old(world), es, e);
        OneStep(es, e, id);
        es := es + [e];
        ok := ExecuteTask(id, script.fates(i), script.parts(i));
        if !ok {
          return;
        }
        i := i + 1;
      }
      ok := true;
    }

    /** ProcessFailover: whichever task fails, the failover ends as SUCCESS exactly when
        every task of its list was finished, and as FAILED otherwise. Among the lists that
        others run, SUCCESS means that the group has failed over, and that the lock is
        released; a failure in between leaves the lock taken. */
    method ProcessFailover(id: nat, mode: Mode, script: Script) returns (ok: bool, ghost es: seq<Event>)
      requires id !in world.runners && ScriptOk(script, id)
      modifies this
      ensures world == Run(coded, old(world), [Start(id, AdapterTasks(mode))] + es)
      ensures id in world.runners && world.runners[id].tasks == AdapterTasks(mode)
      ensures ok <==> world.runners[id].pc == |AdapterTasks(mode)|
      ensures status == if ok then SUCCESS else FAILED
      ensures ok && Inv(old(world), mode, coded) && OthersAreOrdered(script, mode, coded) ==>
                FailedOver(world.clusters, mode)
      ensures ok ==> !world.runners[id].leased
      ensures !ok && 2 <= world.runners[id].pc < |world.runners[id].tasks| - 1 ==> world.runners[id].leased
    {
      status := IN_PROGRESS;
      var start := Start(id, AdapterTasks(mode));
      RunSnoc(coded, world, [], start);
      assert [] + [start] == [start];
      world := Next(coded, world, start);
      AdapterHasEnds(mode);
      ok, es := Execute(id, script);
      RunAppend(coded, old(world), [start], es);
      if ok && Inv(old(world), mode, coded) && OthersAreOrdered(script, mode, coded) {
        StartedRunFailsOver(coded, old(world), id, es, mode);
      }
      status := if ok then SUCCESS else FAILED;
    }
  }

  /** The run of an engine that has finished the adapter's list. */
  lemma StartedRunFailsOver(coded: bool, w: World, id: nat, es: seq<Event>, mode: Mode)
    requires Inv(w, mode, coded) && AllOrdered(es, mode, coded)
    requires var w' := Run(coded, w, [Start(id, AdapterTasks(mode))] + es);
             At(w', id, AdapterTasks(mode), |AdapterTasks(mode)|)
    ensures FailedOver(Run(coded, w, [Start(id, AdapterTasks(mode))] + es).clusters, mode)
  {
    AdapterIsOrdered(mode, coded);
    RunKeepsInv(coded, w, [Start(id, AdapterTasks(mode))] + es, mode);
    FinishedListFailsOver(Run(coded, w, [Start(id, AdapterTasks(mode))] + es), id, mode, coded);
  }

  lemma OneStep(es: seq<Event>, e: Event, id: nat)
    requires e.Exec? && e.id == id
    ensures Steps(es + [e], id) == Steps(es, id) + 1
  {
    assert (es + [e])[..|es|] == es;
  }

  /** The results that the tasks of a workflow share. */
  class WorkflowContext {
    var volumesReadyForPromotion: bool

    constructor ()
      ensures !volumesReadyForPromotion
    {
      volumesReadyForPromotion := false;
    }
  }

  /** WaitForVolumesReadyForPromotion, as coded: ten polls are allowed for, but the fourth
      that finds nothing sets the flag itself. It never times out. `marked` says before
      which polls another task sets the flag. */
  method WaitForVolumesReadyForPromotion(context: WorkflowContext, marked: nat -> bool)
    returns (ready: bool, polls: nat)
    modifies context
    ensures ready && context.volumesReadyForPromotion
    ensures 1 <= polls <= 4
    ensures old(context.volumesReadyForPromotion) ==> polls == 1
    ensures !old(context.volumesReadyForPromotion) ==> polls == 4 || marked(polls - 1)
    ensures forall i :: 0 <= i < polls - 1 ==> !marked(i)
  {
    ready, polls := false, 0;
    var maxRetries := 10;
    var i := 0;
    while i < maxRetries
      invariant 0 <= i <= 3
      invariant forall j :: 0 <= j < i ==> !marked(j)
      invariant i > 0 ==> !context.volumesReadyForPromotion && !old(context.volumesReadyForPromotion)
      invariant i == 0 ==> context.volumesReadyForPromotion == old(context.volumesReadyForPromotion)
    {
      if marked(i) {
        context.volumesReadyForPromotion := true;
      }
      if context.volumesReadyForPromotion {
        return true, i + 1;
      }
      if i >= 3 {
        context.volumesReadyForPromotion := true;
        return true, i + 1;
      }
      i := i + 1;
    }
    assert false;
  }
}
