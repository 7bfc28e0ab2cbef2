/**
 * One portfolio member as the driver sees it: a search engine that a coroutine
 * resumes one bounded unit of work at a time, with a verdict, a readiness flag for
 * sharing and the clause queues sharedClauseOut (outbox) and the clauses received
 * from the other engine (inbox). The search itself is abstract: `plan` holds what
 * each remaining unit of work that ends in a suspension learns and whether the
 * engine is ready to share after it; `outcome` is the verdict it settles on.
 */
module Engines {
  import opened SolverTypes

  /** A learned clause, as DIMACS literals. */
  type Clause = seq<int>

  /** One unit of search work that ends in a suspension. */
  datatype Step = Step(learned: seq<Clause>, ready: bool)

  /** All clauses the steps learn, in order. */
  function Learned(steps: seq<Step>): seq<Clause> {
    if steps == [] then [] else Learned(steps[..|steps| - 1]) + steps[|steps| - 1].learned
  }

  /**
   * The effect of one resume that returned true on the outbox: the step's clauses are
   * appended, and when the engine is then ready they are all shipped and the outbox
   * is cleared. Gives (shipped, outbox afterwards).
   */
  function ShareStep(outbox: seq<Clause>, st: Step): (r: (seq<Clause>, seq<Clause>))
    ensures r.0 + r.1 == outbox + st.learned
    ensures st.ready ==> r.1 == []
    ensures !st.ready ==> r.0 == []
  {
    var o := outbox + st.learned;
    if st.ready then (o, []) else ([], o)
  }

  /**
   * Steps applied one after another: the clauses shipped to the other engine in
   * total, and the outbox left at the end.
   */
  function Replay(outbox: seq<Clause>, steps: seq<Step>): (r: (seq<Clause>, seq<Clause>))
    ensures steps != [] && steps[|steps| - 1].ready ==> r.1 == []
  {
    if steps == [] then ([], outbox)
    else
      var prev := Replay(outbox, steps[..|steps| - 1]);
      var now := ShareStep(prev.1, steps[|steps| - 1]);
      (prev.0 + now.0, now.1)
  }

  /** Replay of a non-empty run is the replay of all but the last step, then the last step. */
  lemma ReplaySnoc(outbox: seq<Clause>, steps: seq<Step>)
    requires steps != []
    ensures var prev := Replay(outbox, steps[..|steps| - 1]);
      var now := ShareStep(prev.1, steps[|steps| - 1]);
      Replay(outbox, steps) == (prev.0 + now.0, now.1)
  {
  }

  /** Sequence regrouping used by ReplayConserves. */
  lemma Regroup(p0: seq<Clause>, p1: seq<Clause>, n0: seq<Clause>, n1: seq<Clause>,
                o: seq<Clause>, li: seq<Clause>, ll: seq<Clause>)
    requires n0 + n1 == p1 + ll
    requires p0 + p1 == o + li
    ensures (p0 + n0) + n1 == o + (li + ll)
  {
    calc {
      (p0 + n0) + n1;
    ==
      p0 + (n0 + n1);
    ==
      p0 + (p1 + ll);
    ==
      (p0 + p1) + ll;
    ==
      (o + li) + ll;
    ==
      o + (li + ll);
    }
  }

  /** Nothing is lost and nothing is shipped twice: shipped plus left over is the old outbox plus everything learned. */
  lemma {:induction false} ReplayConserves(outbox: seq<Clause>, steps: seq<Step>)
    ensures Replay(outbox, steps).0 + Replay(outbox, steps).1 == outbox + Learned(steps)
    decreases |steps|
  {
    if steps == [] {
      assert outbox + Learned(steps) == outbox;
    } else {
      var init := steps[..|steps| - 1];
      var last := steps[|steps| - 1];
      var prev := Replay(outbox, init);
      var now := ShareStep(prev.1, last);
      ReplaySnoc(outbox, steps);
      ReplayConserves(outbox, init);
      assert now.0 + now.1 == prev.1 + last.learned;
      Regroup(prev.0, prev.1, now.0, now.1, outbox, Learned(init), last.learned);
      assert Learned(steps) == Learned(init) + last.learned;
    }
  }

  /** When the last step leaves the engine ready, the outbox ends empty and everything was shipped. */
  lemma ReplayEndsReady(outbox: seq<Clause>, steps: seq<Step>)
    requires steps != [] && steps[|steps| - 1].ready
    ensures Replay(outbox, steps).1 == []
    ensures Replay(outbox, steps).0 == outbox + Learned(steps)
  {
    ReplayConserves(outbox, steps);
    assert Replay(outbox, steps).0 + [] == Replay(outbox, steps).0;
  }

  /** Without a ready step nothing is shipped: everything stays in the outbox. */
  lemma {:induction false} ReplayNeverReady(outbox: seq<Clause>, steps: seq<Step>)
    requires forall k :: 0 <= k < |steps| ==> !steps[k].ready
    ensures Replay(outbox, steps) == ([], outbox + Learned(steps))
    decreases |steps|
  {
    if steps == [] {
      assert outbox + Learned(steps) == outbox;
    } else {
      var init := steps[..|steps| - 1];
      var last := steps[|steps| - 1];
      assert forall k :: 0 <= k < |init| ==> init[k] == steps[k];
      ReplayNeverReady(outbox, init);
      ReplaySnoc(outbox, steps);
      var prev := Replay(outbox, init);
      var now := ShareStep(prev.1, last);
      assert !last.ready && prev.0 == [];
      assert now == ([], prev.1 + last.learned);
      assert prev.0 + now.0 == [];
      assert Learned(steps) == Learned(init) + last.learned;
      assert now.1 == outbox + Learned(steps);
    }
  }

  /** Replaying one more step extends the replay of the shorter prefix. */
  lemma ReplayExtend(outbox: seq<Clause>, steps: seq<Step>, i: nat)
    requires i < |steps|
    ensures Replay(outbox, steps[..i + 1])
         == (Replay(outbox, steps[..i]).0 + ShareStep(Replay(outbox, steps[..i]).1, steps[i]).0,
             ShareStep(Replay(outbox, steps[..i]).1, steps[i]).1)
  {
    assert steps[..i + 1][..i] == steps[..i];
  }

  class Engine {
    /** The verdict solveLimited settles on when the last unit of work ends. */
    const outcome: LBool
    /** The model and the final conflict the engine exposes after it finishes. */
    const model: seq<LBool>
    const conflict: seq<Lit>
    /** The units of work still to come that end in a suspension. */
    var plan: seq<Step>
    /** readyToShare() */
    var ready: bool
    /** sharedClauseOut */
    var outbox: seq<Clause>
    /** Clauses received from the other engine. */
    var inbox: seq<Clause>
    /** ret_solveLimited_val */
    var verdict: LBool
    /** The coroutine has run to completion. */
    var done: bool
    /** How many times the coroutine was resumed. */
    ghost var resumes: nat

    constructor (plan: seq<Step>, outcome: LBool, model: seq<LBool>, conflict: seq<Lit>)
      ensures this.plan == plan && this.outcome == outcome
      ensures this.model == model && this.conflict == conflict
      ensures !ready && outbox == [] && inbox == [] && verdict == LUndef && !done && resumes == 0
    {
      this.plan := plan;
      this.outcome := outcome;
      this.model := model;
      this.conflict := conflict;
      ready := false;
      outbox := [];
      inbox := [];
      verdict := LUndef;
      done := false;
      resumes := 0;
    }

    /**
     * Resume the coroutine for one bounded unit of work. It returns true when the
     * engine suspended and will continue, false when solveLimited returned; then the
     * verdict is set and the coroutine must never be resumed again.
     */
    method Resume() returns (more: bool)
      requires !done
      modifies this
      ensures resumes == old(resumes) + 1 && inbox == old(inbox)
      ensures more <==> old(plan) != []
      ensures more ==> && plan == old(plan)[1..] && !done && verdict == old(verdict)
                       && outbox == old(outbox) + old(plan)[0].learned
                       && ready == old(plan)[0].ready
      ensures !more ==> && done && verdict == outcome && plan == old(plan)
                        && outbox == old(outbox) && ready == old(ready)
    {
      resumes := resumes + 1;
      if plan == [] {
        more := false;
        done := true;
        verdict := outcome;
      } else {
        more := true;
        outbox := outbox + plan[0].learned;
        ready := plan[0].ready;
        plan := plan[1..];
      }
    }

    /** shareTo(target): deliver a copy of the outbox to the target's inbox. */
    method ShareTo(target: Engine)
      requires target != this
      modifies target`inbox
      ensures target.inbox == old(target.inbox) + outbox
    {
      target.inbox := target.inbox + outbox;
    }

    /** sharedClauseOut.clear() */
    method ClearSharedOut()
      modifies this`outbox
      ensures outbox == []
    {
      outbox := [];
    }
  }
}
