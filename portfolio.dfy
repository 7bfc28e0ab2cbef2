/**
 * The cooperative scheduler of the two-engine portfolio: a `while (flag)` loop that
 * resumes engine 0 and then engine 1 while each is still running, ships an engine's
 * outbox to the other engine after a resume that left it ready to share, and records
 * each engine's verdict in `ret` when it finishes.
 *
 * Schedule is the reference trace of a run: which engine each resume went to and
 * what it returned. The lemmas about it state round-robin fairness, that an engine is
 * never resumed after it finished, and which engine's verdict the run reports.
 */
module Scheduling {
  import opened SolverTypes
  import opened Engines

  /** One resume: the engine (0 or 1) and whether it returned true (suspended, not finished). */
  datatype Event = Resumed(engine: nat, more: bool)

  function Max(a: nat, b: nat): nat { if a < b then b else a }

  function Min(a: nat, b: nat): nat { if a < b then a else b }

  /**
   * Sweep k (from 0) for engines whose coroutines suspend n0 and n1 times before
   * finishing: engine 0 first, each only while still running, and a resume reports
   * completion at the sweep equal to its count.
   */
  function Sweep(n0: nat, n1: nat, k: nat): seq<Event> {
    (if k <= n0 then [Resumed(0, k < n0)] else []) + (if k <= n1 then [Resumed(1, k < n1)] else [])
  }

  /** The first k sweeps. */
  function SweepsUpTo(n0: nat, n1: nat, k: nat): seq<Event> {
    if k == 0 then [] else SweepsUpTo(n0, n1, k - 1) + Sweep(n0, n1, k - 1)
  }

  /** Sweep k resumes every engine that has not yet finished: one resume each up to its completion. */
  lemma {:induction false} SweepsLength(n0: nat, n1: nat, k: nat)
    ensures |SweepsUpTo(n0, n1, k)| == Min(k, n0 + 1) + Min(k, n1 + 1)
    decreases k
  {
    if k > 0 {
      SweepsLength(n0, n1, k - 1);
      assert |Sweep(n0, n1, k - 1)| == (if k - 1 <= n0 then 1 else 0) + (if k - 1 <= n1 then 1 else 0);
    }
  }

  /** A whole run: sweeps until one of them resumes nothing that returns true. Each engine is resumed n + 1 times. */
  function Schedule(n0: nat, n1: nat): (r: seq<Event>)
    ensures |r| == n0 + n1 + 2
  {
    SweepsLength(n0, n1, Max(n0, n1) + 1);
    SweepsUpTo(n0, n1, Max(n0, n1) + 1)
  }

  /** What the resumes of engine e returned, in order. */
  function Outcomes(evs: seq<Event>, e: nat): seq<bool> {
    if evs == [] then []
    else Outcomes(evs[..|evs| - 1], e) + (if evs[|evs| - 1].engine == e then [evs[|evs| - 1].more] else [])
  }

  /** n resumes that all returned true. */
  function Trues(n: nat): (r: seq<bool>)
    ensures |r| == n && false !in r
  {
    if n == 0 then [] else Trues(n - 1) + [true]
  }

  /** The engine whose completion comes last: engine 1 on a tie, since it is resumed second. */
  function LastToFinish(n0: nat, n1: nat): nat {
    if n0 > n1 then 0 else 1
  }

  /** The verdict `ret` holds after the events: that of the last engine that finished, or init. */
  function FinishVerdict(evs: seq<Event>, v0: LBool, v1: LBool, init: LBool): LBool {
    if evs == [] then init
    else if !evs[|evs| - 1].more then (if evs[|evs| - 1].engine == 0 then v0 else v1)
    else FinishVerdict(evs[..|evs| - 1], v0, v1, init)
  }

  lemma {:induction false} OutcomesAppend(a: seq<Event>, b: seq<Event>, e: nat)
    ensures Outcomes(a + b, e) == Outcomes(a, e) + Outcomes(b, e)
    decreases |b|
  {
    if b == [] {
      assert a + b == a;
    } else {
      var b' := b[..|b| - 1];
      assert (a + b)[..|a + b| - 1] == a + b';
      OutcomesAppend(a, b', e);
    }
  }

  lemma OutcomesOne(ev: Event, e: nat)
    ensures Outcomes([ev], e) == if ev.engine == e then [ev.more] else []
  {
    assert [ev][..0] == [];
  }

  /** In one sweep engine e is resumed once while it runs, and that resume returns true unless k is its count. */
  lemma OutcomesSweep(n0: nat, n1: nat, k: nat, e: nat)
    requires e < 2
    ensures var n := if e == 0 then n0 else n1;
      Outcomes(Sweep(n0, n1, k), e) == if k <= n then [k < n] else []
  {
    var a: seq<Event> := if k <= n0 then [Resumed(0, k < n0)] else [];
    var b: seq<Event> := if k <= n1 then [Resumed(1, k < n1)] else [];
    assert Sweep(n0, n1, k) == a + b;
    OutcomesAppend(a, b, e);
    if k <= n0 { OutcomesOne(Resumed(0, k < n0), e); }
    if k <= n1 { OutcomesOne(Resumed(1, k < n1), e); }
  }

  /** What engine e's resumes returned after k sweeps when it suspends n times before finishing. */
  function History(k: nat, n: nat): seq<bool> {
    Trues(Min(k, n)) + (if k > n then [false] else [])
  }

  lemma HistoryStep(k: nat, n: nat)
    ensures History(k + 1, n) == History(k, n) + (if k <= n then [k < n] else [])
  {
    if k < n {
      assert Trues(k + 1) == Trues(k) + [true];
    }
  }

  /** One more sweep extends engine e's history by what it returned in that sweep. */
  lemma HistoryAfterSweep(n0: nat, n1: nat, k: nat, e: nat, n: nat)
    requires e < 2 && n == if e == 0 then n0 else n1
    requires Outcomes(SweepsUpTo(n0, n1, k), e) == History(k, n)
    ensures Outcomes(SweepsUpTo(n0, n1, k + 1), e) == History(k + 1, n)
  {
    var before := SweepsUpTo(n0, n1, k);
    var sweep := Sweep(n0, n1, k);
    assert SweepsUpTo(n0, n1, k + 1) == before + sweep;
    OutcomesAppend(before, sweep, e);
    OutcomesSweep(n0, n1, k, e);
    HistoryStep(k, n);
  }

  /** Before the first sweep no engine has been resumed. */
  lemma HistoryStart(n0: nat, n1: nat, e: nat, n: nat)
    ensures Outcomes(SweepsUpTo(n0, n1, 0), e) == History(0, n)
  {
    assert Trues(Min(0, n)) == [];
    assert History(0, n) == [] + [];
  }

  /**
   * After k sweeps, engine e has been resumed min(k, n + 1) times: the first n
   * resumes returned true, the one after them false, and none came after that.
   */
  lemma {:induction false} EngineHistory(n0: nat, n1: nat, k: nat, e: nat)
    requires e < 2
    ensures Outcomes(SweepsUpTo(n0, n1, k), e) == History(k, if e == 0 then n0 else n1)
    decreases k
  {
    var n := if e == 0 then n0 else n1;
    if k == 0 {
      HistoryStart(n0, n1, e, n);
    } else {
      EngineHistory(n0, n1, k - 1, e);
      HistoryAfterSweep(n0, n1, k - 1, e, n);
    }
  }

  /**
   * No resume after completion: over a whole run engine e is resumed exactly
   * n + 1 times, n returning true and the last one false.
   */
  lemma ScheduleHistory(n0: nat, n1: nat, e: nat)
    requires e < 2
    ensures Outcomes(Schedule(n0, n1), e) == Trues(if e == 0 then n0 else n1) + [false]
  {
    EngineHistory(n0, n1, Max(n0, n1) + 1, e);
    assert Min(Max(n0, n1) + 1, if e == 0 then n0 else n1) == if e == 0 then n0 else n1;
  }

  /** The last resume of a run is the completion of the engine that finishes last. */
  lemma LastEventOfSchedule(n0: nat, n1: nat)
    ensures var s := Schedule(n0, n1);
      s != [] && s[|s| - 1] == Resumed(LastToFinish(n0, n1), false)
  {
  }

  /** The run reports the verdict of the engine that finished last, not the first conclusive one. */
  lemma RunVerdict(n0: nat, n1: nat, v0: LBool, v1: LBool, init: LBool)
    ensures FinishVerdict(Schedule(n0, n1), v0, v1, init) == if LastToFinish(n0, n1) == 0 then v0 else v1
  {
    LastEventOfSchedule(n0, n1);
  }

  /** A sweep in which both engines run, cut after its first r resumes. */
  lemma PartialSweep(n0: nat, n1: nat, k: nat, r: nat)
    requires k <= n0 && k <= n1 && r <= 2
    ensures |Sweep(n0, n1, k)| == 2
    ensures |Outcomes(Sweep(n0, n1, k)[..r], 0)| == (if r >= 1 then 1 else 0)
    ensures |Outcomes(Sweep(n0, n1, k)[..r], 1)| == (if r >= 2 then 1 else 0)
  {
    var ev0, ev1 := Resumed(0, k < n0), Resumed(1, k < n1);
    assert Sweep(n0, n1, k) == [ev0, ev1];
    if r == 1 {
      assert Sweep(n0, n1, k)[..r] == [ev0];
      OutcomesOne(ev0, 0);
      OutcomesOne(ev0, 1);
    } else if r == 2 {
      assert Sweep(n0, n1, k)[..r] == [ev0] + [ev1];
      OutcomesAppend([ev0], [ev1], 0);
      OutcomesAppend([ev0], [ev1], 1);
      OutcomesOne(ev0, 0);
      OutcomesOne(ev0, 1);
      OutcomesOne(ev1, 0);
      OutcomesOne(ev1, 1);
    } else {
      assert Sweep(n0, n1, k)[..r] == [];
    }
  }

  /** While both engines are running, engine 0 is at most one resume ahead of engine 1 and never behind. */
  predicate FairSoFar(p: seq<Event>) {
    false !in Outcomes(p, 0) && false !in Outcomes(p, 1) ==>
      |Outcomes(p, 1)| <= |Outcomes(p, 0)| <= |Outcomes(p, 1)| + 1
  }

  /** Fairness inside sweep k, after its first r resumes. */
  lemma FairInSweep(n0: nat, n1: nat, k: nat, r: nat)
    requires r <= |Sweep(n0, n1, k)|
    ensures FairSoFar(SweepsUpTo(n0, n1, k) + Sweep(n0, n1, k)[..r])
  {
    var before := SweepsUpTo(n0, n1, k);
    var part := Sweep(n0, n1, k)[..r];
    OutcomesAppend(before, part, 0);
    OutcomesAppend(before, part, 1);
    EngineHistory(n0, n1, k, 0);
    EngineHistory(n0, n1, k, 1);
    if k <= n0 && k <= n1 {
      PartialSweep(n0, n1, k, r);
    } else if k > n0 {
      assert false in History(k, n0);
    } else {
      assert false in History(k, n1);
    }
  }

  /** A prefix of a + b is a prefix of a, or a followed by a prefix of b. */
  lemma PrefixOfAppend(a: seq<Event>, b: seq<Event>, j: nat)
    requires j <= |a + b|
    ensures j <= |a| ==> (a + b)[..j] == a[..j]
    ensures j > |a| ==> (a + b)[..j] == a + b[..j - |a|]
  {
    if j > |a| {
      assert (a + b)[..j] == a + b[..j - |a|];
    } else {
      assert (a + b)[..j] == a[..j];
    }
  }

  /**
   * Round-robin fairness: at every point of the first K sweeps where both engines
   * are still running, engine 0 has been resumed as often as engine 1 or once more.
   */
  lemma {:induction false} FairPrefix(n0: nat, n1: nat, K: nat, j: nat)
    requires j <= |SweepsUpTo(n0, n1, K)|
    ensures FairSoFar(SweepsUpTo(n0, n1, K)[..j])
    decreases K
  {
    if K > 0 {
      var before := SweepsUpTo(n0, n1, K - 1);
      var sweep := Sweep(n0, n1, K - 1);
      assert SweepsUpTo(n0, n1, K) == before + sweep;
      PrefixOfAppend(before, sweep, j);
      if j <= |before| {
        FairPrefix(n0, n1, K - 1, j);
      } else {
        FairInSweep(n0, n1, K - 1, j - |before|);
      }
    }
  }

  /** Fairness over a whole run. */
  lemma ScheduleFair(n0: nat, n1: nat, j: nat)
    requires j <= |Schedule(n0, n1)|
    ensures FairSoFar(Schedule(n0, n1)[..j])
  {
    FairPrefix(n0, n1, Max(n0, n1) + 1, j);
  }

  /** `ret` after k sweeps, in closed form: the verdict of the engine that finished last so far. */
  function ReportedAfter(n0: nat, n1: nat, k: nat, v0: LBool, v1: LBool, init: LBool): LBool {
    if k > n0 && k > n1 then (if LastToFinish(n0, n1) == 0 then v0 else v1)
    else if k > n0 then v0
    else if k > n1 then v1
    else init
  }

  /** The verdict after one more sweep: that of the engine finishing in it, engine 1 over engine 0. */
  lemma FinishVerdictSweep(evs: seq<Event>, n0: nat, n1: nat, k: nat, v0: LBool, v1: LBool, init: LBool)
    ensures FinishVerdict(evs + Sweep(n0, n1, k), v0, v1, init)
         == if k == n1 then v1 else if k == n0 then v0 else FinishVerdict(evs, v0, v1, init)
  {
    var a: seq<Event> := if k <= n0 then [Resumed(0, k < n0)] else [];
    var b: seq<Event> := if k <= n1 then [Resumed(1, k < n1)] else [];
    assert evs + Sweep(n0, n1, k) == (evs + a) + b;
    if k <= n0 {
      FinishVerdictSnoc(evs, Resumed(0, k < n0), v0, v1, init);
    } else {
      assert evs + a == evs;
    }
    if k <= n1 {
      FinishVerdictSnoc(evs + a, Resumed(1, k < n1), v0, v1, init);
    } else {
      assert (evs + a) + b == evs + a;
    }
  }

  /** The closed form is the verdict of the last completion in the trace of the first k sweeps. */
  lemma {:induction false} ReportedAfterIsLastFinish(n0: nat, n1: nat, k: nat, v0: LBool, v1: LBool, init: LBool)
    ensures FinishVerdict(SweepsUpTo(n0, n1, k), v0, v1, init) == ReportedAfter(n0, n1, k, v0, v1, init)
    decreases k
  {
    if k > 0 {
      ReportedAfterIsLastFinish(n0, n1, k - 1, v0, v1, init);
      FinishVerdictSweep(SweepsUpTo(n0, n1, k - 1), n0, n1, k - 1, v0, v1, init);
      ReportedAfterStep(n0, n1, k - 1, v0, v1, init);
    }
  }

  lemma FinishVerdictSnoc(evs: seq<Event>, ev: Event, v0: LBool, v1: LBool, init: LBool)
    ensures FinishVerdict(evs + [ev], v0, v1, init)
         == if !ev.more then (if ev.engine == 0 then v0 else v1) else FinishVerdict(evs, v0, v1, init)
  {
    assert (evs + [ev])[..|evs|] == evs;
  }

  /**
   * One engine's turn in a sweep: resume it, and after a resume that returned true
   * with the engine ready to share, ship its outbox to the other engine (finished or
   * not) and clear it. Nothing of the other engine but its inbox changes.
   */
  method ResumeAndShare(src: Engine, dst: Engine) returns (more: bool)
    requires src != dst && !src.done
    modifies src, dst`inbox
    ensures src.resumes == old(src.resumes) + 1 && src.inbox == old(src.inbox)
    ensures more <==> old(src.plan) != []
    ensures more ==> && src.plan == old(src.plan)[1..] && !src.done && src.verdict == old(src.verdict)
                     && dst.inbox == old(dst.inbox) + ShareStep(old(src.outbox), old(src.plan)[0]).0
                     && src.outbox == ShareStep(old(src.outbox), old(src.plan)[0]).1
    ensures more && src.ready ==> src.outbox == []
    ensures !more ==> && src.done && src.verdict == src.outcome && src.plan == old(src.plan)
                      && src.outbox == old(src.outbox) && dst.inbox == old(dst.inbox)
    ensures dst.outbox == old(dst.outbox) && dst.done == old(dst.done) && dst.plan == old(dst.plan)
  {
    more := src.Resume();
    if more {
      if src.ready {
        src.ShareTo(dst);
        src.ClearSharedOut();
      }
    }
  }

  /**
   * What the driver's loop has made of one engine so far, as a value: its remaining
   * plan, outbox, resume count, whether it finished, its verdict, and everything it
   * has shipped to the other engine's inbox.
   */
  datatype Progress = Progress(plan: seq<Step>, outbox: seq<Clause>, resumes: nat,
                               done: bool, verdict: LBool, shipped: seq<Clause>)

  /**
   * One turn of an engine in a sweep, on values: a finished engine is skipped; a
   * resume with no step left ends the engine with its outcome; otherwise the first
   * step runs and, if the engine is then ready, the outbox is shipped and cleared.
   */
  function Advance(p: Progress, outcome: LBool): (r: Progress)
    ensures p.done ==> r == p
    ensures !p.done ==> r.resumes == p.resumes + 1 && p.shipped <= r.shipped
    ensures r.done <==> p.done || p.plan == []
    ensures !p.done && p.plan == [] ==> r.verdict == outcome && r.outbox == p.outbox
  {
    if p.done then p
    else if p.plan == [] then p.(resumes := p.resumes + 1, done := true, verdict := outcome)
    else
      var sh := ShareStep(p.outbox, p.plan[0]);
      p.(plan := p.plan[1..], outbox := sh.1, resumes := p.resumes + 1, shipped := p.shipped + sh.0)
  }

  /** The engine after k sweeps, turn by turn. */
  function After(start: Progress, outcome: LBool, k: nat): Progress
    decreases k
  {
    if k == 0 then start else Advance(After(start, outcome, k - 1), outcome)
  }

  /** The engine at the start of the loop. */
  function Start(P: seq<Step>, O: seq<Clause>, R: nat, V: LBool): Progress {
    Progress(P, O, R, false, V, [])
  }

  /**
   * The engine after k sweeps, in closed form: within its plan it has run the first k
   * steps (the replay of P[..k]); after it, it has finished with its outcome.
   */
  function Closed(P: seq<Step>, O: seq<Clause>, R: nat, V: LBool, outcome: LBool, k: nat): Progress {
    if k <= |P| then
      var r := Replay(O, P[..k]);
      Progress(P[k..], r.1, R + k, false, V, r.0)
    else
      var r := Replay(O, P);
      Progress([], r.1, R + |P| + 1, true, outcome, r.0)
  }

  /** One turn takes the closed form at k to the closed form at k + 1. */
  lemma AdvanceClosed(P: seq<Step>, O: seq<Clause>, R: nat, V: LBool, outcome: LBool, k: nat)
    ensures Advance(Closed(P, O, R, V, outcome, k), outcome) == Closed(P, O, R, V, outcome, k + 1)
  {
    if k < |P| {
      assert P[k..][0] == P[k];
      assert P[k..][1..] == P[k + 1..];
      ReplayExtend(O, P, k);
    } else if k == |P| {
      assert P[..k] == P;
      assert P[k..] == [];
    }
  }

  /** Turn by turn and closed form agree. */
  lemma {:induction false} AfterClosed(P: seq<Step>, O: seq<Clause>, R: nat, V: LBool, outcome: LBool, k: nat)
    ensures After(Start(P, O, R, V), outcome, k) == Closed(P, O, R, V, outcome, k)
    decreases k
  {
    if k == 0 {
      assert P[..0] == [];
    } else {
      AfterClosed(P, O, R, V, outcome, k - 1);
      AfterClosedStep(P, O, R, V, outcome, k);
    }
  }

  /** One more sweep keeps the closed form: the step of AfterClosed. */
  lemma AfterClosedStep(P: seq<Step>, O: seq<Clause>, R: nat, V: LBool, outcome: LBool, k: nat)
    requires k > 0
    requires After(Start(P, O, R, V), outcome, k - 1) == Closed(P, O, R, V, outcome, k - 1)
    ensures After(Start(P, O, R, V), outcome, k) == Closed(P, O, R, V, outcome, k)
  {
    var prev := After(Start(P, O, R, V), outcome, k - 1);
    assert After(Start(P, O, R, V), outcome, k) == Advance(prev, outcome);
    AdvanceClosed(P, O, R, V, outcome, k - 1);
  }

  /** After k sweeps an engine has finished exactly when k passed its plan, and its plan is empty at k = |P|. */
  lemma AfterShape(P: seq<Step>, O: seq<Clause>, R: nat, V: LBool, outcome: LBool, k: nat)
    ensures After(Start(P, O, R, V), outcome, k).done <==> k > |P|
    ensures After(Start(P, O, R, V), outcome, k).plan == [] <==> k >= |P|
  {
    AfterClosed(P, O, R, V, outcome, k);
  }

  /** The fields of src, and dst's inbox beyond I, are those of a. */
  ghost predicate Matches(src: Engine, dst: Engine, I: seq<Clause>, a: Progress)
    reads src, dst
  {
    && src.plan == a.plan && src.outbox == a.outbox && src.resumes == a.resumes
    && src.done == a.done && src.verdict == a.verdict && dst.inbox == I + a.shipped
  }

  /**
   * One engine's turn in a sweep, as in
   * `if (f && solver()) { flag = true; share } else if (f) { f = false; ret = verdict; }`:
   * it moves src from a to Advance(a), and the other engine's progress b stays matched.
   */
  method Turn(src: Engine, dst: Engine, running: bool, ret: LBool,
              ghost I: seq<Clause>, ghost a: Progress, ghost J: seq<Clause>, ghost b: Progress, ghost id: nat)
    returns (progressed: bool, running': bool, ret': LBool, ghost ev: seq<Event>)
    requires src != dst
    requires running <==> !a.done
    requires Matches(src, dst, I, a) && Matches(dst, src, J, b)
    modifies src, dst`inbox
    ensures Matches(src, dst, I, Advance(a, src.outcome)) && Matches(dst, src, J, b)
    ensures progressed <==> !a.done && a.plan != []
    ensures running' <==> !a.done && a.plan != []
    ensures ret' == if !a.done && a.plan == [] then src.outcome else ret
    ensures ev == if a.done then [] else [Resumed(id, a.plan != [])]
  {
    progressed, running', ret', ev := false, running, ret, [];
    if running {
      var more := ResumeAndShare(src, dst);
      ev := [Resumed(id, more)];
      if more {
        progressed := true;
        assert dst.inbox == I + (a.shipped + ShareStep(a.outbox, a.plan[0]).0);
      } else {
        running' := false;
        ret' := src.verdict;
      }
    }
  }

  /** The verdict after sweep k follows from the one before and who finished in it. */
  lemma ReportedAfterStep(n0: nat, n1: nat, k: nat, v0: LBool, v1: LBool, init: LBool)
    ensures ReportedAfter(n0, n1, k + 1, v0, v1, init)
         == if k == n1 then v1 else if k == n0 then v0 else ReportedAfter(n0, n1, k, v0, v1, init)
  {
  }

  /** The trace up to sweep k + 1 is the trace up to k, then engine 0's turn, then engine 1's. */
  lemma SweepsUpToNext(n0: nat, n1: nat, k: nat)
    ensures SweepsUpTo(n0, n1, k + 1)
         == (SweepsUpTo(n0, n1, k) + (if k <= n0 then [Resumed(0, k < n0)] else []))
            + (if k <= n1 then [Resumed(1, k < n1)] else [])
  {
    var first: seq<Event> := if k <= n0 then [Resumed(0, k < n0)] else [];
    var second: seq<Event> := if k <= n1 then [Resumed(1, k < n1)] else [];
    assert Sweep(n0, n1, k) == first + second;
    assert SweepsUpTo(n0, n1, k) + (first + second) == (SweepsUpTo(n0, n1, k) + first) + second;
  }

  class Portfolio {
    const s0: Engine
    const s1: Engine
    /** Engine 0 (f1) and engine 1 (f2) are still running. */
    var f1: bool
    var f2: bool
    /** The run's verdict. */
    var ret: LBool
    /** Every resume so far. */
    ghost var events: seq<Event>

    ghost predicate Valid()
      reads this, s0, s1
    {
      s0 != s1 && (f1 <==> !s0.done) && (f2 <==> !s1.done)
    }

    constructor (e0: Engine, e1: Engine)
      requires e0 != e1 && !e0.done && !e1.done
      ensures s0 == e0 && s1 == e1 && Valid()
      ensures f1 && f2 && ret == LUndef && events == []
    {
      s0 := e0;
      s1 := e1;
      f1 := true;
      f2 := true;
      ret := LUndef;
      events := [];
    }

    /**
     * The state of the run after k sweeps, for engines that started as A0 and A1 with
     * inboxes I0 and I1 and `ret` init.
     */
    ghost predicate SweptTo(A0: Progress, A1: Progress, I0: seq<Clause>, I1: seq<Clause>, init: LBool, k: nat)
      reads this, s0, s1
    {
      var n0, n1 := |A0.plan|, |A1.plan|;
      && s0 != s1
      && (f1 <==> k <= n0) && (f2 <==> k <= n1)
      && Matches(s0, s1, I1, After(A0, s0.outcome, k))
      && Matches(s1, s0, I0, After(A1, s1.outcome, k))
      && events == SweepsUpTo(n0, n1, k)
      && ret == ReportedAfter(n0, n1, k, s0.outcome, s1.outcome, init)
    }

    /** Midway through sweep k: engine 0 has taken its turn, engine 1 has not yet. */
    ghost predicate HalfSwept(A0: Progress, A1: Progress, I0: seq<Clause>, I1: seq<Clause>, init: LBool, k: nat)
      reads this, s0, s1
    {
      var n0, n1 := |A0.plan|, |A1.plan|;
      && s0 != s1
      && (f1 <==> k < n0) && (f2 <==> k <= n1)
      && Matches(s0, s1, I1, After(A0, s0.outcome, k + 1))
      && Matches(s1, s0, I0, After(A1, s1.outcome, k))
      && events == SweepsUpTo(n0, n1, k) + (if k <= n0 then [Resumed(0, k < n0)] else [])
      && ret == if k == n0 then s0.outcome else ReportedAfter(n0, n1, k, s0.outcome, s1.outcome, init)
    }

    /** Engine 0's turn in sweep k: `if (f1 && solver0()) { ... } else if (f1) { ... }`. */
    method FirstTurn(ghost A0: Progress, ghost A1: Progress, ghost I0: seq<Clause>, ghost I1: seq<Clause>,
                     ghost init: LBool, ghost k: nat)
      returns (progressed: bool)
      requires SweptTo(A0, A1, I0, I1, init, k)
      requires A0 == Start(A0.plan, A0.outbox, A0.resumes, A0.verdict)
      modifies this, s0, s1
      ensures HalfSwept(A0, A1, I0, I1, init, k)
      ensures progressed <==> k < |A0.plan|
    {
      ghost var v0 := s0.outcome;
      ghost var a0 := After(A0, v0, k);
      AfterShape(A0.plan, A0.outbox, A0.resumes, A0.verdict, v0, k);
      assert After(A0, v0, k + 1) == Advance(a0, v0);
      var run: bool;
      var r: LBool;
      ghost var e: seq<Event>;
      progressed, run, r, e := Turn(s0, s1, f1, ret, I1, a0, I0, After(A1, s1.outcome, k), 0);
      f1, ret := run, r;
      events := events + e;
    }

    /** Engine 1's turn in sweep k, which completes the sweep. */
    method SecondTurn(ghost A0: Progress, ghost A1: Progress, ghost I0: seq<Clause>, ghost I1: seq<Clause>,
                      ghost init: LBool, ghost k: nat)
      returns (progressed: bool)
      requires HalfSwept(A0, A1, I0, I1, init, k)
      requires A1 == Start(A1.plan, A1.outbox, A1.resumes, A1.verdict)
      modifies this, s0, s1
      ensures SweptTo(A0, A1, I0, I1, init, k + 1)
      ensures progressed <==> k < |A1.plan|
    {
      ghost var n0, n1 := |A0.plan|, |A1.plan|;
      ghost var v1 := s1.outcome;
      ghost var a1 := After(A1, v1, k);
      AfterShape(A1.plan, A1.outbox, A1.resumes, A1.verdict, v1, k);
      ReportedAfterStep(n0, n1, k, s0.outcome, v1, init);
      assert After(A1, v1, k + 1) == Advance(a1, v1);
      var run: bool;
      var r: LBool;
      ghost var e: seq<Event>;
      progressed, run, r, e := Turn(s1, s0, f2, ret, I0, a1, I1, After(A0, s0.outcome, k + 1), 1);
      f2, ret := run, r;
      SweepsUpToNext(n0, n1, k);
      events := events + e;
    }

    /**
     * One pass of the loop body: engine 0's turn, then engine 1's. `flag` reports
     * whether some resume returned true, which happens exactly while a sweep is left.
     */
    method SweepOnce(ghost A0: Progress, ghost A1: Progress, ghost I0: seq<Clause>, ghost I1: seq<Clause>,
                     ghost init: LBool, ghost k: nat)
      returns (flag: bool)
      requires SweptTo(A0, A1, I0, I1, init, k)
      requires A0 == Start(A0.plan, A0.outbox, A0.resumes, A0.verdict)
      requires A1 == Start(A1.plan, A1.outbox, A1.resumes, A1.verdict)
      modifies this, s0, s1
      ensures SweptTo(A0, A1, I0, I1, init, k + 1)
      ensures flag <==> k < Max(|A0.plan|, |A1.plan|)
    {
      var p0 := FirstTurn(A0, A1, I0, I1, init, k);
      var p1 := SecondTurn(A0, A1, I0, I1, init, k);
      flag := p0 || p1;
    }

    /**
     * The scheduling loop. It ends with both engines finished, after exactly the
     * resumes of Schedule; `ret` is the verdict of the engine that finished last;
     * each inbox has received exactly what the other engine's replayed steps shipped.
     */
    method Run()
      requires Valid() && f1 && f2 && events == []
      modifies this, s0, s1
      ensures Valid() && !f1 && !f2 && s0.done && s1.done
      ensures events == Schedule(|old(s0.plan)|, |old(s1.plan)|)
      ensures ret == if LastToFinish(|old(s0.plan)|, |old(s1.plan)|) == 0 then s0.outcome else s1.outcome
      ensures s0.resumes == old(s0.resumes) + |old(s0.plan)| + 1
      ensures s1.resumes == old(s1.resumes) + |old(s1.plan)| + 1
      ensures s0.verdict == s0.outcome && s1.verdict == s1.outcome
      ensures s1.inbox == old(s1.inbox) + Replay(old(s0.outbox), old(s0.plan)).0
      ensures s0.outbox == Replay(old(s0.outbox), old(s0.plan)).1
      ensures s0.inbox == old(s0.inbox) + Replay(old(s1.outbox), old(s1.plan)).0
      ensures s1.outbox == Replay(old(s1.outbox), old(s1.plan)).1
    {
      ghost var A0 := Start(s0.plan, s0.outbox, s0.resumes, s0.verdict);
      ghost var A1 := Start(s1.plan, s1.outbox, s1.resumes, s1.verdict);
      ghost var I0, I1 := s0.inbox, s1.inbox;
      ghost var init := ret;
      ghost var k: nat := 0;
      assert I0 + [] == I0 && I1 + [] == I1;
      var flag := true;
      while flag
        invariant k <= Max(|A0.plan|, |A1.plan|) + 1
        invariant flag <==> k <= Max(|A0.plan|, |A1.plan|)
        invariant SweptTo(A0, A1, I0, I1, init, k)
        decreases Max(|A0.plan|, |A1.plan|) + 1 - k
      {
        flag := SweepOnce(A0, A1, I0, I1, init, k);
        k := k + 1;
      }
      AfterClosed(A0.plan, A0.outbox, A0.resumes, A0.verdict, s0.outcome, k);
      AfterClosed(A1.plan, A1.outbox, A1.resumes, A1.verdict, s1.outcome, k);
    }
  }
}
