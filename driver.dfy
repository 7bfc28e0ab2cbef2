/**
 * The control flow of `main` after both engines have parsed the same DIMACS input
 * and simplified it: the early exit when simplification already refuted the formula,
 * the DIMACS-dump exit, reading and echoing the assumption file, the portfolio run,
 * the result file and the exit code.
 */
module Driver {
  import opened Wrappers
  import opened SolverTypes
  import opened Scanning
  import opened ResultFile
  import opened Assumptions
  import opened Engines
  import opened Scheduling

  /** The `-assumptions` option: not given, naming a file that cannot be opened, or a readable file. */
  datatype AssumptionFile = NoAssumptions | Unopenable | Readable(text: string)

  /**
   * What a run leaves behind: the exit code, the contents of the result file when one
   * was named on the command line (it is created, empty, before anything else is
   * decided), and the assumption echo printed on standard output.
   */
  datatype RunResult = RunResult(exitCode: int, resultFile: Option<string>, echo: string)

  /** The result file named on the command line, holding s when it was written and nothing otherwise. */
  function ResultFileWith(wantResult: bool, s: string): Option<string> {
    if wantResult then Some(s) else None
  }

  /**
   * `main` from the `okay()` test on. okay0 and okay1 are what the engines' `okay()`
   * report after `eliminate`; dimacs says whether `-dimacs` was given; wantResult
   * whether a result file was named.
   */
  method Solve(e0: Engine, e1: Engine, okay0: bool, okay1: bool, dimacs: bool,
               assumptions: AssumptionFile, wantResult: bool)
    returns (r: RunResult)
    requires e0 != e1 && !e0.done && !e1.done
    modifies e0, e1
    ensures !(okay0 && okay1) ==>
      && r == RunResult(20, ResultFileWith(wantResult, UnsatBySimplification), "")
      && unchanged(e0, e1)
    ensures okay0 && okay1 && dimacs ==>
      && r == RunResult(0, ResultFileWith(wantResult, ""), "")
      && unchanged(e0, e1)
    ensures okay0 && okay1 && !dimacs && assumptions.Unopenable? ==>
      && r == RunResult(1, ResultFileWith(wantResult, ""), "")
      && unchanged(e0, e1)
    ensures okay0 && okay1 && !dimacs && !assumptions.Unopenable? ==>
      var v := if LastToFinish(|old(e0.plan)|, |old(e1.plan)|) == 0 then e0.outcome else e1.outcome;
      && r.exitCode == ExitCode(v)
      && r.resultFile == ResultFileWith(wantResult, Render(v, e0.model, e0.conflict))
      && r.echo == (if assumptions.Readable? then Echo(DecodeAll(ReadInts(assumptions.text))) else "")
      && e0.done && e1.done
  {
    if !okay0 || !okay1 {
      return RunResult(20, ResultFileWith(wantResult, UnsatBySimplification), "");
    }
    if dimacs {
      return RunResult(0, ResultFileWith(wantResult, ""), "");
    }
    var dummy: seq<Lit> := [];
    match assumptions {
      case Unopenable =>
        return RunResult(1, ResultFileWith(wantResult, ""), "");
      case Readable(text) =>
        dummy := ReadAssumptions(text);
      case NoAssumptions =>
    }
    var p := new Portfolio(e0, e1);
    p.Run();
    var ret := p.ret;
    var file := ResultFileWith(wantResult, Render(ret, e0.model, e0.conflict));
    r := RunResult(ExitCode(ret), file, Echo(dummy));
  }
}
