# Portfolio driver of the two-engine SAT solver

This project models the driver in `main` of `simp/Main.cc`. Two copies of the
simplifying SAT solver (S0 and S1) read the same DIMACS formula. The driver runs
them as cooperative coroutines and lets each pass learned clauses to the other.
It then writes the result file and picks the exit code. The model has four parts.

- **The scheduler** (`Scheduling.Portfolio`), a class with a `while (flag)` loop:
  - Each sweep resumes every engine that is still running, engine 0 first.
  - After a resume that returned true, the engine's outbox (`sharedClauseOut`) is
    appended to the other engine's inbox if `readyToShare()` holds, and the outbox
    is then cleared. This happens even when the other engine has already finished.
  - A resume that returned false drops that engine's flag for good and copies its
    verdict into `ret`.
- **The engines** (`Engines.Engine`). The search itself is abstract. An engine is:
  - a plan of remaining work units that end in a suspension, each with the clauses
    it learns and the `readyToShare()` value afterwards;
  - an outcome (`lbool`);
  - an outbox, an inbox, a done flag and a verdict.
- **Assumptions** (`Assumptions`, `SolverTypes`, `Scanning`):
  - The `fscanf("%d")` loop reads integers from the assumption file. It is modelled
    as a scanner over the file text.
  - Each integer is decoded to a MiniSat literal and then echoed on standard output.
- **Results** (`ResultFile`, `Driver`):
  - the result file: `SAT` with the model, `UNSAT` with the negated conflict, or
    `INDET`, and `UNSAT` alone when simplification already refuted the formula;
  - the exit codes 10, 20, 0 and 1.

Behaviour of the code that the model reproduces:

- **The run's verdict is not the first conclusive one.** `ret` is the verdict of the
  engine that finished last; on a tie within a sweep that is engine 1.
- **The result file always uses S0.** It renders S0's model and conflict, whichever
  engine set `ret`.
- **Decoding is `i > 0 ? mkLit(|i|-1) : ~mkLit(|i|-1)`.** So the literal is negated
  exactly when `i <= 0`, and 0 decodes to the negated literal of variable -1.
- **The line written for the negation of assumption i's literal is `i`**, with one
  exception: for 0 it is `-0`, which `%d` reads back as 0.
- **The echo prints the 0-based variable.** Assumption `i` is echoed as `i-1` for
  positive `i` and as `i+1` for negative `i`. Assumption 0 is echoed as `--1`.
- **The assumptions are never given to the engines.** They are only decoded and
  echoed: the coroutines bind `solveLimited` to the coroutine's own argument.
- **Sharing goes to the other engine whether or not it has finished.** The outbox is
  appended to the other engine's inbox even after that engine's last resume.

The reference trace `Scheduling.Schedule(n0, n1)` lists every resume of a run in
which the engines suspend n0 and n1 times. The lemmas about it show:

- fairness;
- that no engine is resumed after it finished;
- which verdict is reported.

`Portfolio.Run` is proved to produce exactly that trace. It is also proved to leave
each inbox holding exactly what the other engine's steps shipped, via `Replay`.

## Model

| member | source | states |
|---|---|---|
| SolverTypes.MkLit | simp/Main.cc:250 | `mkLit(v)` is the positive literal of variable v |
| SolverTypes.Negate | simp/Main.cc:250 | `~l` keeps the variable and flips the sign |
| SolverTypes.Decode | simp/Main.cc:249-250 | integer i decodes to variable \|i\|-1, negated exactly when i <= 0 |
| SolverTypes.DecodeAll | simp/Main.cc:248-252 | the decoded list has one literal per integer, in order, each the decoding of its integer |
| SolverTypes.NegateAll | simp/Main.cc:337-339 | the conflict printed with reversed signs is the pointwise negation, same length and order |
| SolverTypes.DecodeInjective | simp/Main.cc:249-250 | two integers that decode to the same literal are equal (0 alone decodes to variable -1) |
| Scanning.ScanInt | simp/Main.cc:248 | one `%d` conversion that succeeds consumes at least one and at most all remaining characters |
| Scanning.ReadInts | simp/Main.cc:248 | the `%d` loop reads at most one integer per character of the file |
| Scanning.ReadIntStr | simp/Main.cc:248 | the `%d` reader reads the decimal text of any integer back as exactly that integer |
| Scanning.ReadIntsSkipsSpace | simp/Main.cc:248 | leading white space does not change what `%d` reads |
| Assumptions.ReadAssumptions | simp/Main.cc:248-252 | the `while (fscanf(...) == 1)` loop pushes exactly the decodings of the integers the file holds, in order |
| Assumptions.EchoLine | simp/Main.cc:256 | the echo of one literal is exactly one line |
| Assumptions.Echo | simp/Main.cc:255-257 | the echo has one line per assumption, and is empty exactly when there are no assumptions |
| Assumptions.ReadEcho | simp/Main.cc:255-257 | for nonzero assumptions the echo has one line per assumption and reads back as i-1 for positive and i+1 for negative i |
| Assumptions.EchoOfZero | simp/Main.cc:256 | assumption 0 is echoed as `--1` |
| ResultFile.ExitCode | simp/Main.cc:355 | exit code 10 iff the verdict is true, 20 iff false, 0 iff undefined |
| ResultFile.ExitCodeMatchesHeader | simp/Main.cc:328-357 | the result file starts with `SAT` iff the exit code is 10, with `UNSAT` iff 20, and is `INDET` iff 0 |
| ResultFile.EarlyUnsatFile | simp/Main.cc:221 | the file written when simplification refutes the formula is the UNSAT rendering with an empty conflict: it blames no assumption |
| ResultFile.Render | simp/Main.cc:328-344 | every result file ends with a newline |
| ResultFile.RenderLines | simp/Main.cc:328-344 | a SAT file has 2 lines (header and model), an UNSAT file one line per conflict literal after the header, an INDET file 1 line |
| ResultFile.SatLitsChars | simp/Main.cc:331-333 | the model part holds only spaces, signs and digits, so the whole model is on one line |
| ResultFile.ConflictLineOneLine | simp/Main.cc:339 | each conflict literal is written on exactly one line |
| ResultFile.ConflictLinesCount | simp/Main.cc:337-339 | the conflict part has one line per conflict literal and ends a line unless empty |
| ResultFile.SatLitsTail | simp/Main.cc:333 | every model literal after variable 0 is preceded by a space |
| ResultFile.ReadSatLits | simp/Main.cc:331-334 | the model lines read back as the signed 1-based indices of the assigned variables, skipping unassigned ones, then the terminating 0 |
| ResultFile.RenderSatReadsModel | simp/Main.cc:329-334 | a SAT file is `SAT\n` followed by text that reads back as the assigned literals and 0, ending in ` 0\n` |
| ResultFile.SatSeparator | simp/Main.cc:333 | the SAT header is followed by a space exactly when variable 0 is unassigned or the model is empty |
| ResultFile.ConflictLineOfAssumption | simp/Main.cc:337-339 | the line written for the negation of assumption i's literal is i (`-0` for 0) |
| ResultFile.ReadConflictLines | simp/Main.cc:337-339 | the UNSAT lines for the negated decodings of a list of assumptions read back as exactly that list |
| ResultFile.RenderUnsatReadsAssumptions | simp/Main.cc:335-339 | an UNSAT file over the negated decoded assumptions is `UNSAT\n` followed by text that reads back as those assumptions |
| Engines.ShareStep | simp/Main.cc:271-273 | after one step, the clauses shipped plus those left in the outbox are the old outbox plus the step's learned clauses; a ready engine empties its outbox, an engine not ready ships nothing |
| Engines.Replay | simp/Main.cc:271-273 | when the last step of a run leaves the engine ready to share, the outbox ends empty |
| Engines.ReplayConserves | simp/Main.cc:271-273 | over any run of steps, the clauses shipped plus the clauses left in the outbox are the old outbox plus everything learned, in order: nothing lost, nothing shipped twice |
| Engines.ReplayEndsReady | simp/Main.cc:271-273 | when the last step leaves the engine ready to share, the outbox ends empty and everything was shipped |
| Engines.ReplayNeverReady | simp/Main.cc:271-273 | an engine never ready to share ships nothing and keeps everything it learned in its outbox |
| Engines.ReplayExtend | simp/Main.cc:271-273 | replaying one more step appends that step's shipment and replaces the outbox by the step's leftover |
| Engines.Engine.Resume | simp/Main.cc:269 | a resume returns true iff work remains, runs the next unit (appending what it learns to the outbox, setting readiness); otherwise it finishes with the outcome as verdict |
| Engines.Engine.ShareTo | simp/Main.cc:272 | `shareTo` appends a copy of the outbox to the target's inbox and changes nothing else |
| Engines.Engine.ClearSharedOut | simp/Main.cc:273 | the outbox is empty afterwards |
| Scheduling.ResumeAndShare | simp/Main.cc:269-274 | after a true resume with the engine ready, the target's inbox gains the outbox and the outbox is empty; after a false resume nothing is shared; the target's outbox, plan and finish state never change |
| Scheduling.Turn | simp/Main.cc:269-282 | a running engine advances by one step of the reference step function; `f` stays true iff the resume returned true; `ret` takes the verdict exactly at the finish; a stopped engine is not resumed |
| Scheduling.Advance | simp/Main.cc:269-282 | a finished engine is skipped unchanged; otherwise it is resumed once more and its shipments only grow; it is finished afterwards iff it was or its plan is used up, and when it finishes now its verdict is the outcome and its outbox is kept |
| Scheduling.AdvanceClosed | simp/Main.cc:269-279 | one turn takes the closed form of the engine state after k sweeps to the closed form after k+1 |
| Scheduling.AfterClosed | simp/Main.cc:266-299 | after k sweeps, an engine has run the first min(k, n) steps of its plan and shipped their replay, and has finished with its outcome iff k > n |
| Scheduling.AfterShape | simp/Main.cc:276-277 | an engine is finished after k sweeps iff k exceeds its number of suspensions |
| Scheduling.Portfolio.constructor | simp/Main.cc:265 | both flags start true, no resume has happened |
| Scheduling.Portfolio.FirstTurn | simp/Main.cc:269-282 | engine 0's turn in sweep k leaves engine 0 in its state after k+1 sweeps and engine 1 untouched but for its inbox; it adds engine 0's resume to the trace, keeps `f1` true iff that resume returned true, and sets `ret` to engine 0's verdict exactly when engine 0 finishes in this sweep |
| Scheduling.Portfolio.SecondTurn | simp/Main.cc:284-297 | engine 1's turn completes sweep k: both engines, the trace and `ret` (the verdict of the last finisher so far) are as after k+1 sweeps, and `f2` stays true iff engine 1's resume returned true |
| Scheduling.Portfolio.SweepOnce | simp/Main.cc:267-298 | one pass of the loop body moves the run from k to k+1 sweeps; `flag` is true iff some sweep is still to come |
| Scheduling.Portfolio.Run | simp/Main.cc:264-299 | the loop ends with both flags false and both engines finished, after exactly the resumes of Schedule; `ret` is the outcome of the last engine to finish; each engine resumed n+1 times; each inbox holds exactly what the other engine shipped |
| Scheduling.SweepsLength | simp/Main.cc:266-299 | the first k sweeps resume engine e min(k, n_e + 1) times |
| Scheduling.Schedule | simp/Main.cc:266-299 | a whole run has n0 + n1 + 2 resumes: each engine is resumed once per suspension and once more to finish |
| Scheduling.EngineHistory | simp/Main.cc:266-299 | after k sweeps an engine's resumes are min(k, n) trues followed by one false once k > n |
| Scheduling.ScheduleHistory | simp/Main.cc:276-277 | over a whole run each engine's resumes are n trues and then a single false: never resumed after finishing |
| Scheduling.ScheduleFair | simp/Main.cc:266-299 | at every point of a run where both engines are running, engine 0 has been resumed as often as engine 1 or once more |
| Scheduling.LastEventOfSchedule | simp/Main.cc:265-299 | a run's last resume is the completion of the engine that finishes last: the loop ends right after the last finish |
| Scheduling.RunVerdict | simp/Main.cc:278 | the verdict left by the trace is that of the last engine to finish (engine 1 on a tie), not the first conclusive one |
| Scheduling.ReportedAfterIsLastFinish | simp/Main.cc:293 | after any number of sweeps, `ret` is the verdict of the last completion so far |
| Driver.Solve | simp/Main.cc:220-362 | if simplification refuted the formula the file is `UNSAT\n` and the exit code 20; `-dimacs` exits 0 and an unopenable assumption file exits 1, both with an empty result file; otherwise the engines run to completion, the file is the rendering of the last finisher's verdict with S0's model and conflict, the exit code matches the verdict, and the echo is that of the decoded assumptions |

## Left out

- Option parsing, the FPU control word, CPU and memory limits, and signal handlers: these are library plumbing, OS calls and asynchronous signals.
- Opening and parsing the DIMACS input (`parse_DIMACS`, gzip), and the error exit when it cannot be opened: this is I/O. The parser lives in `core/Dimacs.h`, which is not part of this model.
- The search itself (`solveLimited`, `eliminate`, `okay`, `readyToShare`, `toDimacs`) lives in SimpSolver headers that are not part of this model. An engine is modelled by its plan of suspending work units and its outcome. `okay()` and the `-dimacs` option become parameters of `Driver.Solve`.
- The boost coroutines: a resume is `Engines.Engine.Resume`, one bounded unit of work.
- `printStats`, `cpuTime` and the progress and verdict lines on standard output: timing, floating point and console output. Of standard output, only the assumption echo is modelled.
- Seed arithmetic: it works on a solver field whose type is defined in unseen headers.
- The `OutOfMemoryException` handler, which prints `INDETERMINATE` and exits 0: memory exhaustion is not modelled.
- The commented-out MPI code, and `rank`, which the loop never reads.
- ResultFile.Render: the SAT loop runs to `S0.nVars()`; the model assumes that this equals the length of the model array.
- SolverTypes.Decode: C's 32-bit `int` is modelled as an unbounded integer, so `abs(INT_MIN)` overflow is not modelled.
- Scanning.ScanInt: integers that overflow a 32-bit `int` are read with their exact value rather than `fscanf`'s undefined result.
- The initial value of `lbool ret`: it starts at the default `lbool` value, modelled as undefined; the loop always overwrites it before use.
- Driver.Solve: the result file's contents are modelled as a string. A file that is opened and then left unwritten by an early exit is modelled as empty.
