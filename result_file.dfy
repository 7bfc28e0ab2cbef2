/**
 * The result file written after the run and the process exit code.
 * The file is "SAT" with the model as DIMACS literals, "UNSAT" with the conflict
 * literals sign-reversed (so that they read like the assumptions file), or "INDET".
 */
module ResultFile {
  import opened SolverTypes
  import opened Scanning

  /** Exit status for a verdict: 10 satisfiable, 20 unsatisfiable, 0 otherwise. */
  function ExitCode(v: LBool): (code: int)
    ensures code == 10 <==> v == LTrue
    ensures code == 20 <==> v == LFalse
    ensures code == 0 <==> v == LUndef
  {
    match v
    case LTrue => 10
    case LFalse => 20
    case LUndef => 0
  }

  /** The result file of a run that simplification already proved unsatisfiable. */
  const UnsatBySimplification: string := "UNSAT\n"

  /** The early UNSAT file is the UNSAT rendering of an empty conflict: no assumption is blamed. */
  lemma EarlyUnsatFile(model: seq<LBool>)
    ensures UnsatBySimplification == Render(LFalse, model, [])
    ensures ReadInts(UnsatBySimplification[6..]) == []
  {
    assert UnsatBySimplification[6..] == [];
  }

  /**
   * The model literals from variable i on: for each assigned variable j a space
   * (none for j = 0), a minus sign when it is false, and j + 1.
   */
  function SatLits(model: seq<LBool>, i: nat): (r: string)
    requires i <= |model|
    decreases |model| - i
  {
    if i == |model| then ""
    else if model[i] != LUndef then
      (if i == 0 then "" else " ") + (if model[i] == LTrue then "" else "-") + NatStr(i + 1)
        + SatLits(model, i + 1)
    else SatLits(model, i + 1)
  }

  /** The model literals hold only spaces, signs and digits: the whole model is one line. */
  lemma {:induction false} SatLitsChars(model: seq<LBool>, i: nat)
    requires i <= |model|
    ensures forall c :: c in SatLits(model, i) ==> c == ' ' || c == '-' || IsDigit(c)
    decreases |model| - i
  {
    if i < |model| {
      SatLitsChars(model, i + 1);
      if model[i] != LUndef {
        var ds := NatStr(i + 1);
        assert forall c :: c in ds ==> IsDigit(c);
      }
    }
  }

  /** One line of the UNSAT block: the conflict literal with its sign reversed, 1-based. */
  function ConflictLine(l: Lit): (r: string)
  {
    (if Sign(l) then "" else "-") + IntStr(VarOf(l) + 1) + "\n"
  }

  /** The UNSAT block: one line per conflict literal, in order. */
  function ConflictLines(conflict: seq<Lit>): (r: string)
  {
    if conflict == [] then "" else ConflictLine(conflict[0]) + ConflictLines(conflict[1..])
  }

  /** The result file after the scheduler: it always shows the first engine's model and conflict. */
  function Render(ret: LBool, model: seq<LBool>, conflict: seq<Lit>): (r: string)
    ensures r != [] && r[|r| - 1] == '\n'
  {
    match ret
    case LTrue => "SAT\n" + SatLits(model, 0) + " 0\n"
    case LFalse => ConflictLinesCount(conflict); "UNSAT\n" + ConflictLines(conflict)
    case LUndef => "INDET\n"
  }

  /** The DIMACS literals of the assigned variables from i on: j + 1 when true, -(j + 1) when false. */
  function ModelLits(model: seq<LBool>, i: nat): seq<int>
    requires i <= |model|
    decreases |model| - i
  {
    if i == |model| then []
    else if model[i] == LTrue then [i + 1] + ModelLits(model, i + 1)
    else if model[i] == LFalse then [-(i + 1)] + ModelLits(model, i + 1)
    else ModelLits(model, i + 1)
  }

  /** The header of the result file agrees with the exit code. */
  lemma ExitCodeMatchesHeader(v: LBool, model: seq<LBool>, conflict: seq<Lit>)
    ensures var r := Render(v, model, conflict);
      && (ExitCode(v) == 10 <==> |r| >= 4 && r[..4] == "SAT\n")
      && (ExitCode(v) == 20 <==> |r| >= 6 && r[..6] == "UNSAT\n")
      && (ExitCode(v) == 0 <==> r == "INDET\n")
  {
    var r := Render(v, model, conflict);
    match v
    case LTrue =>
      assert r[..4] == "SAT\n";
      assert r[..6] != "UNSAT\n" by { assert r[0] == 'S'; }
    case LFalse =>
      assert r[..6] == "UNSAT\n";
      assert r[..4] != "SAT\n" by { assert r[0] == 'U'; }
    case LUndef =>
      assert r[0] == 'I';
  }

  /** After variable 0, every assigned variable is written after a space. */
  lemma {:induction false} SatLitsTail(model: seq<LBool>, j: nat)
    requires 1 <= j <= |model|
    ensures SatLits(model, j) == [] || SatLits(model, j)[0] == ' '
    decreases |model| - j
  {
    if j < |model| && model[j] == LUndef {
      SatLitsTail(model, j + 1);
    }
  }

  lemma ReadZeroTerminator()
    ensures ReadInts(" 0\n") == [0]
  {
    assert NatStr(0) == "0";
    assert " 0\n" == [' '] + (SignedToken(false, 0) + "\n");
    ReadIntsSkipsOne(' ', SignedToken(false, 0) + "\n");
    ReadSignedToken(false, 0, "\n");
    assert "\n" == ['\n'] + "";
    ReadIntsSkipsOne('\n', "");
  }

  /** A literal token, then text that starts with a space: the token's value, then what the rest reads as. */
  lemma ReadTokenThenSpace(sep: string, neg: bool, m: nat, rest: string)
    requires sep == "" || sep == " "
    requires rest != [] && rest[0] == ' '
    ensures ReadInts(sep + SignedToken(neg, m) + rest) == [TokenValue(neg, m)] + ReadInts(rest)
  {
    var tok := SignedToken(neg, m);
    if sep == " " {
      calc {
        ReadInts(sep + tok + rest);
      == { assert sep + tok + rest == [' '] + (tok + rest); }
        ReadInts([' '] + (tok + rest));
      == { ReadIntsSkipsOne(' ', tok + rest); }
        ReadInts(tok + rest);
      == { ReadSignedToken(neg, m, rest); }
        [TokenValue(neg, m)] + ReadInts(rest);
      }
    } else {
      calc {
        ReadInts(sep + tok + rest);
      == { assert sep + tok + rest == tok + rest; }
        ReadInts(tok + rest);
      == { ReadSignedToken(neg, m, rest); }
        [TokenValue(neg, m)] + ReadInts(rest);
      }
    }
  }

  /** Regrouping the five parts of a written SAT literal and what follows it. */
  lemma RegroupLiteral(sep: string, sgn: string, ds: string, lits: string, tail: string)
    ensures (((sep + sgn) + ds) + lits) + tail == (sep + (sgn + ds)) + (lits + tail)
  {
  }

  lemma SatLitsSplit(model: seq<LBool>, i: nat)
    requires i < |model| && model[i] != LUndef
    ensures SatLits(model, i) + " 0\n"
         == (if i == 0 then "" else " ") + SignedToken(model[i] != LTrue, i + 1) + (SatLits(model, i + 1) + " 0\n")
  {
    var sep: string := if i == 0 then "" else " ";
    var sgn: string := if model[i] == LTrue then "" else "-";
    RegroupLiteral(sep, sgn, NatStr(i + 1), SatLits(model, i + 1), " 0\n");
  }

  /** One assigned variable of the SAT block reads back as its DIMACS literal. */
  lemma ReadSatStep(model: seq<LBool>, i: nat)
    requires i < |model| && model[i] != LUndef
    ensures ReadInts(SatLits(model, i) + " 0\n")
         == [if model[i] == LTrue then i + 1 else -(i + 1)] + ReadInts(SatLits(model, i + 1) + " 0\n")
  {
    var neg := model[i] != LTrue;
    var sep := if i == 0 then "" else " ";
    var lits := SatLits(model, i + 1);
    var rest := lits + " 0\n";
    assert rest[0] == ' ' by {
      SatLitsTail(model, i + 1);
      if lits != [] {
        assert rest[0] == lits[0];
      }
    }
    assert TokenValue(neg, i + 1) == if model[i] == LTrue then i + 1 else -(i + 1);
    calc {
      ReadInts(SatLits(model, i) + " 0\n");
    == { SatLitsSplit(model, i); }
      ReadInts(sep + SignedToken(neg, i + 1) + rest);
    == { ReadTokenThenSpace(sep, neg, i + 1, rest); }
      [TokenValue(neg, i + 1)] + ReadInts(rest);
    }
  }

  /** Read back as integers, the model part of the SAT block is the model's DIMACS literals and 0. */
  lemma {:induction false} ReadSatLits(model: seq<LBool>, i: nat)
    requires i <= |model|
    ensures ReadInts(SatLits(model, i) + " 0\n") == ModelLits(model, i) + [0]
    decreases |model| - i
  {
    if i == |model| {
      assert SatLits(model, i) + " 0\n" == " 0\n";
      ReadZeroTerminator();
    } else {
      var later := ModelLits(model, i + 1);
      ReadSatLits(model, i + 1);
      if model[i] != LUndef {
        var v := if model[i] == LTrue then i + 1 else -(i + 1);
        ReadSatStep(model, i);
        assert ModelLits(model, i) == [v] + later;
        assert ([v] + later) + [0] == [v] + (later + [0]);
      } else {
        assert SatLits(model, i) == SatLits(model, i + 1);
        assert ModelLits(model, i) == later;
      }
    }
  }

  /** The newline count of a concatenation is the sum of the parts' counts. */
  lemma NewlinesOfParts(a: string, b: string, c: string)
    ensures multiset(a + b + c)['\n'] == multiset(a)['\n'] + multiset(b)['\n'] + multiset(c)['\n']
  {
  }

  lemma SatFileLines(model: seq<LBool>)
    ensures multiset("SAT\n" + SatLits(model, 0) + " 0\n")['\n'] == 2
  {
    var lits := SatLits(model, 0);
    SatLitsChars(model, 0);
    assert '\n' !in lits;
    assert multiset("SAT\n")['\n'] == 1;
    assert multiset(" 0\n")['\n'] == 1;
    NewlinesOfParts("SAT\n", lits, " 0\n");
  }

  /** A conflict literal takes exactly one line. */
  lemma ConflictLineOneLine(l: Lit)
    ensures ConflictLine(l) != [] && ConflictLine(l)[|ConflictLine(l)| - 1] == '\n'
    ensures multiset(ConflictLine(l))['\n'] == 1
  {
    var sgn := if Sign(l) then "" else "-";
    var ds := IntStr(VarOf(l) + 1);
    assert '\n' !in sgn && '\n' !in ds;
    assert multiset("\n")['\n'] == 1;
    NewlinesOfParts(sgn, ds, "\n");
  }

  /** The conflict block is one line per literal, and ends a line when it is not empty. */
  lemma {:induction false} ConflictLinesCount(conflict: seq<Lit>)
    ensures multiset(ConflictLines(conflict))['\n'] == |conflict|
    ensures ConflictLines(conflict) == [] || ConflictLines(conflict)[|ConflictLines(conflict)| - 1] == '\n'
    decreases |conflict|
  {
    if conflict != [] {
      var head := ConflictLine(conflict[0]);
      var tail := ConflictLines(conflict[1..]);
      ConflictLineOneLine(conflict[0]);
      ConflictLinesCount(conflict[1..]);
      assert ConflictLines(conflict) == head + tail;
      assert multiset(head + tail) == multiset(head) + multiset(tail);
    }
  }

  lemma UnsatFileLines(conflict: seq<Lit>)
    ensures multiset("UNSAT\n" + ConflictLines(conflict))['\n'] == |conflict| + 1
  {
    ConflictLinesCount(conflict);
    assert multiset("UNSAT\n")['\n'] == 1;
  }

  /**
   * The line structure of the result file: the header line, then for SAT one line
   * holding the whole model, for UNSAT one line per conflict literal, for INDET nothing.
   */
  lemma RenderLines(v: LBool, model: seq<LBool>, conflict: seq<Lit>)
    ensures v == LTrue ==> multiset(Render(v, model, conflict))['\n'] == 2
    ensures v == LFalse ==> multiset(Render(v, model, conflict))['\n'] == |conflict| + 1
    ensures v == LUndef ==> multiset(Render(v, model, conflict))['\n'] == 1
  {
    match v
    case LTrue =>
      SatFileLines(model);
    case LFalse =>
      UnsatFileLines(conflict);
    case LUndef =>
      assert multiset("INDET\n")['\n'] == 1;
  }

  /** A satisfiable result file: "SAT", then exactly the model's assigned literals and the terminating 0. */
  lemma RenderSatReadsModel(model: seq<LBool>, conflict: seq<Lit>)
    ensures var r := Render(LTrue, model, conflict);
      && |r| >= 7 && r[..4] == "SAT\n" && r[|r| - 3..] == " 0\n"
      && ReadInts(r[4..]) == ModelLits(model, 0) + [0]
  {
    var r := Render(LTrue, model, conflict);
    assert r[4..] == SatLits(model, 0) + " 0\n";
    ReadSatLits(model, 0);
  }

  /**
   * The first literal gets no separating space only when it belongs to variable 0:
   * if variable 0 is unassigned the model line starts with a space.
   */
  lemma SatSeparator(model: seq<LBool>, conflict: seq<Lit>)
    ensures var r := Render(LTrue, model, conflict);
      |r| > 4 && (r[4] == ' ' <==> model == [] || model[0] == LUndef)
  {
    var r := Render(LTrue, model, conflict);
    assert r[4..] == SatLits(model, 0) + " 0\n";
    if model != [] {
      if model[0] == LUndef {
        if |model| >= 1 { SatLitsTail(model, 1); }
      } else {
        var ds := NatStr(1);
        assert SatLits(model, 0)[0] == if model[0] == LTrue then ds[0] else '-';
        assert IsDigit(ds[0]);
      }
    }
  }

  /**
   * Sign reversal: the conflict line of the negation of the literal that assumption i
   * decodes to prints i itself (for i = 0 it prints "-0").
   */
  lemma ConflictLineOfAssumption(i: int)
    ensures ConflictLine(Negate(Decode(i))) == (if i == 0 then "-0\n" else IntStr(i) + "\n")
  {
    var l := Negate(Decode(i));
    assert VarOf(l) + 1 == Abs(i) && (Sign(l) <==> i > 0);
    if i > 0 {
      assert ConflictLine(l) == "" + IntStr(i) + "\n";
    } else if i < 0 {
      assert ConflictLine(l) == "-" + NatStr(-i) + "\n";
    } else {
      assert NatStr(0) == "0";
      assert ConflictLine(l) == "-" + "0" + "\n";
    }
  }

  lemma ConflictLineSplit(x: int, more: string)
    ensures ConflictLine(Negate(Decode(x))) + more == SignedToken(x <= 0, Abs(x)) + (['\n'] + more)
  {
    assert VarOf(Negate(Decode(x))) + 1 == Abs(x);
  }

  /** One conflict line of a negated decoded assumption reads back as the assumption. */
  lemma ReadConflictStep(x: int, more: string)
    ensures ReadInts(ConflictLine(Negate(Decode(x))) + more) == [x] + ReadInts(more)
  {
    var tail := ['\n'] + more;
    assert TokenValue(x <= 0, Abs(x)) == x;
    calc {
      ReadInts(ConflictLine(Negate(Decode(x))) + more);
    == { ConflictLineSplit(x, more); }
      ReadInts(SignedToken(x <= 0, Abs(x)) + tail);
    == { ReadSignedToken(x <= 0, Abs(x), tail); }
      [TokenValue(x <= 0, Abs(x))] + ReadInts(tail);
    == { ReadIntsSkipsOne('\n', more); }
      [x] + ReadInts(more);
    }
  }

  /**
   * Read back as integers, the UNSAT block of a conflict made of negated decoded
   * assumptions is the assumptions themselves, in order.
   */
  lemma {:induction false} ReadConflictLines(xs: seq<int>)
    ensures ReadInts(ConflictLines(NegateAll(DecodeAll(xs)))) == xs
    decreases |xs|
  {
    var ls := NegateAll(DecodeAll(xs));
    if xs == [] {
      assert ConflictLines(ls) == "";
    } else {
      assert ls[0] == Negate(Decode(xs[0]));
      assert ls[1..] == NegateAll(DecodeAll(xs[1..]));
      ReadConflictStep(xs[0], ConflictLines(ls[1..]));
      ReadConflictLines(xs[1..]);
      assert xs == [xs[0]] + xs[1..];
    }
  }

  /** An unsatisfiable result file reads back as the assumptions whose negations form the conflict. */
  lemma RenderUnsatReadsAssumptions(xs: seq<int>, model: seq<LBool>)
    ensures var r := Render(LFalse, model, NegateAll(DecodeAll(xs)));
      |r| >= 6 && r[..6] == "UNSAT\n" && ReadInts(r[6..]) == xs
  {
    var r := Render(LFalse, model, NegateAll(DecodeAll(xs)));
    assert r[6..] == ConflictLines(NegateAll(DecodeAll(xs)));
    ReadConflictLines(xs);
  }
}
