/**
 * The assumptions file: integers read one fscanf("%d") at a time and decoded into
 * literals, and the console echo of the decoded literals.
 */
module Assumptions {
  import opened Wrappers
  import opened SolverTypes
  import opened Scanning

  /** One successful scan: the integer read is the next one of the whole file. */
  lemma ReadAdvance(rest: string, all: seq<int>, k: nat, i: int, n: nat)
    requires k <= |all|
    requires ReadInts(rest) == all[k..]
    requires ScanInt(rest) == Some((i, n))
    ensures n <= |rest| && k < |all| && all[k] == i
    ensures ReadInts(rest[n..]) == all[k + 1..]
  {
    assert all[k..][1..] == all[k + 1..];
  }

  /**
   * The loop `while (fscanf(file, "%d", &i) == 1) dummy.push(lit of i)`: the literals
   * are those of every integer the reader finds, in file order. `rest` is what is
   * left of the file after the conversions so far.
   */
  method ReadAssumptions(text: string) returns (dummy: seq<Lit>)
    ensures dummy == DecodeAll(ReadInts(text))
  {
    ghost var all := ReadInts(text);
    ghost var k := 0;
    dummy := [];
    var rest := text;
    var next := ScanInt(rest);
    assert all[0..] == all;
    while next.Some?
      invariant k <= |all|
      invariant next == ScanInt(rest)
      invariant ReadInts(rest) == all[k..]
      invariant |dummy| == k && forall j :: 0 <= j < k ==> dummy[j] == Decode(all[j])
      decreases |rest|
    {
      var i, n := next.value.0, next.value.1;
      ReadAdvance(rest, all, k, i, n);
      dummy := dummy + [Decode(i)];
      k := k + 1;
      rest := rest[n..];
      next := ScanInt(rest);
    }
    assert ReadInts(rest) == [];
  }

  /** printf("%s%d\n", sign ? "-" : "", var): the echo writes the 0-based variable. */
  function EchoLine(l: Lit): (r: string)
    ensures r != [] && r[|r| - 1] == '\n' && multiset(r)['\n'] == 1
  {
    (if Sign(l) then "-" else "") + IntStr(VarOf(l)) + "\n"
  }

  /** The console echo: one line per decoded assumption, in order. */
  function Echo(ls: seq<Lit>): (r: string)
    ensures multiset(r)['\n'] == |ls|
    ensures r == [] <==> ls == []
  {
    if ls == [] then "" else EchoLine(ls[0]) + Echo(ls[1..])
  }

  /** The echoed value of a nonzero assumption: one step closer to zero than the assumption. */
  function EchoedValue(i: int): int {
    if i > 0 then i - 1 else i + 1
  }

  lemma EchoLineSplit(x: int, more: string)
    requires x != 0
    ensures EchoLine(Decode(x)) + more == SignedToken(x < 0, Abs(x) - 1) + (['\n'] + more)
  {
  }

  lemma EchoedToken(x: int)
    requires x != 0
    ensures Abs(x) >= 1 && TokenValue(x < 0, Abs(x) - 1) == EchoedValue(x)
  {
  }

  lemma ReadEchoStep(x: int, more: string)
    requires x != 0
    ensures ReadInts(EchoLine(Decode(x)) + more) == [EchoedValue(x)] + ReadInts(more)
  {
    EchoedToken(x);
    var neg, m := x < 0, Abs(x) - 1;
    var tail := ['\n'] + more;
    assert tail[0] == '\n';
    calc {
      ReadInts(EchoLine(Decode(x)) + more);
    == { EchoLineSplit(x, more); }
      ReadInts(SignedToken(neg, m) + tail);
    == { ReadSignedToken(neg, m, tail); }
      [TokenValue(neg, m)] + ReadInts(tail);
    == { ReadIntsSkipsOne('\n', more); }
      [EchoedValue(x)] + ReadInts(more);
    }
  }

  /**
   * Read back as integers, the echo of nonzero assumptions gives each one moved one
   * step towards zero (1 and -1 both come back as 0), because it prints var, not var + 1.
   */
  lemma {:induction false} ReadEcho(xs: seq<int>)
    requires forall k :: 0 <= k < |xs| ==> xs[k] != 0
    ensures |ReadInts(Echo(DecodeAll(xs)))| == |xs|
    ensures forall k :: 0 <= k < |xs| ==> ReadInts(Echo(DecodeAll(xs)))[k] == EchoedValue(xs[k])
    decreases |xs|
  {
    var ls := DecodeAll(xs);
    if xs == [] {
      assert Echo(ls) == "";
    } else {
      assert ls[0] == Decode(xs[0]);
      assert ls[1..] == DecodeAll(xs[1..]);
      ReadEchoStep(xs[0], Echo(ls[1..]));
      ReadEcho(xs[1..]);
    }
  }

  /** An assumption 0 decodes to variable -1, which the echo prints as "--1". */
  lemma EchoOfZero()
    ensures EchoLine(Decode(0)) == "--1\n"
  {
    assert NatStr(1) == "1";
  }
}
