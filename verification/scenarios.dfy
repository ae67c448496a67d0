/**
 * Concrete runs: the two machines of test.py, a table with a gap and a
 * machine that halts after one step. The tables are written over any two
 * distinct symbols zero and one and any distinct states q0 and q1; test.py
 * uses the integers 0 and 1 for both.
 */
module Scenarios {
  import opened Turing
  import opened Machine

  /** test.py's first table: flips every bit from the cursor towards index 0,
      then halts on a blank without moving (its move is ' '). */
  function FlipTable<A, B>(zero: A, one: A, q0: B): seq<Rule<A, B>> {
    [ Rule(St(q0), Blank, Blank, Other, Stop),
      Rule(St(q0), Sym(zero), Sym(one), R, St(q0)),
      Rule(St(q0), Sym(one), Sym(zero), R, St(q0)) ]
  }

  /** test.py's second table: one step away from index 0 into state q1, which
      flips bits until a blank and then steps back once and halts. */
  function TwoStateTable<A, B>(zero: A, one: A, q0: B, q1: B): seq<Rule<A, B>> {
    [ Rule(St(q0), Blank, Blank, L, St(q1)),
      Rule(St(q0), Sym(zero), Sym(one), R, St(q1)),
      Rule(St(q0), Sym(one), Sym(zero), R, St(q0)),
      Rule(St(q1), Blank, Blank, R, Stop),
      Rule(St(q1), Sym(zero), Sym(one), L, St(q1)),
      Rule(St(q1), Sym(one), Sym(zero), L, St(q1)) ]
  }

  /** The first run of test.py, from tape [one, one, zero] with the cursor
      on zero: four steps, the third of which prepends a blank, then Stop.
      Its first step writes one over zero and moves towards index 0. */
  lemma FlipTrace<A, B>(zero: A, one: A, q0: B, fuel: nat)
    requires zero != one
    requires fuel >= 4
    ensures Exec(FlipTable(zero, one, q0), Config([Sym(one), Sym(one), Sym(zero)], 2, St(q0)), fuel)
            == Trace(Halted, Config([Blank, Sym(zero), Sym(zero), Sym(one)], 0, Stop), 4)
  {
    LookupFirst(FlipTable(zero, one, q0), St(q0), Sym(zero), 1);
    assert [Sym(one), Sym(one), Sym(zero)][2 := Sym(one)] == [Sym(one), Sym(one), Sym(one)];
    FlipTrace1(zero, one, q0, fuel - 1);
    ExecAfterStep(FlipTable(zero, one, q0), Config([Sym(one), Sym(one), Sym(zero)], 2, St(q0)), Config([Sym(one), Sym(one), Sym(one)], 1, St(q0)), fuel);
  }

  /** The run from its second step on: one becomes zero. */
  lemma FlipTrace1<A, B>(zero: A, one: A, q0: B, fuel: nat)
    requires zero != one
    requires fuel >= 3
    ensures Exec(FlipTable(zero, one, q0), Config([Sym(one), Sym(one), Sym(one)], 1, St(q0)), fuel)
            == Trace(Halted, Config([Blank, Sym(zero), Sym(zero), Sym(one)], 0, Stop), 3)
  {
    LookupFirst(FlipTable(zero, one, q0), St(q0), Sym(one), 2);
    assert [Sym(one), Sym(one), Sym(one)][1 := Sym(zero)] == [Sym(one), Sym(zero), Sym(one)];
    FlipTrace2(zero, one, q0, fuel - 1);
    ExecAfterStep(FlipTable(zero, one, q0), Config([Sym(one), Sym(one), Sym(one)], 1, St(q0)), Config([Sym(one), Sym(zero), Sym(one)], 0, St(q0)), fuel);
  }

  /** The run from its third step on: at index 0, one becomes zero and a
      blank is prepended. */
  lemma FlipTrace2<A, B>(zero: A, one: A, q0: B, fuel: nat)
    requires zero != one
    requires fuel >= 2
    ensures Exec(FlipTable(zero, one, q0), Config([Sym(one), Sym(zero), Sym(one)], 0, St(q0)), fuel)
            == Trace(Halted, Config([Blank, Sym(zero), Sym(zero), Sym(one)], 0, Stop), 2)
  {
    LookupFirst(FlipTable(zero, one, q0), St(q0), Sym(one), 2);
    assert [Blank] + [Sym(one), Sym(zero), Sym(one)][0 := Sym(zero)] == [Blank, Sym(zero), Sym(zero), Sym(one)];
    FlipTrace3(zero, one, q0, fuel - 1);
    ExecAfterStep(FlipTable(zero, one, q0), Config([Sym(one), Sym(zero), Sym(one)], 0, St(q0)), Config([Blank, Sym(zero), Sym(zero), Sym(one)], 0, St(q0)), fuel);
  }

  /** The last step: the blank rule writes a blank, does not move and
      stops. */
  lemma FlipTrace3<A, B>(zero: A, one: A, q0: B, fuel: nat)
    requires zero != one
    requires fuel >= 1
    ensures Exec(FlipTable(zero, one, q0), Config([Blank, Sym(zero), Sym(zero), Sym(one)], 0, St(q0)), fuel)
            == Trace(Halted, Config([Blank, Sym(zero), Sym(zero), Sym(one)], 0, Stop), 1)
  {
    LookupFirst(FlipTable(zero, one, q0), St(q0), Blank, 0);
    assert [Blank, Sym(zero), Sym(zero), Sym(one)][0 := Blank] == [Blank, Sym(zero), Sym(zero), Sym(one)];
    ExecAfterStep(FlipTable(zero, one, q0), Config([Blank, Sym(zero), Sym(zero), Sym(one)], 0, St(q0)), Config([Blank, Sym(zero), Sym(zero), Sym(one)], 0, Stop), fuel);
  }

  /** The first step of test.py's second run: on the blank, away from
      index 0 into state q1. */
  lemma TwoStateStep0<A, B>(zero: A, one: A, q0: B, q1: B)
    requires zero != one && q0 != q1
    ensures Step(TwoStateTable(zero, one, q0, q1), Config([Blank, Sym(zero), Sym(zero), Sym(one)], 0, St(q0))) == Some(Config([Blank, Sym(zero), Sym(zero), Sym(one)], 1, St(q1)))
  {
    LookupFirst(TwoStateTable(zero, one, q0, q1), St(q0), Blank, 0);
    assert [Blank, Sym(zero), Sym(zero), Sym(one)][0 := Blank] == [Blank, Sym(zero), Sym(zero), Sym(one)];
  }

  /** The second run of test.py, from tape [' ', zero, zero, one] with the
      cursor on the blank: five steps, the fourth of which appends a blank,
      then Stop. */
  lemma TwoStateTrace<A, B>(zero: A, one: A, q0: B, q1: B, fuel: nat)
    requires zero != one && q0 != q1
    requires fuel >= 5
    ensures Exec(TwoStateTable(zero, one, q0, q1), Config([Blank, Sym(zero), Sym(zero), Sym(one)], 0, St(q0)), fuel)
            == Trace(Halted, Config([Blank, Sym(one), Sym(one), Sym(zero), Blank], 3, Stop), 5)
  {
    TwoStateStep0(zero, one, q0, q1);
    TwoStateTrace1(zero, one, q0, q1, fuel - 1);
    ExecAfterStep(TwoStateTable(zero, one, q0, q1), Config([Blank, Sym(zero), Sym(zero), Sym(one)], 0, St(q0)), Config([Blank, Sym(zero), Sym(zero), Sym(one)], 1, St(q1)), fuel);
  }

  /** The second step: zero becomes one. */
  lemma TwoStateStep1<A, B>(zero: A, one: A, q0: B, q1: B)
    requires zero != one && q0 != q1
    ensures Step(TwoStateTable(zero, one, q0, q1), Config([Blank, Sym(zero), Sym(zero), Sym(one)], 1, St(q1))) == Some(Config([Blank, Sym(one), Sym(zero), Sym(one)], 2, St(q1)))
  {
    LookupFirst(TwoStateTable(zero, one, q0, q1), St(q1), Sym(zero), 4);
    assert [Blank, Sym(zero), Sym(zero), Sym(one)][1 := Sym(one)] == [Blank, Sym(one), Sym(zero), Sym(one)];
  }

  /** The run from its second step on. */
  lemma TwoStateTrace1<A, B>(zero: A, one: A, q0: B, q1: B, fuel: nat)
    requires zero != one && q0 != q1
    requires fuel >= 4
    ensures Exec(TwoStateTable(zero, one, q0, q1), Config([Blank, Sym(zero), Sym(zero), Sym(one)], 1, St(q1)), fuel)
            == Trace(Halted, Config([Blank, Sym(one), Sym(one), Sym(zero), Blank], 3, Stop), 4)
  {
    TwoStateStep1(zero, one, q0, q1);
    TwoStateTrace2(zero, one, q0, q1, fuel - 1);
    ExecAfterStep(TwoStateTable(zero, one, q0, q1), Config([Blank, Sym(zero), Sym(zero), Sym(one)], 1, St(q1)), Config([Blank, Sym(one), Sym(zero), Sym(one)], 2, St(q1)), fuel);
  }

  /** The third step: zero becomes one. */
  lemma TwoStateStep2<A, B>(zero: A, one: A, q0: B, q1: B)
    requires zero != one && q0 != q1
    ensures Step(TwoStateTable(zero, one, q0, q1), Config([Blank, Sym(one), Sym(zero), Sym(one)], 2, St(q1))) == Some(Config([Blank, Sym(one), Sym(one), Sym(one)], 3, St(q1)))
  {
    LookupFirst(TwoStateTable(zero, one, q0, q1), St(q1), Sym(zero), 4);
    assert [Blank, Sym(one), Sym(zero), Sym(one)][2 := Sym(one)] == [Blank, Sym(one), Sym(one), Sym(one)];
  }

  /** The run from its third step on. */
  lemma TwoStateTrace2<A, B>(zero: A, one: A, q0: B, q1: B, fuel: nat)
    requires zero != one && q0 != q1
    requires fuel >= 3
    ensures Exec(TwoStateTable(zero, one, q0, q1), Config([Blank, Sym(one), Sym(zero), Sym(one)], 2, St(q1)), fuel)
            == Trace(Halted, Config([Blank, Sym(one), Sym(one), Sym(zero), Blank], 3, Stop), 3)
  {
    TwoStateStep2(zero, one, q0, q1);
    TwoStateTrace3(zero, one, q0, q1, fuel - 1);
    ExecAfterStep(TwoStateTable(zero, one, q0, q1), Config([Blank, Sym(one), Sym(zero), Sym(one)], 2, St(q1)), Config([Blank, Sym(one), Sym(one), Sym(one)], 3, St(q1)), fuel);
  }

  /** The fourth step, on the last cell: one becomes zero and a blank is
      appended. */
  lemma TwoStateStep3<A, B>(zero: A, one: A, q0: B, q1: B)
    requires zero != one && q0 != q1
    ensures Step(TwoStateTable(zero, one, q0, q1), Config([Blank, Sym(one), Sym(one), Sym(one)], 3, St(q1))) == Some(Config([Blank, Sym(one), Sym(one), Sym(zero), Blank], 4, St(q1)))
  {
    LookupFirst(TwoStateTable(zero, one, q0, q1), St(q1), Sym(one), 5);
    assert [Blank, Sym(one), Sym(one), Sym(one)][3 := Sym(zero)] + [Blank] == [Blank, Sym(one), Sym(one), Sym(zero), Blank];
  }

  /** The run from its fourth step on. */
  lemma TwoStateTrace3<A, B>(zero: A, one: A, q0: B, q1: B, fuel: nat)
    requires zero != one && q0 != q1
    requires fuel >= 2
    ensures Exec(TwoStateTable(zero, one, q0, q1), Config([Blank, Sym(one), Sym(one), Sym(one)], 3, St(q1)), fuel)
            == Trace(Halted, Config([Blank, Sym(one), Sym(one), Sym(zero), Blank], 3, Stop), 2)
  {
    TwoStateStep3(zero, one, q0, q1);
    TwoStateTrace4(zero, one, q0, q1, fuel - 1);
    ExecAfterStep(TwoStateTable(zero, one, q0, q1), Config([Blank, Sym(one), Sym(one), Sym(one)], 3, St(q1)), Config([Blank, Sym(one), Sym(one), Sym(zero), Blank], 4, St(q1)), fuel);
  }

  /** The last step: on the blank, back towards index 0 and stop. */
  lemma TwoStateStep4<A, B>(zero: A, one: A, q0: B, q1: B)
    requires zero != one && q0 != q1
    ensures Step(TwoStateTable(zero, one, q0, q1), Config([Blank, Sym(one), Sym(one), Sym(zero), Blank], 4, St(q1))) == Some(Config([Blank, Sym(one), Sym(one), Sym(zero), Blank], 3, Stop))
  {
    LookupFirst(TwoStateTable(zero, one, q0, q1), St(q1), Blank, 3);
    assert [Blank, Sym(one), Sym(one), Sym(zero), Blank][4 := Blank] == [Blank, Sym(one), Sym(one), Sym(zero), Blank];
  }

  /** The run from its last step on. */
  lemma TwoStateTrace4<A, B>(zero: A, one: A, q0: B, q1: B, fuel: nat)
    requires zero != one && q0 != q1
    requires fuel >= 1
    ensures Exec(TwoStateTable(zero, one, q0, q1), Config([Blank, Sym(one), Sym(one), Sym(zero), Blank], 4, St(q1)), fuel)
            == Trace(Halted, Config([Blank, Sym(one), Sym(one), Sym(zero), Blank], 3, Stop), 1)
  {
    TwoStateStep4(zero, one, q0, q1);
    ExecAfterStep(TwoStateTable(zero, one, q0, q1), Config([Blank, Sym(one), Sym(one), Sym(zero), Blank], 4, St(q1)), Config([Blank, Sym(one), Sym(one), Sym(zero), Blank], 3, Stop), fuel);
  }

  /** test.py, line 28: the first machine outputs [0, 0, 1]. */
  lemma FlipRun(fuel: nat)
    requires fuel >= 4
    ensures Compute(FlipTable(0, 1, 0), [Sym(1), Sym(1), Sym(0)], St(0), 2, fuel) == Output([Sym(0), Sym(0), Sym(1)])
  {
    FlipTrace(0, 1, 0, fuel);
    assert Strip([Blank, Sym(0), Sym(0), Sym(1)]) == [Sym(0), Sym(0), Sym(1)];
  }

  /** test.py, line 32: the second machine outputs [1, 1, 0]. */
  lemma TwoStateRun(fuel: nat)
    requires fuel >= 5
    ensures Compute(TwoStateTable(0, 1, 0, 1), [Blank, Sym(0), Sym(0), Sym(1)], St(0), 0, fuel) == Output([Sym(1), Sym(1), Sym(0)])
  {
    TwoStateTrace(0, 1, 0, 1, fuel);
    assert Strip([Blank, Sym(1), Sym(1), Sym(0), Blank]) == [Sym(1), Sym(1), Sym(0)];
  }

  /** A table with no rule for state q0 and symbol one fails on tape [one]
      at the first step, naming that state and symbol. */
  lemma GapRun<A, B>(zero: A, one: A, q0: B, fuel: nat)
    requires zero != one
    requires fuel >= 1
    ensures Compute([Rule(St(q0), Sym(zero), Sym(zero), R, Stop)], [Sym(one)], St(q0), 0, fuel)
            == NoInstruction(St(q0), Sym(one))
  {
    StepEffect([Rule(St(q0), Sym(zero), Sym(zero), R, Stop)], Config([Sym(one)], 0, St(q0)));
  }

  /** A single rule that halts: exactly one step, which prepends a blank. */
  lemma OneStepTrace<A, B>(zero: A, q0: B, fuel: nat)
    requires fuel >= 1
    ensures Exec([Rule(St(q0), Sym(zero), Sym(zero), R, Stop)], Config([Sym(zero)], 0, St(q0)), fuel)
            == Trace(Halted, Config([Blank, Sym(zero)], 0, Stop), 1)
  {
    var t := [Rule(St(q0), Sym(zero), Sym(zero), R, Stop)];
    var c0 := Config([Sym(zero)], 0, St(q0));
    var c1 := Config([Blank, Sym(zero)], 0, Stop);
    assert Step(t, c0) == Some(c1) by {
      LookupFirst(t, St(q0), Sym(zero), 0);
      assert [Blank] + c0.tape[0 := Sym(zero)] == c1.tape;
    }
    ExecAfterStep(t, c0, c1, fuel);
  }

  /** That machine outputs the tape it started with. */
  lemma OneStepRun<A, B>(zero: A, q0: B, fuel: nat)
    requires fuel >= 1
    ensures Compute([Rule(St(q0), Sym(zero), Sym(zero), R, Stop)], [Sym(zero)], St(q0), 0, fuel) == Output([Sym(zero)])
  {
    OneStepTrace(zero, q0, fuel);
    assert Strip([Blank, Sym(zero)]) == [Sym(zero)];
  }

  /** test.py, lines 26-28, through the machine object. */
  method FlipMachine() returns (output: Outcome<int, int>)
    ensures output == Output([Sym(0), Sym(0), Sym(1)])
  {
    var m := new TuringMachine(FlipTable(0, 1, 0), [Sym(1), Sym(1), Sym(0)], St(0), 2);
    output := m.Run(5);
    FlipRun(5);
  }

  /** test.py, lines 30-32, through the machine object. */
  method TwoStateMachine() returns (output: Outcome<int, int>)
    ensures output == Output([Sym(1), Sym(1), Sym(0)])
  {
    var m := new TuringMachine(TwoStateTable(0, 1, 0, 1), [Blank, Sym(0), Sym(0), Sym(1)], St(0), 0);
    output := m.Run(5);
    TwoStateRun(5);
  }

  /** The lookup failure through the machine object: the run stops on the
      missing rule for state 0 and symbol 1. */
  method GapMachine() returns (output: Outcome<int, int>)
    ensures output == NoInstruction(St(0), Sym(1))
  {
    var m := new TuringMachine([Rule(St(0), Sym(0), Sym(0), R, Stop)], [Sym(1)], St(0), 0);
    output := m.Run(1);
    GapRun(0, 1, 0, 1);
  }
}
