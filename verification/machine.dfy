/**
 * The machine object: its tape, cursor and state are fields that the step
 * loop updates in place. Every method is proved against the functions of
 * module Turing.
 */
module Machine {
  import opened Turing

  class TuringMachine<A(==), B(==)> {
    /** The instruction table, never changed after construction. */
    const instructions: seq<Rule<A, B>>
    var tape: seq<Symbol<A>>
    var cursor: int
    var state: State<B>

    /** The machine's fields as a value. */
    function Snapshot(): Config<A, B>
      reads this
    {
      Config(tape, cursor, state)
    }

    ghost predicate Valid()
      reads this
    {
      Snapshot().Valid()
    }

    /** Stores its arguments and checks nothing: a cursor outside the tape
        is accepted here, and the machine is then not Valid. */
    constructor (instructionsTable: seq<Rule<A, B>>, initialTape: seq<Symbol<A>>,
                 initialState: State<B>, initialCursor: int)
      ensures instructions == instructionsTable
      ensures tape == initialTape && cursor == initialCursor && state == initialState
      ensures Valid() <==> 0 <= initialCursor < |initialTape|
    {
      instructions := instructionsTable;
      state := initialState;
      cursor := initialCursor;
      tape := initialTape;
    }

    /** Moves the cursor one cell towards index 0, inserting a blank in
        front of the tape when the cursor is already at index 0. */
    method MoveTapeRight()
      requires Valid()
      modifies this
      ensures Valid()
      ensures Snapshot() == MoveRight(old(Snapshot()))
    {
      if cursor == 0 {
        tape := [Blank] + tape;
      } else {
        cursor := cursor - 1;
      }
    }

    /** Moves the cursor one cell away from index 0, appending a blank when
        the cursor runs off the end of the tape. */
    method MoveTapeLeft()
      requires Valid()
      modifies this
      ensures Valid()
      ensures Snapshot() == MoveLeft(old(Snapshot()))
    {
      cursor := cursor + 1;
      if cursor >= |tape| {
        tape := tape + [Blank];
      }
    }

    /** The first rule for the current state and the symbol under the cursor. */
    function GetCurrentInstruction(): (r: Option<Rule<A, B>>)
      reads this
      requires Valid()
      ensures r == Lookup(instructions, state, tape[cursor])
      ensures r.None? <==> forall i | 0 <= i < |instructions| :: !Matches(instructions[i], state, tape[cursor])
      ensures r.Some? ==> r.value in instructions && Matches(r.value, state, tape[cursor])
    {
      LookupSpec(instructions, state, tape[cursor]);
      Lookup(instructions, state, tape[cursor])
    }

    /**
     * Runs the step loop until the state is Stop and returns the tape
     * without its blanks. At most fuel steps are taken: a run that needs
     * more returns Unfinished. A step for which no rule exists ends the run
     * with NoInstruction, before that step writes anything.
     */
    method Run(fuel: nat) returns (outcome: Outcome<A, B>)
      requires Valid()
      modifies this
      ensures Valid()
      ensures Snapshot() == Exec(instructions, old(Snapshot()), fuel).last
      ensures outcome == Observe(Exec(instructions, old(Snapshot()), fuel))
    {
      ghost var run := Exec(instructions, Snapshot(), fuel);
      var steps: nat := 0;
      while state != Stop
        invariant Valid()
        invariant steps <= fuel
        invariant Exec(instructions, Snapshot(), fuel - steps).status == run.status
        invariant Exec(instructions, Snapshot(), fuel - steps).last == run.last
        decreases fuel - steps
      {
        if steps == fuel {
          outcome := Unfinished;
          return;
        }
        var instruction := GetCurrentInstruction();
        if instruction.None? {
          outcome := NoInstruction(state, tape[cursor]);
          return;
        }
        ghost var before := Snapshot();
        var rule := instruction.value;
        tape := tape[cursor := rule.write];
        if rule.move == R {
          MoveTapeRight();
        } else if rule.move == L {
          MoveTapeLeft();
        }
        state := rule.next;
        assert Snapshot() == Step(instructions, before).value;
        ExecAfterStep(instructions, before, Snapshot(), fuel - steps);
        steps := steps + 1;
      }
      outcome := Output(Strip(tape));
    }
  }
}
