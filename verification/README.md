# A verified model of a one-tape Turing machine

The Python class `TuringMachine` (turing_machine.py) holds four things:
- an instruction table of five-field rules `[state, symbol, write, move, new_state]`;
- a tape, as a Python list;
- a cursor into that tape;
- a state.

Calling the machine repeats one step until the state is `'stop'`. A step does four things:
- it looks up the first rule for the current state and the symbol under the cursor;
- it writes the rule's symbol there;
- it moves the cursor on `'R'` or `'L'`;
- it enters the rule's new state.

The machine then returns the tape with its blanks `' '` removed. The tape stands for an infinite tape of blanks. Blanks are added lazily:
- `move_tape_right` prepends a blank when the cursor is already at index 0;
- `move_tape_left` appends one when the cursor runs off the end.

The project has three modules:

- `Turing` (turing.dfy) is the value-level semantics:
  - configurations (`Config`: tape, cursor, state) and the two moves;
  - rule lookup, a single step, and the run loop `Exec`;
  - the blank-stripping of the result, and `Compute`, which constructs a machine and calls it.

  The partner of the moves and of a step is `Around(c, d)`: the symbol `d` cells from the head on the infinite tape. The view lemmas show that a step writes one cell of the infinite tape and shifts the head by one cell for `R` or `L` and not at all for any other move, so the lazily grown window always stands for the same infinite tape.
- `Machine` (machine.dfy) is the class itself. Its tape, cursor and state are fields that its methods update in place. Each method is proved against the functions of `Turing`. `Run` is the while loop of `__call__`, with a loop invariant that ties the remaining run to `Exec`.
- `Scenarios` (scenarios.dfy) holds the two machines of test.py, followed step by step to their outputs, both as functions and through the class. It also holds a table with a missing rule and a machine that halts after one step.

Symbols are `Blank | Sym(a)` and states are `Stop | St(b)`, over any types with equality. A rule's move is `R`, `L` or `Other`. `Other` stands for every value other than `'R'` and `'L'`: the source compares the move field with those two strings only, so any other value moves nothing. test.py uses `' '` for this.

A run that never reaches `'stop'` does not return in Python. Here every run takes a `fuel` bound and reports `Unfinished` when the bound is used up. A step for which no rule exists makes Python fail with a `TypeError` (it indexes `None`), before anything is written. Here the run ends with `NoInstruction(state, symbol)`, and the machine is left in the configuration where the lookup failed.

## Model

| member | source | states |
|---|---|---|
| Turing.MoveRight | turing_machine.py:14-21 | At index 0 a blank is prepended and the old tape follows it, with the cursor staying at 0. Elsewhere the cursor goes down by one and the tape is untouched. The cursor stays on the tape. |
| Turing.MoveLeft | turing_machine.py:23-29 | The cursor goes up by one and the old tape is kept as a prefix. The tape grows by one cell, a blank, exactly when the cursor reaches its old length. Otherwise it is unchanged. |
| Turing.MoveRightShiftsView | turing_machine.py:14-21 | On the infinite tape the head sees the cell that was one place towards index 0. The tape itself does not change. |
| Turing.MoveLeftShiftsView | turing_machine.py:23-29 | On the infinite tape the head sees the cell that was one place away from index 0. The tape itself does not change. |
| Turing.MoveRoundTrip | turing_machine.py:14-29 | Moving right then left, or left then right, leaves the head's view of the infinite tape as it was. |
| Turing.FirstMatch | turing_machine.py:35-37 | Returns the index of a matching rule with no matching rule before it, or the table length when no rule matches. |
| Turing.LookupSpec | turing_machine.py:31-39 | `get_current_instruction` returns None exactly when no rule has the current state and symbol. Otherwise it returns a matching rule that no earlier matching rule precedes. |
| Turing.Lookup | turing_machine.py:31-39 | A rule it returns matches the state and the symbol. It returns None exactly when the first-match search runs off the end of the table. |
| Turing.LookupFirst | turing_machine.py:35-37 | The first matching rule of the table is the one returned. |
| Turing.Apply | turing_machine.py:46-53 | After the write, the move and the state change, the cursor is on the tape and the state is the rule's new state. |
| Turing.Step | turing_machine.py:44-53 | One loop iteration fails exactly when the lookup finds no rule. That the iteration otherwise applies the first matching rule is stated by StepEffect. |
| Turing.ApplyEffect | turing_machine.py:46-53 | After a rule is applied, the state is the rule's new state and the cursor is on the tape. The tape grows by at most one cell. A move other than R or L keeps the cursor and the tape length. |
| Turing.ApplyView | turing_machine.py:46-53 | Applying a rule writes its symbol under the head and changes no other cell of the infinite tape, then shifts the view by -1, +1 or 0 for R, L or any other move. |
| Turing.ApplyRightView | turing_machine.py:46-49 | With move R the view after the step is the written tape seen one cell towards index 0. |
| Turing.ApplyLeftView | turing_machine.py:46-51 | With move L the view after the step is the written tape seen one cell away from index 0. |
| Turing.WriteView | turing_machine.py:46 | Writing under the head changes the cell at offset 0 and no other cell of the infinite tape. |
| Turing.StepEffect | turing_machine.py:44-53 | A step fails exactly when no rule matches. Otherwise it applies the first matching rule. |
| Turing.Exec | turing_machine.py:41-53 | The run loop, bounded by fuel, ends in a configuration whose cursor is on the tape. |
| Turing.ExecInvariant | turing_machine.py:41-53 | A run takes at most fuel steps. The tape never shrinks and grows by at most one cell per step. |
| Turing.ExecHalts | turing_machine.py:42 | A run halts exactly when it ends in Stop. A machine that starts in Stop takes no step. |
| Turing.ExecFails | turing_machine.py:44-46 | A run that fails ends where no rule matches the state and the symbol under the head. |
| Turing.ExecExhausts | turing_machine.py:42-53 | A run that runs out of fuel has taken one step per unit of fuel. |
| Turing.ExecAfterStep | turing_machine.py:42-53 | A run that can step ends exactly where the run from the next configuration ends, one step later. |
| Turing.ExecMoreFuel | turing_machine.py:42-53 | A run that halts or fails within some fuel ends the same way with any larger fuel, so the bound never changes a finished result. |
| Turing.Strip | turing_machine.py:56 | The result contains no blank and is no longer than the tape. |
| Turing.StripMultiset | turing_machine.py:56 | The result holds every non-blank symbol of the tape, as many times as it occurs there, and nothing else. |
| Turing.StripAppend | turing_machine.py:56 | Stripping distributes over concatenation, so the order of the symbols is kept. |
| Turing.StripNoBlank | turing_machine.py:56 | A tape without blanks is returned unchanged, so stripping is idempotent. |
| Turing.Observe | turing_machine.py:44-56 | A run gives `Output` exactly when it halted, and the output is then exactly its final tape with the blanks removed, so it has no blank and is no longer than that tape. A failed run gives `NoInstruction` with the state and the symbol under the head. A run out of fuel gives `Unfinished`. Each outcome corresponds to exactly one way a run can end. |
| Turing.Compute | turing_machine.py:41-56 | A machine that starts in Stop returns its stripped tape at once. Any output is exactly the final tape, stripped of its blanks, of a run that ended in Stop. So it has no blanks and at most fuel more symbols than the initial tape. A failure names a non-Stop state and a symbol for which the table has no rule. |
| Machine.TuringMachine.constructor | turing_machine.py:3-12 | Stores the table, tape, state and cursor unchanged and checks nothing. The machine is Valid exactly when the cursor is inside the tape. |
| Machine.TuringMachine.MoveTapeRight | turing_machine.py:14-21 | The in-place update leaves exactly the configuration MoveRight describes. |
| Machine.TuringMachine.MoveTapeLeft | turing_machine.py:23-29 | The in-place update leaves exactly the configuration MoveLeft describes. |
| Machine.TuringMachine.GetCurrentInstruction | turing_machine.py:31-39 | Returns None exactly when no rule matches the state and the symbol under the cursor. Otherwise it returns a rule of the table that matches. |
| Machine.TuringMachine.Run | turing_machine.py:41-56 | The loop leaves the machine in the final configuration of `Exec` and returns that run's outcome: the stripped tape, the missing state and symbol, or Unfinished. |
| Scenarios.FlipTrace | test.py:4-11 | The first example machine halts after exactly four steps on `[' ', 0, 0, 1]`. The third step prepends a blank. |
| Scenarios.FlipRun | test.py:26-28 | The first example machine outputs `[0, 0, 1]`. |
| Scenarios.FlipMachine | test.py:26-28 | The same run through the class returns `[0, 0, 1]`. |
| Scenarios.TwoStateTrace | test.py:13-24 | The second example machine halts after exactly five steps on `[' ', 1, 1, 0, ' ']` with the cursor at 3. The fourth step appends a blank. |
| Scenarios.TwoStateRun | test.py:30-32 | The second example machine outputs `[1, 1, 0]`. |
| Scenarios.TwoStateMachine | test.py:30-32 | The same run through the class returns `[1, 1, 0]`. |
| Scenarios.GapRun | turing_machine.py:44-46 | With no rule for state q0 and symbol one, the run on tape `[one]` fails at once, naming that state and symbol. |
| Scenarios.GapMachine | turing_machine.py:41-46 | The same failure through the class, for state 0 and symbol 1. |
| Scenarios.OneStepTrace | turing_machine.py:41-53 | A single rule `[q0, zero, zero, 'R', 'stop']` takes exactly one step, which prepends a blank. |
| Scenarios.OneStepRun | turing_machine.py:41-56 | That machine outputs the tape it started with. |

## Left out

- Non-termination: a Python run that never reaches `'stop'` loops forever. The model bounds every run by `fuel` and reports `Unfinished` when the fuel runs out. ExecMoreFuel shows that any result reached within the bound is the final one.
- The exception of a failed lookup: Python raises a `TypeError` by indexing `None`. The model returns `NoInstruction(state, symbol)` instead, with nothing written.
- Machine.TuringMachine.Run requires a cursor inside the tape, and the model does not cover a cursor outside it. Python's behaviour there depends on more than the cursor. The symbol `tape[cursor]` is read at turing_machine.py:36 only for a rule whose state equals the current one, because the `and` short-circuits.
  - If no rule has the current state, the lookup returns None and line 46 raises a `TypeError`.
  - If some rule has that state and the cursor is in `-len(tape) <= cursor < 0`, Python reads and writes from the end of the list.
  - If some rule has that state and the cursor is outside that range, Python raises an `IndexError`.
  - If the state is already `'stop'`, no cell is read and the stripped tape is returned.
- Turing.Compute requires a cursor inside the tape, for the same reason.
- Construction checks nothing, because the source checks nothing. A cursor of 5 on a tape of length 3 is accepted. Unless the state is already `'stop'`, in which case the loop is skipped and the stripped tape is returned, the run then fails at its first step: with an `IndexError` at turing_machine.py:36 if some rule has the current state, and otherwise with a `TypeError` at line 46, after the lookup returned None. Validating at construction would be a different behaviour from the source.
- Malformed rules, such as a rule list with fewer than five fields (an `IndexError` in Python), cannot be written: a rule is a five-field datatype.
- Dynamic typing: Python compares symbols and states of any types, for example `1 == True` or `0 == 0.0`. The model compares values of one type with equality. The blank is its own constructor, so no other value can equal `' '`, and the halting state is its own constructor, so no other value can equal `'stop'`.
- Aliasing: Python keeps the caller's tape list and mutates it in place, so the caller sees the changes. The class here holds the tape as a sequence value, and the caller's copy is untouched.
- The `print` at the end of test.py is not modelled.

## Notes on the design

- The moves are named after the tape, not after the head. `move_tape_right` sends the cursor towards index 0 and `move_tape_left` sends it away from index 0, and the model keeps these names and this behaviour.
- A move field other than `'R'` or `'L'` moves nothing, since the code compares only against those two strings. The rule lists of test.py use such a value, `' '`, in the halting rule of the first machine.
- Construction validates nothing. A design that rejects a bad cursor at construction would differ from the code, and the model follows the code.
- The first machine of test.py halts after four steps: three steps over the symbols, the last of which prepends a blank, then the blank rule, which stops without moving.
