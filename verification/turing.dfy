/**
 * The value-level semantics of a one-tape Turing machine whose tape is a
 * finite window, materialised lazily, onto an infinite tape of blanks.
 * Everything here is pure; the class in module Machine runs the same steps
 * in place and is proved against these functions.
 */
module Turing {

  datatype Option<T> = None | Some(value: T)

  /** A tape symbol: the blank ' ' or any other value. */
  datatype Symbol<A> = Blank | Sym(value: A)

  /** A control state: the halting state 'stop' or any other value. */
  datatype State<B> = Stop | St(value: B)

  /**
   * A rule's move: R selects move_tape_right, L selects move_tape_left,
   * and Other stands for every other value, which moves nothing.
   */
  datatype Move = R | L | Other

  /** One entry of the instruction table: the state and symbol it matches,
      what it writes, how it moves and the state it enters. */
  datatype Rule<A, B> = Rule(state: State<B>, read: Symbol<A>, write: Symbol<A>, move: Move, next: State<B>)

  /** What the machine holds besides its table: the tape, the cursor and the state. */
  datatype Config<A, B> = Config(tape: seq<Symbol<A>>, cursor: int, state: State<B>)
  {
    /** The cursor designates a cell of the materialised tape. */
    predicate Valid() {
      0 <= cursor < |tape|
    }
  }

  // ---------------------------------------------------------------------
  // The infinite tape seen from the head

  /** The cell at index i of the window, or Blank outside it. */
  function At<A>(tape: seq<Symbol<A>>, i: int): Symbol<A> {
    if 0 <= i < |tape| then tape[i] else Blank
  }

  /** The symbol d cells away from the head (negative d: towards index 0)
      on the infinite tape that the window stands for. */
  function Around<A, B>(c: Config<A, B>, d: int): Symbol<A> {
    At(c.tape, c.cursor + d)
  }

  // ---------------------------------------------------------------------
  // Tape growth

  /** move_tape_right: step the cursor towards index 0, prepending a blank
      when it is already there. */
  function MoveRight<A, B>(c: Config<A, B>): (r: Config<A, B>)
    requires c.Valid()
    ensures r.Valid() && r.state == c.state
    ensures c.cursor == 0 ==>
              && r.cursor == 0
              && |r.tape| == |c.tape| + 1
              && r.tape[0] == Blank
              && r.tape[1..] == c.tape
    ensures c.cursor > 0 ==> r.cursor == c.cursor - 1 && r.tape == c.tape
  {
    if c.cursor == 0 then c.(tape := [Blank] + c.tape)
    else c.(cursor := c.cursor - 1)
  }

  /** move_tape_left: step the cursor away from index 0, appending a blank
      when it runs off the end. */
  function MoveLeft<A, B>(c: Config<A, B>): (r: Config<A, B>)
    requires c.Valid()
    ensures r.Valid() && r.state == c.state
    ensures r.cursor == c.cursor + 1
    ensures |c.tape| <= |r.tape| && r.tape[..|c.tape|] == c.tape
    ensures |r.tape| == |c.tape| + 1 <==> r.cursor == |c.tape|
    ensures r.cursor < |c.tape| ==> r.tape == c.tape
    ensures r.cursor == |c.tape| ==> |r.tape| == |c.tape| + 1 && r.tape[r.cursor] == Blank
  {
    var k := c.cursor + 1;
    if k >= |c.tape| then c.(tape := c.tape + [Blank], cursor := k)
    else c.(cursor := k)
  }

  /** Moving right shows the head the cell that was just left of it; the
      infinite tape itself is unchanged (the prepended cell was already blank). */
  lemma MoveRightShiftsView<A, B>(c: Config<A, B>)
    requires c.Valid()
    ensures forall d :: Around(MoveRight(c), d) == Around(c, d - 1)
  {
    var r := MoveRight(c);
    forall d ensures Around(r, d) == Around(c, d - 1) {
      if c.cursor == 0 {
        assert r.tape == [Blank] + c.tape;
        if 0 <= d < |r.tape| && d != 0 {
          assert r.tape[d] == c.tape[d - 1];
        }
      }
    }
  }

  /** Moving left shows the head the cell that was just right of it; the
      infinite tape itself is unchanged (the appended cell was already blank). */
  lemma MoveLeftShiftsView<A, B>(c: Config<A, B>)
    requires c.Valid()
    ensures forall d :: Around(MoveLeft(c), d) == Around(c, d + 1)
  {
    var r := MoveLeft(c);
    forall d ensures Around(r, d) == Around(c, d + 1) {
      var i := r.cursor + d;
      if 0 <= i < |c.tape| {
        assert r.tape[..|c.tape|][i] == c.tape[i];
      }
    }
  }

  /** The two moves undo each other on the infinite tape: a move right
      followed by a move left shows the head what it saw before, although the
      window may have grown. */
  lemma MoveRoundTrip<A, B>(c: Config<A, B>)
    requires c.Valid()
    ensures forall d :: Around(MoveLeft(MoveRight(c)), d) == Around(c, d)
    ensures forall d :: Around(MoveRight(MoveLeft(c)), d) == Around(c, d)
  {
    MoveRightShiftsView(c);
    MoveLeftShiftsView(MoveRight(c));
    MoveLeftShiftsView(c);
    MoveRightShiftsView(MoveLeft(c));
  }

  // ---------------------------------------------------------------------
  // Rule lookup

  predicate Matches<A(==), B(==)>(rule: Rule<A, B>, q: State<B>, s: Symbol<A>) {
    rule.state == q && rule.read == s
  }

  /** Index of the first rule matching (q, s), or |table| if none does. */
  function FirstMatch<A(==), B(==)>(table: seq<Rule<A, B>>, q: State<B>, s: Symbol<A>): (k: nat)
    ensures k <= |table|
    ensures k < |table| ==> Matches(table[k], q, s)
    ensures forall j | 0 <= j < k :: !Matches(table[j], q, s)
  {
    if table == [] then 0
    else if Matches(table[0], q, s) then 0
    else 1 + FirstMatch(table[1..], q, s)
  }

  /** get_current_instruction: the first rule, in table order, for state q
      and symbol s, or None when the table has no such rule. */
  function Lookup<A(==), B(==)>(table: seq<Rule<A, B>>, q: State<B>, s: Symbol<A>): (r: Option<Rule<A, B>>)
    ensures r.Some? ==> Matches(r.value, q, s)
    ensures r.None? <==> FirstMatch(table, q, s) == |table|
  {
    var k := FirstMatch(table, q, s);
    if k < |table| then Some(table[k]) else None
  }

  /** Lookup finds nothing exactly when no rule matches, and otherwise
      returns a matching rule that no earlier rule of the table precedes. */
  lemma LookupSpec<A, B>(table: seq<Rule<A, B>>, q: State<B>, s: Symbol<A>)
    ensures Lookup(table, q, s).None? <==> forall i | 0 <= i < |table| :: !Matches(table[i], q, s)
    ensures Lookup(table, q, s).Some? ==>
              exists k | 0 <= k < |table| ::
                && table[k] == Lookup(table, q, s).value
                && Matches(table[k], q, s)
                && forall j | 0 <= j < k :: !Matches(table[j], q, s)
  {
    var k := FirstMatch(table, q, s);
    if k < |table| {
      assert table[k] == Lookup(table, q, s).value;
    }
  }

  /** Conversely, the first matching rule of the table is the one Lookup returns. */
  lemma LookupFirst<A, B>(table: seq<Rule<A, B>>, q: State<B>, s: Symbol<A>, k: nat)
    requires k < |table| && Matches(table[k], q, s)
    requires forall j | 0 <= j < k :: !Matches(table[j], q, s)
    ensures Lookup(table, q, s) == Some(table[k])
  {
  }

  // ---------------------------------------------------------------------
  // One step

  /** How far a move takes the head along the infinite tape. */
  function Delta(m: Move): int {
    match m
    case R => -1
    case L => 1
    case Other => 0
  }

  /** The body of the run loop once a rule has been found: write, move, change state. */
  function Apply<A, B>(rule: Rule<A, B>, c: Config<A, B>): (r: Config<A, B>)
    requires c.Valid()
    ensures r.Valid()
    ensures r.state == rule.next
  {
    var written := c.(tape := c.tape[c.cursor := rule.write]);
    var moved :=
      if rule.move == R then MoveRight(written)
      else if rule.move == L then MoveLeft(written)
      else written;
    moved.(state := rule.next)
  }

  /** One iteration of the run loop; None when no rule applies, in which
      case nothing has been written. */
  function Step<A(==), B(==)>(table: seq<Rule<A, B>>, c: Config<A, B>): (r: Option<Config<A, B>>)
    requires c.Valid()
    ensures r.None? <==> Lookup(table, c.state, c.tape[c.cursor]).None?
  {
    match Lookup(table, c.state, c.tape[c.cursor])
    case None => None
    case Some(rule) => Some(Apply(rule, c))
  }

  /** Applying a rule enters the rule's new state and grows the window by at
      most one cell; a rule that does not move keeps cursor and window. */
  lemma ApplyEffect<A, B>(rule: Rule<A, B>, c: Config<A, B>)
    requires c.Valid()
    ensures Apply(rule, c).Valid()
    ensures Apply(rule, c).state == rule.next
    ensures |c.tape| <= |Apply(rule, c).tape| <= |c.tape| + 1
    ensures rule.move == Other ==> Apply(rule, c).cursor == c.cursor && |Apply(rule, c).tape| == |c.tape|
  {
  }

  /** Applying a rule writes its symbol under the head and nowhere else on
      the infinite tape, then shifts the view by the rule's move. */
  lemma ApplyView<A, B>(rule: Rule<A, B>, c: Config<A, B>)
    requires c.Valid()
    ensures forall d :: Around(Apply(rule, c), d) ==
                          if d + Delta(rule.move) == 0 then rule.write
                          else Around(c, d + Delta(rule.move))
  {
    var w := c.(tape := c.tape[c.cursor := rule.write]);
    WriteView(c, rule.write);
    match rule.move
    case R => ApplyRightView(rule, c);
    case L => ApplyLeftView(rule, c);
    case Other =>
      assert Apply(rule, c) == w.(state := rule.next);
  }

  /** The view after a rule that moves right: Apply's view property for R. */
  lemma ApplyRightView<A, B>(rule: Rule<A, B>, c: Config<A, B>)
    requires c.Valid() && rule.move == R
    ensures forall d :: Around(Apply(rule, c), d) == Around(c.(tape := c.tape[c.cursor := rule.write]), d - 1)
  {
    var w := c.(tape := c.tape[c.cursor := rule.write]);
    assert Apply(rule, c) == MoveRight(w).(state := rule.next);
    MoveRightShiftsView(w);
  }

  /** The view after a rule that moves left: Apply's view property for L. */
  lemma ApplyLeftView<A, B>(rule: Rule<A, B>, c: Config<A, B>)
    requires c.Valid() && rule.move == L
    ensures forall d :: Around(Apply(rule, c), d) == Around(c.(tape := c.tape[c.cursor := rule.write]), d + 1)
  {
    var w := c.(tape := c.tape[c.cursor := rule.write]);
    assert Apply(rule, c) == MoveLeft(w).(state := rule.next);
    MoveLeftShiftsView(w);
  }

  /** Writing under the head changes the cell at offset 0 and no other. */
  lemma WriteView<A, B>(c: Config<A, B>, x: Symbol<A>)
    requires c.Valid()
    ensures forall d :: Around(c.(tape := c.tape[c.cursor := x]), d) == if d == 0 then x else Around(c, d)
  {
    var w := c.(tape := c.tape[c.cursor := x]);
    forall d ensures Around(w, d) == if d == 0 then x else Around(c, d) {
      var i := c.cursor + d;
      if d != 0 && 0 <= i < |c.tape| {
        assert w.tape[i] == c.tape[i];
      }
    }
  }

  /** A step fails exactly when no rule in the table matches the state and
      the symbol under the head; otherwise it applies a matching rule of the table. */
  lemma StepEffect<A, B>(table: seq<Rule<A, B>>, c: Config<A, B>)
    requires c.Valid()
    ensures Step(table, c).None? <==>
              forall i | 0 <= i < |table| :: !Matches(table[i], c.state, c.tape[c.cursor])
    ensures Step(table, c).Some? ==>
              exists k | 0 <= k < |table| ::
                && Matches(table[k], c.state, c.tape[c.cursor])
                && (forall j | 0 <= j < k :: !Matches(table[j], c.state, c.tape[c.cursor]))
                && Step(table, c).value == Apply(table[k], c)
  {
    LookupSpec(table, c.state, c.tape[c.cursor]);
  }

  // ---------------------------------------------------------------------
  // The run loop, bounded by fuel

  datatype Status = Halted | NoRule | OutOfFuel

  /** How a run ended, the configuration it ended in and how many steps it took. */
  datatype Trace<A, B> = Trace(status: Status, last: Config<A, B>, steps: nat)

  /**
   * The loop of __call__, allowed at most fuel steps: it stops as soon as
   * the state is Stop, fails where no rule applies and otherwise steps.
   */
  function Exec<A(==), B(==)>(table: seq<Rule<A, B>>, c: Config<A, B>, fuel: nat): (t: Trace<A, B>)
    requires c.Valid()
    ensures t.last.Valid()
    decreases fuel
  {
    if c.state == Stop then Trace(Halted, c, 0)
    else if fuel == 0 then Trace(OutOfFuel, c, 0)
    else match Step(table, c)
      case None => Trace(NoRule, c, 0)
      case Some(next) =>
        var t := Exec(table, next, fuel - 1);
        t.(steps := t.steps + 1)
  }

  /**
   * What every run keeps: the window never shrinks and grows by at most one
   * cell per step taken, and no more steps are taken than there is fuel.
   */
  lemma {:induction false} ExecInvariant<A, B>(table: seq<Rule<A, B>>, c: Config<A, B>, fuel: nat)
    requires c.Valid()
    ensures var t := Exec(table, c, fuel);
            && t.steps <= fuel
            && |c.tape| <= |t.last.tape| <= |c.tape| + t.steps
    decreases fuel
  {
    if c.state != Stop && fuel > 0 {
      var s := Step(table, c);
      if s.Some? {
        ExecAfterStep(table, c, s.value, fuel);
        ApplyEffect(Lookup(table, c.state, c.tape[c.cursor]).value, c);
        ExecInvariant(table, s.value, fuel - 1);
      }
    }
  }

  /** A run halts exactly when it ends in Stop; a machine that starts in Stop
      halts at once, taking no step. */
  lemma {:induction false} ExecHalts<A, B>(table: seq<Rule<A, B>>, c: Config<A, B>, fuel: nat)
    requires c.Valid()
    ensures var t := Exec(table, c, fuel);
            && (t.status == Halted <==> t.last.state == Stop)
            && (c.state == Stop ==> t == Trace(Halted, c, 0))
    decreases fuel
  {
    if c.state != Stop && fuel > 0 {
      var s := Step(table, c);
      if s.Some? {
        ExecAfterStep(table, c, s.value, fuel);
        ExecHalts(table, s.value, fuel - 1);
      }
    }
  }

  /** A run that fails ends where no rule matches the state and the symbol
      under the head. */
  lemma {:induction false} ExecFails<A, B>(table: seq<Rule<A, B>>, c: Config<A, B>, fuel: nat)
    requires c.Valid()
    ensures var t := Exec(table, c, fuel);
            t.status == NoRule ==> Lookup(table, t.last.state, t.last.tape[t.last.cursor]).None?
    decreases fuel
  {
    if c.state != Stop && fuel > 0 {
      var s := Step(table, c);
      if s.Some? {
        ExecAfterStep(table, c, s.value, fuel);
        ExecFails(table, s.value, fuel - 1);
      }
    }
  }

  /** A run that runs out of fuel has taken a step for each unit of fuel. */
  lemma {:induction false} ExecExhausts<A, B>(table: seq<Rule<A, B>>, c: Config<A, B>, fuel: nat)
    requires c.Valid()
    ensures var t := Exec(table, c, fuel);
            t.status == OutOfFuel ==> t.steps == fuel
    decreases fuel
  {
    if c.state != Stop && fuel > 0 {
      var s := Step(table, c);
      if s.Some? {
        ExecAfterStep(table, c, s.value, fuel);
        ExecExhausts(table, s.value, fuel - 1);
      }
    }
  }

  /** Unfolds one step of a run. */
  lemma ExecAfterStep<A, B>(table: seq<Rule<A, B>>, c: Config<A, B>, next: Config<A, B>, fuel: nat)
    requires c.Valid() && c.state != Stop && fuel > 0
    requires Step(table, c) == Some(next)
    ensures next.Valid()
    ensures Exec(table, c, fuel).status == Exec(table, next, fuel - 1).status
    ensures Exec(table, c, fuel).last == Exec(table, next, fuel - 1).last
    ensures Exec(table, c, fuel).steps == Exec(table, next, fuel - 1).steps + 1
  {
  }

  /** A run that finishes within some fuel finishes the same way with any more fuel. */
  lemma {:induction false} ExecMoreFuel<A, B>(table: seq<Rule<A, B>>, c: Config<A, B>, fuel: nat, more: nat)
    requires c.Valid()
    requires fuel <= more
    requires Exec(table, c, fuel).status != OutOfFuel
    ensures Exec(table, c, more) == Exec(table, c, fuel)
    decreases fuel
  {
    if c.state != Stop && fuel > 0 {
      var s := Step(table, c);
      if s.Some? {
        ExecAfterStep(table, c, s.value, fuel);
        ExecAfterStep(table, c, s.value, more);
        ExecMoreFuel(table, s.value, fuel - 1, more - 1);
      }
    }
  }

  // ---------------------------------------------------------------------
  // The result

  /** The list comprehension of __call__: the tape without its blanks. */
  function Strip<A>(tape: seq<Symbol<A>>): (r: seq<Symbol<A>>)
    ensures Blank !in r
    ensures |r| <= |tape|
  {
    if tape == [] then []
    else if tape[0].Blank? then Strip(tape[1..])
    else [tape[0]] + Strip(tape[1..])
  }

  /** Stripping removes every blank and nothing else. */
  lemma {:induction false} StripMultiset<A>(tape: seq<Symbol<A>>)
    ensures multiset(Strip(tape)) == multiset(tape)[Blank := 0]
  {
    if tape != [] {
      assert tape == [tape[0]] + tape[1..];
      StripMultiset(tape[1..]);
    }
  }

  /** Stripping keeps order: it distributes over concatenation. */
  lemma {:induction false} StripAppend<A>(a: seq<Symbol<A>>, b: seq<Symbol<A>>)
    ensures Strip(a + b) == Strip(a) + Strip(b)
  {
    if a == [] {
      assert a + b == b;
    } else {
      assert (a + b)[0] == a[0];
      assert (a + b)[1..] == a[1..] + b;
      StripAppend(a[1..], b);
    }
  }

  /** A tape with no blanks comes back unchanged; in particular stripping twice
      is stripping once. */
  lemma {:induction false} StripNoBlank<A>(tape: seq<Symbol<A>>)
    requires Blank !in tape
    ensures Strip(tape) == tape
  {
    if tape != [] {
      assert tape == [tape[0]] + tape[1..];
      StripNoBlank(tape[1..]);
    }
  }

  /** What the caller of the machine sees. */
  datatype Outcome<A, B> =
    | Output(symbols: seq<Symbol<A>>)
    | NoInstruction(state: State<B>, symbol: Symbol<A>)
    | Unfinished

  function Observe<A, B>(t: Trace<A, B>): (o: Outcome<A, B>)
    requires t.last.Valid()
    ensures o.Output? <==> t.status == Halted
    ensures o.Output? ==> o.symbols == Strip(t.last.tape)
    ensures o.Output? ==> Blank !in o.symbols && |o.symbols| <= |t.last.tape|
    ensures o.NoInstruction? <==> t.status == NoRule
    ensures o.NoInstruction? ==> o.state == t.last.state && o.symbol == t.last.tape[t.last.cursor]
    ensures o.Unfinished? <==> t.status == OutOfFuel
  {
    match t.status
    case Halted => Output(Strip(t.last.tape))
    case NoRule => NoInstruction(t.last.state, t.last.tape[t.last.cursor])
    case OutOfFuel => Unfinished
  }

  /** Construct a machine and call it, with at most fuel steps. */
  function Compute<A(==), B(==)>(table: seq<Rule<A, B>>, tape: seq<Symbol<A>>, state: State<B>, cursor: int, fuel: nat): (o: Outcome<A, B>)
    requires 0 <= cursor < |tape|
    ensures state == Stop ==> o == Output(Strip(tape))
    ensures o.Output? ==> Blank !in o.symbols && |o.symbols| <= |tape| + fuel
    ensures o.Output? ==> var t := Exec(table, Config(tape, cursor, state), fuel);
                          t.last.state == Stop && o.symbols == Strip(t.last.tape)
    ensures o.NoInstruction? ==> o.state != Stop && Lookup(table, o.state, o.symbol).None?
  {
    ExecInvariant(table, Config(tape, cursor, state), fuel);
    ExecHalts(table, Config(tape, cursor, state), fuel);
    ExecFails(table, Config(tape, cursor, state), fuel);
    Observe(Exec(table, Config(tape, cursor, state), fuel))
  }
}
