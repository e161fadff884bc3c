/**
 * The command path of `basc_runcommand` (sh.c:55-154) and the routing of
 * one input line in `basc_loop` (sh.c:269-294), over the globals
 * `currentLine` and `canRun`.  The `run` traversal may loop for ever, so
 * every execution carries a fuel bound on the lines it dispatches.
 */
module Engine {
  import opened Wrappers
  import opened Bytes
  import opened Routing
  import opened Tokenize
  import opened LineStore

  /**
   * The engine's globals: `currentLine`, `canRun`, and the number of stored
   * lines whose execution has completed so far, the clock on which SIGINT
   * arrivals are placed.
   */
  datatype Globals = Globals(currentLine: nat, canRun: bool, dispatched: nat)

  /** How a command ends: normally, out of fuel, or where the source's behaviour is undefined (a NULL or uninitialised pointer is read). */
  datatype Status = Done | Exhausted | Fault

  /** SIGINT arrival: `signal(k)` holds when the interrupt arrives while the k-th completed stored line runs. */
  type Signal = nat -> bool

  /** `programStart` as a cursor. */
  function First(lines: seq<Line>): (cur: Option<nat>)
    ensures cur.Some? ==> cur.value < |lines|
  {
    if lines == [] then None else Some(0)
  }

  /** `cur->next` as a cursor. */
  function Next(lines: seq<Line>, k: nat): (cur: Option<nat>)
    ensures cur.Some? ==> cur.value < |lines|
  {
    if k + 1 < |lines| then Some(k + 1) else None
  }

  /**
   * `basc_runcommand(cmd)`: a command holding `=` does nothing; otherwise
   * the verb of its argument vector decides.  `list` and external programs
   * leave the globals alone, `goto` sets `currentLine`, `run` traverses.
   */
  function Exec(lines: seq<Line>, signal: Signal, g: Globals, cmd: CString, fuel: nat): (r: (Globals, Status))
    ensures r.0.dispatched >= g.dispatched
    decreases fuel, 2
  {
    if HasEquals(cmd) then (g, Done)
    else
      match Dispatch(Tokens(cmd))
      case Undefined => (g, Fault)
      case List => (g, Done)
      case External(_) => (g, Done)
      case Goto(target) => (g.(currentLine := target), Done)
      case Run => Traverse(lines, signal, g.(canRun := true), First(lines), fuel)
  }

  /**
   * The loop of sh.c:103-122 from cursor `cur`: stop at NULL or when
   * `canRun` is clear; otherwise run the node's line.
   */
  function Traverse(lines: seq<Line>, signal: Signal, g: Globals, cur: Option<nat>, fuel: nat): (r: (Globals, Status))
    requires cur.Some? ==> cur.value < |lines|
    ensures r.0.dispatched >= g.dispatched
    decreases fuel, 1
  {
    if cur.None? || !g.canRun then (g, Done)
    else if fuel == 0 then (g, Exhausted)
    else Step(lines, signal, g, cur.value, fuel)
  }

  /**
   * The loop body at node `k` (sh.c:104-121): set `currentLine` to the
   * line's number, execute its command, let SIGINT clear `canRun`, and
   * continue at the next node if `currentLine` is unchanged or at the node
   * `getForLine(currentLine)` finds if not.
   */
  function Step(lines: seq<Line>, signal: Signal, g: Globals, k: nat, fuel: nat): (r: (Globals, Status))
    requires k < |lines| && fuel > 0
    ensures r.0.dispatched >= g.dispatched
    decreases fuel, 0
  {
    var line := lines[k];
    var g1 := g.(currentLine := line.number);
    if line.command.None? then (g1, Fault)  // strlen(NULL)
    else
      var (g2, status) := Exec(lines, signal, g1, line.command.value, fuel - 1);
      var g3 := g2.(canRun := g2.canRun && !signal(g2.dispatched), dispatched := g2.dispatched + 1);
      if status != Done then (g3, status)
      else if g3.currentLine != line.number then Traverse(lines, signal, g3, Find(lines, g3.currentLine), fuel - 1)
      else Traverse(lines, signal, g3, Next(lines, k), fuel - 1)
  }

  /** The stored or typed command `goto <n>`. */
  function GotoCommand(n: nat): CString
  {
    GotoWord + [Space] + Decimal(n)
  }

  /** A command holding `=` is ignored: no tokenizing, no dispatch, no change. */
  lemma AssignmentIgnored(lines: seq<Line>, signal: Signal, g: Globals, cmd: CString, fuel: nat)
    requires EqualsSign in cmd
    ensures Exec(lines, signal, g, cmd, fuel) == (g, Done)
  {
  }

  /** `list` and every external program leave the globals as they were. */
  lemma ListAndExternalInert(lines: seq<Line>, signal: Signal, g: Globals, cmd: CString, fuel: nat)
    requires !HasEquals(cmd)
    requires Dispatch(Tokens(cmd)).List? || Dispatch(Tokens(cmd)).External?
    ensures Exec(lines, signal, g, cmd, fuel) == (g, Done)
  {
  }

  /** `goto <n>` changes `currentLine` to `n` and nothing else. */
  lemma ExecGoto(lines: seq<Line>, signal: Signal, g: Globals, n: nat, fuel: nat)
    ensures Exec(lines, signal, g, GotoCommand(n), fuel) == (g.(currentLine := n), Done)
  {
    var cmd := GotoCommand(n);
    assert !HasEquals(cmd) by {
      forall i | 0 <= i < |cmd| ensures cmd[i] != EqualsSign {
        if i > |GotoWord| { assert cmd[i] == Decimal(n)[i - |GotoWord| - 1]; }
      }
    }
    assert IsToken(Decimal(n)) by {
      forall i | 0 <= i < |Decimal(n)| ensures Decimal(n)[i] != Space {
        assert IsDigit(Decimal(n)[i]);
      }
    }
    TokensSplit(GotoWord, Decimal(n));
    TokensOfToken(GotoWord);
    TokensOfToken(Decimal(n));
    DispatchGoto(n, []);
    assert [GotoWord, Decimal(n)] + [] == [GotoWord] + [Decimal(n)];
  }

  /** `run` sets `canRun` and starts the traversal at `programStart`. */
  lemma ExecRun(lines: seq<Line>, signal: Signal, g: Globals, fuel: nat)
    ensures Exec(lines, signal, g, RunWord, fuel) == Traverse(lines, signal, g.(canRun := true), First(lines), fuel)
  {
    TokensOfToken(RunWord);
    assert !HasEquals(RunWord);
    assert Dispatch([RunWord]) == Run;
  }

  /** `run` on an empty store dispatches nothing and leaves `canRun` set. */
  lemma RunEmptyStore(signal: Signal, g: Globals, fuel: nat)
    ensures Exec([], signal, g, RunWord, fuel) == (g.(canRun := true), Done)
  {
    ExecRun([], signal, g, fuel);
  }

  /**
   * A typed command that is not an edit always has a verb, so it never
   * reaches the NULL-token path; the one undefined case left is a bare `goto`.
   */
  lemma ImmediateHasVerb(buf: CString)
    requires Classify(buf).Immediate?
    ensures Tokens(buf) != []
    ensures Dispatch(Tokens(buf)).Undefined? ==> Tokens(buf) == [GotoWord]
  {
    assert buf != [] && !IsBlank(buf[DigitRun(buf)]);
    assert buf[0] != Space;
  }

  /**
   * One step of the traversal on a stored `goto t`: the line runs with
   * `currentLine` set to its number, SIGINT may clear `canRun`, and the
   * traversal goes on at the next node when `t` is the line's own number,
   * and otherwise at the node `getForLine(t)` finds.
   */
  lemma GotoStep(lines: seq<Line>, signal: Signal, g: Globals, k: nat, t: nat, fuel: nat)
    requires k < |lines| && lines[k].command == Some(GotoCommand(t))
    requires g.canRun && fuel > 0
    ensures var after := Globals(t, !signal(g.dispatched), g.dispatched + 1);
            Traverse(lines, signal, g, Some(k), fuel) ==
              if t == lines[k].number then Traverse(lines, signal, after, Next(lines, k), fuel - 1)
              else Traverse(lines, signal, after, Find(lines, t), fuel - 1)
  {
    ExecGoto(lines, signal, g.(currentLine := lines[k].number), t, fuel - 1);
  }

  /** A line that leaves `currentLine` alone (`list`, an external program, `goto` to itself) hands over to the next node. */
  lemma FallThroughStep(lines: seq<Line>, signal: Signal, g: Globals, k: nat, fuel: nat)
    requires k < |lines| && lines[k].command.Some?
    requires g.canRun && fuel > 0
    requires var g1 := g.(currentLine := lines[k].number);
             Exec(lines, signal, g1, lines[k].command.value, fuel - 1) == (g1, Done)
    ensures Traverse(lines, signal, g, Some(k), fuel)
         == Traverse(lines, signal, Globals(lines[k].number, !signal(g.dispatched), g.dispatched + 1), Next(lines, k), fuel - 1)
  {
  }

  /** A `goto` to a number no line carries ends the traversal right after that line. */
  lemma JumpToMissingHalts(lines: seq<Line>, signal: Signal, g: Globals, k: nat, t: nat, fuel: nat)
    requires k < |lines| && lines[k].command == Some(GotoCommand(t))
    requires g.canRun && fuel > 0
    requires !HasNumber(lines, t)
    ensures Traverse(lines, signal, g, Some(k), fuel) == (Globals(t, !signal(g.dispatched), g.dispatched + 1), Done)
  {
    GotoStep(lines, signal, g, k, t, fuel);
  }

  /** More fuel never changes an outcome that did not run out of fuel: the bound only cuts off runs that do not end. */
  lemma {:induction false} ExecFuel(lines: seq<Line>, signal: Signal, g: Globals, cmd: CString, fuel: nat, more: nat)
    requires fuel <= more
    requires Exec(lines, signal, g, cmd, fuel).1 != Exhausted
    ensures Exec(lines, signal, g, cmd, more) == Exec(lines, signal, g, cmd, fuel)
    decreases fuel, 2
  {
    if !HasEquals(cmd) && Dispatch(Tokens(cmd)).Run? {
      TraverseFuel(lines, signal, g.(canRun := true), First(lines), fuel, more);
    }
  }

  lemma {:induction false} TraverseFuel(lines: seq<Line>, signal: Signal, g: Globals, cur: Option<nat>, fuel: nat, more: nat)
    requires cur.Some? ==> cur.value < |lines|
    requires fuel <= more
    requires Traverse(lines, signal, g, cur, fuel).1 != Exhausted
    ensures Traverse(lines, signal, g, cur, more) == Traverse(lines, signal, g, cur, fuel)
    decreases fuel, 1
  {
    if cur.Some? && g.canRun && fuel > 0 {
      StepFuel(lines, signal, g, cur.value, fuel, more);
    }
  }

  lemma {:induction false} StepFuel(lines: seq<Line>, signal: Signal, g: Globals, k: nat, fuel: nat, more: nat)
    requires k < |lines| && 0 < fuel <= more
    requires Step(lines, signal, g, k, fuel).1 != Exhausted
    ensures Step(lines, signal, g, k, more) == Step(lines, signal, g, k, fuel)
    decreases fuel, 0
  {
    var line := lines[k];
    var g1 := g.(currentLine := line.number);
    if line.command.Some? {
      ExecFuel(lines, signal, g1, line.command.value, fuel - 1, more - 1);
      var (g2, status) := Exec(lines, signal, g1, line.command.value, fuel - 1);
      var g3 := g2.(canRun := g2.canRun && !signal(g2.dispatched), dispatched := g2.dispatched + 1);
      if status == Done {
        var next := if g3.currentLine != line.number then Find(lines, g3.currentLine) else Next(lines, k);
        TraverseFuel(lines, signal, g3, next, fuel - 1, more - 1);
      }
    }
  }

  /**
   * `canRun` is cleared only by the SIGINT handler: a command or traversal
   * that starts with `canRun` set and ends with it clear saw an interrupt
   * during one of the stored lines it completed.
   */
  lemma {:induction false} ExecInterrupt(lines: seq<Line>, signal: Signal, g: Globals, cmd: CString, fuel: nat)
    ensures var r := Exec(lines, signal, g, cmd, fuel);
            g.canRun && !r.0.canRun ==> exists j :: g.dispatched <= j < r.0.dispatched && signal(j)
    decreases fuel, 2
  {
    if !HasEquals(cmd) && Dispatch(Tokens(cmd)).Run? {
      TraverseInterrupt(lines, signal, g.(canRun := true), First(lines), fuel);
    }
  }

  lemma {:induction false} TraverseInterrupt(lines: seq<Line>, signal: Signal, g: Globals, cur: Option<nat>, fuel: nat)
    requires cur.Some? ==> cur.value < |lines|
    ensures var r := Traverse(lines, signal, g, cur, fuel);
            g.canRun && !r.0.canRun ==> exists j :: g.dispatched <= j < r.0.dispatched && signal(j)
    decreases fuel, 1
  {
    if cur.Some? && g.canRun && fuel > 0 {
      StepInterrupt(lines, signal, g, cur.value, fuel);
    }
  }

  lemma {:induction false} StepInterrupt(lines: seq<Line>, signal: Signal, g: Globals, k: nat, fuel: nat)
    requires k < |lines| && fuel > 0
    ensures var r := Step(lines, signal, g, k, fuel);
            g.canRun && !r.0.canRun ==> exists j :: g.dispatched <= j < r.0.dispatched && signal(j)
    decreases fuel, 0
  {
    var line := lines[k];
    var g1 := g.(currentLine := line.number);
    if g.canRun && line.command.Some? {
      ExecInterrupt(lines, signal, g1, line.command.value, fuel - 1);
      var (g2, status) := Exec(lines, signal, g1, line.command.value, fuel - 1);
      var g3 := g2.(canRun := g2.canRun && !signal(g2.dispatched), dispatched := g2.dispatched + 1);
      var r := Step(lines, signal, g, k, fuel);
      if !g2.canRun {
        var j :| g1.dispatched <= j < g2.dispatched && signal(j);
        assert g.dispatched <= j < r.0.dispatched;
      } else if !g3.canRun {
        assert signal(g2.dispatched) && g.dispatched <= g2.dispatched < r.0.dispatched;
      } else if status == Done {
        var next := if g3.currentLine != line.number then Find(lines, g3.currentLine) else Next(lines, k);
        assert r == Traverse(lines, signal, g3, next, fuel - 1);
        TraverseInterrupt(lines, signal, g3, next, fuel - 1);
        if !r.0.canRun {
          var j :| g3.dispatched <= j < r.0.dispatched && signal(j);
          assert g.dispatched <= j;
        }
      }
    }
  }

  /** The shell's mutable state: the program store and the engine's globals. */
  class Shell {
    const store: Store
    const signal: Signal
    var currentLine: nat
    var canRun: bool
    var dispatched: nat

    function State(): Globals
      reads this
    {
      Globals(currentLine, canRun, dispatched)
    }

    /** The globals start zeroed, as C's do. */
    constructor (store: Store, signal: Signal)
      ensures this.store == store && this.signal == signal
      ensures State() == Globals(0, false, 0)
    {
      this.store := store;
      this.signal := signal;
      currentLine, canRun, dispatched := 0, false, 0;
    }

    /** `basc_runcommand`. */
    method RunCommand(cmd: CString, fuel: nat) returns (status: Status)
      modifies this
      ensures (State(), status) == Exec(store.lines, signal, old(State()), cmd, fuel)
      decreases fuel, 2
    {
      var assignment, delimiter := HasDelimiter(cmd);
      if assignment {
        // setting a variable is not implemented: nothing happens
        return Done;
      }
      var args, argc := SplitArgs(cmd);
      if argc == 0 {
        // strtok found no token and the source copies from its NULL
        return Fault;
      }
      assert args[..argc][0] == args[0];
      if args[0] == ListWord {
        // prints every line; the globals do not change
        status := Done;
      } else if args[0] == GotoWord {
        if argc < 2 {
          // args[1] was never written
          return Fault;
        }
        assert args[..argc][1] == args[1];
        currentLine := Atoi(args[1]);
        status := Done;
      } else if args[0] == RunWord {
        status := RunProgram(fuel);
      } else {
        // fork, execvp and waitpid: the child leaves the globals alone
        status := Done;
      }
    }

    /** The `run` branch of `basc_runcommand` (sh.c:95-123). */
    method RunProgram(fuel: nat) returns (status: Status)
      modifies this
      ensures (State(), status) == Traverse(store.lines, signal, old(State()).(canRun := true), First(store.lines), fuel)
      decreases fuel, 1
    {
      ghost var goal := Traverse(store.lines, signal, State().(canRun := true), First(store.lines), fuel);
      var cur: Option<nat> := First(store.lines);
      canRun := true;
      var f: nat := fuel;
      while cur.Some? && canRun
        invariant cur.Some? ==> cur.value < |store.lines|
        invariant f <= fuel
        invariant Traverse(store.lines, signal, State(), cur, f) == goal
        decreases f
      {
        if f == 0 {
          return Exhausted;
        }
        var s;
        s, cur := RunLine(cur.value, f);
        if s != Done {
          return s;
        }
        f := f - 1;
      }
      status := Done;
    }

    /**
     * One pass of the `run` loop's body (sh.c:104-121) at node `k`: set
     * `currentLine`, execute the command, note a SIGINT, and pick the node
     * to go on with.
     */
    method RunLine(k: nat, fuel: nat) returns (status: Status, next: Option<nat>)
      requires k < |store.lines| && fuel > 0
      modifies this
      ensures next.Some? ==> next.value < |store.lines|
      ensures status != Done ==> (State(), status) == Step(store.lines, signal, old(State()), k, fuel)
      ensures status == Done ==>
                Traverse(store.lines, signal, State(), next, fuel - 1) == Step(store.lines, signal, old(State()), k, fuel)
      decreases fuel, 0
    {
      var line := store.lines[k];
      currentLine := line.number;
      if line.command.None? {
        return Fault, None;
      }
      status := RunCommand(line.command.value, fuel - 1);
      // a SIGINT delivered while the line ran clears canRun
      canRun := canRun && !signal(dispatched);
      dispatched := dispatched + 1;
      if currentLine != line.number {
        next := store.Lookup(currentLine);  // we hit a goto
      } else {
        next := Next(store.lines, k);
      }
    }

    /** One input line through `basc_loop`: a program edit or an immediate command. */
    method SubmitLine(buf: CString, fuel: nat) returns (status: Status)
      modifies this, store
      ensures Classify(buf).NumberedEdit? ==>
                && store.lines == Edit(old(store.lines), Classify(buf).number, Classify(buf).command)
                && State() == old(State()) && status == Done
      ensures Classify(buf).Immediate? ==>
                && store.lines == old(store.lines)
                && (State(), status) == Exec(old(store.lines), signal, old(State()), buf, fuel)
    {
      var numbered, delimiter := IsFirstWordNumber(buf);
      ghost var input := Classify(buf);
      if numbered {
        var command: Option<CString>;
        if delimiter == |buf| {
          command := None;  // no command: delete
        } else {
          command := Some(buf[delimiter + 1..]);
        }
        var linenum := DigitsValue(buf[..delimiter]);
        assert buf[..|buf|] == buf;
        assert input == NumberedEdit(linenum, command);
        store.CreateLine(linenum, command);
        status := Done;
      } else {
        assert input == Immediate(buf);
        status := RunCommand(buf, fuel);
      }
    }
  }
}
