/**
 * Whole programs run through the traversal: a `goto` loop that only an
 * interrupt ends, and a jump to a line that is not there.
 */
module Scenarios {
  import opened Wrappers
  import opened Bytes
  import opened Routing
  import opened Tokenize
  import opened LineStore
  import opened Engine

  /** `10 list` / `20 goto 10`. */
  function LoopProgram(): seq<Line>
  {
    [Line(10, Some(ListWord)), Line(20, Some(GotoCommand(10)))]
  }

  /** No interrupt ever arrives. */
  function NoSignal(): Signal
  {
    k => false
  }

  lemma ListStep(lines: seq<Line>, signal: Signal, g: Globals, fuel: nat)
    ensures Exec(lines, signal, g, ListWord, fuel) == (g, Done)
  {
    TokensOfToken(ListWord);
  }

  /** Line 10 runs `list` and the traversal moves on to line 20. */
  lemma LoopFirstStep(signal: Signal, g: Globals, fuel: nat)
    requires g.canRun && fuel > 0
    ensures Traverse(LoopProgram(), signal, g, Some(0), fuel)
         == Traverse(LoopProgram(), signal, Globals(10, !signal(g.dispatched), g.dispatched + 1), Some(1), fuel - 1)
  {
    var lines := LoopProgram();
    assert lines[0] == Line(10, Some(ListWord));
    ListStep(lines, signal, g.(currentLine := 10), fuel - 1);
    FallThroughStep(lines, signal, g, 0, fuel);
    assert Next(lines, 0) == Some(1);
  }

  /** Line 20 runs `goto 10` and the traversal jumps back to line 10. */
  lemma LoopSecondStep(signal: Signal, g: Globals, fuel: nat)
    requires g.canRun && fuel > 0
    ensures Traverse(LoopProgram(), signal, g, Some(1), fuel)
         == Traverse(LoopProgram(), signal, Globals(10, !signal(g.dispatched), g.dispatched + 1), Some(0), fuel - 1)
  {
    GotoStep(LoopProgram(), signal, g, 1, 10, fuel);
    assert Find(LoopProgram(), 10) == Some(0);
  }

  /** Without an interrupt the loop program never finishes: every fuel bound runs out. */
  lemma {:induction false} LoopRunsOut(g: Globals, fuel: nat)
    requires g.canRun
    ensures Traverse(LoopProgram(), NoSignal(), g, Some(0), fuel).1 == Exhausted
    decreases fuel
  {
    if fuel > 0 {
      LoopFirstStep(NoSignal(), g, fuel);
      var g1 := Globals(10, true, g.dispatched + 1);
      if fuel > 1 {
        LoopSecondStep(NoSignal(), g1, fuel - 1);
        LoopRunsOut(Globals(10, true, g1.dispatched + 1), fuel - 2);
      }
    }
  }

  /** So `run` on the loop program never returns on its own. */
  lemma RunLoopNeverEnds(g: Globals, fuel: nat)
    ensures Exec(LoopProgram(), NoSignal(), g, RunWord, fuel).1 == Exhausted
  {
    ExecRun(LoopProgram(), NoSignal(), g, fuel);
    LoopRunsOut(g.(canRun := true), fuel);
  }

  /** An interrupt while the first line runs stops the loop after that line. */
  lemma InterruptEndsLoop(signal: Signal, g: Globals, fuel: nat)
    requires g.canRun && signal(g.dispatched) && fuel > 0
    ensures Traverse(LoopProgram(), signal, g, Some(0), fuel) == (Globals(10, false, g.dispatched + 1), Done)
  {
    LoopFirstStep(signal, g, fuel);
  }

  /** `10 goto 40` alone: `run` dispatches that one line and halts instead of going on. */
  lemma MissingTargetEndsRun(signal: Signal, g: Globals, fuel: nat)
    requires fuel > 0
    ensures Exec([Line(10, Some(GotoCommand(40)))], signal, g, RunWord, fuel)
         == (Globals(40, !signal(g.dispatched), g.dispatched + 1), Done)
  {
    LoneGotoEndsRun(10, 40, signal, g, fuel);
  }

  /** A store holding only `n goto t` with `t != n`: `run` stops after that one line. */
  lemma LoneGotoEndsRun(n: nat, t: nat, signal: Signal, g: Globals, fuel: nat)
    requires n != t && fuel > 0
    ensures Exec([Line(n, Some(GotoCommand(t)))], signal, g, RunWord, fuel)
         == (Globals(t, !signal(g.dispatched), g.dispatched + 1), Done)
  {
    var lines := [Line(n, Some(GotoCommand(t)))];
    ExecRun(lines, signal, g, fuel);
    assert First(lines) == Some(0);
    assert !HasNumber(lines, t) by { assert lines[0].number == n; }
    JumpToMissingHalts(lines, signal, g.(canRun := true), 0, t, fuel);
  }

  /** `echo hello` goes to the external fallback with the argument vector `["echo", "hello"]`. */
  lemma EchoIsExternal()
    ensures var echo: CString := [101, 99, 104, 111];
            var hello: CString := [104, 101, 108, 108, 111];
            Dispatch(Tokens(echo + [Space] + hello)) == External([echo, hello])
  {
    var echo: CString := [101, 99, 104, 111];
    var hello: CString := [104, 101, 108, 108, 111];
    DispatchExternal([echo, hello]);
    assert Join([echo, hello]) == echo + [Space] + hello;
  }

  /** `5 print` stores line 5 as `print`. */
  lemma ClassifyStoreExample()
    ensures var verb: CString := [112, 114, 105, 110, 116];
            Classify([53, 32] + verb) == NumberedEdit(5, Some(verb))
  {
    var verb: CString := [112, 114, 105, 110, 116];
    assert [53, 32] + verb == [53] + [Space] + verb;
    ClassifyEdit([53], Space, verb);
  }

  /** `007 x` stores line 7 as `x`: leading zeros do not matter. */
  lemma LeadingZerosExample()
    ensures Classify([48, 48, 55, 32, 120]) == NumberedEdit(7, Some([120]))
  {
    assert [48, 48, 55, 32, 120] == [48, 48, 55] + [Space] + [120];
    ClassifyEdit([48, 48, 55], Space, [120]);
    var zeros: seq<Byte> := [48, 48];
    assert [48, 48, 55][..2] == zeros && zeros[..1] == [48];
    assert DigitsValue(zeros) == 0;
  }

  /** `5` alone deletes line 5. */
  lemma ClassifyDeleteExample()
    ensures Classify([53]) == NumberedEdit(5, None)
  {
    ClassifyDelete([53]);
  }

  /** `10abc` and `5=1` start with digits but are run as commands, not stored. */
  lemma DigitLedCommandsExample()
    ensures Classify([49, 48, 97, 98, 99]) == Immediate([49, 48, 97, 98, 99])
    ensures Classify([53, 61, 49]) == Immediate([53, 61, 49])
  {
    assert [49, 48, 97, 98, 99] == [49, 48] + [97] + [98, 99];
    ClassifyCommand([49, 48], 97, [98, 99]);
    assert [53, 61, 49] == [53] + [EqualsSign] + [49];
    ClassifyCommand([53], EqualsSign, [49]);
  }

  /** With `getForLine` as written, the jump of `10 goto 40` to the absent line 40 never returns. */
  lemma MissingTargetHangsAsWritten()
    ensures LookupAsWritten([Line(10, Some(GotoCommand(40)))], 40) == Hangs
  {
    LookupAsWrittenHangs([Line(10, Some(GotoCommand(40)))], 40);
  }
}
