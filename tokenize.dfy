/**
 * Splitting a command into its argument vector (the `strtok(cmd, " ")` loop
 * of `basc_runcommand`, sh.c:63-83) and choosing what to do with it
 * (sh.c:85-146).
 */
module Tokenize {
  import opened Bytes

  /** A token as `strtok` hands it out: non-empty and free of `' '`. */
  predicate IsToken(t: seq<Byte>)
  {
    t != [] && Space !in t
  }

  /** Length of the leading run of non-space bytes. */
  function WordLen(s: seq<Byte>): (n: nat)
    ensures n <= |s| && Space !in s[..n]
    ensures n < |s| ==> s[n] == Space
  {
    if s == [] || s[0] == Space then 0 else 1 + WordLen(s[1..])
  }

  /** What successive `strtok(…, " ")` calls return: the maximal runs of non-space bytes, in order. */
  function Tokens(s: CString): (ts: seq<CString>)
    ensures forall k | 0 <= k < |ts| :: IsToken(ts[k])
    decreases |s|
  {
    if s == [] then []
    else if s[0] == Space then Tokens(s[1..])
    else
      var n := WordLen(s);
      [s[..n]] + Tokens(s[n..])
  }

  /** Tokens written out with one space between neighbours. */
  function Join(ts: seq<CString>): (s: CString)
    ensures ts != [] ==> ts[0] <= s
    ensures (forall k | 0 <= k < |ts| :: Space !in ts[k]) ==> (Space in s <==> |ts| > 1)
  {
    if ts == [] then []
    else if |ts| == 1 then ts[0]
    else ts[0] + [Space] + Join(ts[1..])
  }

  /** A space splits the token sequence in two: nothing before it joins anything after. */
  lemma {:induction false} TokensSplit(a: CString, b: CString)
    ensures Tokens(a + [Space] + b) == Tokens(a) + Tokens(b)
    decreases |a|
  {
    var s := a + [Space] + b;
    if a == [] {
      assert s[1..] == b;
    } else if a[0] == Space {
      assert s[1..] == a[1..] + [Space] + b;
      TokensSplit(a[1..], b);
    } else if WordLen(a) == |a| {
      SingleWordThenSpace(a, b);
    } else {
      var n := WordLen(a);
      WordLenPrefix(a, [Space] + b);
      assert s == a + ([Space] + b);
      assert s[..n] == a[..n];
      assert s[n..] == a[n..] + [Space] + b;
      TokensSplit(a[n..], b);
    }
  }

  /** A space-free word followed by a space: that word is the first token, and `b` gives the rest. */
  lemma SingleWordThenSpace(a: CString, b: CString)
    requires a != [] && WordLen(a) == |a|
    ensures Tokens(a + [Space] + b) == Tokens(a) + Tokens(b)
  {
    var s := a + [Space] + b;
    var n := |a|;
    WordLenPrefix(a, [Space] + b);
    assert s == a + ([Space] + b);
    assert s[..n] == a;
    assert s[n..] == [Space] + b;
    assert s[n..][1..] == b;
    assert a[..n] == a && a[n..] == [];
  }

  /** The run of non-space bytes of `a + b` is that of `a` when `b` starts with a space. */
  lemma {:induction false} WordLenPrefix(a: seq<Byte>, b: seq<Byte>)
    requires b != [] && b[0] == Space
    ensures WordLen(a + b) == WordLen(a)
  {
    if a == [] {
      assert a + b == b;
    } else if a[0] != Space {
      assert (a + b)[1..] == a[1..] + b;
      WordLenPrefix(a[1..], b);
    }
  }

  /** Joining tokens and splitting again gives the tokens back. */
  lemma {:induction false} TokensJoin(ts: seq<CString>)
    requires forall k | 0 <= k < |ts| :: IsToken(ts[k])
    ensures Tokens(Join(ts)) == ts
  {
    if ts == [] {
    } else if |ts| == 1 {
      TokensOfToken(ts[0]);
    } else {
      TokensSplit(ts[0], Join(ts[1..]));
      TokensOfToken(ts[0]);
      TokensJoin(ts[1..]);
    }
  }

  /** A single token splits into itself. */
  lemma TokensOfToken(t: CString)
    requires IsToken(t)
    ensures Tokens(t) == [t]
  {
    WordLenAll(t);
    assert t[0] != Space;
    assert t[..|t|] == t;
    assert t[|t|..] == [];
  }

  lemma {:induction false} WordLenAll(t: seq<Byte>)
    requires Space !in t
    ensures WordLen(t) == |t|
  {
    if t != [] {
      WordLenAll(t[1..]);
    }
  }

  /**
   * The argument vector `basc_runcommand` builds: each `strtok` result is
   * stored at `args[argc]`, and whenever `argc` reaches the capacity the
   * array is grown by 80 slots, so a free slot is always left after the
   * last argument.  A command without tokens gives `argc == 0`; there the
   * source dereferences `strtok`'s NULL, which `Shell.RunCommand` reports
   * as a fault.  The slot after the last argument is never set to NULL.
   */
  method SplitArgs(cmd: CString) returns (args: array<CString>, argc: nat)
    ensures argc < args.Length && args.Length % 80 == 0 && args.Length - 80 <= argc
    ensures args[..argc] == Tokens(cmd)
  {
    var tokens := Tokens(cmd);
    args := new CString[80];
    argc := 0;
    while argc < |tokens|
      invariant argc <= |tokens|
      invariant argc < args.Length && args.Length % 80 == 0 && args.Length - 80 <= argc
      invariant fresh(args)
      invariant args[..argc] == tokens[..argc]
    {
      args[argc] := tokens[argc];
      argc := argc + 1;
      if argc >= args.Length {
        args := Grow(args, argc);
      }
    }
  }

  /** `realloc` to 80 more slots, keeping the first `keep` entries. */
  method Grow(a: array<CString>, keep: nat) returns (b: array<CString>)
    requires keep <= a.Length
    ensures b.Length == a.Length + 80
    ensures b[..keep] == a[..keep]
    ensures fresh(b)
  {
    b := new CString[a.Length + 80];
    var i := 0;
    while i < keep
      invariant i <= keep
      invariant b[..i] == a[..i]
    {
      b[i] := a[i];
      i := i + 1;
    }
  }

  const ListWord: CString := [108, 105, 115, 116]  // "list"
  const GotoWord: CString := [103, 111, 116, 111]  // "goto"
  const RunWord: CString := [114, 117, 110]        // "run"

  /** What `basc_runcommand` does with an argument vector. */
  datatype Verb =
    | List
    | Goto(target: nat)
    | Run
    | External(argv: seq<CString>)
    | Undefined  // the source reads a NULL or uninitialised argument pointer

  /** Dispatch on the exact, case-sensitive first argument (sh.c:85-146). */
  function Dispatch(args: seq<CString>): (v: Verb)
    ensures v.Undefined? <==> args == [] || (args[0] == GotoWord && |args| < 2)
    ensures v.External? ==> v.argv == args && args[0] !in {ListWord, GotoWord, RunWord}
    ensures args != [] && args[0] == ListWord ==> v.List?
    ensures args != [] && args[0] == RunWord ==> v.Run?
  {
    if args == [] then Undefined
    else if args[0] == ListWord then List
    else if args[0] == GotoWord then
      if |args| < 2 then Undefined else Goto(Atoi(args[1]))
    else if args[0] == RunWord then Run
    else External(args)
  }

  /** `goto` followed by a rendered number jumps to that number, whatever else follows. */
  lemma DispatchGoto(n: nat, rest: seq<CString>)
    ensures Dispatch([GotoWord, Decimal(n)] + rest) == Goto(n)
  {
    AtoiDecimal(n, []);
    assert Decimal(n) + [] == Decimal(n);
  }

  /** Any argument vector whose verb is no builtin is handed over whole to the external fallback. */
  lemma DispatchExternal(ts: seq<CString>)
    requires |ts| > 0 && forall k | 0 <= k < |ts| :: IsToken(ts[k])
    requires ts[0] != ListWord && ts[0] != GotoWord && ts[0] != RunWord
    ensures Dispatch(Tokens(Join(ts))) == External(ts)
  {
    TokensJoin(ts);
  }
}
