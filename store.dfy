/**
 * The program store: the doubly linked list of numbered lines headed by
 * `programStart` (sh.c:7-15), with `getForLine`, `ll_delete`, `ll_add` and
 * `basc_createLine`.  The model keeps the list's forward order as a
 * sequence; the `prev` links are not modelled.
 */
module LineStore {
  import opened Wrappers
  import opened Bytes

  /** One node: its line number and its command, NULL for a node stored by deleting an absent line. */
  datatype Line = Line(number: nat, command: Option<CString>)

  /** Strictly ascending line numbers from the head: the order the store is meant to keep. */
  ghost predicate Ascending(lines: seq<Line>)
  {
    forall i, j | 0 <= i < j < |lines| :: lines[i].number < lines[j].number
  }

  /** Whether some node carries number `n`. */
  predicate HasNumber(lines: seq<Line>, n: nat)
  {
    exists k | 0 <= k < |lines| :: lines[k].number == n
  }

  /** The line numbers of the store. */
  function Numbers(lines: seq<Line>): set<nat>
  {
    if lines == [] then {} else {lines[0].number} + Numbers(lines[1..])
  }

  /** Line number to command, the first node of a number winning. */
  function Entries(lines: seq<Line>): (m: map<nat, Option<CString>>)
    ensures m.Keys == Numbers(lines)
    ensures lines != [] ==> m[lines[0].number] == lines[0].command
  {
    if lines == [] then map[]
    else
      Entries(lines[1..])[lines[0].number := lines[0].command]
  }

  lemma NumbersCons(x: Line, rest: seq<Line>)
    ensures Numbers([x] + rest) == {x.number} + Numbers(rest)
  {
    assert ([x] + rest)[1..] == rest;
  }

  /** A number is among the store's numbers exactly when some node carries it. */
  lemma {:induction false} NumbersHas(lines: seq<Line>, n: nat)
    ensures n in Numbers(lines) <==> HasNumber(lines, n)
  {
    if lines != [] {
      NumbersHas(lines[1..], n);
      if HasNumber(lines[1..], n) {
        var k :| 0 <= k < |lines[1..]| && lines[1..][k].number == n;
        assert lines[k + 1].number == n;
      }
      if HasNumber(lines, n) && lines[0].number != n {
        var k :| 0 <= k < |lines| && lines[k].number == n;
        assert lines[1..][k - 1].number == n;
      }
    }
  }

  /** In an ascending store the head's number is below every other number. */
  lemma HeadBelowRest(lines: seq<Line>)
    requires Ascending(lines) && lines != []
    ensures forall m | m in Numbers(lines[1..]) :: lines[0].number < m
  {
    forall m | m in Numbers(lines[1..]) ensures lines[0].number < m {
      NumbersHas(lines[1..], m);
      var k :| 0 <= k < |lines[1..]| && lines[1..][k].number == m;
      assert lines[k + 1].number == m;
    }
  }

  /** A node below every number of an ascending store can head it. */
  lemma AscendingCons(x: Line, rest: seq<Line>)
    requires Ascending(rest)
    requires forall m | m in Numbers(rest) :: x.number < m
    ensures Ascending([x] + rest)
  {
    var s := [x] + rest;
    forall i, j | 0 <= i < j < |s| ensures s[i].number < s[j].number {
      assert s[j] == rest[j - 1];
      NumbersHas(rest, rest[j - 1].number);
    }
  }

  // ---------------------------------------------------------------------
  // getForLine
  // ---------------------------------------------------------------------

  /**
   * The lookup `getForLine` is meant to do: the index of the first node
   * numbered `n`, or None (NULL).  As written (sh.c:48-51) the loop never
   * moves `search` on, so it hangs whenever the head does not match;
   * LookupAsWritten models that.  The traversal uses this intended lookup.
   */
  function Find(lines: seq<Line>, n: nat): (k: Option<nat>)
    ensures k.Some? ==> k.value < |lines| && lines[k.value].number == n
    ensures k.Some? ==> forall j | 0 <= j < k.value :: lines[j].number != n
    ensures k.None? <==> !HasNumber(lines, n)
  {
    if lines == [] then None
    else if lines[0].number == n then Some(0)
    else
      match Find(lines[1..], n)
      case None => None
      case Some(k) => Some(k + 1)
  }

  /** What `getForLine` does as written: it finds the head or nothing, and otherwise spins forever. */
  datatype Search = Found(index: nat) | NotFound | Hangs

  function LookupAsWritten(lines: seq<Line>, n: nat): (r: Search)
    ensures r.Found? ==> r.index == 0 && Find(lines, n) == Some(0)
    ensures r.Found? <==> lines != [] && lines[0].number == n
    ensures r.NotFound? <==> lines == []
  {
    if lines == [] then NotFound
    else if lines[0].number == n then Found(0)
    else Hangs
  }

  /**
   * As written, looking up any number but the head's in a non-empty store
   * hangs: a stored line further on is never reached, and an absent number
   * never yields NULL.
   */
  lemma LookupAsWrittenHangs(lines: seq<Line>, n: nat)
    requires lines != [] && lines[0].number != n
    ensures LookupAsWritten(lines, n) == Hangs
    ensures HasNumber(lines, n) ==> Find(lines, n).Some? && Find(lines, n).value > 0
    ensures !HasNumber(lines, n) ==> Find(lines, n).None?
  {
  }

  // ---------------------------------------------------------------------
  // ll_add, as written
  // ---------------------------------------------------------------------

  /** Where the scan of `ll_add` stops at node `k`: on its number, at the tail, or between two neighbours around `n`. */
  predicate Stops(lines: seq<Line>, n: nat, k: nat)
    requires k < |lines|
  {
    || lines[k].number == n
    || k == |lines| - 1
    || (lines[k].number < n && n < lines[k + 1].number)
  }

  /** The first node from `i` on where the scan stops; the tail always stops it. */
  function StopFrom(lines: seq<Line>, n: nat, i: nat): (k: nat)
    requires i < |lines|
    ensures i <= k < |lines| && Stops(lines, n, k)
    ensures forall j | i <= j < k :: !Stops(lines, n, j)
    decreases |lines| - i
  {
    if Stops(lines, n, i) then i else StopFrom(lines, n, i + 1)
  }

  /**
   * `ll_add` of a node numbered `n` with `command`, as written (sh.c:178-217):
   * the scan stops at the first node that matches `n`, is the tail, or has a
   * neighbour above `n` while it is below.  A match deletes the node (NULL
   * command) or replaces its command; otherwise the new node goes right
   * after the stop, so a number below the head ends up at the tail, and a
   * NULL command for an absent number is stored as a node.
   */
  function Edit(lines: seq<Line>, n: nat, command: Option<CString>): (r: seq<Line>)
    ensures command.Some? ==> Line(n, command) in r
  {
    if lines == [] then [Line(n, command)]
    else
      var k := StopFrom(lines, n, 0);
      if lines[k].number == n then
        if command.None? then lines[..k] + lines[k + 1..]
        else
          var r := lines[k := Line(n, command)];
          assert r[k] == Line(n, command);
          r
      else lines[..k + 1] + [Line(n, command)] + lines[k + 1..]
  }

  /** `ll_add` touches only the node of its own number: every other node survives, and nothing else appears. */
  lemma EditTouchesOnly(lines: seq<Line>, n: nat, command: Option<CString>)
    ensures forall x | x in lines && x.number != n :: x in Edit(lines, n, command)
    ensures forall x | x in Edit(lines, n, command) :: x in lines || x == Line(n, command)
  {
    if lines != [] {
      var k := StopFrom(lines, n, 0);
      if lines[k].number == n {
        assert lines == lines[..k] + [lines[k]] + lines[k + 1..];
        if command.Some? {
          assert lines[k := Line(n, command)] == lines[..k] + [Line(n, command)] + lines[k + 1..];
        }
      } else {
        assert lines == lines[..k + 1] + lines[k + 1..];
      }
    }
  }

  /** The scan stops exactly at `k` when no node before it stops it. */
  lemma StopIs(lines: seq<Line>, n: nat, k: nat)
    requires k < |lines| && Stops(lines, n, k)
    requires forall j | 0 <= j < k :: !Stops(lines, n, j)
    ensures StopFrom(lines, n, 0) == k
  {
  }

  /** In an ascending store, the node numbered `n` stops the scan. */
  lemma StopAtMatch(lines: seq<Line>, n: nat, k: nat)
    requires Ascending(lines)
    requires k < |lines| && lines[k].number == n
    ensures StopFrom(lines, n, 0) == k
  {
    forall j | 0 <= j < k ensures !Stops(lines, n, j) {
      assert lines[j + 1].number <= n;
    }
    StopIs(lines, n, k);
  }

  // ---------------------------------------------------------------------
  // The invariant ll_add keeps as written
  // ---------------------------------------------------------------------

  /**
   * The order the store keeps as written.  An edit below the head breaks
   * `Ascending`, but not this: no node stops the `ll_add` scan for the
   * number of a later node.  So the scan for a stored number reaches its
   * node, and no number is stored twice.
   */
  ghost predicate ScanFinds(lines: seq<Line>)
  {
    forall k, j | 0 <= k < j < |lines| :: !Stops(lines, lines[j].number, k)
  }

  /** Under the invariant, the scan for a stored number stops at its node. */
  lemma ScanReaches(lines: seq<Line>, j: nat)
    requires ScanFinds(lines) && j < |lines|
    ensures StopFrom(lines, lines[j].number, 0) == j
  {
    StopIs(lines, lines[j].number, j);
  }

  /** Under the invariant, no number is stored twice. */
  lemma ScanFindsDistinct(lines: seq<Line>)
    requires ScanFinds(lines)
    ensures forall i, j | 0 <= i < j < |lines| :: lines[i].number != lines[j].number
  {
    forall i, j | 0 <= i < j < |lines| ensures lines[i].number != lines[j].number {
      assert !Stops(lines, lines[j].number, i);
    }
  }

  /** An ascending store has the invariant. */
  lemma AscendingScanFinds(lines: seq<Line>)
    requires Ascending(lines)
    ensures ScanFinds(lines)
  {
    forall k, j | 0 <= k < j < |lines| ensures !Stops(lines, lines[j].number, k) {
      assert lines[k + 1].number <= lines[j].number;
    }
  }

  /** Under the invariant, a number whose scan stops on another node is not stored. */
  lemma ScanMissesAbsent(lines: seq<Line>, n: nat)
    requires ScanFinds(lines) && lines != []
    requires lines[StopFrom(lines, n, 0)].number != n
    ensures !HasNumber(lines, n)
  {
    forall j | 0 <= j < |lines| ensures lines[j].number != n {
      ScanReaches(lines, j);
    }
  }

  /** Replacing a node by one of the same number keeps the invariant. */
  lemma ReplaceKeepsScanFinds(lines: seq<Line>, k: nat, x: Line)
    requires ScanFinds(lines) && k < |lines| && x.number == lines[k].number
    ensures ScanFinds(lines[k := x])
  {
    var r := lines[k := x];
    forall a, b | 0 <= a < b < |r| ensures !Stops(r, r[b].number, a) {
      assert r[b].number == lines[b].number;
      assert r[a].number == lines[a].number && r[a + 1].number == lines[a + 1].number;
      assert !Stops(lines, lines[b].number, a);
    }
  }

  /** Unlinking a node keeps the invariant: its neighbours close up around a gap no later number falls into. */
  lemma DeleteKeepsScanFinds(lines: seq<Line>, k: nat)
    requires ScanFinds(lines) && k < |lines|
    ensures ScanFinds(lines[..k] + lines[k + 1..])
  {
    var r := lines[..k] + lines[k + 1..];
    forall a, b | 0 <= a < b < |r| ensures !Stops(r, r[b].number, a) {
      var b0 := if b < k then b else b + 1;
      assert r[b] == lines[b0];
      var m := lines[b0].number;
      if a + 1 < k {
        assert r[a] == lines[a] && r[a + 1] == lines[a + 1];
        assert !Stops(lines, m, a);
      } else if a + 1 == k {
        assert r[a] == lines[k - 1] && r[a + 1] == lines[k + 1];
        assert !Stops(lines, m, k - 1);
        assert !Stops(lines, m, k);
      } else {
        assert r[a] == lines[a + 1] && r[a + 1] == lines[a + 2];
        assert !Stops(lines, m, a + 1);
      }
    }
  }

  /** Linking a new number in after the node its scan stops at keeps the invariant. */
  lemma InsertKeepsScanFinds(lines: seq<Line>, n: nat, command: Option<CString>)
    requires ScanFinds(lines) && lines != []
    requires lines[StopFrom(lines, n, 0)].number != n
    ensures var k := StopFrom(lines, n, 0);
            ScanFinds(lines[..k + 1] + [Line(n, command)] + lines[k + 1..])
  {
    var k := StopFrom(lines, n, 0);
    ScanMissesAbsent(lines, n);
    var r := lines[..k + 1] + [Line(n, command)] + lines[k + 1..];
    forall a, b | 0 <= a < b < |r| ensures !Stops(r, r[b].number, a) {
      if b <= k {
        assert r[a] == lines[a] && r[a + 1] == lines[a + 1] && r[b] == lines[b];
        assert !Stops(lines, lines[b].number, a);
      } else if b == k + 1 {
        InsertedNotPassed(lines, n, command, k, a);
      } else {
        InsertedLater(lines, n, command, k, a, b);
      }
    }
  }

  /** No node before the new one stops the scan for its own number. */
  lemma InsertedNotPassed(lines: seq<Line>, n: nat, command: Option<CString>, k: nat, a: nat)
    requires lines != [] && k == StopFrom(lines, n, 0) && lines[k].number != n
    requires a <= k
    ensures var r := lines[..k + 1] + [Line(n, command)] + lines[k + 1..];
            !Stops(r, n, a)
  {
    var r := lines[..k + 1] + [Line(n, command)] + lines[k + 1..];
    assert r[k + 1] == Line(n, command);
    assert r[a] == lines[a];
    if a < k {
      assert r[a + 1] == lines[a + 1];
      assert !Stops(lines, n, a);
    }
  }

  /** No node before an old node `b - 1`, now at `b`, stops the scan for its number once the new node is in. */
  lemma InsertedLater(lines: seq<Line>, n: nat, command: Option<CString>, k: nat, a: nat, b: nat)
    requires ScanFinds(lines) && lines != [] && k == StopFrom(lines, n, 0) && lines[k].number != n
    requires !HasNumber(lines, n)
    requires k + 1 < b <= |lines| && a < b
    ensures var r := lines[..k + 1] + [Line(n, command)] + lines[k + 1..];
            !Stops(r, r[b].number, a)
  {
    var r := lines[..k + 1] + [Line(n, command)] + lines[k + 1..];
    assert r[b] == lines[b - 1];
    var m := lines[b - 1].number;
    assert m != n;
    assert lines[k].number < n < lines[k + 1].number;
    if a < k {
      assert r[a] == lines[a] && r[a + 1] == lines[a + 1];
      assert !Stops(lines, m, a);
    } else if a == k {
      assert r[a] == lines[k] && r[a + 1] == Line(n, command);
      assert !Stops(lines, m, k);
    } else if a == k + 1 {
      assert r[a] == Line(n, command) && r[a + 1] == lines[k + 1];
      if b - 1 > k + 1 {
        assert !Stops(lines, m, k);
      }
    } else {
      assert r[a] == lines[a - 1] && r[a + 1] == lines[a];
      assert !Stops(lines, m, a - 1);
    }
  }

  /** Every edit as written keeps the invariant. */
  lemma EditKeepsScanFinds(lines: seq<Line>, n: nat, command: Option<CString>)
    requires ScanFinds(lines)
    ensures ScanFinds(Edit(lines, n, command))
  {
    if lines != [] {
      var k := StopFrom(lines, n, 0);
      if lines[k].number == n {
        if command.None? {
          DeleteKeepsScanFinds(lines, k);
        } else {
          ReplaceKeepsScanFinds(lines, k, Line(n, command));
        }
      } else {
        InsertKeepsScanFinds(lines, n, command);
      }
    }
  }

  /** The store after `ll_add` of each node of `edits` in turn, starting from the empty program. */
  function Replay(edits: seq<Line>): seq<Line>
  {
    if edits == [] then []
    else
      var last := edits[|edits| - 1];
      Edit(Replay(edits[..|edits| - 1]), last.number, last.command)
  }

  /** Every store the shell can build has the invariant, so it never holds a number twice. */
  lemma {:induction false} ReplayScanFinds(edits: seq<Line>)
    ensures ScanFinds(Replay(edits))
    ensures forall i, j | 0 <= i < j < |Replay(edits)| :: Replay(edits)[i].number != Replay(edits)[j].number
  {
    if edits != [] {
      var last := edits[|edits| - 1];
      ReplayScanFinds(edits[..|edits| - 1]);
      EditKeepsScanFinds(Replay(edits[..|edits| - 1]), last.number, last.command);
    }
    ScanFindsDistinct(Replay(edits));
  }

  /** An existing number with a command: only that node's command changes. */
  lemma EditReplace(lines: seq<Line>, n: nat, k: nat, text: CString)
    requires ScanFinds(lines)
    requires k < |lines| && lines[k].number == n
    ensures Edit(lines, n, Some(text)) == lines[k := Line(n, Some(text))]
    ensures Ascending(lines) ==> Ascending(Edit(lines, n, Some(text)))
  {
    ScanReaches(lines, k);
  }

  /** An existing number without a command: that node goes, no node of that number is left, and the rest keeps its order. */
  lemma EditDelete(lines: seq<Line>, n: nat, k: nat)
    requires ScanFinds(lines)
    requires k < |lines| && lines[k].number == n
    ensures Edit(lines, n, None) == lines[..k] + lines[k + 1..]
    ensures !HasNumber(Edit(lines, n, None), n)
    ensures Ascending(lines) ==> Ascending(Edit(lines, n, None))
  {
    ScanReaches(lines, k);
    ScanFindsDistinct(lines);
    var r := lines[..k] + lines[k + 1..];
    forall i | 0 <= i < |r| ensures r[i] == lines[if i < k then i else i + 1] {
    }
    forall i | 0 <= i < |r| ensures r[i].number != n {
      assert r[i] == lines[if i < k then i else i + 1];
    }
  }

  /** A new number above the head is spliced in at its place `p`, keeping the order. */
  lemma EditInsert(lines: seq<Line>, n: nat, command: Option<CString>, p: nat)
    requires Ascending(lines)
    requires 0 < p <= |lines| && lines[p - 1].number < n
    requires p < |lines| ==> n < lines[p].number
    ensures Edit(lines, n, command) == lines[..p] + [Line(n, command)] + lines[p..]
    ensures Ascending(Edit(lines, n, command))
  {
    InsertStops(lines, n, p);
    assert lines[..p - 1 + 1] == lines[..p];
    SpliceAscending(lines, Line(n, command), p);
  }

  /** In an ascending store, the scan for a new number above the head stops just before its place `p`. */
  lemma InsertStops(lines: seq<Line>, n: nat, p: nat)
    requires Ascending(lines)
    requires 0 < p <= |lines| && lines[p - 1].number < n
    requires p < |lines| ==> n < lines[p].number
    ensures StopFrom(lines, n, 0) == p - 1
  {
    var k := p - 1;
    assert Stops(lines, n, k);
    forall j | 0 <= j < k ensures !Stops(lines, n, j) {
      assert lines[j + 1].number <= lines[k].number;
    }
    StopIs(lines, n, k);
  }

  /** A node whose number lies between its neighbours keeps an ascending sequence ascending. */
  lemma SpliceAscending(lines: seq<Line>, x: Line, p: nat)
    requires Ascending(lines)
    requires 0 < p <= |lines| && lines[p - 1].number < x.number
    requires p < |lines| ==> x.number < lines[p].number
    ensures Ascending(lines[..p] + [x] + lines[p..])
  {
    var r := lines[..p] + [x] + lines[p..];
    forall i | 0 <= i < |r| ensures r[i] == if i < p then lines[i] else if i == p then x else lines[i - 1] {
    }
  }

  /** A number below every stored one is appended at the tail. */
  lemma EditBelowAll(lines: seq<Line>, n: nat, command: Option<CString>)
    requires lines != []
    requires forall j | 0 <= j < |lines| :: n < lines[j].number
    ensures Edit(lines, n, command) == lines + [Line(n, command)]
  {
    StopIs(lines, n, |lines| - 1);
    assert lines[..|lines|] == lines;
  }

  /** Insertion keeps an ascending store ascending exactly when the number is not below the head. */
  lemma EditAscending(lines: seq<Line>, n: nat, command: Option<CString>)
    requires Ascending(lines)
    ensures Ascending(Edit(lines, n, command)) <==> lines == [] || lines[0].number <= n
  {
    if lines == [] {
    } else if HasNumber(lines, n) {
      var k :| 0 <= k < |lines| && lines[k].number == n;
      AscendingScanFinds(lines);
      if command.None? { EditDelete(lines, n, k); } else { EditReplace(lines, n, k, command.value); }
      assert lines[0].number <= n;
    } else if n < lines[0].number {
      EditBelowAll(lines, n, command);
      var r := Edit(lines, n, command);
      assert r[0].number > r[|r| - 1].number;
    } else {
      var p := Position(lines, n);
      EditInsert(lines, n, command, p);
    }
  }

  /** Where an absent number above the head belongs in an ascending store. */
  lemma Position(lines: seq<Line>, n: nat) returns (p: nat)
    requires Ascending(lines) && lines != [] && lines[0].number < n
    ensures 0 < p <= |lines| && lines[p - 1].number < n
    ensures p < |lines| ==> n <= lines[p].number
    ensures forall j | 0 <= j < p :: lines[j].number < n
  {
    p := 1;
    while p < |lines| && lines[p].number < n
      invariant 0 < p <= |lines|
      invariant forall j | 0 <= j < p :: lines[j].number < n
    {
      p := p + 1;
    }
  }

  /** Storing a line and then deleting it by number leaves no line of that number, wherever the first edit put it. */
  lemma StoreThenDelete(lines: seq<Line>, n: nat, text: CString)
    requires ScanFinds(lines)
    ensures !HasNumber(Edit(Edit(lines, n, Some(text)), n, None), n)
    ensures !HasNumber(lines, n) ==> Edit(Edit(lines, n, Some(text)), n, None) == lines
  {
    if HasNumber(lines, n) {
      var k :| 0 <= k < |lines| && lines[k].number == n;
      ReplacedThenDeleted(lines, n, text, k);
    } else if lines == [] {
      assert Edit(lines, n, Some(text)) == [Line(n, Some(text))];
      assert Edit([Line(n, Some(text))], n, None) == [];
    } else {
      AddedThenDeleted(lines, n, text);
    }
  }

  /** An existing number replaced and then deleted is gone. */
  lemma ReplacedThenDeleted(lines: seq<Line>, n: nat, text: CString, k: nat)
    requires ScanFinds(lines)
    requires k < |lines| && lines[k].number == n
    ensures !HasNumber(Edit(Edit(lines, n, Some(text)), n, None), n)
  {
    EditReplace(lines, n, k, text);
    ReplaceKeepsScanFinds(lines, k, Line(n, Some(text)));
    EditDelete(Edit(lines, n, Some(text)), n, k);
  }

  /** A new number, linked in wherever the scan puts it (at the tail when below the head), is found there again and deleted. */
  lemma AddedThenDeleted(lines: seq<Line>, n: nat, text: CString)
    requires ScanFinds(lines) && lines != [] && !HasNumber(lines, n)
    ensures Edit(Edit(lines, n, Some(text)), n, None) == lines
  {
    var k := StopFrom(lines, n, 0);
    assert lines[k].number != n;
    var once := lines[..k + 1] + [Line(n, Some(text))] + lines[k + 1..];
    assert Edit(lines, n, Some(text)) == once;
    InsertKeepsScanFinds(lines, n, Some(text));
    SpliceOut(lines, k, Line(n, Some(text)));
    EditDelete(once, n, k + 1);
  }

  /** A node linked in after position `k` and then cut out again leaves the sequence as it was. */
  lemma SpliceOut(lines: seq<Line>, k: nat, x: Line)
    requires k < |lines|
    ensures (lines[..k + 1] + [x] + lines[k + 1..])[k + 1] == x
    ensures (lines[..k + 1] + [x] + lines[k + 1..])[..k + 1] + (lines[..k + 1] + [x] + lines[k + 1..])[k + 2..] == lines
  {
    var once := lines[..k + 1] + [x] + lines[k + 1..];
    assert once[..k + 1] == lines[..k + 1];
    assert once[k + 2..] == lines[k + 1..];
    assert lines[..k + 1] + lines[k + 1..] == lines;
  }

  // ---------------------------------------------------------------------
  // The intended edit, beside the one as written
  // ---------------------------------------------------------------------

  /**
   * The edit the store is meant to perform: insert a new number at its
   * place in ascending order, replace or delete an existing one, and do
   * nothing when asked to delete a number that is not there.
   */
  function EditIntended(lines: seq<Line>, n: nat, command: Option<CString>): (r: seq<Line>)
    ensures command.Some? ==> Line(n, command) in r
  {
    if lines == [] then
      if command.None? then [] else [Line(n, command)]
    else if lines[0].number == n then
      if command.None? then lines[1..] else [Line(n, command)] + lines[1..]
    else if n < lines[0].number then
      if command.None? then lines else [Line(n, command)] + lines
    else
      [lines[0]] + EditIntended(lines[1..], n, command)
  }

  /** The intended edit, too, touches only the node of its own number. */
  lemma {:induction false} IntendedTouchesOnly(lines: seq<Line>, n: nat, command: Option<CString>)
    ensures forall x | x in lines && x.number != n :: x in EditIntended(lines, n, command)
    ensures forall x | x in EditIntended(lines, n, command) :: x in lines || x == Line(n, command)
  {
    if lines != [] {
      assert lines == [lines[0]] + lines[1..];
      if lines[0].number != n && n > lines[0].number {
        IntendedTouchesOnly(lines[1..], n, command);
      }
    }
  }

  /** The intended edit keeps the store ascending and acts on it as a map from line number to command. */
  lemma {:induction false} EditIntendedCorrect(lines: seq<Line>, n: nat, command: Option<CString>)
    requires Ascending(lines)
    ensures Ascending(EditIntended(lines, n, command))
    ensures Entries(EditIntended(lines, n, command)) ==
              if command.None? then Entries(lines) - {n} else Entries(lines)[n := command]
  {
    if lines == [] {
      if command.Some? {
        assert Entries([Line(n, command)]) == Entries([])[n := command];
      }
    } else if lines[0].number == n {
      IntendedAtHead(lines, n, command);
    } else if n < lines[0].number {
      IntendedBelowHead(lines, n, command);
    } else {
      EditIntendedCorrect(lines[1..], n, command);
      IntendedPastHead(lines, n, command);
    }
  }

  lemma IntendedAtHead(lines: seq<Line>, n: nat, command: Option<CString>)
    requires Ascending(lines) && lines != [] && lines[0].number == n
    ensures Ascending(EditIntended(lines, n, command))
    ensures Entries(EditIntended(lines, n, command)) ==
              if command.None? then Entries(lines) - {n} else Entries(lines)[n := command]
  {
    HeadBelowRest(lines);
    assert lines == [lines[0]] + lines[1..];
    var r := EditIntended(lines, n, command);
    if command.Some? {
      AscendingCons(Line(n, command), lines[1..]);
      assert r == [Line(n, command)] + lines[1..];
    } else {
      assert n !in Numbers(lines[1..]);
    }
  }

  lemma IntendedBelowHead(lines: seq<Line>, n: nat, command: Option<CString>)
    requires Ascending(lines) && lines != [] && n < lines[0].number
    ensures Ascending(EditIntended(lines, n, command))
    ensures Entries(EditIntended(lines, n, command)) ==
              if command.None? then Entries(lines) - {n} else Entries(lines)[n := command]
  {
    HeadBelowRest(lines);
    NumbersCons(lines[0], lines[1..]);
    assert lines == [lines[0]] + lines[1..];
    assert n !in Numbers(lines);
    if command.Some? {
      AscendingCons(Line(n, command), lines);
      assert EditIntended(lines, n, command) == [Line(n, command)] + lines;
    }
  }

  lemma IntendedPastHead(lines: seq<Line>, n: nat, command: Option<CString>)
    requires Ascending(lines) && lines != [] && lines[0].number < n
    requires Ascending(EditIntended(lines[1..], n, command))
    requires Entries(EditIntended(lines[1..], n, command)) ==
               if command.None? then Entries(lines[1..]) - {n} else Entries(lines[1..])[n := command]
    ensures Ascending(EditIntended(lines, n, command))
    ensures Entries(EditIntended(lines, n, command)) ==
              if command.None? then Entries(lines) - {n} else Entries(lines)[n := command]
  {
    var head := lines[0];
    var rest := EditIntended(lines[1..], n, command);
    var r := EditIntended(lines, n, command);
    assert r == [head] + rest;
    assert r[1..] == rest;
    assert lines == [head] + lines[1..];
    PastHeadOrder(lines, n, rest);
    var before := Entries(lines[1..]);
    assert Entries(lines) == before[head.number := head.command];
    assert Entries(r) == Entries(rest)[head.number := head.command];
    UpdateCommutes(before, Entries(rest), head.number, head.command, n, command);
  }

  lemma PastHeadOrder(lines: seq<Line>, n: nat, rest: seq<Line>)
    requires Ascending(lines) && lines != [] && lines[0].number < n
    requires Ascending(rest) && Numbers(rest) <= Numbers(lines[1..]) + {n}
    ensures Ascending([lines[0]] + rest)
  {
    HeadBelowRest(lines);
    AscendingCons(lines[0], rest);
  }

  /** Editing `n` and then setting another key `h` is setting `h` and then editing `n`. */
  lemma UpdateCommutes(before: map<nat, Option<CString>>, edited: map<nat, Option<CString>>,
                       h: nat, c: Option<CString>, n: nat, command: Option<CString>)
    requires h != n
    requires edited == if command.None? then before - {n} else before[n := command]
    ensures edited[h := c] == if command.None? then before[h := c] - {n} else before[h := c][n := command]
  {
  }

  /** What the intended edit stores for `n`: a node, or nothing for a delete. */
  function Stored(n: nat, command: Option<CString>): seq<Line>
  {
    if command.None? then [] else [Line(n, command)]
  }

  /** The intended edit of a number that is there, at its index `p`. */
  lemma {:induction false} IntendedAtMatch(lines: seq<Line>, n: nat, command: Option<CString>, p: nat)
    requires Ascending(lines)
    requires p < |lines| && lines[p].number == n
    ensures EditIntended(lines, n, command) == lines[..p] + Stored(n, command) + lines[p + 1..]
  {
    if p > 0 {
      IntendedAtMatch(lines[1..], n, command, p - 1);
      ConsSplice(lines, p, Stored(n, command), 1);
    }
  }

  /** The intended edit of a number that is not there, at the place `p` where it belongs. */
  lemma {:induction false} IntendedAtGap(lines: seq<Line>, n: nat, command: Option<CString>, p: nat)
    requires p <= |lines| && forall j | 0 <= j < p :: lines[j].number < n
    requires p < |lines| ==> n < lines[p].number
    ensures EditIntended(lines, n, command) == lines[..p] + Stored(n, command) + lines[p..]
  {
    if p > 0 {
      var tail := lines[1..];
      assert lines[0].number < n;
      assert EditIntended(lines, n, command) == [lines[0]] + EditIntended(tail, n, command);
      forall j | 0 <= j < p - 1 ensures tail[j].number < n {
        assert tail[j] == lines[j + 1];
      }
      assert p - 1 < |tail| ==> tail[p - 1] == lines[p];
      IntendedAtGap(tail, n, command, p - 1);
      ConsSplice(lines, p, Stored(n, command), 0);
    }
  }

  /** Splicing `mid` into the tail at `p - 1` is splicing it into the whole at `p`, dropping `d` nodes either way. */
  lemma ConsSplice(lines: seq<Line>, p: nat, mid: seq<Line>, d: nat)
    requires 0 < p && p + d <= |lines|
    ensures [lines[0]] + (lines[1..][..p - 1] + mid + lines[1..][p - 1 + d..]) == lines[..p] + mid + lines[p + d..]
  {
    assert lines[1..][..p - 1] == lines[1..p];
    assert lines[1..][p - 1 + d..] == lines[p + d..];
    assert [lines[0]] + lines[1..p] == lines[..p];
  }

  /** Wherever the store is ascending and the edit is not below the head or a delete of an absent line, the edit as written is the intended one. */
  lemma EditMatchesIntended(lines: seq<Line>, n: nat, command: Option<CString>)
    requires Ascending(lines)
    requires lines == [] || lines[0].number <= n
    requires command.Some? || HasNumber(lines, n)
    ensures Edit(lines, n, command) == EditIntended(lines, n, command)
  {
    if HasNumber(lines, n) {
      var k :| 0 <= k < |lines| && lines[k].number == n;
      MatchesAtNumber(lines, n, command, k);
    } else if lines == [] {
      IntendedAtGap(lines, n, command, 0);
    } else {
      var p := Position(lines, n);
      MatchesAtGap(lines, n, command, p);
    }
  }

  lemma MatchesAtNumber(lines: seq<Line>, n: nat, command: Option<CString>, k: nat)
    requires Ascending(lines)
    requires k < |lines| && lines[k].number == n
    ensures Edit(lines, n, command) == EditIntended(lines, n, command)
  {
    IntendedAtMatch(lines, n, command, k);
    AscendingScanFinds(lines);
    if command.None? {
      EditDelete(lines, n, k);
      assert lines[..k] + [] == lines[..k];
    } else {
      EditReplace(lines, n, k, command.value);
      assert lines[k := Line(n, command)] == lines[..k] + [Line(n, command)] + lines[k + 1..];
    }
  }

  lemma MatchesAtGap(lines: seq<Line>, n: nat, command: Option<CString>, p: nat)
    requires Ascending(lines) && command.Some?
    requires 0 < p <= |lines| && forall j | 0 <= j < p :: lines[j].number < n
    requires p < |lines| ==> n < lines[p].number
    ensures Edit(lines, n, command) == EditIntended(lines, n, command)
  {
    EditInsert(lines, n, command, p);
    IntendedAtGap(lines, n, command, p);
  }

  /** Deleting an absent number, on any store: meant to change nothing, but as written it stores a node without a command. */
  lemma DeleteAbsentInserts(lines: seq<Line>, n: nat)
    requires !HasNumber(lines, n)
    ensures EditIntended(lines, n, None) == lines
    ensures |Edit(lines, n, None)| == |lines| + 1
    ensures Line(n, None) in Edit(lines, n, None)
  {
    IntendedDeleteAbsent(lines, n);
    if lines == [] {
      assert Edit(lines, n, None) == [Line(n, None)];
    } else {
      var k := StopFrom(lines, n, 0);
      assert lines[k].number != n;
      assert Edit(lines, n, None) == lines[..k + 1] + [Line(n, None)] + lines[k + 1..];
      SpliceOut(lines, k, Line(n, None));
    }
  }

  /** The intended edit leaves any store alone when asked to delete a number it does not hold. */
  lemma {:induction false} IntendedDeleteAbsent(lines: seq<Line>, n: nat)
    requires !HasNumber(lines, n)
    ensures EditIntended(lines, n, None) == lines
  {
    if lines != [] {
      assert lines[0].number != n;
      if lines[0].number < n {
        var tail := lines[1..];
        assert !HasNumber(tail, n) by {
          forall j | 0 <= j < |tail| ensures tail[j].number != n {
            assert tail[j] == lines[j + 1];
          }
        }
        IntendedDeleteAbsent(tail, n);
        assert lines == [lines[0]] + tail;
      }
    }
  }

  /** A number below the head of a non-empty ascending store lands at the tail and breaks the order. */
  lemma BelowHeadBreaksOrder(lines: seq<Line>, n: nat, command: Option<CString>)
    requires Ascending(lines) && lines != [] && n < lines[0].number
    ensures Edit(lines, n, command) == lines + [Line(n, command)]
    ensures !Ascending(Edit(lines, n, command))
    ensures Ascending(EditIntended(lines, n, command))
  {
    EditBelowAll(lines, n, command);
    EditAscending(lines, n, command);
    EditIntendedCorrect(lines, n, command);
  }

  // ---------------------------------------------------------------------
  // The store object
  // ---------------------------------------------------------------------

  /** The linked list headed by `programStart`, seen in forward order. */
  class Store {
    var lines: seq<Line>

    /** `programStart = NULL` (sh.c:319). */
    constructor ()
      ensures lines == []
    {
      lines := [];
    }

    /** `getForLine`, with the search advancing as intended (see Find). */
    method Lookup(n: nat) returns (k: Option<nat>)
      ensures k.Some? ==> k.value < |lines| && lines[k.value].number == n
      ensures k.Some? ==> forall j | 0 <= j < k.value :: lines[j].number != n
      ensures k.None? <==> !HasNumber(lines, n)
      ensures k == Find(lines, n)
    {
      var search := 0;
      while search < |lines|
        invariant search <= |lines|
        invariant forall j | 0 <= j < search :: lines[j].number != n
      {
        if lines[search].number == n {
          return Some(search);
        }
        search := search + 1;
      }
      return None;
    }

    /** `ll_delete`: unlink node `k`; deleting the head promotes its successor, or empties the store. */
    method Delete(k: nat)
      requires k < |lines|
      modifies this
      ensures lines == old(lines[..k] + lines[k + 1..])
      ensures k == 0 && |old(lines)| > 1 ==> lines[0] == old(lines[1])
    {
      if k == 0 {
        lines := lines[1..];  // programStart = del->next, NULL for the only line
      } else {
        lines := lines[..k] + lines[k + 1..];  // del->prev->next = del->next
      }
    }

    /** `ll_add`: the scan of sh.c:183-214, then `programStart = new` for an empty store. */
    method Add(node: Line)
      modifies this
      ensures lines == Edit(old(lines), node.number, node.command)
    {
      var current := 0;
      while current < |lines|
        invariant current <= |lines|
        invariant lines == old(lines)
        invariant forall j | 0 <= j < current :: !Stops(lines, node.number, j)
      {
        if lines[current].number == node.number {
          StopIs(lines, node.number, current);
          if node.command.None? {
            Delete(current);
          } else {
            lines := lines[current := node];
          }
          return;
        } else if current == |lines| - 1 {
          StopIs(lines, node.number, current);
          lines := lines + [node];
          return;
        } else if lines[current].number < node.number < lines[current + 1].number {
          StopIs(lines, node.number, current);
          lines := lines[..current + 1] + [node] + lines[current + 1..];
          return;
        }
        current := current + 1;
      }
      lines := [node];
    }

    /** `basc_createLine`: a fresh node for `number` and `command`, handed to `ll_add`. */
    method CreateLine(number: nat, command: Option<CString>)
      modifies this
      ensures lines == Edit(old(lines), number, command)
    {
      Add(Line(number, command));
    }
  }
}
