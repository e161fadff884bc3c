/**
 * Deciding whether an input line is a program edit (sh.c `isFirstWordNumber`
 * and the numbered-line routing of `basc_loop`), and spotting an
 * assignment (`hasDelimiter`).
 */
module Routing {
  import opened Wrappers
  import opened Bytes

  /** `isFirstWordNumber`: `i` is the length of the leading digit run and the
      result says whether the byte there (the NUL terminator at the end) is `<= ' '`. */
  method IsFirstWordNumber(s: CString) returns (numbered: bool, i: nat)
    ensures i <= |s| && AllDigits(s[..i])
    ensures i < |s| ==> !IsDigit(s[i])
    ensures numbered <==> i == |s| || IsBlank(s[i])
    ensures i == DigitRun(s)
    ensures numbered <==> Classify(s).NumberedEdit?
  {
    i := 0;
    while i < |s| && IsDigit(s[i])
      invariant i <= DigitRun(s)
      invariant AllDigits(s[..i])
    {
      i := i + 1;
    }
    // past the end stands the NUL terminator, which is `<= ' '`
    numbered := i == |s| || IsBlank(s[i]);
  }

  /** Whether a command holds an `=` (the assignment the shell does not implement). */
  predicate HasEquals(s: CString)
  {
    EqualsSign in s
  }

  /** `hasDelimiter`: finds the first `=`; without one, `i` ends on the terminator. */
  method HasDelimiter(s: CString) returns (found: bool, i: nat)
    ensures found <==> HasEquals(s)
    ensures found ==> i < |s| && s[i] == EqualsSign && EqualsSign !in s[..i]
    ensures !found ==> i == |s|
  {
    i := 0;
    while i < |s|
      invariant i <= |s|
      invariant EqualsSign !in s[..i]
    {
      if s[i] == EqualsSign {
        return true, i;
      }
      i := i + 1;
    }
    found := false;
  }

  /** How `basc_loop` routes one input line. */
  datatype Input =
    | NumberedEdit(number: nat, command: Option<CString>)  // `command` is None for "delete"
    | Immediate(text: CString)

  /**
   * The routing of sh.c:269-294.  A line whose leading digit run is followed
   * by the terminator or a byte `<= ' '` is an edit: the number is the digit
   * run's value, and the command is everything after the ONE separator byte,
   * or NULL when the digits end the line.  Anything else runs as a command.
   */
  function Classify(buf: CString): (r: Input)
    ensures r.NumberedEdit? ==> (r.command.None? <==> AllDigits(buf))
    ensures r.Immediate? ==> r.text == buf
  {
    var i := DigitRun(buf);
    if i == |buf| then NumberedEdit(DigitsValue(buf), None)
    else if IsBlank(buf[i]) then NumberedEdit(DigitsValue(buf[..i]), Some(buf[i + 1..]))
    else Immediate(buf)
  }

  /**
   * Digits, one blank separator byte and any text is an edit of the line
   * the digits denote (leading zeros included) to that text.
   */
  lemma ClassifyEdit(ds: CString, sep: Byte, text: CString)
    requires AllDigits(ds) && sep != 0 && IsBlank(sep)
    ensures Classify(ds + [sep] + text) == NumberedEdit(DigitsValue(ds), Some(text))
  {
    var buf := ds + [sep] + text;
    assert buf == ds + ([sep] + text);
    DigitRunOfDigits(ds, [sep] + text);
    assert buf[..|ds|] == ds;
    assert buf[|ds| + 1..] == text;
  }

  /** Digits alone on the line delete the line they denote. */
  lemma ClassifyDelete(ds: CString)
    requires AllDigits(ds)
    ensures Classify(ds) == NumberedEdit(DigitsValue(ds), None)
  {
    DigitRunOfDigits(ds, []);
    assert ds + [] == ds;
  }

  /** An empty line, or one that starts with a blank byte, is an edit of line 0. */
  lemma ClassifyBlankStart(buf: CString)
    requires buf == [] || IsBlank(buf[0])
    ensures Classify(buf).NumberedEdit? && Classify(buf).number == 0
    ensures Classify(buf).command == if buf == [] then None else Some(buf[1..])
  {
    assert buf != [] ==> !IsDigit(buf[0]);
    assert buf[..0] == [];
  }

  /**
   * Digits (possibly none) followed by a byte that is neither a digit nor
   * blank make a command, run as it is: `10abc`, `5=1` and `list` alike.
   */
  lemma ClassifyCommand(ds: CString, b: Byte, text: CString)
    requires AllDigits(ds) && b != 0 && !IsDigit(b) && !IsBlank(b)
    ensures Classify(ds + [b] + text) == Immediate(ds + [b] + text)
  {
    var buf := ds + [b] + text;
    assert buf == ds + ([b] + text);
    DigitRunOfDigits(ds, [b] + text);
    assert buf[|ds|] == b;
  }
}
