# basic-shell: a verified model of `sh.c`

`sh.c` is a small interactive shell in the style of line-numbered BASIC.
It reads one line at a time. A line that starts with a number edits the
stored program:
- `10 list` stores line 10;
- `10` on its own deletes line 10.

Any other line runs at once. It can be:
- an assignment containing `=`, which is ignored;
- `list`;
- `goto N`, which sets `currentLine`;
- `run`, which walks the stored program and follows `goto` jumps until it
  reaches the end of the list or SIGINT clears `canRun`;
- anything else, which is handed to `fork`/`execvp`.

This project models that core in Dafny, in these modules:

- `Bytes` (bytes.dfy): the byte alphabet, with plain `char` taken as signed. It also
  models the `atoi` prefix rule, and proves that decimal rendering followed
  by parsing returns the number.
- `Routing` (routing.dfy) models the input scanners `isFirstWordNumber` and
  `hasDelimiter`. Both are methods with the source's loops. `Classify`
  decides how `basc_loop` treats a line.
- `Tokenize` (tokenize.dfy) models `strtok` splitting on `' '` as the
  function `Tokens`, with a round trip through `Join`. The method
  `SplitArgs` fills a growing `array` in steps of 80 slots and is proved to
  yield exactly `Tokens`. `Dispatch` is the verb selection of
  `basc_runcommand`.
- `LineStore` (store.dfy) models the program list as the class `Store`,
  whose `lines` field is the list in forward order. It has these methods:
  - `Lookup`, `Delete`, `Add` and `CreateLine`, for `getForLine`,
    `ll_delete`, `ll_add` and `basc_createLine`;
  - `Add` loops exactly as `ll_add` does, and is proved equal to the
    specification function `Edit`.

  `Edit` describes `ll_add` as written. Beside it, `EditIntended` is the
  ordered-map update the store is evidently meant to perform. The module
  proves:
  - when the two agree;
  - where they differ (see Findings);
  - that `EditIntended` keeps the numbers ascending and acts on the store
    as a map from line number to command.
- `Engine` (engine.dfy) models `basc_runcommand` and the `run` traversal
  as the mutually recursive functions `Exec`, `Traverse` (the loop) and
  `Step` (one pass of its body). They carry a fuel bound. The class `Shell` holds:
  - the globals `currentLine` and `canRun`;
  - a counter of completed stored lines.

  Its methods `RunCommand`, `RunProgram`, `RunLine` and `SubmitLine` are
  proved equal to those functions. SIGINT is an oracle, `Signal`. It says after which
  completed stored line the handler clears `canRun`.
- `Scenarios` (scenarios.dfy) holds concrete programs:
  - a `list`/`goto` loop that never ends without an interrupt, and that
    ends when an interrupt arrives;
  - a jump to a missing line, which ends `run` with the advancing lookup
    and hangs with `getForLine` as written;
  - examples of routing.

The model keeps the store's behaviour as the code has it. This includes
the `ll_add` defects listed under Findings, because that is what the shell
does. The one exception is `getForLine`: as written it never returns for
any number but the head's, stored or not, so the traversal uses the
advancing search (`Find`, `Store.Lookup`). Without that choice no `goto`
could be followed, except one to the first line.

Although an edit below the head breaks the ascending order, the store as
written keeps a weaker invariant, `ScanFinds`: the `ll_add` scan for every
stored number reaches that number's node. Every edit keeps it, so every
store the shell can build has it, and no number is ever stored twice.
Replacing, deleting and the store-then-delete round trip are proved under
this invariant, so they hold on such out-of-order stores too.

Paths where the C code reads a NULL or uninitialised pointer are modelled
as the status `Fault`:
- a command with no token;
- `goto` without an argument;
- a stored line with no command reached by `run`.

## Model

| member | source | states |
|---|---|---|
| Bytes.DigitRun | sh.c:23-26 | the scan stops at the first non-digit: every byte before it is a digit and the byte at it (if any) is not |
| Bytes.Atoi | sh.c:92 | a string that does not start with a digit reads as 0, and a string of digits reads as the number it denotes |
| Bytes.DecimalRoundTrip | sh.c:286 | reading back the decimal rendering of any number with the digit-value rule gives that number |
| Bytes.AtoiDecimal | sh.c:92 | `atoi` of a rendered number followed by any non-digit text returns the number |
| Bytes.DigitRunOfDigits | sh.c:24 | the digit scan of a digit block followed by a non-digit stops exactly at the end of the block |
| Routing.IsFirstWordNumber | sh.c:23-26 | the loop stops at the first non-digit; the line counts as numbered exactly when that position is the end of the string or a byte `<= ' '` as a signed `char`, which is exactly when the line is routed as an edit |
| Routing.HasDelimiter | sh.c:30-38 | reports `=` exactly when the string contains one, and then the index of the first `=`; otherwise the index of the terminator |
| Routing.Classify | sh.c:269-294 | a numbered line has no command exactly when it is all digits; any other line runs unchanged |
| Routing.ClassifyEdit | sh.c:269-289 | any digits (leading zeros included), one blank separator and any text store that text under the number the digits denote |
| Routing.ClassifyDelete | sh.c:274-276 | a line of digits alone deletes the number they denote |
| Routing.ClassifyBlankStart | sh.c:269-289 | an empty line or one starting with a blank is an edit of line 0 (command absent or the rest after the blank) |
| Routing.ClassifyCommand | sh.c:291-294 | digits, possibly none, followed by a byte that is neither a digit nor blank make a line that is run as is (`10abc`, `5=1`, `list`) |
| Tokenize.Tokens | sh.c:72-83 | every token is non-empty and free of spaces |
| Tokenize.Join | sh.c:72-83 | joined tokens start with the first token, and when no token holds a space the joined string holds one exactly when there are two or more tokens |
| Tokenize.TokensSplit | sh.c:72-83 | splitting at a space splits the token list: tokens of `a ++ " " ++ b` are tokens of `a` then tokens of `b` |
| Tokenize.SingleWordThenSpace | sh.c:72-83 | a space-free word followed by a space is the first token, and the rest tokenizes on its own |
| Tokenize.TokensJoin | sh.c:72-83 | joining valid tokens with single spaces and splitting again gives back the same tokens |
| Tokenize.TokensOfToken | sh.c:72 | a single space-free word tokenizes to itself |
| Tokenize.WordLenPrefix | sh.c:72 | the first word's length is unaffected by what follows a space |
| Tokenize.WordLenAll | sh.c:72 | a space-free string is one whole word |
| Tokenize.SplitArgs | sh.c:68-83 | the argument array holds exactly the tokens of the command in order, and its capacity is a multiple of 80 that stays ahead of the count by at most 80 |
| Tokenize.Grow | sh.c:79-82 | the reallocated array is 80 slots larger and keeps the filled prefix |
| Tokenize.Dispatch | sh.c:85-146 | the verb is undefined exactly when there is no token or `goto` has no argument; `list` and `run` are recognised by exact match; every other first word is run externally with the whole argument vector |
| Tokenize.DispatchGoto | sh.c:91-93 | `goto <n> ...` jumps to `n` |
| Tokenize.DispatchExternal | sh.c:125-146 | any other command line runs externally with exactly its words as `argv` |
| LineStore.Entries | sh.c:7-13 | the store seen as a map has exactly the stored numbers as keys, the first node giving its command |
| LineStore.NumbersHas | sh.c:7-13 | the number set of the store holds exactly the numbers some node carries |
| LineStore.HeadBelowRest | sh.c:7-13 | in an ascending store the head's number is below every other number |
| LineStore.AscendingCons | sh.c:7-13 | a line below every number of an ascending store can be put in front of it and the order is kept |
| LineStore.Find | sh.c:43-53 | the intended search: the first node carrying the number, and none exactly when no node carries it |
| LineStore.LookupAsWritten | sh.c:43-53 | `getForLine` as written: it finds a number exactly when the head carries it, returns NULL exactly on an empty store, and otherwise hangs |
| LineStore.LookupAsWrittenHangs | sh.c:48-51 | in a non-empty store, `getForLine` as written loops for ever for every number but the head's: a stored number further on is never reached and an absent one never gives NULL |
| LineStore.StopFrom | sh.c:183-214 | the `ll_add` scan stops at the first node that matches, is the last, or brackets the number from below and above |
| LineStore.Edit | sh.c:178-217 | `ll_add` as written, on any list: a new command is always stored afterwards |
| LineStore.EditTouchesOnly | sh.c:178-217 | `ll_add` touches only the node of its own number, on any list: every other node survives, and no node but the new one appears |
| LineStore.StopIs | sh.c:183-214 | a node that stops the scan, with no earlier node that does, is where `ll_add` stops |
| LineStore.StopAtMatch | sh.c:184 | in an ascending store, the scan reaches the node carrying the number |
| LineStore.ScanReaches | sh.c:183-214 | under `ScanFinds`, the scan for any stored number stops at that number's node |
| LineStore.ScanFindsDistinct | sh.c:183-214 | under `ScanFinds`, no number is stored twice |
| LineStore.AscendingScanFinds | sh.c:183-214 | every ascending store satisfies `ScanFinds` |
| LineStore.ScanMissesAbsent | sh.c:195-210 | under `ScanFinds`, a number whose scan stops on another node is not stored |
| LineStore.ReplaceKeepsScanFinds | sh.c:189 | replacing a node's command keeps `ScanFinds` |
| LineStore.DeleteKeepsScanFinds | sh.c:156-176 | unlinking any node keeps `ScanFinds` |
| LineStore.InsertKeepsScanFinds | sh.c:195-210 | linking a new number in after the node its scan stops at, the tail included, keeps `ScanFinds` |
| LineStore.InsertedNotPassed | sh.c:195-210 | no node before the new one stops the scan for the new number |
| LineStore.InsertedLater | sh.c:195-210 | after the insertion, no node before a later old node stops the scan for that node's number |
| LineStore.EditKeepsScanFinds | sh.c:178-217 | every edit as written, including one below the head or a delete of an absent number, keeps `ScanFinds` |
| LineStore.ReplayScanFinds | sh.c:178-217 | every store built by a sequence of `ll_add` calls from the empty program satisfies `ScanFinds` and holds no number twice |
| LineStore.EditReplace | sh.c:184-192 | under `ScanFinds` (so on out-of-order stores too), storing a command under an existing number replaces that node in place; an ascending store stays ascending |
| LineStore.EditDelete | sh.c:185-186 | under `ScanFinds`, deleting an existing number unlinks exactly that node and leaves no node with that number; an ascending store stays ascending |
| LineStore.EditInsert | sh.c:202-210 | in an ascending store, a number between two neighbours, or after the tail, is linked in exactly there and keeps the order |
| LineStore.InsertStops | sh.c:202-203 | in an ascending store, the scan for a new number above the head stops at the node just before its place |
| LineStore.EditBelowAll | sh.c:195-199 | a number below every stored number is appended after the tail |
| LineStore.EditAscending | sh.c:178-217 | an edit of an ascending store keeps it ascending if and only if the store is empty or the number is not below the head |
| LineStore.Position | sh.c:202-203 | for a number above the head there is a gap: every number before it is smaller and the one at it is not |
| LineStore.StoreThenDelete | sh.c:178-217 | under `ScanFinds`, storing and then deleting a number leaves no node with it, and restores the store exactly when the number was new |
| LineStore.ReplacedThenDeleted | sh.c:184-192 | under `ScanFinds`, replacing then deleting an existing number removes it |
| LineStore.AddedThenDeleted | sh.c:195-210 | under `ScanFinds`, a new number linked in wherever the scan puts it, the tail included, is found again by a delete, which restores the store |
| LineStore.EditIntendedCorrect | sh.c:178-217 | the intended edit keeps the store ascending, and its map view is the old one updated at the number, or with the number removed for a delete |
| LineStore.EditIntended | sh.c:178-217 | the intended edit: a new command is always in the store afterwards |
| LineStore.IntendedTouchesOnly | sh.c:178-217 | the intended edit, too, touches only the node of its own number, on any list |
| LineStore.IntendedAtHead | sh.c:184-192 | the intended edit of the head's number is a map update |
| LineStore.IntendedBelowHead | sh.c:195-199 | the intended edit of a number below the head puts it first (or changes nothing for a delete) |
| LineStore.IntendedPastHead | sh.c:211-213 | an intended edit past the head keeps the head and its order, and updates the map |
| LineStore.PastHeadOrder | sh.c:211-213 | the head stays below anything the edit of the rest can hold |
| LineStore.UpdateCommutes | sh.c:211-213 | updating the map at another key commutes with the edit at the number |
| LineStore.IntendedAtMatch | sh.c:184-192 | in an ascending store, the intended edit at an existing number replaces or removes exactly that node |
| LineStore.IntendedAtGap | sh.c:202-210 | the intended edit of a new number links it in at its gap (or changes nothing for a delete) |
| LineStore.EditMatchesIntended | sh.c:178-217 | in an ascending store, whenever the number is not below the head and a delete names a stored number, `ll_add` performs the intended edit |
| LineStore.MatchesAtNumber | sh.c:184-192 | in an ascending store, at an existing number the code and the intended edit agree |
| LineStore.MatchesAtGap | sh.c:202-210 | in an ascending store, a new command at a gap past the head is stored as intended |
| LineStore.DeleteAbsentInserts | sh.c:185-217 | on any store, in order or not, deleting a number that is not stored should change nothing, but `ll_add` adds one node with that number and no command |
| LineStore.IntendedDeleteAbsent | sh.c:185-217 | on any store, the intended delete of a number that is not stored changes nothing |
| LineStore.BelowHeadBreaksOrder | sh.c:195-199 | in an ascending store, a number below the head is appended at the tail, which breaks the ascending order the intended edit keeps |
| LineStore.Store.constructor | sh.c:319 | the program starts empty |
| LineStore.Store.Lookup | sh.c:43-53 | the loop returns the first node carrying the number, or nothing exactly when none does |
| LineStore.Store.Delete | sh.c:156-176 | unlinks exactly the given node; deleting the head promotes its successor |
| LineStore.Store.Add | sh.c:178-217 | the scan leaves the list as `Edit` says, so every lemma about `Edit` holds of it |
| LineStore.Store.CreateLine | sh.c:222-235 | a new node with the number and command is added as `ll_add` does |
| Engine.First | sh.c:98 | the traversal starts at the head, if there is one |
| Engine.Next | sh.c:117 | the successor cursor stays inside the list |
| Engine.Exec | sh.c:55-154 | executing a command never moves the interrupt clock back |
| Engine.Traverse | sh.c:95-122 | the `run` loop never moves the interrupt clock back |
| Engine.Step | sh.c:104-121 | one pass of the loop body never moves the interrupt clock back |
| Engine.ExecInterrupt | sh.c:55-154 | a command that starts with `canRun` set and ends with it clear saw SIGINT during one of the stored lines it completed |
| Engine.TraverseInterrupt | sh.c:103-122 | the traversal clears `canRun` only through SIGINT during one of its lines |
| Engine.StepInterrupt | sh.c:104-121 | one stored line together with the traversal after it clears `canRun` only through SIGINT |
| Engine.AssignmentIgnored | sh.c:59-61 | a command containing `=` changes nothing and finishes |
| Engine.ListAndExternalInert | sh.c:85-89 | `list` and external programs leave the globals and the store alone |
| Engine.ExecGoto | sh.c:91-93 | `goto n` sets `currentLine` to `n` and nothing else |
| Engine.ExecRun | sh.c:95-103 | `run` sets `canRun` and traverses from the head |
| Engine.RunEmptyStore | sh.c:95-103 | `run` on an empty program finishes at once with `canRun` set |
| Engine.ImmediateHasVerb | sh.c:72-83 | an immediate line always has a first token, so its only undefined case is a bare `goto` |
| Engine.GotoStep | sh.c:103-122 | a stored `goto t` continues at the node found for `t`, or at the next node when `t` is the line's own number |
| Engine.FallThroughStep | sh.c:103-122 | a stored line that leaves `currentLine` unchanged hands over to the next node |
| Engine.JumpToMissingHalts | sh.c:103-122 | with the advancing lookup, a jump to a number that no node carries ends the run normally (as written, `getForLine` hangs there instead: `LineStore.LookupAsWrittenHangs`) |
| Engine.ExecFuel | sh.c:55-154 | a command that finishes within some fuel gives the same result with any more |
| Engine.TraverseFuel | sh.c:103-122 | a traversal that finishes within some fuel gives the same result with any more |
| Engine.StepFuel | sh.c:104-121 | one stored line together with the traversal after it, once it finishes within some fuel, gives the same result with any more |
| Engine.Shell.constructor | sh.c:15-19 | the shell starts at line 0 with `canRun` clear |
| Engine.Shell.RunCommand | sh.c:55-154 | executing a command changes the globals and reports the status exactly as `Exec` says |
| Engine.Shell.RunProgram | sh.c:95-123 | the `run` loop leaves the globals as `Traverse` from the head with `canRun` set says |
| Engine.Shell.RunLine | sh.c:104-121 | one pass of the loop body: a line that stops the run leaves the globals and status `Step` gives, and otherwise the run from the node it picks ends as `Step` says |
| Engine.Shell.SubmitLine | sh.c:267-294 | a numbered line edits the store as `Edit` says and touches no global; any other line leaves the store alone and runs as `Exec` says |
| Scenarios.ListStep | sh.c:85-89 | `list` finishes without changing anything |
| Scenarios.LoopFirstStep | sh.c:103-118 | in `10 list / 20 goto 10`, line 10 hands over to line 20 |
| Scenarios.LoopSecondStep | sh.c:103-115 | in the same program, line 20 jumps back to line 10 |
| Scenarios.LoopRunsOut | sh.c:101-122 | without an interrupt, the loop program uses up every fuel bound |
| Scenarios.RunLoopNeverEnds | sh.c:95-122 | `run` on the loop program never finishes without an interrupt |
| Scenarios.InterruptEndsLoop | sh.c:101-122 | an interrupt during the first line ends the run after that line |
| Scenarios.MissingTargetEndsRun | sh.c:103-122 | with the advancing lookup, `10 goto 40` alone ends the run after one line, with `currentLine` 40 |
| Scenarios.LoneGotoEndsRun | sh.c:103-122 | with the advancing lookup, a store holding only `n goto t` with `t` not `n` ends the run after that line, with `currentLine` `t` |
| Scenarios.MissingTargetHangsAsWritten | sh.c:113-115 | with `getForLine` as written, the jump of `10 goto 40` to the absent line 40 never returns |
| Scenarios.EchoIsExternal | sh.c:125-146 | `echo hello` is run externally with `argv` `["echo", "hello"]` |
| Scenarios.ClassifyStoreExample | sh.c:269-289 | `5 print` stores `print` under 5 |
| Scenarios.LeadingZerosExample | sh.c:269-289 | `007 x` stores `x` under 7 |
| Scenarios.DigitLedCommandsExample | sh.c:291-294 | `10abc` and `5=1` start with digits but are run as commands |
| Scenarios.ClassifyDeleteExample | sh.c:274-276 | `5` deletes line 5 |

## Left out

- `fork`, `execvp` and `waitpid` (sh.c:125-146) are left out: an external command is the verb `External(argv)` and does not change the shell's state. The child's own SIGINT exit is not modelled. Nor is the missing NULL terminator of the argument vector passed to `execvp` (sh.c:68-83, 143): the slot after the last argument is never set.
- The SIGINT handler (sh.c:303-309) is the oracle `Signal`. The model only samples it after each completed stored line. An interrupt outside `run` has no modelled effect, because the next `run` sets `canRun` again anyway.
- Reading stdin, the prompt, `printf` output of `list` and of the banner, and buffer growth in `basc_loop` (sh.c:242-265) are left out. A line enters as a byte string, and end of input ends the loop.
- Heap sizing is not modelled: the `malloc(strlen(...))` copies one byte short (sh.c:74, 107, 282), and `free` of the argument vector and of copies is left out. The model copies strings exactly.
- `prev` links are not modelled. This includes the missing `next->prev` fix-up in `ll_delete` (sh.c:166-171), which leaves a dangling `prev` for a later delete of the successor. That changes the forward order too: in A→B→C, deleting B and then C writes `C->prev->next` into the freed B, so A still links to the freed C, while the model has removed C. From then on the C forward list and the model differ.
- The assignment branch (sh.c:59-61) is a stub in the source and stays one: `Engine.AssignmentIgnored`.
- Bytes.Atoi: models only the digit prefix. C `atoi` also skips leading whitespace and takes a sign, which matters for the `goto` argument (sh.c:92), since any token can follow `goto`:
  - `goto +20` jumps to 20 in C but to 0 in the model;
  - `goto -1` sets `currentLine` to 4294967295 in C but to 0 in the model;
  - a token that starts with a tab, such as TAB then `20`, gives 20 in C but 0 in the model (a tab is not a `strtok` delimiter here).
  Overflow beyond `int` is not modelled either.
- Plain `char` is fixed as signed, as on x86-64; the C standard leaves this to the implementation (section 6.2.5 paragraph 15 of ISO C11), and it is unsigned on AArch64 Linux. There a byte from 128 up compares above `' '` at sh.c:25 and is not a blank, so a line such as `10`, byte 0xA0, `x` runs as a command instead of storing line 10; the model does not capture that variant.
- Line numbers and `currentLine` are `nat`, not 32-bit `unsigned int`. Wrap-around of `atoi` results above 2^31 is not modelled.
- Input holding a NUL byte is not modelled: `CString` excludes it, and the C code would see the string end there.
- Engine.Exec: the fuel bound counts stored lines per nesting level. A run that needs more gives `Exhausted`, which the C code never reports.
- Routing.Classify: on the delete path, `basc_loop` passes the uninitialised `linenumstr` to `atoi` (sh.c:270, 286). The model uses the value of the digit prefix, as on the store path.
- Engine.Shell.SubmitLine: states the same simplification for the delete path.
- Engine.Traverse: uses the advancing search `Find` for `getForLine`. The as-written search never returns for any number but the head's, so with the code as written every jump to a later or absent line hangs (see Findings). `Engine.JumpToMissingHalts` and `Scenarios.MissingTargetEndsRun` state the halt under the advancing search.

## Findings

| source | as written | input that shows it | evidently intended | confidence | as-written member | corrected member |
|---|---|---|---|---|---|---|
| sh.c:48-51 | the search loop never moves `search` to `search->next` | `10 goto 20`, `20 list`, then `run`: the jump to 20 never returns; `10 goto 40` alone, then `run`: the jump to the absent line 40 never returns either | return the first node carrying the number, NULL if none | high for the C abstract machine (not executed); the loop has a non-constant condition and no side effects, so under section 6.8.5 paragraph 6 of ISO C11 an optimising compiler may assume it ends, and an optimised build may return the head or misbehave instead of spinning | LineStore.LookupAsWrittenHangs | LineStore.Store.Lookup |
| sh.c:195-199 | in an ascending store (more generally, for a number below every stored one), a number below the head reaches the `next == NULL` branch after scanning and is appended at the tail | `20 list`, then `10 list`: the store becomes 20, 10 | link the number in before the head and keep the numbers ascending | high (not executed) | LineStore.BelowHeadBreaksOrder | LineStore.EditIntendedCorrect |
| sh.c:185-217 | deleting an absent number inserts a node with a NULL command, which `run` later dereferences in `strlen` (sh.c:107) | `10 list`, then `20`: the store gains line 20 with no command | leave the store unchanged | high (not executed) | LineStore.DeleteAbsentInserts | LineStore.IntendedDeleteAbsent |
