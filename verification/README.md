# A verified model of the Hike compiler's structured control passes

Hike lowers its source language to a tree of blocks, loops, ifs, tables and branches. The lowerer writes
that tree with a builder full of state: a stack of bodies under construction, placeholders that later give
up their place, a table of control elements, a loop stack and an area stack. This project models that
lowering, the pass that runs behind it, and the self-contained algorithms of the compiler that rely on
careful bookkeeping, and proves what they promise.

**Structured lowering.** `Source` gives the meaning of the source: variables, 64-bit wrapping arithmetic,
calls whose results are chosen by an outside world that sees all calls so far, `&&` and `||`, `if`, `for`,
`switch` on integers and strings, `break`, `continue`, `return`, `panic` and area blocks. `Structured` gives
the meaning of the tree: a branch to an enclosing block leaves it, a branch to a loop runs Post from Body
and re-tests from Post, and a branch to a continuation resumes where the continuation stands. `Lowering`
states as functions what the lowerer writes; class `LowererState.Lowerer` is the lowerer itself, with its
control table, body stack, loop stack and area stack updated in place, and every method is proved to write
exactly what the functions say and to keep the table right. `ControlIds` shows that each lowering step uses
exactly the IDs it takes, each once, and `ControlTable` what the table must say: its live rows are the nodes
of the tree, every other row names the node that stands where the placeholder stood, every branch leads to a
row, and each `if`, loop and block carries its links. `Threading` says of the finished table where every `Next`
link leads: a node to what stands where its continuation was put, and the root to what was last put behind it.
`Opening` explains placeholders: opening them lists a body in the order it was written and means the same. From this follow the main theorems: the lowered
function makes the same calls in the same order, ends the same way with the same result and the same
variables as the source (`Statements.FunctionCorrect`), also when it runs forever
(`Compile.BoundDoesNotMatter`), and after normalisation (`Compile.CompiledCorrect`). Loops carry a bound on
iterations; runs that hit it are compared too, and the bound is shown not to matter. Area handles are values
in registers that the code has to keep alive; `Areas` shows that areas nest like brackets on every path and
that storage always comes from the innermost open one.

**Switches.** `SwitchTable` and `StringSwitch` model the bucket table, `Dispatch` what the emitted code makes
of it: whatever collides, it runs the clause that a linear first-match search would run, for strings always
and for integers exactly when no key is negative. Literals of 2^63 and above are negative 64-bit integers;
the compiler files them under another bucket than the one the code looks in, so that their value goes to the
default (`Dispatch.DispatchFailsAtNegative`, with a witness in `Dispatch.NegativeWitness`). Such a key may even
get a table together with keys 2^63 away from it, because the span wraps around (`Dispatch.SpanExact`).

**Where the code departs from the source.** There are three places, each with its exact condition: such a
negative key; a `continue` that leaves a switch, which becomes a branch to ID 0 and falls out of the function
(`Statements.SwitchMeets`); and a `break` or `continue` that leaves an area, which stays open
(`Statements.AreaExact`). `Departures` has whole functions that show it. The theorems about whole functions
ask for `WellScoped`, a condition on the program text that excludes these three constructs. `Meaning` shows on
programs whose meaning is known otherwise what the semantics of the source comes to.

**Normalisation.** `Normalize` is the removal of transparent blocks, in place, with the marking pass before
it: meaning, references and acceptance by the validator are kept, and a second pass changes nothing.
`Transparency` says without the pass which blocks have to go: afterwards no body at any depth is a single unnamed
placeholder of instructions, and the IDs that are gone are exactly those of placeholders that came to that.

**Loader.** `SequentialLoader` is the worklist loader, `ForkedLoader` the concurrent one as a state machine
of goroutine steps under locks. Every interleaving keeps one invariant, none is stuck or endless, and each
that finishes has loaded exactly the files the sequential loader loads, each once.

**Text.** `Lexical`, `TokenStream`, `TokenPrinting` and class `LexerState.Lexer` model the lexer: longest
operators, the semicolon rule as an independent definition, a round trip for printed tokens, and the lines
and columns (`Positions`), which miss exactly the line breaks inside string and character literals. `Spacing`
writes blanks, line breaks and comments between the tokens and says what is read back; `Literals` covers raw
strings, escapes, literals without an end, and where numbers stop. Words and characters are given by their codes.
`BuildConstraints` models the evaluator of build expressions, again with a round trip through text.

**Images and layout.** `GraphImage` and `Container` model the two binary formats with relocation; `Schema`
the bytes that identify a mapped group; `MemoryMap` the layout of mapped fields, their heap slots and the
metadata rows, and that the hashed schema fixes the layout. `HeapSlots` and `MetaRows` describe slots and rows by
the access paths that lead to what they stand for. `Offsets` and `Slices` model the sign-encoded view
offsets, chains of slice expressions and append with its copying cost and the one case in which it writes
behind its storage.

Branch results that a caller sees are compared through `Statements.Agrees`. Text and images are sequences of
bytes; words of 32 or 64 bits are numbers with the wrap-around written out. Files, clocks and the operating
system are parameters or left out.

## Model

| member | source | states |
|---|---|---|
| Compile.CompiledCorrect | pkg/lower/lower_func.go:18-68 | a finished function (lowered, then flattened) ends like the source with the same result, variables and call trace; its areas match on every path and none is open at return or panic |
| Compile.BoundDoesNotMatter | pkg/lower/lower_func.go:18-68 | a run of the finished function ends exactly when the source run ends, alike under every larger bound, and a run that does not end makes the source's calls one after the other |
| Compile.CompileFunction | pkg/lower/lower_func.go:18-68 | running the stateful lowerer and then the in-place pass on the root block yields the body that the two theorems above speak about, in which no transparent block is left, and a control table that records the lowered tree and threads it by its Next links |
| Meaning.CountingRuns | pkg/lower/lower_control.go:152-273 | a loop from 0 to n with one call a round, left or continued at k, makes the calls of the numbers below n, without k after `continue` and up to k after `break`, and leaves the counter where it stopped |
| Meaning.CountingCompiled | pkg/lower/lower_func.go:18-68 | so does the finished function of it, and returns 0 |
| Meaning.OperandsRun | pkg/lower/lower_expr_complex.go:761-820 | a call as right operand of a short-circuit operator is made exactly when the left operand leaves the answer open |
| Meaning.OrderRuns | pkg/lower/lower_expr_complex.go:761-820 | operands are evaluated from left to right and an argument before its call |
| Meaning.SwitchRuns | pkg/lower/lower_switch_return.go:236-371 | a switch runs one clause, the listed one or the default, and `break` leaves just the switch |
| Source.EventsExact | pkg/lower/lower_call_dispatch.go:600-625 | a panic is recorded before the areas end, a return ends them all, sizes are in KiB and storage is that of the last area |
| Statements.FunctionCorrect | pkg/lower/lower_func.go:53-68 | the root block of every well-scoped function does what the source does, including the default return behind a body that can fall off its end |
| Statements.StmtRun | pkg/lower/lower_stmt.go:74-173 | in any builder state the code appended for a statement ends like the statement: fall through, branch to the break or continue target, return, panic or stopped; and keeps all older registers |
| Statements.IfRun | pkg/lower/lower_control.go:13-81 | the `if` node and its continuation choose the branch the source chooses, after init and condition |
| Statements.ForRun | pkg/lower/lower_control.go:152-273 | the loop inside its block, with the test as an `if` in Body and the branch back in Post, runs the source loop |
| Statements.LoopRun | pkg/hir/control.go:113-134 | iterations agree one by one: a branch to the loop from Body runs Post, from Post re-tests; leaving goes to the block or its continuation |
| Statements.EndedStops | pkg/lower/lower_func.go:62-65 | where the current basic block has a terminator, control never falls off the statement, so no default return is missing |
| Statements.EndsRun | pkg/lower/lower.go:904-912 | ending all areas emits their ends innermost first and changes nothing else |
| Statements.PanicRun | pkg/lower/lower_call_dispatch.go:600-625 | a panic records its value, then ends all open areas, then leaves |
| Statements.AreaBeginRun | pkg/lower/lower_stmt.go:181-206 | opening an area passes the size in bytes and the innermost area as parent, and its register then holds the new handle while older handles stay |
| Statements.AreaExact | pkg/lower/lower_stmt.go:207-211 | what the code of an area does whatever leaves it, and that it meets the source exactly when no `break` or `continue` leaves the body |
| Statements.NewRun | pkg/lower/lower_stmt.go:440-472 | an escaping variable's storage comes from the innermost open area, else from the heap, after its value is computed |
| Statements.SwitchExact | pkg/lower/lower_switch_return.go:236-371 | for keys of either kind the switch block does what the clause does that the table leads to, and agrees with it except that a `continue` leaving it becomes a branch to ID 0 |
| Statements.SwitchMeets | pkg/lower/lower_switch_return.go:236-371 | the code agrees with the clause it dispatches to exactly when that clause does not end in `continue`, or the continue target is ID 0 |
| Departures.ContinueFallsOut | pkg/lower/lower_switch_return.go:236-371 | a loop around a switch whose dispatched clause continues is left in that round, and the whole function falls out of its root block without a return |
| Departures.EndlessWitness | pkg/lower/lower_switch_return.go:236-371 | a loop around a switch on 1 whose case 1 continues: the source never ends, the lowered function falls out |
| Departures.OpenAreaWitness | pkg/lower/lower_stmt.go:207-211 | a loop around an area that breaks: the source ends the area, the lowered function returns with it open |
| Statements.ChainRun | pkg/lower/lower_switch_return.go:301-358 | the chain of a bucket runs the first clause with a matching key in that bucket, and the default when there is none, for integers and for strings |
| Statements.TestsRun | pkg/lower/lower_switch_return.go:303-321 | the or-ed comparisons of a clause, integer or string, yield 1 exactly when the value is among its keys of the bucket |
| Dispatch.DispatchSelects | pkg/lower/lower_switch_return.go:264-291 | going through the table at the run-time bucket selects the clause the source switch selects, for every string and for every integer but a listed negative one |
| Dispatch.DispatchFailsAtNegative | pkg/lower/lower_switch_return.go:425-445 | a negative integer that is listed goes to the default and not to the clause that lists it |
| Dispatch.DispatchExact | pkg/lower/lower_control.go:1693-1727 | dispatch follows the source for every 64-bit value exactly when no key is negative |
| Dispatch.NegativeWitness | pkg/parser/parser_expr.go:732-747 | the literal 0xFFFFFFFFFFFFFFFF is -1: filed under slot 16 of 17, looked for in slot 0 |
| Dispatch.SpanExact | pkg/lower/lower_control.go:1723-1726 | the span of the keys is compared in 64 bits: a table is given for keys within 4096 of each other and also for keys at least 2^63 apart |
| Dispatch.SpanWitness | pkg/lower/lower_control.go:1723-1726 | the cases 0x8000000000000000 and 1 get a table, and the first one's value runs the default |
| Expressions.ExprRun | pkg/lower/lower_expr_complex.go:761-820 | the code of an expression leaves its value in the result register, makes its calls in order and touches no older register or slot |
| Expressions.ShortCircuitRun | pkg/lower/lower_expr_complex.go:765-817 | the short-circuit operators evaluate the right operand, in one arm of an `if` on the left one, only when the left one leaves the answer open |
| StatementShape.StmtSound | pkg/lower/lower_stmt.go:148-173 | code branches only to its own nodes, to the enclosing loop's targets or to ID 0, and its placeholders are new and hide no continuation |
| Fuel.ExecStable | pkg/lower/lower_control.go:152-273 | a source run that ends is the same with every larger bound; one that is stopped has made a part of the calls of the longer one |
| Fuel.NeverLoose | pkg/lower/lower_stmt.go:148-173 | no `break` or `continue` gets out of what scoping allows |
| Areas.ExecBracketed | pkg/lower/lower_stmt.go:181-212 | on every source path areas begin and end like brackets with fresh handles, storage uses the innermost one, and return and panic close all |
| Areas.AreasMatched | pkg/lower/lower.go:796-803 | the same for the emitted code of every well-scoped function: nothing is open when it returns or panics |
| Opening.OpenRun | pkg/hir/control.go:82-111 | listing a body through its placeholders does not change what it does |
| Opening.SeekOpen | pkg/lower/lower.go:1125-1165 | a continuation is found in the listing exactly where the node stands that carries it, the placeholder or its replacement |
| Opening.RunTargets | pkg/backend/structuredcfg/lower.go:295-308 | a body leaves only by branches written in it |
| Writing.EmitRun | pkg/lower/lower.go:806-813 | sending an instruction appends exactly it to the listing, with a new placeholder at most |
| Writing.PlaceRun | pkg/lower/lower.go:1125-1165 | sending a control node appends exactly it, whether it takes an empty placeholder's place or goes into a filled one |
| Writing.PlacedRun | pkg/lower/lower.go:1234-1257 | what falls through a node or branches to its continuation goes on behind it |
| Listing.OrderKept | pkg/lower/lower.go:1117-1222 | after any sequence of writes a body lists what it listed before and then everything sent, in the order sent |
| Listing.ContinuationStays | pkg/lower/lower.go:1141-1147 | a reserved continuation keeps its place: it is always carried by a live node, and what stands from there on is everything sent since |
| Listing.ReservedFound | pkg/lower/lower.go:1234-1257 | a continuation just reserved is found at the end of the body with nothing behind it |
| Listing.StatementWritten | pkg/lower/lower.go:1117-1222 | lowering any statement is a sequence of such writes to the top body, nodes placed empty and filled later included |
| Listing.StatementListed | pkg/lower/lower.go:1117-1222 | so it leaves what was listed in its order with its own code behind it, and every continuation that could be found stays found with that code behind it |
| ControlIds.StmtAdds | pkg/lower/lower.go:1270-1281 | the code of a statement uses exactly the IDs that were taken for it, each once, as a node or as a placeholder that was replaced |
| ControlTable.RecordedFrom | pkg/lower/lower.go:1137-1147 | a body that uses each ID once and whose rows were kept is recorded: live rows are its nodes, the others name the node in their place, branches lead to rows, and links stand as the context set them |
| ControlTable.LiveStands | pkg/lower/lower.go:1141-1147 | in a recorded tree following the replacements of any row ends at a node of the tree, the node itself or the one that stands where the placeholder stood |
| ControlTable.Live | pkg/lower/lower.go:1141-1147 | following replacements, whose IDs only grow, ends at a node that was not replaced |
| LowererState.Lowerer.constructor | pkg/lower/lower.go:1055-1075 | the root has ID 0 and links to the function exit, ID 1, which is the only node of the root body and continues the root |
| LowererState.Lowerer.Register | pkg/lower/lower.go:1270-1281 | a registered element gets the next ID, which is its index in the table; its row is fresh and no other row changes |
| LowererState.Lowerer.SetLinks | pkg/hir/control.go:36-47 | one row gets the three links, which stay inside the table, and no other row changes |
| LowererState.Lowerer.AppendContinuationAfter | pkg/lower/lower.go:1234-1257 | a new empty placeholder ends the body, but before the function exit; its row names the predecessor, the predecessor's Next is the placeholder, no other row or body changes, and the Next links of the invariant hold again |
| LowererState.Lowerer.EmitNode | pkg/lower/lower.go:1167-1195 | an instruction goes into the open placeholder, with no row changed, or into a fresh one that continues the last control node and that this node's Next, or at the start of the root body the root's Next, then leads to; lower bodies stay untouched |
| LowererState.Lowerer.AppendNode | pkg/lower/lower.go:1117-1165 | a control node is registered and placed: in the place of an empty placeholder, which then names it while the Next of what it continued leads to the node, inside a filled one, or before the function exit, where the Next of the root leads to it |
| LowererState.Lowerer.TakePlace | pkg/lower/lower.go:1137-1146 | the replaced placeholder records the node that stands where it stood, the Next of what it continued leads to that node, and no other row changes |
| LowererState.Lowerer.PopBody | pkg/lower/lower.go:1085-1096 | popping gives the finished top body and leaves the ones below as they were when it was pushed |
| LowererState.Lowerer.LowerExpression | pkg/lower/lower_expr_complex.go:761-820 | the in-place lowering of an expression writes what module Lowering says, keeps the invariant and tells whether a new basic block was begun |
| LowererState.Lowerer.LowerStatement | pkg/lower/lower_stmt.go:74-173 | the same for statements; loop stack, area stack and lower bodies are restored, and the table keeps all older rows but for the Next links and replacements of what it continues |
| LowererState.Lowerer.Terminate | pkg/lower/lower.go:904-931 | the areas of the stack are ended from the top down, then the return or panic is written, and the stack stays |
| LowererState.Lowerer.LowerAreaStmt | pkg/lower/lower_stmt.go:181-212 | the area's register is on the stack just while its body is lowered |
| LowererState.Lowerer.LowerIfStmt | pkg/lower/lower_control.go:13-81 | the `if` node is placed first and its bodies are filled in afterwards, with the continuation behind it |
| LowererState.Lowerer.LowerBranches | pkg/lower/lower_control.go:33-81 | both branches are lowered into the node, and its row keeps the break link to the continuation and no other |
| LowererState.Lowerer.LowerForStmt | pkg/lower/lower_control.go:152-273 | block, loop and continuation get their IDs in that order, the loop context is pushed just for the loop, and both rows keep their links: break to the continuation, and continue of the loop to itself |
| LowererState.Lowerer.LowerSwitchStmt | pkg/lower/lower_switch_return.go:236-371 | block, table and bucket bodies are written in place, with the switch context on the loop stack |
| LowererState.Lowerer.LowerSwitchNode | pkg/lower/lower_switch_return.go:236-371 | the block of the switch keeps its break link to the continuation while table and bodies are lowered into it |
| LowererState.Lowerer.GroupCases | pkg/lower/lower_switch_return.go:217-240 | the two loops over clauses and keys give the buckets in order of appearance, and the table slots that lead to them |
| LowererState.Lowerer.LowerAllBuckets | pkg/lower/lower_switch_return.go:287-358 | each bucket gets its chain, in order |
| LowererState.Lowerer.LowerFunctionBody | pkg/lower/lower_func.go:30-68 | the whole in-place lowering of a function gives the tree of module Lowering, closed by the function exit, and a table that records it; each continued node's Next is what stands where its continuation was put, and the root's is what was last put behind it |
| Threading.ContinuationThreads | pkg/lower/lower.go:1234-1257 | adding a continuation behind a node that has none keeps the Next links right, whatever the bodies under construction |
| Threading.PlaceThreads | pkg/lower/lower.go:1117-1165 | so does sending a control node, whether it replaces a placeholder, goes into one or is the first in its body |
| Threading.LinksThreads | pkg/hir/control.go:36-47 | so does setting the links of a node, when its Next is what stands behind it and `break` leads out of a node that it continues |
| SwitchTable.TableSelects | pkg/lower/lower_switch_return.go:191-371 | for keys of any type, dispatch selects the first matching clause or the default as soon as a listed value goes to the bucket it was filed under |
| SwitchTable.ChainIsFirstMatch | pkg/lower/lower_switch_return.go:295-300 | looking only at the keys of a value's own bucket finds the first clause that lists it |
| SwitchTable.BucketsAgree | pkg/lower/lower_switch_return.go:425-445 | the compile-time and the run-time bucket of an integer are the same exactly when it is not negative |
| SwitchTable.SelectedExact | pkg/lower/lower_switch_return.go:301-358 | the clause of a switch is the first that lists the value, else the last one that lists nothing, else none |
| SwitchTable.TableSizeLeast | pkg/lower/lower_switch_return.go:490-497 | the table has the smallest of the five sizes that is filled to two fifths at most, else the largest |
| SwitchTable.OrderGrows | pkg/lower/lower_switch_return.go:217-240 | buckets are numbered in the order of their first keys: later keys only add buckets behind |
| Dispatch.TextTableExact | pkg/lower/lower_switch_return.go:374-396 | a switch on strings gets a table exactly when all keys are strings and at least four clauses have any |
| SwitchTable.BucketOrder | pkg/lower/lower_switch_return.go:225-233 | the buckets are those of the keys, each once |
| StringSwitch.StringSwitchHash | pkg/lower/lower_switch_return.go:447-462 | the loop computes the hash that HashIsFnv1a describes, with 32 or 64 bit wrap-around |
| StringSwitch.HashIsFnv1a | pkg/lower/lower_switch_return.go:447-462 | at both widths one more byte takes the hash to the wrapped product of the FNV prime and the number that differs from the hash in just the bits of the byte; the empty string has the FNV offset basis |
| StringSwitch.DifferOnce | pkg/lower/lower_switch_return.go:456-461 | only one number differs from another in given bits, so the hash is fixed by this |
| StringSwitch.HashOfA | pkg/lower/lower_switch_return.go:447-462 | the hash of "a" is the published one, 0xE40C292C and 0xAF63DC4C8601EC8C |
| StringSwitch.StringSelects | pkg/lower/lower_switch_return.go:425-488 | a string switch selects through the table what first match selects, whatever collides, though the run-time hash is a signed word; the emitted code is covered by SwitchExact and ChainRun |
| Normalize.Function.FlattenTransparentBlocks | pkg/hir/control_normalize.go:6-24 | the pass leaves the control table alone; afterwards no body at any depth is a single placeholder of instructions that no link or branch names, and the IDs before are those after and those of the placeholders that came to that |
| Normalize.Pass.MarkBody | pkg/hir/control_normalize.go:32-64 | marking adds exactly the IDs that the branches of a body name |
| Normalize.Pass.Rewrite | pkg/hir/control_normalize.go:66-98 | rewriting a body in place yields its flattening, of which NoneLeft and ExactlyGone say what has gone |
| Normalize.NoneLeft | pkg/hir/control_normalize.go:86-98 | after flattening no body, at any depth, is a single unnamed placeholder of instructions and returns |
| Normalize.ExactlyGone | pkg/hir/control_normalize.go:66-98 | as multisets the IDs before are the IDs after and those of the unnamed placeholders that stood alone and held nothing else than instructions or another such placeholder |
| Normalize.LinkIdsExact | pkg/hir/control_normalize.go:6-24 | an ID counts as named by links exactly when some row has it as Next, break or continue link |
| Normalize.FlattenRun | pkg/hir/control_normalize.go:66-98 | the flattened body does what the body did |
| Normalize.FlattenKeeps | pkg/hir/control_normalize.go:86-98 | no node that a link or branch names disappears, no node is added, and the branches say what they said |
| Normalize.FlattenTwice | pkg/hir/control_normalize.go:66-98 | flattening again changes nothing |
| Normalize.PassTwice | pkg/hir/control_normalize.go:6-24 | the whole pass again, with its references computed anew, changes nothing |
| Normalize.FlattenAccepted | pkg/hir/control.go:307-397 | a body the validator accepts is accepted after flattening |
| Normalize.AcceptsExact | pkg/hir/control.go:307-397 | the validator accepts a body exactly when every node that lies in it is fine: a branch goes to a label around it, and each other control node has a label that no node around it has |
| SequentialLoader.Loader.LoadSequential | pkg/loader/loader.go:302-420 | the worklist loads the least set of files that contains the entry files and is closed under imports, each file once |
| SequentialLoader.Loader.QueueImports | pkg/loader/loader.go:387-418 | a package's files are queued when it is imported for the first time |
| SourceTree.ReachableUnique | pkg/loader/loader.go:302-420 | there is only one such set |
| ForkedLoader.InvKept | pkg/loader/loader.go:451-502 | every step of every goroutine and of the wait loop keeps the invariant: what is named is visited, started or in hand, and every visited file belongs to one job |
| ForkedLoader.RunKeepsInv | pkg/loader/loader.go:451-502 | so it holds at every point of every interleaving |
| ForkedLoader.FinishedIsComplete | pkg/loader/loader.go:472-488 | when the wait loop ends, every started job is done, none can start another, the loaded set is the reachable one and every file was collected once |
| ForkedLoader.ForkedMatchesSequential | pkg/loader/loader.go:451-502 | every interleaving that ends loads what the sequential loader loads |
| ForkedLoader.SharesKept | pkg/loader/loader.go:504-517 | visited files and the files that jobs hold stay the same multiset through every step |
| ForkedLoader.CoveredKept | pkg/loader/loader.go:519-567 | no import is lost between the locked check and the start of its job |
| ForkedLoader.NeverStuck | pkg/loader/loader.go:472-488 | in every state that is not finished some step is possible |
| ForkedLoader.NoEndlessRun | pkg/loader/loader.go:519-567 | every interleaving is finite: each step lowers a measure |
| TokenStream.MaximalMunch | pkg/lexer/lexer.go:169-318 | the operator that is read is the longest one in the table that the text starts with |
| TokenStream.LexFollowsRule | pkg/lexer/lexer.go:121-159 | the token sequence is the one the semicolon rule defines: a semicolon exactly once where a line break, a comment with one or the end of the text follows a token that allows it; LaidOutRead says so of the texts themselves |
| Spacing.NextSkips | pkg/lexer/lexer.go:88-159 | blanks, line breaks and comments in front of a text are skipped, but a break or a comment with one is read as a semicolon behind a token that can end a statement |
| Spacing.LastComment | pkg/lexer/lexer.go:88-92 | a line comment at the end of the text is like the end of the text |
| Spacing.EndingsExact | pkg/lexer/lexer.go:75-86 | the thirteen kinds of tokens that can end a statement |
| Spacing.LaidOutRead | pkg/lexer/lexer.go:121-378 | tokens with any blanks, breaks and comments between them are read back, with exactly the semicolons that the breaks and the end of the text stand for |
| TokenStream.LexAll | pkg/lexer/lexer.go:121-378 | lexing any text ends in EOF after at most twice as many tokens as bytes and two more |
| TokenStream.EndStays | pkg/lexer/lexer.go:347-356 | at the end the lexer stays there |
| TokenPrinting.RoundTrip | pkg/lexer/lexer.go:121-378 | tokens printed with single spaces are read back, with the semicolon that the end of the text adds |
| TokenPrinting.ScanShown | pkg/lexer/lexer.go:161-378 | every kind of token, words, numbers in four bases and floats, strings, characters and operators, is read back from its text |
| TokenPrinting.QuotedShown | pkg/lexer/lexer.go:447-519 | any contents survive the escape table of string and character literals |
| TokenPrinting.KeywordExact | pkg/token/token.go:131-200 | a word is a keyword exactly when it is on the list, and its kind is then the word in capitals |
| Literals.RawRead | pkg/lexer/lexer.go:521-537 | a raw string is its contents, line breaks and backslashes included |
| Literals.EscapesRead | pkg/lexer/lexer.go:447-519 | the escapes and the codes of the characters they stand for; only a character literal has an escaped single quote |
| Literals.UnknownEscape | pkg/lexer/lexer.go:447-519 | any other escape keeps its backslash |
| Literals.LineInLiteral | pkg/lexer/lexer.go:447-519 | a character literal ends with its line, a string goes on |
| Literals.UnclosedRead | pkg/lexer/lexer.go:447-519 | a literal that the text ends in is decoded up to there |
| Literals.DecimalMaximal | pkg/lexer/lexer.go:392-436 | a decimal number goes on over digits and underscores and over the first point that a digit follows, and no further |
| Literals.IllegalRead | pkg/lexer/lexer.go:370-378 | each character that starts no token is one illegal token, in UTF-8 |
| LexerState.Lexer.NextToken | pkg/lexer/lexer.go:121-378 | one call gives the token of the specification, for which NextSkips and LastComment say what is skipped, and its line and column, moves the position behind exactly that token and records its kind |
| Positions.MissedExact | pkg/lexer/lexer.go:94-159 | lines miss exactly the line breaks inside string and character literals read so far; places stay right exactly as long as there are none |
| Positions.MovedExact | pkg/lexer/lexer.go:49-58 | counted character by character, the line is the number of breaks and the column the distance from the last one |
| LexerState.Lexer.SkipToToken | pkg/lexer/lexer.go:124-159 | the skipping loop stops where the specification stops, for a semicolon or at a token, and counts lines and columns on the way |
| LexerState.Lexer.SkipMultiLineComment | pkg/lexer/lexer.go:94-115 | a block comment is skipped to its end or the end of the text, and its line breaks are noticed |
| LexerState.Lexer.ReadNumber | pkg/lexer/lexer.go:392-436 | the loops read the longest number of the right base and tell integers from floats |
| LexerState.Lexer.ReadQuoted | pkg/lexer/lexer.go:447-519 | the loop decodes a literal up to its quote, also when the text ends in it |
| BuildConstraints.EvalPrinted | pkg/loader/build_constraints.go:240-324 | a boolean expression printed with the parentheses that precedence asks for, tokenized and evaluated, gives its truth value and is read to its end |
| BuildConstraints.Tokenize | pkg/loader/build_constraints.go:246-275 | the loop yields the tokens of the specification and skips what it does not know |
| BuildConstraints.TextTokens | pkg/loader/build_constraints.go:246-275 | the text of an expression is tokenized to the tokens it was printed from |
| BuildConstraints.WordIsTag | pkg/loader/build_constraints.go:263-272 | a word of ASCII letters, digits and underscores is one tag |
| BuildConstraints.TagCharExact | pkg/loader/build_constraints.go:263-266 | the codes of the characters of tags, over all of Latin-1 |
| BuildConstraints.OtherTokens | pkg/loader/build_constraints.go:246-275 | every character that is no tag, parenthesis or operator is passed over |
| BuildConstraints.Unclosed | pkg/loader/build_constraints.go:302-324 | a formula behind an opening parenthesis that is never closed has its value and is read to the end |
| BuildConstraints.Trailing | pkg/loader/build_constraints.go:286-324 | what stands behind a formula and is no operator is not looked at |
| BuildConstraints.AndMissing | pkg/loader/build_constraints.go:294-324 | a conjunction without its last operand is false |
| BuildConstraints.OrMissing | pkg/loader/build_constraints.go:286-324 | a disjunction without its last operand has the value of the others |
| BuildConstraints.BuildParser.Or | pkg/loader/build_constraints.go:286-293 | the parser's loop computes the truth value by recursive descent; on any tokens it ends within the list |
| BuildConstraints.BuildParser.And | pkg/loader/build_constraints.go:294-301 | the same for `&&` |
| BuildConstraints.BuildParser.Unary | pkg/loader/build_constraints.go:302-324 | the same for `!`, parentheses, tags and tokens that fit nowhere |
| BuildConstraints.EvalBuildExpr | pkg/loader/build_constraints.go:240-244 | evaluating a text is parsing its tokens from the start |
| GraphImage.SerializeGraph | pkg/memoryblock/graph.go:41-98 | the image is written exactly when all relocations fit, and is header, patched payload and relocation table; else the first one that does not fit is refused, or crashes where the payload is too short for the check |
| GraphImage.ReadGraph | pkg/memoryblock/graph.go:103-134 | for any bytes: refused for the header, for sizes that do not describe it exactly or for a relocation out of range, each exactly when; a crash exactly when declared sizes wrap around; otherwise its parts come back |
| GraphImage.RoundTrip | pkg/memoryblock/graph.go:41-134 | what is written is read back: root, heap, relocations and schema hash |
| GraphImage.FileLayout | pkg/memoryblock/graph.go:41-98 | the file byte by byte: magic, version 3, seven words, the patched payload at 64, then each relocation with source before target |
| GraphImage.SlotHolds | pkg/memoryblock/graph.go:60-65 | a slot that no later one overlaps holds its target, moved by the base |
| GraphImage.OutsideSlots | pkg/memoryblock/graph.go:139-147 | restoring changes nothing outside the slots |
| GraphImage.RestoreAgain | pkg/memoryblock/graph.go:139-147 | restoring again at another base is restoring at that base alone |
| GraphImage.RestoreGraphPointers | pkg/memoryblock/graph.go:139-147 | in place, for any length and capacity: all slots are moved, or the first relocation that is not carried out stops it with the ones before done, refused or crashed |
| GraphImage.EndingExact | pkg/memoryblock/graph.go:139-147 | with room for a pointer restoring never crashes and is refused exactly when a relocation does not fit; in a shorter payload what passes writes behind the payload |
| GraphImage.RangeCheckExact | pkg/memoryblock/graph.go:60-63 | the wrapping range check lets exactly the fitting relocations pass when the payload has room for a pointer, and which others in a shorter one |
| Container.Serialize | pkg/memoryblock/format.go:41-62 | the block is written exactly when all pointers lie in the payload |
| Container.DecodeHeader | pkg/memoryblock/format.go:66-81 | a file is accepted exactly when magic, version and total size are right; each refusal has its exact condition |
| Container.RoundTrip | pkg/memoryblock/format.go:41-81 | a written block comes back |
| Container.FileLayout | pkg/memoryblock/format.go:41-62 | the file byte by byte: magic, version 1, the two sizes, zero bytes, the data at 32 and the pointers behind it |
| Words.LittleEndian | pkg/memoryblock/format.go:41-62 | the bytes of a word, lowest first |
| Container.RoundTripFile | pkg/memoryblock/format.go:41-81 | an accepted file that is written again is the same file but for the unused header bytes, unless it names a pointer outside the payload |
| Schema.SchemaHash | pkg/memoryblock/schema.go:19-28 | the hash is that of StringSwitch at 64 bits, FNV-1a, over the bytes that BytesInOrder lists |
| Schema.BytesInOrder | pkg/memoryblock/schema.go:19-43 | the name of the group, then name, type, kind and size of each field in order, each followed by NUL |
| Schema.BytesOfOne | pkg/memoryblock/schema.go:19-43 | the twelve bytes of a group of one field |
| Schema.Utf8Decodes | pkg/memoryblock/schema.go:25-26 | kinds and sizes are hashed as the one to four bytes of UTF-8 that hold the character's bits |
| Schema.SchemaDetermined | pkg/memoryblock/schema.go:19-43 | two groups give the same bytes exactly when names and types are the same and kinds and sizes are the same characters |
| Schema.AlikeExact | pkg/memoryblock/schema.go:25-26 | for all kinds and sizes: two are taken for the same exactly when their low 32 bits are, or neither is a character other than U+FFFD |
| Schema.Utf8Splits | pkg/memoryblock/schema.go:40-43 | a character ends by itself, so that a following NUL byte is a separator even when the character is NUL |
| MemoryMap.Layout.Build | pkg/lower/lower.go:470-534 | one field for each variable of known type, in order, with its kind, type ID and the next multiple of 8 as offset, so that ranges are disjoint and inside the total size; slots and rows are those of the fields, the rows form a numbered tree, and the hash is that of name, types, kinds and sizes |
| MemoryMap.FieldsExact | pkg/lower/lower.go:470-496 | there is a field for just the variables of known type, in order and with what is known of them, each on the first multiple of 8 not before the end of the one in front |
| MemoryMap.KindsExact | pkg/lower/lower.go:518-534 | the numbers that the kinds of fields are hashed as |
| MemoryMap.SizesExact | pkg/sema/sema.go:130-142 | slices are a pointer and eight bytes, maps a pointer, and the elements of an array lie side by side |
| MemoryMap.SchemaFixesLayout | pkg/lower/lower.go:497-517 | two groups with NUL-free names and sizes below the surrogates hash the same bytes exactly when they agree in name, field names, types, kinds, sizes and also offsets, which are not hashed |
| MemoryMap.Layout.AppendHeapSlots | pkg/lower/lower.go:536-582 | the slots of a type are appended and the buffers are numbered 0, 1, 2 and so on; HeapSlots says which and where |
| HeapSlots.SlotsExact | pkg/lower/lower.go:536-582 | the k-th slot is that of the k-th access path through fields at their packed offsets, array elements and slice buffers: the offset of the string, slice or map there, plus a pointer size but for maps |
| HeapSlots.PathsAll | pkg/lower/lower.go:536-582 | every access path to a string, slice or map has its slot |
| HeapSlots.PathsOrdered | pkg/lower/lower.go:536-582 | the paths come in order: a value before what it holds, fields and elements by their index |
| HeapSlots.SlotsApart | pkg/lower/lower.go:536-582 | where sizes have room, the slots of one buffer do not overlap and stay inside the value |
| HeapSlots.GroupSlotsExact | pkg/lower/lower.go:480-496 | the slots of a group are those of all fields at their offsets, each reached and none left out |
| MemoryMap.Layout.Walk | pkg/lower/lower.go:626-666 | the metadata rows of a type are appended; MetaRows says which, with what parent, position and chunk |
| MetaRows.RowsExact | pkg/lower/lower.go:626-666 | the rows of a value are those of the access paths in order: for a string or slice pointer and payload, for a map pointer, header, pointer and entries, each with its kind, offset, chunk and the row it hangs on |
| MetaRows.GroupRowsExact | pkg/lower/lower.go:470-496 | the rows of a group are the root and those of its fields, which hang on the root |
| MetaRows.RowNumbers | pkg/lower/lower.go:602-624 | a row's ID is its number within its kind plus 0x1000 for map headers, 0x2000 for entries, 0x3000 for payloads and 0x4000 for pointers |
| MemoryMap.WalkedSound | pkg/lower/lower.go:626-666 | the rows stay a tree with parents before children and stay numbered kind by kind |
| MemoryMap.DistinctExactly | pkg/lower/lower.go:602-624 | row IDs differ exactly when there are at most 0x1000 map headers and 0x1000 payloads |
| MemoryMap.PackedBounds | pkg/lower/lower.go:559-569 | struct packing never moves back and skips less than the alignment, whatever the alignment |
| MemoryMap.PackedBits | pkg/lower/lower.go:559-569 | bit by bit, packing keeps of offset plus alignment minus one what the mask does not have, for any alignment |
| MemoryMap.PackedAligned | pkg/lower/lower.go:559-569 | packing aligns every offset exactly when the alignment is a power of two |
| Offsets.XorBits | pkg/lower/lower.go:1419-1424 | xor with a word of equal bits is the identity or the complement, as the number model of words takes it |
| Offsets.EncodeDecode | pkg/lower/lower.go:1403-1451 | moving a view keeps it literal or ordinary and adds to its offset, exactly as long as the offset stays below 2^31 |
| Offsets.FoldingAgrees | pkg/lower/lower.go:1414-1443 | folding constants gives the 32 bits that the emitted shift, add and xor compute |
| Slices.ChainShows | pkg/lower/lower_expr.go:714-735 | after any chain of slice expressions the offset is the sum of the low bounds, the literal state is the first one's, and the view shows what slicing the sequence shows |
| Slices.Memory.Append | pkg/lower/lower_call_dispatch.go:700-841 | append returns the old elements and the new ones, grows by the stated rule, copies only then, and changes no view that ends before the written elements, exactly unless it overruns; then it stores the rest behind the block |
| Slices.SlicedOverruns | pkg/lower/lower_call_dispatch.go:700-841 | of a full block whose first k elements were sliced off, appending overruns exactly for 1 to k values |
| Slices.AppendAll | pkg/lower/lower_call_dispatch.go:700-841 | over any sequence of appends to an empty slice, growing copies at most one and a half times the final length in all |
| Slices.GrowingStaysCheap | pkg/lower/lower_call_dispatch.go:789-794 | one append keeps the cost bound against length and capacity |

## Left out

- Statements.StmtRun: a `continue` that leaves a switch, a `break` or `continue` that leaves an area, and negative switch keys are kept out, because the code does not follow the source there; `Statements.SwitchMeets`, `Statements.AreaExact` and `Dispatch.DispatchExact` say what it does.
- Statements.ForRun: loops are bounded by a number of iterations per activation; `Compile.BoundDoesNotMatter` removes the bound from what is claimed.
- Statements.SwitchExact: switches that get a bucket table. The comparison chain of other switches, and type switches, are not modelled; the string behind a value is given by the outside world, the run-time string functions compute what `StringSwitch` says, and trees hash with 64 bits (`StringSwitch.StringSelects` has both widths).
- LowererState.Lowerer.PopBody: the compiler fills a node's body through pointers into the node while the node already stands in the tree; here a body under construction lives on the stack and is stored into its node when it is popped. `Threading` says where the `Next` links lead; nodes that nothing continues keep 0 there, which is no control flow.
- LowererState.Lowerer.LowerChainFrom: the chain of a bucket is written by recursion into the Else bodies, where the compiler moves the top of the body stack along in a loop.
- Normalize.FlattenAccepted: labels are given by ID; conditional branches and branch tables, which the lowering of these statements does not write, are not modelled.
- MemoryMap.Layout.Build: sizes of scalars, strings and structs and the names and IDs of types are given by semantic analysis; types are finite trees.
- Slices.Memory.Append: lengths stay below 2^31. The arguments are values computed before the call; what is stored behind a block is collected, not what it destroys there.
- GraphImage.ReadGraph: a crash stands for the run-time panic; files are their bytes.
- GraphImage.SerializeGraph: the result is the bytes of the file; the second write that patches the header is one write here. Payload and table together stay below 2^64 bytes.
- ForkedLoader.RunKeepsInv: runs without errors; a step is what happens between two lock operations. Go-Hike mode, which changes the replacement table while loading, and the order of packages are not modelled.
- SequentialLoader.Loader.LoadSequential: imports are given already resolved to cleaned directories; imports that do not resolve are dropped as the compiler drops them.
- LexerState.Lexer.NextToken: the verbose log is not modelled.
- Variables are storage slots already resolved by name: shadowing and the snapshots of the symbol table are not modelled. All values are 64-bit integers.
- Range loops, defer, recover, locks, channels, managed strings and slices with their retain and release calls, and self tail calls are not modelled.
- Legacy basic blocks appear only as the question whether the current one has a terminator; source locations, branch depths and frames are not modelled.
- The parser, semantic analysis, the backends, the runtime, the HTTP and editor servers, packaging and the command line are not modelled. The backend's reading of the tree (pkg/backend/structuredcfg/lower.go) is the meaning given in `Structured`.
- The grouping of string cases by full hash in `stringSwitchBuckets` only decides whether a table is used and is left out.
