# memoturn: verified model of its evaluator language, ingest path and SDK protocols

memoturn collects traces of AI applications. This project models the parts of it whose correctness is not
visible from reading one function, and proves what they promise for all inputs, all runs and all
interleavings. Each module follows one source file or one protocol.

**The evaluator expression language** (`ExprSyntax`, `Tokenizer`, `ExprParser`, `ExprPrinter`, `ExprImage`,
`ExprValues`, `ExprEval`). The tokenizer and the precedence-climbing parser are methods over an index and a
cursor, proved against functions of the remaining text. A printer that writes only the parentheses that
precedence and associativity require is their inverse. White space is needed only between two tokens that
would otherwise read as others (two words, `<` before `=`, a whole number before `.`), and the theorems say so
both ways: a layout lexes back to its tokens exactly when those gaps are there, and compiling such a layout of
a printed tree gives back exactly that tree when the source length and the nesting are within the limits, and
the documented error otherwise. The trees the parser can return are exactly the printable ones that nest
within the limit. The evaluator carries its step counter; it equals a budget-free meaning, and the budget
cannot be reached by a compiled source. Two facts about the code shape these statements. `expect` compares the
text of a token and not its type, so a string token `")"` closes a parenthesis, and the parser accepts more
token lists than the grammar. Chains of unary operators do not count towards the nesting limit, so the nesting
in the theorems is the parser's own count and not the height of the tree. `ExprGrammar`, `ExprVocabulary` and
`ExprLaws` say what the language means without the tables that define it: how operators group, what each text
stands for, and what each construct and each function computes.

**The static star-height scan** (`RegexSafety`). The scan equals a recursive height of the pattern's tree, and
a height of two or more means exactly that a repeated group holds a repetition. The domain is the patterns in
which a bare `{` opens a well-formed quantifier.

**The Go client** (`ChunkBatch`, `ClientBuffer`, `FlushProtocol`, `FlushLaws`). The chunking loop is proved to give
non-empty requests within both limits, in order, and no more of them than any other split. The client object
has its fields and critical sections as methods; the protocol module interleaves any number of enqueuers,
timer flushes, size-triggered flushes and explicit flushes at those critical sections. A POST that fails
transiently may have been accepted by the server, so "acknowledged" means that the client was told.

**The event mapper** (`MergeTable`, `Mappers`, `MapperColumns`, `EventOrder`, `MapperLaws`). A stable sort, insertion-ordered
accumulation, and fallback to stored rows, with the laws of cutting a batch in two, shuffling it, replaying it,
and running many.

**CSV, depth, partition, sampling** (`Csv`, `IngestPartition`, `Sampling`). The character loop, the explicit
stack and the memoised filter against the simple forms they stand for.

**Alerts and budgets** (`Alerts`, `Budgets`). Evaluators that page first and commit after, over runs in which
deliveries and writes fail freely; a write may also be committed although the evaluator is told otherwise.

**Prompt cache and idempotency key** (`PromptCache`, `PromptProtocol`, `Idempotency`,
`IdempotencyProtocol`). Two small concurrent protocols, as step relations with invariants over all runs.

JavaScript numbers and Go durations are modelled as unbounded integers or reals; trace-id hashing uses 32-bit
arithmetic. Text is a sequence of characters. What the model cannot see (Unicode case, JSON text, regex
execution, `Date.parse`, collation, provider and price tables) is a record of functions handed to the members
that need it; answers of servers, Redis, channels and clocks are parameters or steps. Lemmas switch off
automatic induction, so that each inductive proof is the one written in its body.

## Where the code and its documentation differ

The model follows the code.

- A retried batch goes back ahead of newer events and "nothing is lost" (`sdks/go/client.go:338-343`) only
  while everything fits; `ClientBuffer.PutBack` states when. "Order is kept" only while flushes do not overlap;
  `FlushProtocol.OverlapReorders` is a run that breaks it.
- A budget marker is said to be reset in a new month (`packages/server/src/alerts.ts:469-473`). It is reset only by a
  reading below the lowest step; `Budgets.MarkerReturnsExactlyBelow` says so for all ticks, and
  `Budgets.MissedMonth` is a month that is never announced.
- Callers that wait for a prompt fetch are said to share its result (`sdks/go/prompt.go:112`,
  `sdks/go/prompt.go:154-155`). They re-read the cache. `PromptProtocol.WaiterShares` and
  `PromptProtocol.WaiterOfNoStore` say exactly when that gives the leader's version: the leader's fetch succeeded
  with a positive time to live, and since it stored there was no clearing, no store for the URL and fewer than 500
  other URLs stored; or another leader's store of the same version stands so. `PromptProtocol.WaiterCanFail` is a
  run in which it fails.
- The rate-limited exit of the ingest handler returns without releasing the key; retries are then answered
  "still being processed" until the key expires. `IdempotencyProtocol.LimitBlocksTheKey` shows it from every
  unbroken run, and `IdempotencyProtocol.KeyTellsHowItEnded` says when a key is left so.
- Parsed CSV rows are said to be keyed by their headers (`packages/core/src/csv.ts:69`). A record is a plain object,
  so a header `__proto__` sets nothing and its column is lost (`packages/core/src/csv.ts:81-87`);
  `Csv.KeyedAt` says that every other header holds its cell.

## Model

| member | source | states |
|---|---|---|
| Tokenizer.Tokenize | packages/core/src/expr.ts:81-137 | the index loop yields the tokens, or the first error, of the longest-match lexical grammar |
| Tokenizer.FindOperator | packages/core/src/expr.ts:56-79 | the first operator of the table that the text starts with, so two-character operators win |
| Tokenizer.ReadString | packages/core/src/expr.ts:101-122 | escapes resolved, both quotes, an unterminated string is an error |
| Tokenizer.ReadNumber | packages/core/src/expr.ts:90-100 | the maximal digit run with at most one point |
| Tokenizer.LexOfLayout | packages/core/src/expr.ts:81-137 | tokenizing undoes writing: any token list, written with any white space between its tokens or none, lexes back to itself if and only if there is some between each two tokens that would merge |
| Tokenizer.CompactIsShortest | packages/core/src/expr.ts:81-137 | writing a space exactly between the tokens that would merge is the shortest layout that lexes back |
| ExprParser.ParseExpression | packages/core/src/expr.ts:210-233 | every tree returned has no more nodes than tokens consumed and only known names |
| ExprParser.ParseTokens | packages/core/src/expr.ts:201-208 | the tree of a whole token list has no more nodes than tokens and names only the four variables and the builtins |
| ExprParser.Parser.ParseExpr | packages/core/src/expr.ts:210-233 | the cursor-and-depth method computes the specification on the remaining tokens and restores the depth |
| ExprParser.Parser.ParseUnaryExpr | packages/core/src/expr.ts:235-246 | unary chains, right to left, without counting depth |
| ExprParser.Parser.ParsePostfixExpr | packages/core/src/expr.ts:248-266 | member and index suffixes, left to right |
| ExprParser.Parser.ParsePrimaryExpr | packages/core/src/expr.ts:268-310 | literals, parentheses, variables and calls, with their name checks |
| ExprParser.Parser.ParseArgumentList | packages/core/src/expr.ts:286-296 | the comma-separated arguments of a call |
| ExprParser.Parser.Expect | packages/core/src/expr.ts:186-192 | compares the text of the token only |
| ExprParser.Parser.Run | packages/core/src/expr.ts:201-208 | one expression and then the end of input |
| ExprGrammar.ParseOfChain | packages/core/src/expr.ts:153-233 | a chain of operands and binary operators, of any length, parses to its grouping: split at the last operator of its loosest class among or; and; == !=; < <= > >=; + -; * / %, and again on both sides; prefixes and property names bind tighter |
| ExprGrammar.TwoOperators | packages/core/src/expr.ts:153-233 | of x o1 y o2 z the middle operand goes to o2 if and only if o2 is of a tighter class |
| ExprGrammar.ParseOfConditional | packages/core/src/expr.ts:223-230 | `?` and `:` between chains make a conditional of the three, looser than every operator |
| ExprGrammar.ConditionalsNestRight | packages/core/src/expr.ts:223-230 | a second conditional after the colon is the last part of the first |
| ExprVocabulary.InfixSpelling | packages/core/src/expr.ts:56-79 | each binary operator is read from its text, words and signs alike |
| ExprVocabulary.PrefixSpelling | packages/core/src/expr.ts:235-246 | so are `-`, `!` and `not` |
| ExprVocabulary.OneCharacter | packages/core/src/expr.ts:81-137 | what a source of one character is, for every character |
| ExprVocabulary.QuotedCharacter | packages/core/src/expr.ts:101-122 | in either quotes a character is itself, and after a backslash too, but for `n`, `t` and `r` |
| ExprVocabulary.WholeNumber | packages/core/src/expr.ts:270 | the value of a number text, digit by digit |
| ExprVocabulary.DecimalNumber | packages/core/src/expr.ts:270 | behind the point each digit counts a tenth of the one before |
| ExprVocabulary.OneToken | packages/core/src/expr.ts:268-310 | what a source of one token is, for every token: the literals, the four names, or which error |
| ExprVocabulary.CallReads | packages/core/src/expr.ts:284-301 | a call with any chains as arguments is accepted if and only if its name is one of the 21 listed |
| ExprVocabulary.ParenthesesNest | packages/core/src/expr.ts:210-212 | parentheses around a token nest 63 deep and no deeper |
| ExprVocabulary.TextCloses | packages/core/src/expr.ts:186-192 | in the place of a closing parenthesis a text token is taken if and only if its text is `)` |
| ExprVocabulary.TextSeparates | packages/core/src/expr.ts:186-192 | so in the place of the colon of a conditional |
| ExprPrinter.Compile | packages/core/src/expr.ts:578-584 | a compiled tree has at most as many nodes as its source has characters, at most 4000, and only known names |
| ExprPrinter.CompileExpression | packages/core/src/expr.ts:578-584 | the method that checks, tokenizes and parses computes `Compile` |
| ExprVocabulary.CompileOfChain | packages/core/src/expr.ts:578-584 | from text: a chain in any layout compiles to its grouping, up to 4000 characters |
| ExprPrinter.ParseOfPrint | packages/core/src/expr.ts:201-311 | parsing the minimally parenthesised print of a tree gives the tree if it nests at most 64 deep, else the nesting error |
| ExprPrinter.CompileOfPrint | packages/core/src/expr.ts:81-311 | the same from text, for every layout that keeps merging tokens apart, with the exact outcome beyond either limit |
| ExprPrinter.CompactDecides | packages/core/src/expr.ts:578-584 | some print of a tree compiles to it if and only if it nests within 64 and its compact print has at most 4000 characters |
| ExprImage.ParserImage | packages/core/src/expr.ts:201-311 | a tree is the result of some parse if and only if it is printable and nests within the limit |
| ExprImage.PrintIsNormalForm | packages/core/src/expr.ts:573-584 | whatever source a tree came from, its print parses to the same tree, and compiles to it from every layout that keeps merging tokens apart and has at most 4000 characters |
| ExprValues.DeepEqualIsCanonical | packages/core/src/expr.ts:326-345 | structural equality holds if and only if the values are the same up to key order |
| ExprValues.DeepEqualIsEquivalence | packages/core/src/expr.ts:326-345 | it is reflexive, symmetric and transitive |
| ExprValues.OrderingsAgree | packages/core/src/expr.ts:485-502 | the four orderings are mirrors and negations of each other on all values, mixed types included |
| ExprEval.EvalNode | packages/core/src/expr.ts:524-571 | from any spent budget: the budget-free meaning and the exact number of steps if the visits fit, else the budget error |
| ExprEval.EvalBinary | packages/core/src/expr.ts:544-557 | the same for binary operators with their short circuits |
| ExprEval.EvalArguments | packages/core/src/expr.ts:560-569 | the same for arguments, evaluated left to right up to the first error |
| ExprEval.VisitsAtMostSize | packages/core/src/expr.ts:524-571 | an evaluation enters each node at most once |
| ExprEval.CompiledFitsBudget | packages/core/src/expr.ts:38-45 | from characters to nodes to steps: the 20,000-step error cannot occur on a compiled source |
| ExprEval.EvaluateSource | packages/core/src/expr.ts:593-596 | evaluating a source gives its syntax error or the budget-free meaning, never the budget error |
| ExprEval.RunExpression | packages/core/src/expr.ts:604-624 | a score comes out, with the value it was made from, exactly for a boolean or a number from 0 to 1, and lies there; anything else is an error with the value |
| ExprLaws.ScoresAre | packages/core/src/expr.ts:613-624 | a score is 1 for true, 0 for false, and a number from 0 to 1 for itself |
| ExprLaws.NamesRead | packages/core/src/expr.ts:525-530 | a literal is its value, and each of the four names reads its own field of the context |
| ExprLaws.NumbersCombine | packages/core/src/expr.ts:504-522 | on operands that read as numbers: sum, difference, product, and quotient with 0 for division by 0 |
| ExprLaws.RemainderIs | packages/core/src/expr.ts:519-521 | the remainder is smaller than the divisor, has the sign of the dividend and differs from it by a multiple of the divisor; 0 for divisor 0 |
| ExprLaws.RemainderIsUnique | packages/core/src/expr.ts:519-521 | which fixes it |
| ExprLaws.TextsJoin | packages/core/src/expr.ts:505-506 | `+` with a text on one side joins the two as texts |
| ExprLaws.OthersFail | packages/core/src/expr.ts:507-509 | other arithmetic on what does not read as a number is an error |
| ExprLaws.MinusNegates | packages/core/src/expr.ts:538-543 | the prefix minus negates, or is an error |
| ExprLaws.NumbersOrder | packages/core/src/expr.ts:485-502 | the four orderings of numbers are those of the numbers |
| ExprLaws.TextsOrder | packages/core/src/expr.ts:485-502 | all other pairs are ordered as texts, by the first character in which they differ |
| ExprLaws.EqualityIsSameness | packages/core/src/expr.ts:485-487 | `==` and `!=` compare JSON values up to the order of keys |
| ExprLaws.NotIs | packages/core/src/expr.ts:477-483 | `not` holds exactly of null, false, 0, and the empty text, array and object |
| ExprLaws.AndOrAre | packages/core/src/expr.ts:545-552 | `and` and `or` in terms of those values, the right operand evaluated only when needed |
| ExprLaws.ConditionalIs | packages/core/src/expr.ts:558-559 | a conditional is its second part when the test is none of those values, else its third |
| ExprLaws.ErrorsWin | packages/core/src/expr.ts:524-559 | the first error met is the outcome |
| ExprLaws.MembersRead | packages/core/src/expr.ts:462-475 | what `.` and brackets read of each kind of value, and the three forbidden names |
| ExprLaws.WrongCountsFail | packages/core/src/expr.ts:560-568 | a wrong number of arguments is an error, whatever they are |
| ExprLaws.TextFunctions | packages/core/src/expr.ts:371-384 | `len`, `isEmpty`, `lower`, `upper` and `trim` |
| ExprLaws.JsonFunctions | packages/core/src/expr.ts:385-431 | `jsonValid`, `jsonParse` and `words` |
| ExprLaws.NumberFunctions | packages/core/src/expr.ts:437-439 | `num`, `abs`, and `round` to the nearest whole number, up from the middle |
| ExprLaws.SmallerAndGreater | packages/core/src/expr.ts:440-441 | `min` and `max` |
| ExprLaws.SearchFunctions | packages/core/src/expr.ts:373-410 | `contains` in arrays and texts, `startsWith`, `endsWith` and `exactMatch` |
| ExprLaws.OtherFunctions | packages/core/src/expr.ts:392-443 | `has`, `coalesce`, `jsonPath`, and when `matches` runs a pattern |
| ExprEval.DeMorgan | packages/core/src/expr.ts:538-552 | `not` over `and` and `or`, errors and skipped operands included |
| ExprEval.GuardedAccess | packages/core/src/expr.ts:545-549 | behind `has(x, k) and` the right side is not evaluated when the key is missing, and the access succeeds when it is there |
| ExprEval.MatchesRejectsNested | packages/core/src/expr.ts:392-409 | `matches` fails on every pattern of the domain with a repetition inside a repeated group |
| RegexSafety.ComputeMaxStarHeight | packages/core/src/regexsafety.ts:24-106 | the walk over a shared index computes the scan of the text |
| RegexSafety.Scanner.WalkLevel | packages/core/src/regexsafety.ts:27-103 | one nesting level: its height, and the index left at the closing parenthesis or the end |
| RegexSafety.ScanIsStarHeight | packages/core/src/regexsafety.ts:15-106 | on the text of a tree the scan returns the recursive star height and consumes exactly the text |
| RegexSafety.HeightMeans | packages/core/src/regexsafety.ts:15-19 | height at least one means some repetition, at least two a repetition under a repetition, both ways |
| RegexSafety.GuardRejectsNested | packages/core/src/regexsafety.ts:15-23 | the guard threshold is met if and only if a repeated group holds a repetition |
| ChunkBatch.ChunkBatch | sdks/go/client.go:307-336 | the chunks flatten to the sendable events in order, none is empty, each fits both limits, none could take the next event |
| ChunkBatch.FewestRequests | sdks/go/client.go:48-57 | no order-preserving split within the limits uses fewer requests |
| ChunkBatch.ChunkingIsUnique | sdks/go/client.go:307-336 | those properties determine the chunks |
| ChunkBatch.TakenIsPartitioned | sdks/go/client.go:314-324 | every event taken is sendable, unserializable or oversize, and in one of the three exactly once |
| ChunkBatch.RequestsAreBounded | sdks/go/client.go:310-336 | in bytes: an event is sent if and only if its JSON form is below 10,485,760 bytes, and a request takes at most that much, one separator an event included |
| ChunkBatch.ClampBatchSize | sdks/go/client.go:143-153 | the option lands in 1 to 1000 and keeps a value already there |
| ClientBuffer.Advice | sdks/go/client.go:382-405 | the Retry-After advice is between 0 and 60 seconds |
| ClientBuffer.Judge | sdks/go/client.go:409-454 | accepted, rejected or transient; a transient answer carries capped advice |
| ClientBuffer.PutBack | sdks/go/client.go:456-474 | the batch goes ahead of newer events; all is kept if and only if all fits, else the cap is filled and the warning is up |
| ClientBuffer.DelayIsBounded | sdks/go/client.go:289-305 | every backoff is positive and at most 75 seconds |
| ClientBuffer.ShiftIsSafe | sdks/go/client.go:292-303 | within the failure limit the shift stays in 64 bits; doubling reaches the cap at the sixth failure in a row, not before |
| ClientBuffer.DeliverySplits | sdks/go/client.go:354-374 | each event of the chunks is acknowledged, rejected or left for retry, exactly once |
| ClientBuffer.DeliveryLeavesTail | sdks/go/client.go:361-369 | what is left is a tail of the chunks, non-empty if and only if a transient failure ended the flush |
| ClientBuffer.SendChunks | sdks/go/client.go:354-374 | the sending loop stops at the first transient failure and keeps going over rejects |
| ClientBuffer.Client.Enqueue | sdks/go/client.go:222-252 | full buffers drop and warn once; otherwise append and start at most one background flush |
| ClientBuffer.Client.Rebuffer | sdks/go/client.go:456-474 | the new state, and the one-time warning |
| ClientBuffer.Client.NoteTransientFailure | sdks/go/client.go:289-305 | the failure counter and the backoff deadline |
| ClientBuffer.Client.Flush | sdks/go/client.go:344-380 | undisturbed: what is acknowledged, the new buffer and backoff, and the result, from the server's answers |
| ClientBuffer.Client.FlushQuietly | sdks/go/client.go:276-287 | changes nothing inside the backoff window, else a flush |
| FlushLaws.DeliverySorts | sdks/go/client.go:354-380 | by status codes: before the first answer 408, 429, 500 and up, or none, a chunk answered 200 or 207 is acknowledged and any other rejected; from there on all are left for retry |
| FlushLaws.FlushLeaves | sdks/go/client.go:289-305 | what is left goes back to the buffer, and background flushes wait for the time the answer asked, at most a minute, or else for 1, 2, 4, 8, 16, 32 or 60 seconds with jitter; without a retry answer all is calm |
| FlushLaws.ReplyEnds | sdks/go/client.go:354-380 | the same for one answer in the protocol |
| FlushLaws.EndsHaveTheirAnswers | sdks/go/client.go:407-454 | in every interleaving an event is acknowledged only in a chunk answered 200 or 207, and rejected only in a chunk answered none of these, not 408, 429 or from 500 up, and answered at all |
| FlushLaws.DropsAreJustified | sdks/go/client.go:314-324 | in every interleaving an event is given up unsent only without a JSON form or with one too long for any request |
| FlushLaws.BackoffIsRespected | sdks/go/client.go:276-287 | in every interleaving a background flush is under way only if it was let past its check outside the backoff window |
| FlushLaws.CheckDecides | sdks/go/client.go:276-287 | the check ends the flush inside the window and lets it go on outside |
| FlushProtocol.StepBalances | sdks/go/client.go:222-474 | no step of any thread changes in how many places an event is, relative to what was offered |
| FlushProtocol.EveryEventAccounted | sdks/go/client.go:222-474 | in every interleaving the buffer is within its cap and every offered event is in exactly one place: buffered, in flight, or ended for one named cause |
| FlushProtocol.EveryRunIsDisciplined | sdks/go/client.go:234-251 | at most one size-triggered goroutine lives, exactly while the flag is up; requests fit; the warning is up if and only if the buffer lost events; backoff is at most 75 seconds ahead |
| FlushProtocol.OrderWithoutOverlap | sdks/go/client.go:338-380 | in every run without overlapping flushes the acknowledged events followed by the buffer are in enqueue order |
| FlushProtocol.OverlapReorders | sdks/go/client.go:338-341 | two overlapping flushes can acknowledge events out of order |
| FlushProtocol.FlushIsARun | sdks/go/client.go:344-380 | the object's flush, of an empty buffer too, ends in the state in which the protocol's steps of one flush end |
| FlushProtocol.ShutdownSettles | sdks/go/client.go:476-481 | after any run whose calls have returned, the last flush leaves the buffer empty if and only if no answer was transient; each event offered has then ended exactly once, and otherwise it has ended or is in the buffer |
| Mappers.Accumulate | apps/worker/src/mappers.ts:81-121 | the loop builds the insertion-ordered tables and the score rows of the sorted batch |
| Mappers.MapEvents | apps/worker/src/mappers.ts:72-215 | one row per entity in order of first appearance, from its accumulated fields over its stored row |
| MapperColumns.RowsAre | apps/worker/src/mappers.ts:78-144 | the ids of the rows are the different ids of the batch in the order in which they first come in time order; one row for each score |
| MapperColumns.ColumnsAre | apps/worker/src/mappers.ts:91-215 | every column of every trace, observation and score row: the converted field of that name in the last event that sets it, else the stored row's, else its default; types, times, counts, cost, provider and latency by their rules |
| Mappers.TokensOf | apps/worker/src/mappers.ts:159-168 | reasoning tokens never exceed completion tokens |
| Mappers.ClampTokens | packages/core/src/models.ts:133-137 | token counts land in 0 to 10,000,000; one already there is rounded down, and a missing or non-finite one is 0 |
| MergeTable.FoldConcat | apps/worker/src/mappers.ts:53-58 | accumulating a list cut in two joins what the parts accumulate, for any associative merge |
| EventOrder.SortedIsStableSort | apps/worker/src/mappers.ts:78-79 | the order is sorted, a permutation, and stable on events of equal time |
| EventOrder.SortedConcat | apps/worker/src/mappers.ts:78-79 | a list whose second part is not earlier sorts part by part |
| MapperLaws.TraceRowsAreWritten | apps/worker/src/mappers.ts:123-144 | the returned trace rows are exactly the change of the store |
| MapperLaws.ObservationRowsAreWritten | apps/worker/src/mappers.ts:146-215 | the same for observation rows |
| MapperLaws.CutTraces | apps/worker/src/mappers.ts:11-25 | mapping the second part over the first part's rows stores the same traces as mapping all at once, but for `timestamp` |
| MapperLaws.CutObservations | apps/worker/src/mappers.ts:146-215 | the same for every plain observation column, tokens, type and event time; `cost` and `provider` are the same if and only if the stated conditions on model and usage hold |
| MapperLaws.LastEventDecides | apps/worker/src/mappers.ts:109-119 | an observation's type and event time are those of its last event, by that event's override or else its kind; earlier overrides do not persist |
| MapperLaws.ArrivalDoesNotMatter | apps/worker/src/mappers.ts:78-79 | with distinct event times every permutation of a batch gives the same rows |
| MapperLaws.ReplayChangesNothing | apps/worker/src/mappers.ts:60-70 | re-mapping a batch over its own rows, not before its clock, returns the same rows in every column |
| MapperLaws.ClampHolds | packages/core/src/time.ts:13-18 | a clamped time is a non-date or at most a day ahead; exactly such times are unchanged |
| MapperLaws.TimeColumnsNeverMove | apps/worker/src/mappers.ts:60-70 | over any batches with a clock that never goes back, `timestamp` and `start_time` never change after the first write and are at most a day ahead of that write's clock |
| Csv.ComputeSplitRows | packages/core/src/csv.ts:17-66 | the character loop computes the recursive reader |
| Csv.SplitOfWritten | packages/core/src/csv.ts:16-66 | records written per section 2 of RFC 4180, quoted where needed or anywhere, CRLF or LF, read back exactly, if and only if the text does not begin with a byte order mark |
| Csv.MarkIsDropped | packages/core/src/csv.ts:23-24 | behind one byte order mark they always read back |
| Csv.LastBreakIsOptional | packages/core/src/csv.ts:60-64 | without the last line break all records read back, behind a byte order mark or without one, but for a last record of one empty cell |
| Csv.ComputeKeyed | packages/core/src/csv.ts:81-87 | the in-place filling of one record, in which a header `__proto__` takes no text |
| Csv.KeyedAt | packages/core/src/csv.ts:81-87 | a header holds its cell, a missing trailing cell being the empty text, if and only if it is not `__proto__` |
| Csv.KeysAre | packages/core/src/csv.ts:81-87 | the keys are the headers other than `__proto__`, and no others |
| Csv.ProtoIsLost | packages/core/src/csv.ts:81-87 | a record of the columns `__proto__` and `a` has only the second |
| Csv.ComputeParseCsv | packages/core/src/csv.ts:72-89 | the table, or the missing-header or duplicate-column error |
| Csv.TableOfWritten | packages/core/src/csv.ts:68-89 | a parsed table of written records has their cells under their headers, but for a header `__proto__` |
| Csv.WrittenTableParses | packages/core/src/csv.ts:72-79 | written records parse if and only if a header row is left that is not blank and has no duplicate |
| Csv.BlankRowsAre | packages/core/src/csv.ts:73 | a row is passed over if and only if it is one cell of white space |
| JsText.TrimIs | packages/core/src/csv.ts:77 | trimming takes white space, of the 25 kinds JavaScript knows, off both ends, and all of it |
| IngestPartition.JsonDepth | apps/api/src/ingest-partition.ts:32-46 | the explicit stack computes the recursive depth; with a limit it is exact within it and one above it beyond |
| IngestPartition.PartitionIngestBatch | apps/api/src/ingest-partition.ts:48-81 | accepted events in order with their originals, and the rejections |
| IngestPartition.PartitionIsExact | apps/api/src/ingest-partition.ts:48-81 | every event is accepted or rejected exactly once, under its own index and id, for the first limit it breaks |
| Sampling.ComputeSample | apps/worker/src/sampling.ts:27-35 | the hash loop in 32-bit arithmetic |
| Sampling.SampleIsFnv1a | apps/worker/src/sampling.ts:27-35 | the hash is FNV-1a with its constants, and the sample its last five decimal digits |
| Sampling.KnownHashes | apps/worker/src/sampling.ts:27-35 | two published FNV-1a values |
| Sampling.DiceMean | apps/worker/src/sampling.ts:37-42 | a trace is kept by the dice if and only if 100 times its sample is below the rate, for every rate |
| Sampling.CostOfOne | apps/worker/src/sampling.ts:58-60 | an observation adds its own cost to its trace, a missing one being 0, and nothing to others |
| Sampling.CostAdds | apps/worker/src/sampling.ts:58-60 | the cost of a trace is the sum over its observations |
| Sampling.RulesMatchedTraceIds | apps/worker/src/sampling.ts:49-68 | the ids returned are exactly those for which some keep-rule holds, costs summed per trace |
| Sampling.Decider.Keep | apps/worker/src/sampling.ts:85-97 | the memo always agrees with the memo-free rule and counts rescued traces once |
| Sampling.ApplySampling | apps/worker/src/sampling.ts:70-108 | five tables filtered by one rule; both counters count distinct traces exactly |
| Sampling.WholeTraces | apps/worker/src/sampling.ts:4-20 | a row stays if and only if its trace is kept, in every table |
| Sampling.RowsStayWhen | apps/worker/src/sampling.ts:44-68 | a row stays if and only if its sample is below the rate or an observation of its trace is an error, is slow, or the trace is dear, as far as each rule is set |
| Sampling.RaisingRateKeepsRows | apps/worker/src/sampling.ts:37-42 | raising the rate never drops a row that was kept |
| Alerts.Notify | packages/server/src/alerts.ts:375-385 | delivered if there are no channels or one accepts |
| Alerts.Evaluate | packages/server/src/alerts.ts:397-456 | the status moves only with a delivered and stored page; after such a tick it is firing if and only if the metric is breached |
| Alerts.TickFollowsReading | packages/server/src/alerts.ts:219-230 | when a tick pages, which page, what is stored and what counts as fired, in terms of value and threshold: above for `gt` and every comparator not listed, at least, below and at most for `gte`, `lt` and `lte`, the verdict for the anomaly ones |
| Alerts.SweepFollowsReadings | packages/server/src/alerts.ts:393-462 | after a sweep a rule whose page could be sent and whose write held is firing if and only if its reading is on that side |
| Alerts.SweepIsPerRule | packages/server/src/alerts.ts:393-462 | a sweep treats each rule as if it were alone |
| Alerts.Evaluator.EvaluateAllAlerts | packages/server/src/alerts.ts:393-462 | the loop over states loaded at its start computes the sweep and the number of rules fired |
| Alerts.Evaluator.EvaluateRule | packages/server/src/alerts.ts:398-456 | notify first, then the upsert of the right branch |
| Alerts.StatusFollowsPages | packages/server/src/alerts.ts:422-448 | in every run the status is firing if and only if the last page whose write was stored was FIRING; pages alternate exactly after stored ones |
| Alerts.FiringPagesAreSeparated | packages/server/src/alerts.ts:375-391 | two delivered FIRING pages of a rule have a RESOLVED page between them or the write of the first was lost |
| Budgets.ThresholdsMean | packages/server/src/alerts.ts:175-179 | the steps are never empty, positive and ascending, exactly the positive numbers stored or the defaults |
| Budgets.TickMeans | packages/server/src/alerts.ts:503-527 | a tick pages if and only if a step is due, no cycle starts and a channel accepts; the page names the highest due step; after a stored page no step is due at that ratio |
| Budgets.BudgetStore.EvaluateBudgets | packages/server/src/alerts.ts:474-533 | every budget is evaluated on its own reading; the result counts the notifications seen to be stored |
| Budgets.CyclesClimb | packages/server/src/alerts.ts:469-533 | in every run, within a cycle, stored steps strictly increase, each was reached at its tick, and the marker is the last of them |
| Budgets.NewMonthCanBeMissed | packages/server/src/alerts.ts:503-510 | readings between the lowest step and the marker change and announce nothing, so a month that starts there is missed |
| Budgets.MissedMonth | packages/server/src/alerts.ts:503-510 | such a month: 60 and then 90 of 100 dollars after a month in which all steps were announced, of which a fresh marker would have announced 90 |
| Budgets.MarkerReturnsExactlyBelow | packages/server/src/alerts.ts:503-507 | over any ticks a marker above zero returns to zero if and only if some tick reads below the lowest step and its write holds |
| Budgets.ReopensExactlyBelow | packages/server/src/alerts.ts:503-507 | with every step announced the marker returns to zero if and only if the reading is below the lowest step and the write holds |
| PromptCache.FindOldest | sdks/go/prompt.go:87-95 | whatever the order of the walk, the scan finds the oldest insertion |
| PromptCache.PromptStore.Set | sdks/go/prompt.go:79-96 | at most 500 entries, the new one among them, the newest keys with their values |
| PromptCache.HeldAreTheNewest | sdks/go/prompt.go:26-28 | after any insertions the keys held are the most recently inserted ones |
| PromptCache.RecencyIsByLastInsertion | sdks/go/prompt.go:79-96 | recency orders keys by their last insertion |
| PromptCache.HeldIff | sdks/go/prompt.go:79-96 | a key is still held if and only if fewer than 500 other keys were inserted since its last insertion |
| PromptProtocol.OneFetchPerUrl | sdks/go/prompt.go:154-188 | in every interleaving at most one fetch per URL is in flight |
| PromptProtocol.NoWaiterIsStranded | sdks/go/prompt.go:156-178 | every call that has not ended can move or waits for a live leader that can |
| PromptProtocol.EndedLeaderReleases | sdks/go/prompt.go:173-178 | in every reachable state a channel without a live leader is closed, its waiters can wake, and no URL is in flight under it |
| PromptProtocol.ServedIsFetched | sdks/go/prompt.go:114-188 | what a call returns was fetched for its URL or is its own fallback; the cache holds the keys inserted most recently since it was cleared |
| PromptProtocol.LookServes | sdks/go/prompt.go:126-136 | in every interleaving a call that finds a surviving store is served at once, and starts a refresh if and only if the time to live given to that store has passed since |
| PromptProtocol.LookMisses | sdks/go/prompt.go:126-138 | otherwise, or without a time to live, it goes on to fetch and starts nothing else |
| PromptProtocol.LeaderGives | sdks/go/prompt.go:173-188 | a leader is given what its own fetch brought |
| PromptProtocol.RereadGives | sdks/go/prompt.go:156-165 | in every interleaving a woken waiter is given a prompt if and only if a store of it for that URL survives: no clearing and no store for the URL since, and fewer than 500 other URLs stored since |
| PromptProtocol.LeaderStores | sdks/go/prompt.go:180-187 | once its channel is closed a leader has stored, exactly once and what it fetched, if and only if its fetch succeeded and its time to live is positive |
| PromptProtocol.WaiterShares | sdks/go/prompt.go:154-165 | a waiter whose leader stored its version is given that version if and only if that store survives, or another leader's store of the same version does |
| PromptProtocol.WaiterOfNoStore | sdks/go/prompt.go:156-165 | a waiter whose leader failed or was not to cache is given a prompt if and only if another leader's store of it survives |
| PromptProtocol.SettleGives | sdks/go/prompt.go:138-150 | after a failed fetch the call ends with a surviving prompt if it may use the cache and one is there, otherwise with its fallback or an error |
| PromptProtocol.WaiterCanFail | sdks/go/prompt.go:156-165 | one such run: the leader succeeds with a time to live of 0, and its waiter fails |
| Idempotency.KeyStore.ClaimIdempotencyKey | packages/server/src/idempotency.ts:19-37 | granted if and only if the key was free or Redis failed, pending if and only if the sentinel was there, else the stored body |
| Idempotency.KeyStore.StoreIdempotentResponse | packages/server/src/idempotency.ts:39-45 | the body replaces the sentinel, on this key only |
| Idempotency.KeyStore.ReleaseIdempotencyKey | packages/server/src/idempotency.ts:47-54 | the key is free again, and no other key changes |
| IdempotencyProtocol.SecondSubmissionNeedsABreak | apps/api/src/app.ts:804-857 | from any moment with no request in progress, in every interleaving, a second batch submission comes after a release, an expiry or a Redis error since that moment |
| IdempotencyProtocol.SecondClaimNeedsAnEmptying | packages/server/src/idempotency.ts:28-29 | between two successful claims the key was released or expired |
| IdempotencyProtocol.ReplaysWereStored | apps/api/src/app.ts:812-817 | every replayed body was stored before by a request that had completed with that body |
| IdempotencyProtocol.ClaimSteps | packages/server/src/idempotency.ts:24-37 | the two commands of a claim: granted, busy or replayed, by the key's value and the fault |
| IdempotencyProtocol.UndisturbedEnds | apps/api/src/app.ts:804-872 | a request on a free key that nothing disturbs submits once and leaves its response under the key, or the key free when the submission fails |
| IdempotencyProtocol.SkippedEnds | apps/api/src/app.ts:842-871 | a request with nothing valid to submit stores its response and submits nothing |
| IdempotencyProtocol.StoredAnswersAll | apps/api/src/app.ts:812-817 | once a response is stored, in every interleaving and until something breaks the claim, every request that comes is answered with exactly it |
| IdempotencyProtocol.LimitBlocksTheKey | apps/api/src/app.ts:834-837 | in every interleaving, when the rate limit turns a request away with its claim unbroken, the key stays pending with nobody to store or release it, and nothing is granted, submitted or replayed until an expiry or a Redis error |
| IdempotencyProtocol.KeyTellsHowItEnded | apps/api/src/app.ts:812-872 | with the claim unbroken and no live holder, the key is pending if and only if the granted request was turned away or died, holds a response if and only if it answered, and is free if and only if none was granted |

## Left out

- Token positions and the texts of error messages: errors are constructors.
- Floating-point rounding, infinities and NaN: numbers are reals, durations reals, counts integers; only the token clamp sees a number that is not finite.
- 16-bit code units in text: strings are sequences of characters, except in the sampling hash, which reads 16-bit units.
- JSON text, Unicode case mapping, regex matching, number parsing and collation: functions handed in; `jsonPath` is one of them.
- Patterns with a bare `{` that opens no quantifier: outside the domain of the star-height theorem, though the scan itself is modelled on all texts.
- Time between critical sections of the Go client: the clock only moves forward by steps, and logging, masking and option parsing are not modelled.
- ClientBuffer.Advice: a `Retry-After` of more than about 9.2e9 seconds overflows the 64-bit `time.Duration` (`sdks/go/client.go:388`), whose value is then up to the platform; over the unbounded reals of the model it is capped at 60.
- ClientBuffer.Client.Flush: describes a flush with no other thread in between, because the interleaved case is the subject of `FlushProtocol`.
- Mappers.MapEvents: takes one reading of the clock for a batch, where the code reads it once for each row.
- Mappers.Latency: a latency over an unparsable time is 0, where the code would give NaN.
- Retrieved-document and embedding rows of the mapper, and the lookup of providers and prices: a per-row explosion and a first-match table.
- The caller's choice of stored rows: the mapper laws pass every stored row as a base, where the worker passes an observation's row only for updates of earlier batches.
- `cellValue` of the CSV module: interpretation of one cell as JSON.
- The schema of ingest events: the partition is told what it makes of each event.
- The telemetry behind alert metrics and the z-score of anomaly rules: a reading comes with its value and whether it is an anomaly. Times of firing and resolving are not stored in the model.
- Edits of alert rules between sweeps: each sweep brings its own rules, so they are covered; deleting a rule's stored state is not.
- The HTTP side of prompts, their content and template filling: a prompt is its version number, and a fetch ends with one or with an error at any time.
- The ingest handler before the key is read, and what `submitBatch` does: a submission is one step that is accepted or not.
- HTTP, S3, queues, databases and Redis themselves, authentication, routes, schemas, the console and scripts.
