# NetGet in Dafny

NetGet lets a language model answer network protocols. This project models the parts of it with
the most state and the most arithmetic, and proves what they are for. Nothing here was executed.

- **The ASN.1 to PER-table compiler** (`scripts/h323_asn1_schema.py`): `Asn1Types`, `Asn1Reference`
  (what references and constraint lists mean, without recursion over them), `PerTable`,
  `TableGrowth`, `Asn1Sharing` (what following references does to shared constraint lists),
  `Asn1Emission` and `Asn1Emitter` for the emitter; `Asn1Parse`, `Asn1Lexer`, `Asn1Grammar`,
  `Asn1RoundTrip`, `Asn1Canonical`, `Asn1Text` and `Asn1Parser` for the parser. The main results:
  emission leaves the modules alone exactly where no constrained reference it reaches shares a list,
  and there the emitted table denotes the source types at every unfolding depth; and the texts of
  every canonically written type parse back to it.
- **The browser demo's scheduler** (`site/js/demo.js`): `Scheduler` (the state and every event as
  functions), `SchedulerInv`, `SchedulerLoading` and `SchedulerHistory` (what holds over every run of events)
  and `DemoApp` (the page's object, whose methods are proved against those functions).
- **The rotating log** (`src/logging.rs`): `RotatingLog` and, for many writers behind one lock,
  `LogWriters`.
- **The input editor** (`src/cli/input_state.rs`): `Utf8`, `EditorDoc` (lines of characters),
  `EditorFlat` (flat text with one position) and `InputState` (the object over UTF-8 bytes).
- **Streaming decoders** (`site/js/thinking.js`, `site/js/telnet.js`): `Thinking`, `TextDecoder`
  and `Telnet`.
- **Wire encoders** (`fuzz/seed_corpus.py`): `WireBytes`, `Ber`, `Bson`, `PackStream`, `Bolt` and
  `Smb2`.
- **The action composer** (`site/js/composer.js`): `Composer` and `ComposerEnvelope`.
- **Startup and update** (`src/cli/client_startup.rs`, `src/cli/startup_guard.rs`,
  `src/cli/management.rs`, `src/cli/server_startup.rs`, `src/utils/json_budget.rs`): `ClientStartup`,
  `JsonBudget`, `ServerUpdate` (an update by itself), `ServerUpdateRuns` (updates that meet) and
  `ServerForms`.

`Wrappers` holds the option and result types, `Numbers` shared arithmetic. `dafny verify dfyconfig.toml` checks everything.

## What turned out not to hold

- The log's documented ceiling of `max_bytes` per file is false, because the size is tested before
  a write and not with it. `RotatingLog.CeilingIsExceeded` is a log that breaks it,
  `RotatingLog.CeilingHoldsIff` says exactly when one write keeps it, and `LogWriters.RunSizes` is
  the bound that does hold.
- A constrained reference that is followed through an alias with constraints of its own changes
  that alias for everyone, because the copy shares the constraint list. With `A ::= B (0..5)`,
  `B ::= C (0..9)`, `C ::= INTEGER` and `X ::= A (0..3)`, emitting X and then B gives B the range
  0..5, while X still gets its own (`Asn1Emitter.EmitLeaky`); without X the same definitions are safe
  (`Asn1Emitter.LeakyWithoutX`). `Asn1Emitter.Emitter.EmitRoots` says exactly when emission leaves
  the modules as they were: when no constrained reference that is reached shares a list. Then the
  table is proved right. Where they do change, a constrained reference to a type without parts is
  right if and only if the lists on its chain still came to the same type when it was written
  (`Asn1Emitter.LeafDenotesIff`).
- `ps` writes a structure of 16 fields with the marker of an empty one
  (`PackStream.SixteenFields`); a value is read back exactly when it is within the limits
  (`PackStream.ReadsBackIff`).
- `bson_nested(0)` writes one document, not none (`Bson.BsonNestedIs`).
- "A bad update leaves the old instance working" (src/cli/management.rs:324-325) is true of
  everything the update itself checks (`ServerUpdate.RefusedChangesNothing`, and
  `ServerUpdateRuns.RefusedTouchedNothing` among other updates). It is false of what the start
  checks after the old server is gone: `ServerUpdate.RestartChecksAgain` says exactly what that is,
  namely what `send_first` adds to the parameters, certificate files that have gone since, and what
  the machine allows. `ServerUpdate.SendFirstLoses` is an update that loses its server so, under the
  source's own limits.
- "Applying only the fields the caller set" (src/cli/management.rs:320) is false of the host, the
  interface and the MAC address: a restart gives up what the form does not give again
  (`ServerUpdate.BindingKeptIff`, `ServerUpdate.HostIsGivenUp`).
- An update that leaves the parameters alone can still be refused for them, once a certificate file
  they name is gone; `ServerUpdate.OwnFieldsRefuse` lists every refusal.
- An update is not atomic. Dropped between the removal and the start it leaves no server
  (`ServerUpdateRuns.LosingRun`), and two restarts that both look before either removes leave two
  (`ServerUpdateRuns.TwoForOne`). One that nobody disturbs does exactly what it does by itself
  (`ServerUpdateRuns.UndisturbedIsAtomic`).
- A client whose startup is dropped outside a runtime is never cleaned up: it is stranded if and
  only if that happened (`ClientStartup.StrandedIff`, and `ClientStartup.StrandingRun` is a run
  where it does). And a task stays behind if and only if it was scheduled when the client was gone
  and nothing has removed it or the client since (`ClientStartup.OnlyLateTasks`,
  `ClientStartup.LateTaskRun`).
- A reply turns an infinity that an undeclared key carried through the form into `null`, in text
  form and as native calls alike, since both cross from the page as JSON text:
  `ComposerEnvelope.InfinityIsLost` is such an envelope in either form, and
  `ComposerEnvelope.ReplyLosesNone` says that nothing else is lost.

## Model

| member | source | states |
|---|---|---|
| Asn1Types.ApplyAllShape | scripts/h323_asn1_schema.py:357-379 | applying constraints never changes the kind of a type or its element type, and a SEQUENCE or CHOICE takes none |
| Asn1Types.HeadForgets | scripts/h323_asn1_schema.py:424-433 | what a reference stands for does not depend on the aliases already walked, unless they form a cycle |
| Asn1Types.HeadIsNarrowedKey | scripts/h323_asn1_schema.py:418-435 | a constrained reference stands for the last definition on its alias chain, in that definition's module; it is a cycle exactly when the chain is |
| Asn1Types.CycleHasNoDistance | scripts/h323_asn1_schema.py:424-433 | following a reference goes round for ever exactly when no number of steps ends it |
| Asn1Reference.ResolveIff | scripts/h323_asn1_schema.py:391-397 | a name resolves to a definition exactly if a path of imports without repetition leads from its module to the one that has it, each module before lacking it |
| Asn1Reference.LastConstraintDecides | scripts/h323_asn1_schema.py:357-379 | applying a constraint list succeeds exactly if the type takes each of them, and then the last range, size or alphabet stated replaces the type's own and nothing else changes |
| Asn1Reference.HeadIff | scripts/h323_asn1_schema.py:418-435 | a reference stands for a type exactly if some chain of definitions leads to it, every one but the last a reference, and the type is the last one narrowed by all constraints on the chain, innermost first |
| PerTable.SizeAgrees | scripts/h323_asn1_schema.py:489-493 | the size written for a size constraint leaves exactly the lengths the constraint leaves, and is extensible exactly if it is |
| PerTable.LeafAgrees | scripts/h323_asn1_schema.py:437-459 | what is written for a type without parts has the form, the admitted numbers or lengths, the alphabet and the extensibility that the type has, by definitions of both that share nothing |
| PerTable.TargetIsHead | scripts/h323_asn1_schema.py:391-435 | following aliases in the table arrives where following references in the modules does, and goes round for ever exactly when they do |
| PerTable.IndexDenotesType | scripts/h323_asn1_schema.py:391-482 | in a table that satisfies the emitter's invariant, unfolding any index to any depth, aliases transparent, equals unfolding the source type with imports resolved and constraints applied innermost first, through mutually recursive types; leaves are compared by the values they admit, the source's read off the notation and the table's off the table |
| PerTable.EntryDenotes | scripts/h323_asn1_schema.py:437-482 | an entry's expression unfolds as the type it was rendered from: the values a leaf admits, element counts, root, optional flags, extension and all |
| TableGrowth.ReserveKeepsInv | scripts/h323_asn1_schema.py:399-406 | a placeholder for a new definition keeps the invariant and every earlier index |
| TableGrowth.FillKeepsInv | scripts/h323_asn1_schema.py:406-408 | writing the definition over its placeholder keeps the invariant |
| TableGrowth.ShareKeepsInv | scripts/h323_asn1_schema.py:410-416 | an unnamed type reuses the entry with its expression or gets a new one, and no two unnamed entries ever have the same expression |
| TableGrowth.FillEmits | scripts/h323_asn1_schema.py:399-408 | a finished definition is pointed to by its name, and everything new is reachable from it |
| TableGrowth.ShareEmits | scripts/h323_asn1_schema.py:410-416 | the same for a shared unnamed type |
| Asn1Sharing.HeadCarries | scripts/h323_asn1_schema.py:424-433 | carrying an alias's constraints onto the next definition comes to the same as applying them at the end of the chain |
| Asn1Sharing.NeverBack | scripts/h323_asn1_schema.py:424-431 | definitions only ever gain constraints, so modules that have changed never become what they were |
| Asn1Sharing.EndingEnds | scripts/h323_asn1_schema.py:399-435 | a definition whose writing out ends refers by name only to others whose writing out ends |
| Asn1Sharing.EndsExtends | scripts/h323_asn1_schema.py:418-435 | whether writing out a type, and all it reaches, ends does not depend on the constraints |
| Asn1Sharing.CalmChase | scripts/h323_asn1_schema.py:420-434 | a constrained reference leaves everything alone exactly when its own walk shares nothing and the type it leads to is left alone |
| Asn1Emitter.Emitter.ApplyEach | scripts/h323_asn1_schema.py:432-433 | applying a constraint list one by one is the composition of its constraints, or the first failure |
| Asn1Emitter.Emitter.CarryOnto | scripts/h323_asn1_schema.py:424-431 | the copy gets the constraints; the definition itself changes exactly when it has a constraint list of its own |
| Asn1Emitter.Emitter.Chase | scripts/h323_asn1_schema.py:421-433 | the alias loop finds what the reference stands for, on any modules without a cycle there; the modules afterwards are exactly those with the carried constraints added, and unchanged if and only if no carried constraint meets a definition that has one |
| Asn1Emitter.Emitter.Named | scripts/h323_asn1_schema.py:399-408 | the index returned points to the named type, the table only grows, everything added is filled and reachable, and on sound modules it never fails |
| Asn1Emitter.Emitter.Anon | scripts/h323_asn1_schema.py:410-416 | the same for an unnamed type |
| Asn1Emitter.Emitter.ConstrainedIndex | scripts/h323_asn1_schema.py:420-434 | the same for a constrained reference |
| Asn1Emitter.Emitter.TypeIndex | scripts/h323_asn1_schema.py:418-435 | the same for any type; the recursion ends because fewer definitions are unnamed, or fewer are left to repeat, or the type is smaller |
| Asn1Emitter.Emitter.Render | scripts/h323_asn1_schema.py:437-482 | the expression describes the type over the grown table |
| Asn1Emitter.Emitter.EmitRoots | scripts/h323_asn1_schema.py:504-512 | from an empty table, for roots whose writing out ends, on success: the modules are unchanged if and only if no constrained reference reached from the roots shares a list, and if unchanged every root has its index, no placeholder is left and every entry is reachable from a root; on sound modules that condition is also enough for success |
| Asn1Emitter.RootsDenote | scripts/h323_asn1_schema.py:504-512 | in a finished table each root's index unfolds, at every depth, to the root's type |
| Asn1Emitter.FinishedTable | scripts/h323_asn1_schema.py:399-416 | in a finished table every index inside every entry is in range, and two entries with the same expression are not both unnamed |
| Asn1Emitter.SharedListNarrows | scripts/h323_asn1_schema.py:357-379 | constraints carried onto a shared list narrow the meaning of the definition itself |
| Asn1Emitter.EmitLeaky | scripts/h323_asn1_schema.py:399-435 | an emitter over four one-line definitions, given X and then B: the modules it ends with, X's index denoting 0..3 as its definition says, and B's denoting 0..5 at every depth where its definition says 0..9 |
| Asn1Emitter.LeafDenotesIff | scripts/h323_asn1_schema.py:399-435 | whatever the modules had become when it was written, a constrained reference to a type without parts denotes what its original definition says if and only if its chain then still came to a type that admits the same values |
| Asn1Emitter.LeakyWithoutX | scripts/h323_asn1_schema.py:424-433 | without the first root the same definitions are untouched, although a definition with a list is referred to |
| Asn1Emitter.LeakyIsTouched | scripts/h323_asn1_schema.py:424-433 | with it they are not |
| Asn1RoundTrip.SkipsEven | scripts/h323_asn1_schema.py:113-122 | skipping a bracketed group stops exactly behind the matching bracket |
| Asn1RoundTrip.ReadsConstraint | scripts/h323_asn1_schema.py:286-346 | a written constraint (SIZE, FROM, ranges, `^`, extension marker, names PER cannot see) parses to what it means |
| Asn1Canonical.ConstraintSays | scripts/h323_asn1_schema.py:286-346 | of intersected elements the last one to state a range, a size or an alphabet decides it, and an extension marker after them opens the range and the size |
| Asn1RoundTrip.UnionsRefused | scripts/h323_asn1_schema.py:306-307 | a union in a constraint is refused, whatever valid elements come before it |
| Asn1RoundTrip.ReadsItems | scripts/h323_asn1_schema.py:252-284 | a written component list parses to its fields before and after the marker; a second marker fails |
| Asn1RoundTrip.VersionsRefused | scripts/h323_asn1_schema.py:271-272 | a component list that goes on, after any valid components, with version brackets is refused |
| Asn1RoundTrip.DefaultsRefused | scripts/h323_asn1_schema.py:276-280 | so is one that goes on with a component that has a default |
| Asn1RoundTrip.ReadsType | scripts/h323_asn1_schema.py:175-250 | on any written type expression followed by anything that cannot continue it, the parser returns its meaning and stops exactly behind it, and fails exactly when it has none |
| Asn1Lexer.OneText | scripts/h323_asn1_schema.py:45-53 | no two tokens have one text: what a text is read as is a function |
| Asn1Lexer.NameIff | scripts/h323_asn1_schema.py:45-53 | a text is a name exactly if it is an identifier and none of the words the parser knows |
| Asn1Canonical.CanonMeans | scripts/h323_asn1_schema.py:175-354 | the canonical writing of a type tree is valid and means that tree |
| Asn1Canonical.CanonicalRoundTrip | scripts/h323_asn1_schema.py:175-354 | every type tree whose components and items are identifiers, the parser's own words among them, and whose references are not one of these words, written canonically, parses to exactly that tree and exactly those tokens |
| Asn1Text.TypeLexical | scripts/h323_asn1_schema.py:45-92 | every token of a valid type expression is what its own text is read as |
| Asn1Text.TextRoundTrip | scripts/h323_asn1_schema.py:80-354 | so on the texts themselves: the canonical texts of a type tree, among any texts, are read as its tokens and parse to exactly that tree and exactly that span |
| Asn1Parser.Parser.SkipOver | scripts/h323_asn1_schema.py:113-122 | the loop is the skipping function the round trip is proved about |
| Asn1Parser.Parser.SkipToEnd | scripts/h323_asn1_schema.py:335-346 | the same for skipping to the closing bracket of an enclosing list |
| Asn1Parser.Parser.ReadValue | scripts/h323_asn1_schema.py:348-354 | the same for a value |
| Asn1Parser.Parser.ReadElement | scripts/h323_asn1_schema.py:311-333 | the same for one constraint element |
| Asn1Parser.Parser.ReadConstraint | scripts/h323_asn1_schema.py:286-309 | the same for a constraint |
| Asn1Parser.Parser.ReadComponents | scripts/h323_asn1_schema.py:252-284 | the same for a component list |
| Asn1Parser.Parser.ReadType | scripts/h323_asn1_schema.py:175-250 | the same for a type: the position-moving parser is the function the round trip is proved about |
| SchedulerInv.DispatchKeeps | site/js/demo.js:676-681 | a request put on screen is with the model exactly if one answers, waits if the chosen model may still become ready and time is left, and is the visitor's otherwise, with its timer and its call accounted for |
| SchedulerInv.RerouteSettles | site/js/demo.js:692-706 | after rerouting, an untouched request is with a model if one answers, waits for the chosen model while that may become ready and its time is not up, and no request waits for a model that could answer it or will not |
| SchedulerInv.RetireKeeps | site/js/demo.js:609-616 | retiring a model marks its engine while in use and unloads it once otherwise |
| SchedulerInv.ActivateKeeps | site/js/demo.js:276-282 | activating a model retires every other WebLLM model |
| SchedulerInv.EngineArrivesKeeps | site/js/demo.js:575-606 | an engine that arrives is kept if its model is still chosen and unloaded at once otherwise |
| SchedulerInv.ContinueCheckKeeps | site/js/demo.js:555-573 | the cache lookup's end resumes everyone who waited for it |
| SchedulerInv.StepKeeps | site/js/demo.js:228-897 | every event keeps the whole invariant |
| SchedulerInv.EveryRun | site/js/demo.js:228-897 | the invariant holds in every state any sequence of events reaches |
| SchedulerInv.RouteIs | site/js/demo.js:246-252 | a model is asked exactly if one answers and the visitor does not want to; a request waits exactly if none does and the chosen model is loading, being looked up or loadable |
| SchedulerHistory.RunEvolves | site/js/demo.js:649-706 | over any run arrivals and answers only extend, an answered request never changes, one with a model is never rerouted, and one the visitor touched or a model failed on stays manual |
| SchedulerHistory.RequestsArePlaced | site/js/demo.js:246-252 | in every reachable state, in terms of the state alone: a request the visitor began or a model failed on is the visitor's; any other is answered if a model answers, waits for the chosen model while that may become ready and time is left, and waits for no other |
| SchedulerLoading.StepTracks | site/js/demo.js:394-616 | every event keeps track of loading: a built-in model that loads is being created, a quiet attempt falls back to a state that asks for a click, and a chosen WebLLM model that is looked up or loadable has a choice waiting for the check |
| SchedulerLoading.NoVainWait | site/js/demo.js:246-252 | in every reachable state in which requests may wait for the chosen model, its load is pending or the check that its choice waits for can still go on: nobody waits for a model that nothing is fetching |
| SchedulerLoading.LoadableIsCached | site/js/demo.js:555-573 | in every reachable state a WebLLM model that loads by itself is on the device, and one that needs a click is not |
| SchedulerLoading.AskedIsFetched | site/js/demo.js:462-474 | in every reachable state, the load button and any gesture start the chosen model's load |
| SchedulerHistory.AnswererIsReady | site/js/demo.js:276-282 | in every reachable state the answering model is ready and holds its session or an engine not unloaded, and at most one WebLLM model is ready |
| SchedulerHistory.EnginesAreReleased | site/js/demo.js:575-616 | every engine ever created is owned, or retired and in use, or unloaded exactly once and unused |
| SchedulerHistory.AnsweredInOrder | site/js/demo.js:649-681 | each request is exactly one of resolved, current and queued, and the resolved ones are a prefix of the arrivals, each once |
| SchedulerHistory.AttemptsAndTimers | site/js/demo.js:746-773 | at most one model attempt per request; a timer exactly while it waits, always for its arrival plus the full wait |
| DemoApp.App.DispatchEntry | site/js/demo.js:676-681 | the page's method is the scheduler's dispatch |
| DemoApp.App.RerouteCurrent | site/js/demo.js:692-706 | the same for rerouting |
| DemoApp.App.FinishEntry | site/js/demo.js:667-674 | the same for finishing a request |
| DemoApp.App.ActivateModel | site/js/demo.js:276-282 | the same for activation, with its loop over the other models |
| DemoApp.App.ChooseAnswerer | site/js/demo.js:394-413 | the same for the visitor's choice |
| DemoApp.App.EngineLoaded | site/js/demo.js:575-606 | the same for an engine that has loaded |
| DemoApp.App.Handle | site/js/demo.js:228-897 | the page's object takes exactly the step of the state machine for every enabled event |
| RotatingLog.RotatedHistory | src/logging.rs:78-106 | a rotation drops exactly the oldest slot's text from what is kept |
| RotatingLog.WriteAllHistory | src/logging.rs:108-143 | whatever the operating system accepts of each write, what is on disk is a suffix of what was there plus the bytes taken, in order; the call succeeds exactly when all were taken |
| RotatingLog.WriteAllSizes | src/logging.rs:108-143 | the counter is the active file's length, files rotated out are full, and none exceeds one less than the cap plus the longest write |
| RotatingLog.DiskBound | src/logging.rs:24-31 | total disk use is at most the number of files times that |
| RotatingLog.CeilingIsExceeded | src/logging.rs:109-119 | a log that exceeds the documented cap |
| RotatingLog.CeilingHoldsIff | src/logging.rs:109-119 | a write keeps the cap exactly when it fits the room left |
| RotatingLog.RotatingState.constructor | src/logging.rs:51-61 | opening keeps what exists and counts it |
| RotatingLog.RotatingState.Rotate | src/logging.rs:78-106 | the renaming loop shifts every slot by one, gaps included, and starts an empty file |
| RotatingLog.RotatingState.Write | src/logging.rs:108-119 | one write: roll if full, then append what was accepted |
| RotatingLog.RotatingState.WriteRecord | src/logging.rs:128-143 | the loop over short and interrupted writes is the function the properties are about |
| LogWriters.EveryInterleaving | src/logging.rs:194-231 | over every interleaving of writers, short writes and rotations, what is on disk is a suffix of the initial contents followed by the accepted bytes in lock order |
| LogWriters.RecordsAreWhole | src/logging.rs:203-231 | a record reported as written lies in the stream in one piece |
| LogWriters.TurnIsWriteAll | src/logging.rs:128-143 | a whole record's turn that ends has done what `write_all` does by itself with the same answers: same log, same count, same result |
| LogWriters.RunSizes | src/logging.rs:24-31 | over every interleaving no file, and not all of them together, exceeds the corrected bound, and every file rotated out on the way was full |
| Utf8.CharsOfBytes | src/cli/input_state.rs:33-46 | decoding encoded characters gives them back |
| Utf8.OffsetOfBytes | src/cli/input_state.rs:41-46 | the byte offset of a character is where the earlier characters' bytes end, saturating at the end |
| Utf8.CutLine | src/cli/input_state.rs:41-46 | a character's offset is a boundary and cuts the line into the encodings of its two halves |
| Utf8.Splice | src/cli/input_state.rs:123-237 | replacing characters `a` to `b` at their byte offsets replaces exactly those characters |
| EditorDoc.BackRunIsLongest | src/cli/input_state.rs:194-202 | the run before the cursor is the longest one |
| EditorDoc.FrontRunIsLongest | src/cli/input_state.rs:223-231 | the run after the cursor is the longest one |
| EditorDoc.WordBackIs | src/cli/input_state.rs:189-205 | going back a word passes over a gap and then a word, both as long as they can be |
| EditorDoc.AheadIs | src/cli/input_state.rs:218-234 | going on a word passes over two runs, both as long as they can be |
| EditorFlat.TextIsFlat | src/cli/input_state.rs:105-108 | the joined lines are what is before the cursor followed by what is after it |
| EditorFlat.ViewDetermines | src/cli/input_state.rs:57-67 | flat text and position determine the lines, row and column |
| EditorFlat.InsertIsFlat | src/cli/input_state.rs:122-127 | typing inserts at the position, on any document |
| EditorFlat.NewlineIsFlat | src/cli/input_state.rs:129-138 | Enter inserts a newline at the position |
| EditorFlat.BackspaceIsFlat | src/cli/input_state.rs:140-154 | backspace removes the character before the position, line joins included |
| EditorFlat.DeleteIsFlat | src/cli/input_state.rs:156-167 | delete removes the one after it, line joins included |
| EditorFlat.KillToEndIsFlat | src/cli/input_state.rs:169-173 | removes up to the next newline |
| EditorFlat.KillLineIsFlat | src/cli/input_state.rs:175-179 | removes everything between the newlines around the position |
| EditorFlat.DeleteWordIsFlat | src/cli/input_state.rs:181-210 | removes blanks and then a word before the position, never across a newline |
| EditorFlat.DeleteWordForwardIsFlat | src/cli/input_state.rs:212-237 | the same after it |
| EditorFlat.WordLeftIsFlat | src/cli/input_state.rs:239-265 | to the start of the word, or over the newline at a line's start |
| EditorFlat.WordRightIsFlat | src/cli/input_state.rs:267-295 | to the start of the next word, or over the newline at a line's end |
| EditorFlat.UpIsFlat | src/cli/input_state.rs:298-307 | to the same distance from the previous line's start, or its end |
| EditorFlat.DownIsFlat | src/cli/input_state.rs:308-315 | the same for the next line |
| EditorFlat.LeftIsFlat | src/cli/input_state.rs:316-324 | one position back in the text |
| EditorFlat.RightIsFlat | src/cli/input_state.rs:325-334 | one position on |
| EditorFlat.RunIsFlat | src/cli/input_state.rs:79-358 | every sequence of edits and movements, with characters other than newline, is the same sequence of operations on flat text with one position |
| EditorFlat.TypedNewlineIsNotALine | src/cli/input_state.rs:122-127 | a newline typed as a character breaks that: Home goes past it |
| InputState.JoinIsText | src/cli/input_state.rs:105-108 | the joined bytes are valid UTF-8 and say the joined characters |
| InputState.InputState.constructor | src/cli/input_state.rs:69-83 | a new editor is empty |
| InputState.InputState.FromLines | src/cli/input_state.rs:85-98 | from lines: the cursor is at the end; from none, empty |
| InputState.InputState.Text | src/cli/input_state.rs:105-108 | the text is what is before the position and what is after it |
| InputState.InputState.Clear | src/cli/input_state.rs:115-120 | back to an empty editor |
| InputState.InputState.InsertChar | src/cli/input_state.rs:122-127 | the byte-level method is the character-level insertion, cutting only at boundaries |
| InputState.InputState.InsertNewline | src/cli/input_state.rs:129-138 | the same for a line break |
| InputState.InputState.DeleteChar | src/cli/input_state.rs:140-154 | the same for backspace |
| InputState.InputState.DeleteCharForward | src/cli/input_state.rs:156-167 | the same for delete |
| InputState.InputState.DeleteToEndOfLine | src/cli/input_state.rs:169-173 | the same for the rest of the line |
| InputState.InputState.DeleteLine | src/cli/input_state.rs:175-179 | the same for the line |
| InputState.InputState.DeleteWord | src/cli/input_state.rs:181-210 | the same for the word before, with its two loops |
| InputState.InputState.DeleteWordForward | src/cli/input_state.rs:212-237 | the same for the word after |
| InputState.InputState.MoveCursorWordLeft | src/cli/input_state.rs:239-265 | the same for a word to the left |
| InputState.InputState.MoveCursorWordRight | src/cli/input_state.rs:267-295 | the same for a word to the right |
| InputState.InputState.MoveCursor | src/cli/input_state.rs:297-336 | the same for the four directions |
| InputState.InputState.MoveToStartOfLine | src/cli/input_state.rs:338-341 | the same for the line's start |
| InputState.InputState.MoveToEndOfLine | src/cli/input_state.rs:343-346 | the same for its end |
| InputState.InputState.MoveToTop | src/cli/input_state.rs:348-352 | the same for the start of the input |
| InputState.InputState.MoveToBottom | src/cli/input_state.rs:354-358 | the same for its end |
| InputState.InputState.HandleKey | src/cli/input_state.rs:370-418 | each key is its edit; Control or Alt with a character is left to the caller, with nothing changed |
| Thinking.OverlapIsLongest | site/js/thinking.js:16-21 | the withheld end is the longest end of the text that may start the tag |
| Thinking.PartialTagAt | site/js/thinking.js:16-21 | the counting-down loop finds it |
| Thinking.SplitThinking | site/js/thinking.js:35-73 | the reassigned locals compute the split the properties are about |
| Thinking.FirstClose | site/js/thinking.js:42-46 | the closing tag first occurs where it was first put: it does not overlap itself |
| Thinking.EveryPrefix | site/js/thinking.js:35-73 | at every prefix of blanks, `<think>`, T, `</think>`, A the shown thinking is the trim of a prefix of T and the answer a left-trimmed prefix of A |
| Thinking.VisibleIsThinking | site/js/thinking.js:63-66 | no part of the closing tag is ever shown, and at most seven characters of T are held back |
| Thinking.OnlyGrows | site/js/thinking.js:35-73 | what is shown only ever grows |
| Thinking.FinalSplit | site/js/thinking.js:35-73 | the finished text splits into exactly trim(T) and left-trimmed A |
| Thinking.WithoutThinking | site/js/thinking.js:35-37 | where thinking is not split off, all text is answer, left-trimmed, and none is thinking |
| Thinking.NeverClosed | site/js/thinking.js:47-51 | a finished text that opens a thought and never closes it is all thinking |
| Thinking.NeverOpened | site/js/thinking.js:52-73 | a finished text that neither closes a thought nor starts with one is all answer |
| Thinking.FinishedText | site/js/thinking.js:42-46 | every finished text that closes a thought is cut at its first closing tag: before it is thinking, from behind the opening tag if one comes first, and after it answer |
| Thinking.TrimIs | site/js/thinking.js:67-70 | what is trimmed off is blanks at both ends, and no blank is left at either |
| Thinking.EveryBarePrefix | site/js/thinking.js:56-62 | the same at every prefix of a stream that starts mid-thought |
| Thinking.BareOnlyGrows | site/js/thinking.js:56-62 | and there too what is shown only grows |
| Thinking.AnswerOnly | site/js/thinking.js:56-62 | text that starts with a brace, a bracket or a backtick is all answer at every prefix |
| TextDecoder.DecodeConcat | site/js/telnet.js:46-46 | streaming decoding does not depend on where the bytes are cut |
| TextDecoder.DecodeText | site/js/telnet.js:46-46 | decoding encoded text gives the text, less a leading byte order mark |
| Telnet.ScanConcat | site/js/telnet.js:17-44 | the command scanner does not depend on chunk borders |
| Telnet.ScanStream | site/js/telnet.js:17-44 | data with IAC doubled and any well-formed commands and subnegotiations in between gives back the data, and DONT per WILL and WONT per DO in order |
| Telnet.AnswersAreRefusals | site/js/telnet.js:32-36 | whatever arrives, only refusals go out |
| Telnet.NoLoop | site/js/telnet.js:32-36 | answers fed back are never answered |
| Telnet.NormalIsLines | site/js/telnet.js:54-62 | every line feed comes out with a carriage return before it |
| Telnet.LinesAreNormal | site/js/telnet.js:54-62 | text that has them all is left alone |
| Telnet.NormalKeepsLines | site/js/telnet.js:54-62 | nothing but carriage returns before line feeds is added |
| Telnet.ChunksDoNotMatter | site/js/telnet.js:13-48 | text, answers and state are the same however the stream is cut |
| Telnet.AllTextIsLines | site/js/telnet.js:54-62 | across every chunk border, all text shown has its carriage returns |
| Telnet.TextArrives | site/js/telnet.js:13-62 | text sent as UTF-8 among commands, in any chunks, is shown as that text with its line ends normalised, every offer refused, nothing left undecoded |
| Telnet.TelnetDecoder.Push | site/js/telnet.js:13-48 | the loop over bytes is the scanner, then the decoder, then the normaliser |
| Telnet.TelnetDecoder.Finish | site/js/telnet.js:50-52 | an unfinished character is replaced and the decoder starts over |
| Telnet.TelnetDecoder.Normalize | site/js/telnet.js:54-62 | the loop over characters is the normaliser, with its memory of a carriage return |
| Ber.ByteCount | fuzz/seed_corpus.py:77-77 | the bit-length formula is the least number of bytes that holds the length |
| Ber.ShortestLength | fuzz/seed_corpus.py:74-78 | the length is in the fewest octets (section 10.1 of ITU-T X.690), reads back, and has no leading zero |
| Ber.TlvIsBer | fuzz/seed_corpus.py:473-486 | `tlv` raises exactly from 2^24 bytes on and is `ber` below |
| Ber.DerIsBer | fuzz/seed_corpus.py:887-893 | `der` raises exactly from 2^16 bytes on and is `ber` below |
| Ber.OuterReadsDer | fuzz/fuzz_targets/ntlmssp_token.rs:36-44 | the reader gives back the length and the content of everything `der` writes |
| Ber.OuterRefusesLonger | fuzz/fuzz_targets/ntlmssp_token.rs:36-44 | and panics on every longer one |
| Ber.LdapNestedAnd | fuzz/seed_corpus.py:494-502 | headers from sizes alone, joined in reverse, are the naive nesting, exceptions included |
| Bson.BsonNestedIs | fuzz/seed_corpus.py:422-427 | for every level count the fast builder is the naive nesting; with none it writes one document |
| Bson.RaisesWhen | fuzz/seed_corpus.py:410-427 | it raises exactly when the outermost size passes 2^31 - 1, and that size is the document's length |
| PackStream.ReadsBack | fuzz/seed_corpus.py:582-614 | every nested value within the limits is read back, with exactly the bytes that follow it |
| PackStream.ReadsBackIff | fuzz/seed_corpus.py:582-614 | a value is read back if and only if it is within the limits |
| PackStream.PrefixFree | fuzz/seed_corpus.py:582-614 | no value's bytes start another's |
| PackStream.SixteenFields | fuzz/seed_corpus.py:613-614 | a structure of 16 fields starts with the bytes of an empty one |
| Bolt.BoltChunk | fuzz/seed_corpus.py:617-622 | the loop writes the body in chunks of 65535 and an end |
| Bolt.StreamReads | fuzz/seed_corpus.py:617-622 | any sequence of bodies, chunked and joined, comes back in order, less the empty ones |
| Bolt.NonEmptyMessages | fuzz/seed_corpus.py:617-622 | so a sequence of non-empty bodies comes back as it was |
| Smb2.HeaderIsMessage | fuzz/seed_corpus.py:805-807 | a header is 64 bytes, starts a message whatever follows, and carries its NextCommand |
| Smb2.HeaderFields | fuzz/seed_corpus.py:805-807 | command, flags, NextCommand, MessageId, TreeId and SessionId read back, little-endian, at their offsets; the structure size is 64, the credits 8, and every other byte zero |
| Smb2.Smb2Compound | fuzz/seed_corpus.py:864-871 | the loop lays out the messages, all but the last padded and linked |
| Smb2.LinkedKeeps | fuzz/seed_corpus.py:867-869 | linking keeps everything but the NextCommand field, which becomes the padded length |
| Smb2.WalkVisits | fuzz/fuzz_targets/smb2_request.rs:85-113 | following NextCommand visits exactly the given messages if and only if the last one ends the chain |
| Smb2.WalkEnds | fuzz/fuzz_targets/smb2_request.rs:85-113 | on every frame the walk takes at most length / 64 + 1 steps |
| Smb2.LaidFits | fuzz/seed_corpus.py:864-871 | a compound of n messages has at least 64 n bytes |
| Composer.NulledIff | site/js/composer.js:157-169 | a value is read back from its JSON text unchanged exactly when it holds no infinity |
| Composer.CrlfRestored | site/js/composer.js:77-79 | dropping and putting back carriage returns restores exactly the strings that had one before every line feed |
| Composer.BuildAction | site/js/composer.js:101-136 | the loop over fields is the function the properties are about |
| Composer.FieldFaithful | site/js/composer.js:39-136 | a field gives its value back exactly when the value survives its editor kind; a parameter the item lacks, exactly when it is optional and no object has that name by inheritance |
| Composer.FilledIn | site/js/composer.js:39-136 | a parameter the item lacks has a field of the sort its example or else its declared type says: a choice or text sends the text typed, a flag its value, a number the number written if it is finite and safe, JSON the value written |
| Composer.LeftAlone | site/js/composer.js:39-136 | left alone, an optional one sends nothing, a required flag false, a required text nothing but itself, a required choice its first, and a required number or JSON is reported missing |
| Composer.ItemRebuilt | site/js/composer.js:65-136 | the form gives an item back, with no member that is `undefined`, exactly when every declared value survives and no required one is missing, a parameter called `type` included |
| ComposerEnvelope.SameJsonIsEqual | site/js/composer.js:195-202 | the comparison is equality, whatever the order of keys |
| ComposerEnvelope.BuildEnvelope | site/js/composer.js:139-150 | the loop files each action by its kind, or stops at the first problem |
| ComposerEnvelope.EntriesFromEnvelope | site/js/composer.js:172-193 | the loop and the final comparison are the function the properties are about |
| ComposerEnvelope.ShowsExactly | site/js/composer.js:172-193 | an envelope is shown if and only if every item names an offered action filed under the right key and every declared value survives; then the same actions and tools are rebuilt in order |
| ComposerEnvelope.ReplyLosesNone | site/js/composer.js:157-169 | what NetGet takes out of the reply, which crosses as JSON text in either form (site/js/demo.js:670), is every item in order with each infinity turned into `null`; so the items themselves if and only if there is none |
| ComposerEnvelope.NativeIff | site/js/composer.js:157-169 | the reply to an envelope the form has shown is native tool calls exactly if the request is a chat and every item, of which there is one, is a tool the request offers |
| ComposerEnvelope.InfinityIsLost | site/js/composer.js:157-193 | for every action name and undeclared key, an envelope the form shows whose reply loses an infinity, as text and as a native call |
| ClientStartup.StepKeeps | src/cli/client_startup.rs:346-416 | every await-to-await stretch, drop, cleanup and outside action keeps the ownership invariant |
| ClientStartup.NothingIsForgotten | src/cli/startup_guard.rs:15-55 | in every run, cancelled anywhere, each registration is returned, under its armed guard, awaiting its cleanup, or gone; or its guard was dropped outside a runtime |
| ClientStartup.OnlyReturnedRemain | src/cli/startup_guard.rs:35-55 | once a startup has ended, and its own cleanup has run if it was dropped, its client remains only if it returned |
| ClientStartup.RemovesOnlyItsOwn | src/cli/client_startup.rs:407-415 | a client disappears only by its own startup's failure, its own cleanup, or others' hands |
| ClientStartup.ReturnsConnected | src/cli/client_startup.rs:400-406 | a startup that returns leaves its client connected, its guard disarmed and every other client alone |
| ClientStartup.FailureShows | src/cli/client_startup.rs:407-415 | a connection that fails is shown on its client, still guarded, before the removal |
| ClientStartup.MemoryAsWritten | src/cli/client_startup.rs:350-357 | in every run a client's memory is what its startup was asked to write, or what an event of the run has written since |
| ClientStartup.TasksAsScheduled | src/cli/client_startup.rs:359-363 | while its client is there every task a startup scheduled is too, unless an event of the run removed it |
| ClientStartup.ReturnedAsAsked | src/cli/client_startup.rs:346-416 | it returns only if the connection succeeded, with the memory and all the tasks asked for, except where an event of the run changed them |
| ClientStartup.OnlyLateTasks | src/cli/startup_guard.rs:41-54 | in every run, of a failed or cleaned-up startup a task is left if and only if it was scheduled when the client was gone, and neither the task nor the client has been removed since |
| ClientStartup.LateTaskRun | src/cli/startup_guard.rs:41-54 | a run that leaves one |
| ClientStartup.RefusalsRegisterNothing | src/cli/client_startup.rs:233-344 | a request that does not validate leaves the shared state as it was |
| ClientStartup.StrandedIff | src/cli/startup_guard.rs:41-54 | a client is stranded if and only if its startup was dropped, with its guard armed, outside a runtime |
| ClientStartup.StrandedForGood | src/cli/startup_guard.rs:41-54 | and then it stays, over any run, until somebody else removes it |
| ClientStartup.StrandingRun | src/cli/startup_guard.rs:41-54 | a run in which it happens, from any state |
| JsonBudget.WithinBudget | src/utils/json_budget.rs:13-61 | the walk over a stack, given up early, answers yes if and only if all the values together are within the limits on nodes, bytes and depth |
| JsonBudget.Visit | src/utils/json_budget.rs:27-60 | one value off the stack: given up only if the whole cannot end within the limits, and otherwise nothing lost and one node more counted |
| JsonBudget.TotalTakes | src/utils/json_budget.rs:43-54 | the cost of an object does not depend on the order in which its members are visited |
| JsonBudget.UnionWithin | src/cli/management.rs:286-308 | two objects within the limits together are within them when merged |
| ServerUpdate.MergeParams | src/cli/management.rs:286-310 | the overlay's keys win, unmentioned keys stay, nothing else appears; it fails exactly over budget or on a non-object |
| ServerUpdate.MergedFits | src/cli/management.rs:286-308 | under the source's budget, parameters that may be merged fit when they are |
| ServerUpdate.Management.UpdateServer | src/cli/management.rs:330-552 | the whole new state and answer, for every check that can fail and both paths |
| ServerUpdate.Management.Apply | src/cli/management.rs:344-391 | the checks as they come, each with its own refusal, and only then the change |
| ServerUpdate.Management.Restart | src/cli/management.rs:393-482 | the old server is removed and its configuration, with the form over it, is started |
| ServerUpdate.Management.UpdateInPlace | src/cli/management.rs:484-552 | field by field, the handlers parsed again on the way: if they fail there, the earlier fields stay written |
| ServerUpdate.Management.StartServer | src/cli/server_startup.rs:362-840 | checks, registration, memory, handlers, tasks, and the removal of a server that does not come up |
| ServerUpdate.FailedStart | src/cli/server_startup.rs:685-840 | a start that fails leaves everything as it was, but for one id once it was given out |
| ServerUpdate.StartKeeps | src/cli/server_startup.rs:381-685 | every start leaves only servers within the budget, with parameters, handlers and settings that pass their checks |
| ServerUpdate.UpdateKeeps | src/cli/management.rs:330-552 | so does every update |
| ServerUpdate.RefusedChangesNothing | src/cli/management.rs:336-391 | from any such state an update refused before the removal changes nothing |
| ServerUpdate.WithoutTheFirstParse | src/cli/management.rs:380-384 | without the early parse the writes alone would fail with the server changed exactly when the handlers do not parse and an earlier field is new; with it they are refused first |
| ServerUpdate.OwnFieldsRefuse | src/cli/management.rs:344-391 | on a running server the checks pass exactly when each field the form gives is acceptable and, if it leaves the parameters alone, the certificate files those name can still be read |
| ServerUpdate.HotUpdateKeeps | src/cli/management.rs:484-552 | past its checks a hot update cannot fail midway, keeps the id, the port and the parameters, changes exactly the fields given and adds exactly its tasks |
| ServerUpdate.RestartReplaces | src/cli/management.rs:393-482 | a restart gives up the old id and its tasks; if the new server comes up it has a fresh id, the binding the form gives and every other field the form gives over the old ones, and otherwise the old one is gone, with an id spent if one was given out |
| ServerUpdate.UpdateGives | src/cli/management.rs:312-552 | after every update that succeeds the server under the returned id has the port, host, interface, MAC address, every parameter and every other field the form gives, and its tasks; the id, port, binding and parameters are kept, and no restart reported, exactly if the form gives none of port, host, interface, MAC address and parameters |
| ServerUpdate.SucceedsIff | src/cli/management.rs:330-552 | from servers that pass their checks, an update succeeds exactly if its server is there, every field the form gives is acceptable, the parameters it comes to can be used and, where it restarts, the machine starts it with them and with what `send_first` adds |
| ServerUpdate.BindingKeptIff | src/cli/management.rs:447-451 | a restart keeps the host, interface and MAC address if and only if the form gives the same again |
| ServerUpdate.HostIsGivenUp | src/cli/management.rs:447-451 | one that only moves the port loses an explicit host |
| ServerUpdate.RestartChecksAgain | src/cli/server_startup.rs:381-655 | after the removal the start's own checks pass exactly if the machine allows it and what `send_first` makes of the parameters passes, their files included; without `send_first` only the files and the machine can fail them |
| ServerUpdate.SendFirstTooMuch | src/cli/server_startup.rs:441-490 | where `send_first` puts the parameters over the budget, the update passes its checks and the server is gone |
| ServerUpdate.SendFirstLoses | src/cli/server_startup.rs:441-490 | under the limits of src/protocol/spawn_context.rs:93-97, a server whose parameters have exactly as many nodes as there may be |
| ServerUpdate.RestartParams | src/cli/management.rs:371-374 | the new parameters are the form's over the old ones, and at most `send_first` besides |
| ServerUpdate.OthersUntouched | src/cli/management.rs:330-552 | no update touches another server or its tasks |
| ServerUpdateRuns.StepKeeps | src/cli/management.rs:330-552 | every await-to-await stretch of every update, every drop, cleanup and outside action keeps the invariant |
| ServerUpdateRuns.EveryState | src/cli/management.rs:330-552 | so in every run no stored parameters are over the budget and no update is ever stopped midway |
| ServerUpdateRuns.RefusedTouchedNothing | src/cli/management.rs:336-391 | in every run an update that is refused has changed nothing in any of its steps |
| ServerUpdateRuns.NeverBoth | src/cli/management.rs:438-468 | at no time do a server and its replacement both exist, and what was replaced never comes back |
| ServerUpdateRuns.LostUnlessReturned | src/cli/management.rs:438-468 | past the removal, an update that fails or is dropped leaves neither, once its cleanup has run |
| ServerUpdateRuns.ReturnedCameUp | src/cli/server_startup.rs:800-840 | in every run an update that returns a new server did so when that server had come up |
| ServerUpdateRuns.NotUpIsUndone | src/cli/server_startup.rs:800-840 | one whose server did not come up takes it and its tasks away again, nothing else, and fails |
| ServerUpdateRuns.LosingRun | src/cli/management.rs:438-468 | a run in which one is dropped there |
| ServerUpdateRuns.TooLate | src/cli/management.rs:337-343 | an update that looks for its server after another removed it is refused |
| ServerUpdateRuns.TwoForOne | src/cli/management.rs:337-468 | two that both looked before either removed leave two servers in place of one |
| ServerUpdateRuns.HotWritesPatch | src/cli/management.rs:484-533 | the writes in place, one lock each, together are the patch |
| ServerUpdateRuns.UndisturbedIsAtomic | src/cli/management.rs:330-552 | whatever else runs, an update whose servers nobody else touches returns with exactly the server it makes by itself, and all its tasks under the id it returned |
| ServerForms.InteractiveForm.SubmitCurrent | src/cli/management.rs:1107-1112 | the trimmed value goes to the current field and the next one comes up |
| ServerForms.InteractiveForm.IntoServerForm | src/cli/management.rs:1166-1209 | the loop over fields is the function the properties are about |
| ServerForms.FormIff | src/cli/management.rs:1166-1209 | a form is assembled exactly when every value that counts can be read |
| ServerForms.FormExactly | src/cli/management.rs:1166-1209 | every part of the returned form is what the last submitted, not blank and changed field for it says, or absent; a key is among its parameters exactly if such a field of that name was submitted, with the value the last one is coerced to |
| ServerForms.FieldArrives | src/cli/management.rs:1176-1205 | every value that counts, and that no later field overrides, is in the returned form, under its own name |
| ServerForms.NothingElse | src/cli/management.rs:1153-1162 | nothing is in the returned form that was not submitted, not blank and different from its prefill |
| ServerForms.RestartIff | src/cli/management.rs:312-318 | the update needs a restart exactly when the port or some startup parameter was submitted, not blank and different from its prefill |
| ServerForms.InteractiveUpdateRestarts | src/cli/management.rs:330-550 | and then, its checks passed, exactly that update restarts the server |

## Left out

- Cutting a file into token texts (white space, comments), `module()`, and the printing of the table as Rust text: entries are compared as values, and an unnamed entry's label is whatever path reached it first.
- Asn1Emitter.Emitter.EmitRoots: assumes that no reference reached from the roots expands for ever (the source would not end). What the whole table denotes is proved where the modules stay as they were; where they do not, `LeafDenotesIff` covers references to types without parts.
- SchedulerInv.EveryRun: built-in progress comes only while a session is being created, and the visitor sends or touches only the request on screen in its own editor, as the page's controls allow.
- The page's drawing, `JSON` texts, prompts and live view: only the state they change is modelled.
- RotatingLog.RotatingState.Rotate: renames and opens do not fail; file-system errors, Windows renames and a poisoned lock are not modelled.
- Grapheme clusters in the editor, and the `text` call's allocation.
- TextDecoder.DecodeText: the decoder is the Encoding Standard's algorithm, written out; the browser's own is foreign code.
- Thinking.SplitThinking: strings are sequences of characters rather than UTF-16 units; every tag and blank is one unit in both.
- PackStream.ReadsBackIff: the reader takes the forms `ps` writes, not every form of the format.
- The other seed builders of `fuzz/seed_corpus.py`: they only concatenate constants.
- Composer.FieldFaithful: `String`, `Number`, `JSON.stringify` and `JSON.parse` are any functions that undo each other, but for infinities in JSON; the type hint's spelling is taken as its class.
- Composer.ItemRebuilt: two parameters of one name, which nothing in the bridge (src/llm/bridge.rs:220-236) refuses, are the caller's to avoid: the form makes a field of each and the later one that sends anything wins.
- The composer's user interface (`mountComposer`) and the default action.
- ClientStartup.StepKeeps: startups are a state machine over one shared state rather than an object with methods, because what matters is every interleaving of them; registry lookups, validation and `connect` are answers from outside; taking the lock, registering and arming the guard are one step, as no await lies between.
- ServerUpdate.Management.UpdateServer: schemas, budgets, parsers and the registry are any functions, the same throughout; what certificate files can be read may change between looking and starting. Handlers are kept as the list they were parsed from, so that writing them out again for a restart gives that list. The trimming of exchange histories is not modelled.
- ServerUpdate.Management.StartServer: the maturity floor is one answer of the machine, and the binding's address, privileges and dependencies together are another; which of these is reported is not modelled.
- JsonBudget.WithinBudget: counts do not overflow; the source's saturate far above the limits.
- ServerUpdateRuns.UndisturbedIsAtomic: others may schedule tasks for the server meanwhile, so the update's are among those there.
- ServerUpdateRuns.StepKeeps: updates are a state machine over one shared state, because what matters is every interleaving; others write settings only through updates.
- `update_client`, which mirrors `update_server` with a remote address for the binding fields.
- Every protocol codec under `src/server`: not part of this model.
