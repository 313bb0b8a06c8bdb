# ProjectWithJSON, modelled in Dafny

ProjectWithJSON is an interpreter for a small command language. A script is
a JSON list of named actions. Each action holds a list of command strings
and a result log (`resultOfExectuion`). The interpreter keeps a pointer,
`nextAction`, that starts at `"Action1"`. It visits every action once, in
list order. An action runs only when its name equals the pointer at that
moment. Its commands are:

- `Create file N`: create a file.
- `Rename file A to B`: rename a file.
- `Delete file N`: delete a file.
- `Get file N`: report a file's creation time.
- `Write file N text T`: append text to a file.
- `If … go to A else go to B`: compare two times and pick the next action.
- `Go to A`: set the next action directly.

Each command appends a fragment to the action's log. The log is written
back into the action whether the action ran or not.

The project models four parts of `ProjectWithJSON.go`:

- **The operand extractor** (`extractor.dfy`). `extractNamesFromParamsforActions`
  is a character scan that builds up an accumulator. The spec function
  `Extract` is a tail-recursive fold over the scan state `Scan`. The method
  `ExtractOperands` is the scan as the source writes it: inner capture loop,
  counter, and the index wound back by one. Its postcondition ties it to
  `Extract`. Lemmas cover the command shapes of the language, the quirks of
  the scan, and what the scan keeps true of its results.
  `extractor_examples.dfy` works through the commands of a typical script.
- **The classifier** (`classifier.dfy`). `extractCommandFromParams` is a
  prefix search over the fixed list of seven keywords.
- **The condition evaluator** (`conditions.dfy`, `condition_shapes.dfy`,
  `conditions_examples.dfy`). `conditions` is a second scan:
  - "current time " selects the clock as the first time.
  - "file " reads a name up to the next space; that file's creation time
    becomes the first time, and its lookup message becomes the error text.
  - "then " or "equals " reads up to the next `g`; that text minus its last
    character is parsed as the second time.

  Then the first of "more", "less" and "equals" that occurs in the command
  selects After, Before or Equal. The method `Conditions` keeps the
  source's loops and is proved equal to the spec function `Condition`. The
  shape lemmas compute `Condition` on "If file …" and "If current time …"
  commands, and on commands with no keyword at all.
- **The engine** (`engine.dfy`, `engine_examples.dfy`). The class
  `Interpreter` holds:
  - the action array;
  - the pointer;
  - the file system the commands act on.

  Its methods follow the source:
  - `RewriteFile` is the log assignment of `rewriteFile`.
  - `GoToNextAction` is `goToNextActionOrCondition`.
  - `ExecCommand` is the `switch` of `main`.
  - `RunAction` is the inner loop of `main` and `Run` is the outer loop.

  Each method is proved against a spec function: `Exec`, `RunParams`,
  `Visit` or `Upto`. The lemmas about a run follow from these functions.
  Among them: a run does not read the logs it overwrites, so a script
  that touches no file gives the same state when run again.
  `engine_examples.dfy` runs a three-action script whose last action
  writes into a file or reports its creation time.

Supporting modules:

- `text.dfy`: string primitives (`strings.HasPrefix`, `HasSuffix`,
  `Contains`) and `%d` rendering.
- `files.dfy`: the file system as a map from names to contents and
  status-change times, plus the file operations and `TimeCreationOfFile`
  on it.
- `messages.dfy`: the log fragments as a datatype.

Go's run-time panics are modelled as values. A slice or index out of range
in the extractor's `commandString[i+1:]` is `Outcome.Panic`. So is an index
or slice out of range in the evaluator's inner scans and in
`nameOfFile[:len(nameOfFile)-1]`. A panic stops the engine. The logs of the
actions visited before it stay written, and so do the file operations
already done.

## Model

| member | source | states |
|---|---|---|
| Extractor.WordEnd | ProjectWithJSON.go:259-261 | the inner capture loop stops just after the first space at or after its start, or at the end of the string |
| Extractor.ReadWord | ProjectWithJSON.go:259-261 | the inner loop reads exactly the characters up to and including the first space, stopping where `WordEnd` says |
| Extractor.Absorb | ProjectWithJSON.go:256-273 | appending a character, with the capture block when the trigger suffix is complete, never moves the index back nor past the end |
| Extractor.Captured | ProjectWithJSON.go:259-273 | the capture block leaves the index between the trigger and the end of the string |
| Extractor.Step | ProjectWithJSON.go:256-277 | a pass of the outer loop that does not panic moves the index strictly forward, at most one past the end (the `i++` after a rest taken at the last character) |
| Extractor.ExtractFrom | ProjectWithJSON.go:256-278 | the outer loop from a scan state: `Step` until the index reaches the end; its properties are `ExtractFromSound` and the shape lemmas |
| Extractor.Extract | ProjectWithJSON.go:251-279 | `extractNamesFromParamsforActions`: the scan from the empty state; `ExtractOperands` is proved to compute it and `OperandsAreSlices` states what it returns |
| Extractor.Capture | ProjectWithJSON.go:259-273 | the capture block, inner loop then bookkeeping, leaves the scan state `Captured` gives: the word after the trigger up to and including the first space, stored by `Stored` |
| Extractor.Store | ProjectWithJSON.go:265-272 | the bookkeeping after the inner loop counts the capture and stores the word as `Stored` says: first capture without its trailing space and with the index wound back, second capture as read, later ones nowhere |
| Extractor.Stored | ProjectWithJSON.go:265-272 | after the bookkeeping the index stands at the end of the word read, or one before it when it was wound back |
| Extractor.AbsorbChar | ProjectWithJSON.go:257-273 | appending one character either only grows the accumulator or, when the trigger suffix is complete, runs the capture block, as `Absorb` says |
| Extractor.Iteration | ProjectWithJSON.go:256-277 | one pass of the outer loop is `Step`: absorb a character, then take the rest of the command as second operand after "to "/"text ", panicking when the rest starts past the end |
| Extractor.ExtractOperands | ProjectWithJSON.go:251-279 | the imperative scan returns exactly `Extract(s)`, including the panic of `commandString[i+1:]` |
| Extractor.FileOnly | ProjectWithJSON.go:256-268 | `<verb> file NAME` outside `If` gives operands (NAME, "") |
| Extractor.FileName | ProjectWithJSON.go:256-268 | after `file NAME ` the scan holds NAME as first operand and has wound the index back onto the space |
| Extractor.FileThenRest | ProjectWithJSON.go:256-276 | `<verb> file NAME … to REST` and `… text REST` give (NAME, REST), REST possibly holding spaces |
| Extractor.RestOnly | ProjectWithJSON.go:274-276 | a `to ` or `text ` with no `file ` before it gives ("", REST) |
| Extractor.LastRestWins | ProjectWithJSON.go:274-276 | a second `to `/`text ` inside the rest restarts the second operand: the last one wins |
| Extractor.ToName | ProjectWithJSON.go:256-268 | inside `If`, after `to A ` the scan holds A as first operand |
| Extractor.IfBranches | ProjectWithJSON.go:256-272 | inside `If` commands only `to ` starts a capture (`file ` does not); the first two give (A, B) |
| Extractor.IfThirdCapture | ProjectWithJSON.go:262-272 | a third `to ` capture assigns nothing, and the second operand keeps the trailing space of its capture |
| Extractor.ExtractFromSound | ProjectWithJSON.go:256-276 | from any sound scan state, a finished scan yields a space-free first operand and operands that are pieces of the command |
| Extractor.OperandsAreSlices | ProjectWithJSON.go:262-276 | the first operand never holds a space, and both operands are contiguous pieces of the command |
| Extractor.NoKeywordNoOperands | ProjectWithJSON.go:256-276 | a command containing none of "file ", "to ", "text " gives ("", "") |
| ExtractorExamples.CreateFile | ProjectWithJSON.go:251-279 | "Create file x.txt" gives ("x.txt", "") |
| ExtractorExamples.GetFile | ProjectWithJSON.go:251-279 | "Get file x.txt" gives ("x.txt", "") |
| ExtractorExamples.RenameFile | ProjectWithJSON.go:251-279 | "Rename file x.txt to b.txt" gives ("x.txt", "b.txt") |
| ExtractorExamples.WriteFile | ProjectWithJSON.go:251-279 | "Write file x.txt text hello world" gives ("x.txt", "hello world") |
| ExtractorExamples.GoTo | ProjectWithJSON.go:251-279 | "Go to Action3" gives ("", "Action3") |
| ExtractorExamples.WriteTextWithTo | ProjectWithJSON.go:274-276 | in "Write file x.txt text go to bed" only "bed" is written: the `to ` inside the text takes over |
| ExtractorExamples.IfCondition | ProjectWithJSON.go:256-272 | "If file r.txt more then 2024-01-01 00:00:00 go to A2 else go to A3" gives ("A2", "A3") |
| Classifier.FirstPrefix | ProjectWithJSON.go:79-84 | a command found is one of the list and its keyword begins the string |
| Classifier.FirstPrefixNone | ProjectWithJSON.go:79-84 | none is found exactly when no keyword of the list begins the string |
| Classifier.Classify | ProjectWithJSON.go:77-85 | the search over the seven keywords in the source's order; `ClassifyExactly` and `ClassifyFirst` state its result |
| Classifier.ExtractCommand | ProjectWithJSON.go:77-85 | `extractCommandFromParams`: the keyword found and an empty message, or "" and the not-found message; stated by `ExtractCommandResult` |
| Classifier.FirstPrefixIsFirst | ProjectWithJSON.go:79-84 | every keyword before the one found does not begin the command |
| Classifier.KeywordsExclusive | ProjectWithJSON.go:47 | no string begins with two different keywords of the list |
| Classifier.ClassifyExactly | ProjectWithJSON.go:77-85 | the classifier returns a command exactly when its keyword begins the string |
| Classifier.ExtractCommandResult | ProjectWithJSON.go:77-85 | the message is empty exactly when a command is found; otherwise the keyword is empty, the message non-empty and no keyword begins the command |
| Classifier.ClassifyFirst | ProjectWithJSON.go:79-84 | the answer is the first command of the list whose keyword begins the string |
| Files.CreateFile | ProjectWithJSON.go:87-95 | creation succeeds exactly for a non-empty name and leaves an empty file stamped with the current time |
| Files.RenameFile | ProjectWithJSON.go:97-105 | renaming succeeds exactly when the source exists and the target name is non-empty; the names become the old ones less the source plus the target, the target holds the source's contents stamped with the current time, every other file stays; renaming a file onto itself changes nothing |
| Files.DeleteFile | ProjectWithJSON.go:107-115 | deletion succeeds exactly when the file exists and removes only it |
| Files.AppendText | ProjectWithJSON.go:124-137 | the write succeeds exactly when the file exists and appends the text to it, every other file unchanged; the file's time becomes the current time, except after an empty write, which keeps it |
| Files.TimeCreationOfFile | ProjectWithJSON.go:281-303 | a missing file gives the stat error and the zero time; on linux the status-change time; on any other platform, darwin included, the "unable to find" message and the zero time |
| Files.CreateThenWrite | ProjectWithJSON.go:87-137 | a create followed by a write leaves the written text as the whole file |
| Files.EmptyWriteKeeps | ProjectWithJSON.go:124-137 | writing no bytes into an existing file changes nothing, not even its time |
| Files.RenameBack | ProjectWithJSON.go:97-105 | renaming there and back restores the file system's names and the contents |
| Files.StatAfterCreate | ProjectWithJSON.go:281-303 | on linux, the time read back after a create is the time of the create |
| Conditions.Operator | ProjectWithJSON.go:170-189 | the order of the `switch` cases: more, then less, then equals, by containment; stated by `OperatorIsFirst` |
| Conditions.LeftTime | ProjectWithJSON.go:146-160 | the first time: zero when no keyword set it, the clock after "current time ", the file's creation time after "file " |
| Conditions.RightTime | ProjectWithJSON.go:146-166 | the second time: zero when no timestamp was read or it does not parse, the parsed time otherwise |
| Conditions.ErrText | ProjectWithJSON.go:148-159 | the error text: empty until a file is looked up, then the message of the last lookup |
| Conditions.ProbeStep | ProjectWithJSON.go:150-167 | one pass of the loop body that does not panic moves the index strictly forward and not past the end |
| Conditions.Blocks | ProjectWithJSON.go:154-167 | the file block then the timestamp block, run after the "current time " check, move the index strictly forward when they do not panic |
| Conditions.TimeBlockThenNext | ProjectWithJSON.go:161-167 | the timestamp block and the loop's `i++` move the index strictly forward when they do not panic |
| Conditions.ProbeFrom | ProjectWithJSON.go:149-168 | the outer loop: `ProbeStep` until the index reaches the end; the shape lemmas compute it for each kind of condition |
| Conditions.Condition | ProjectWithJSON.go:143-192 | `conditions`: operands, scan, then the `switch` on the recorded times; `Conditions.Conditions` is proved to compute it, the shape lemmas state its result |
| Conditions.OperatorIsFirst | ProjectWithJSON.go:170-189 | the operator found occurs in the command; none is found exactly when none of the words occurs; the one found is the first of more, less, equals that occurs |
| Conditions.Decide | ProjectWithJSON.go:170-190 | with an operator, the first branch when the comparison holds and the second otherwise, with one "Compared" fragment; with none, the error text as the destination and an empty log |
| Conditions.ReadUntil | ProjectWithJSON.go:156-165 | the inner loops read exactly up to the first occurrence of the stop character and report whether they found it |
| Conditions.FileBlock | ProjectWithJSON.go:154-160 | the file block reads the name up to the next space, panics when there is none, and sets the first time and the error text to the lookup of that file |
| Conditions.TimeBlock | ProjectWithJSON.go:161-167 | the timestamp block reads up to the next `g`, panics when there is none or the text is empty, and parses the text without its last character as the second time |
| Conditions.NameNoKey | ProjectWithJSON.go:155-161 | a name read up to a space never ends in "then " or "equals " |
| Conditions.Iteration | ProjectWithJSON.go:150-167 | one pass of the loop body is `ProbeStep` and keeps both times and the error text equal to those of the recorded sources |
| Conditions.RunTimeBlock | ProjectWithJSON.go:161-167 | the timestamp check and block compute `TimeBlockThenNext` and keep the second time equal to the parse of the recorded timestamp |
| Conditions.RunBlocks | ProjectWithJSON.go:154-167 | the two blocks run in the source's order compute `Blocks` |
| Conditions.Conditions | ProjectWithJSON.go:143-192 | the imperative evaluator returns exactly `Condition`, panics included |
| ConditionShapes.TimeWordAt | ProjectWithJSON.go:151-161 | a keyword of the scan ending at a position is a space preceded by "file", "then", "time" or "equals" |
| ConditionShapes.PlainRun | ProjectWithJSON.go:149-153 | a stretch where no keyword ends is only accumulated, with both time sources unchanged |
| ConditionShapes.FileAt | ProjectWithJSON.go:154-160 | after "file " the name up to the space becomes the source of the first time and the file looked up last |
| ConditionShapes.TimeAt | ProjectWithJSON.go:161-167 | after "then "/"equals " the text up to `g`, less its last character, is the timestamp |
| ConditionShapes.NowAt | ProjectWithJSON.go:151-153 | after "current time " the clock is the source of the first time |
| ConditionShapes.FileScan | ProjectWithJSON.go:149-169 | on "If file NAME … then STAMP g…" the scan ends with the file as first source, the file as last lookup and STAMP as timestamp |
| ConditionShapes.NowScan | ProjectWithJSON.go:149-169 | on "If current time … then STAMP g…" the scan ends with the clock as first source, no lookup and STAMP as timestamp |
| ConditionShapes.FileOperands | ProjectWithJSON.go:145 | the operands of a file condition are its two branch names |
| ConditionShapes.FileCondition | ProjectWithJSON.go:143-192 | a file condition compares the file's creation time with the parsed STAMP and passes the lookup message on as error text |
| ConditionShapes.FileConditionBranch | ProjectWithJSON.go:170-189 | with an operator present, a file condition leads to A exactly when the comparison of the file's time (zero when missing or not linux) with STAMP holds, otherwise to B |
| ConditionShapes.NowOperands | ProjectWithJSON.go:145 | the operands of a clock condition are its two branch names |
| ConditionShapes.NowCondition | ProjectWithJSON.go:143-192 | a clock condition compares the current time with the parsed STAMP, with an empty error text |
| ConditionShapes.NowConditionBranch | ProjectWithJSON.go:170-189 | with an operator present, a clock condition leads to A exactly when the comparison of now with STAMP holds, otherwise to B |
| ConditionShapes.QuietScan | ProjectWithJSON.go:149-169 | a command in which no keyword ends leaves both times unset |
| ConditionShapes.QuietCondition | ProjectWithJSON.go:146-189 | without time keywords both times are zero: "equals" takes the first branch, "more" and "less" the second |
| ConditionsExamples.RecentFileOperator | ProjectWithJSON.go:171 | the operator of "If file r.txt more then …" is More |
| ConditionsExamples.RecentFileOnLinux | ProjectWithJSON.go:143-192 | on linux with r.txt present the script goes on with A2 exactly when r.txt is newer than the timestamp |
| ConditionsExamples.RecentFileMissing | ProjectWithJSON.go:159-176 | without r.txt the first time is zero and the script goes on with A3 |
| Engine.Operate | ProjectWithJSON.go:87-137 | each file command and `Go` produce one fragment; only `Go` moves the pointer; only Create, Rename, Delete and Write change the file system |
| Engine.Exec | ProjectWithJSON.go:220-238 | an unknown command leaves the not-found fragment; `If` sets the pointer to the evaluator's destination and logs its fragment; `Go` sets it to the extractor's second operand; only `If`/`Go` move the pointer; at most one fragment per command |
| Engine.RunParams | ProjectWithJSON.go:221-240 | the inner loop of `main`: every command runs and logs after the ones before it, a panic stops it; `RunAction` computes it and `RunIgnoresPointer`, `RunLogGrows`, `NoJumpKeepsPointer` state its properties |
| Engine.Visit | ProjectWithJSON.go:218-245 | a visit changes only the log of the visited action; a skipped action gets the empty log and nothing else changes |
| Engine.Upto | ProjectWithJSON.go:218-246 | visiting keeps every action's name and commands, and leaves the actions not yet visited untouched |
| Engine.RunAll | ProjectWithJSON.go:217-246 | the run of `main` from the pointer "Action1" over every action; `Interpreter.Run` computes it, `VisitedOnce`, `NoFirstAction` and `Idempotent` state its properties |
| Engine.UptoHalted | ProjectWithJSON.go:218-246 | after a panic nothing further happens |
| Engine.UptoCompletedBefore | ProjectWithJSON.go:218-246 | a run still going after n visits was going after every earlier visit |
| Engine.UptoKeepsStep | ProjectWithJSON.go:218-246 | a visit leaves the actions already visited as they were |
| Engine.UptoKeeps | ProjectWithJSON.go:218-246 | an action's log is final once it has been visited |
| Engine.Visited | ProjectWithJSON.go:220-242 | what a visit leaves in an action: its commands' log when its name is the pointer, the empty log otherwise; `VisitedOnce` and `VisitedAt` tie the run to it |
| Engine.VisitedOnce | ProjectWithJSON.go:218-245 | in a completed run each action's final log is its own commands' log when its name equalled the pointer at its visit, and empty otherwise |
| Engine.VisitedAt | ProjectWithJSON.go:218-245 | in a run that completes, the visit of the k-th action leaves it as `Visited` says: its commands' log when its name equalled the pointer, empty otherwise |
| Engine.OperateIgnoresPointer | ProjectWithJSON.go:87-137 | a file command's effect on files and log does not depend on the pointer |
| Engine.ExecIgnoresPointer | ProjectWithJSON.go:220-238 | a command's effect on files and log does not depend on the pointer; commands other than `If`/`Go` keep it |
| Engine.RunIgnoresPointer | ProjectWithJSON.go:221-240 | a jump does not stop the action: the later commands run and log the same whatever the pointer was |
| Engine.RunLogGrows | ProjectWithJSON.go:239 | each command appends at most one fragment after those of the commands before it |
| Engine.NoJumpKeepsPointer | ProjectWithJSON.go:234-237 | an action without `If` or `Go` leaves the pointer alone |
| Engine.PointerStays | ProjectWithJSON.go:218-246 | across actions without `If` or `Go`, run or skipped, the pointer does not move |
| Engine.PointerStep | ProjectWithJSON.go:218-246 | the visit of one action without `If` or `Go`, run or skipped, leaves the pointer where it was |
| Engine.DuplicateNameRuns | ProjectWithJSON.go:220 | a later action with the same name as a run action also runs when nothing in between jumps |
| Engine.NothingRuns | ProjectWithJSON.go:218-245 | when no action carries the pointer's name, nothing runs: files and pointer are untouched and every log is empty |
| Engine.NothingRunsStep | ProjectWithJSON.go:220-242 | an action not named like the pointer is skipped: only its log is reset to empty |
| Engine.NoFirstAction | ProjectWithJSON.go:217-245 | a script without an action named "Action1" runs no command |
| Engine.NoTouchKeepsFiles | ProjectWithJSON.go:221-240 | commands that create, rename, delete or write no file leave the file system as it was, whether or not one panics |
| Engine.ReadOnlyKeepsFiles | ProjectWithJSON.go:218-246 | a script of such commands leaves the file system as it was after any number of visits |
| Engine.VisitIgnoresLogs | ProjectWithJSON.go:219-245 | a visit does not read the log it overwrites: on two action lists with the same names and commands it does the same, and leaves each action equal in both or untouched in both |
| Engine.UptoIgnoresLogs | ProjectWithJSON.go:218-246 | the same for the whole run: same completion, files and pointer, every action equal in both runs or untouched in both |
| Engine.Idempotent | ProjectWithJSON.go:217-246 | a script whose commands touch no file leaves the files as they were, and running it again on the actions and files it left gives back exactly the same state, logs included |
| Engine.Interpreter.constructor | ProjectWithJSON.go:217 | the pointer starts as "Action1" |
| Engine.Interpreter.RewriteFile | ProjectWithJSON.go:64 | only the log of the indexed action changes |
| Engine.Interpreter.GoToNextAction | ProjectWithJSON.go:195-201 | the pointer becomes the extractor's second operand, with a "switched" fragment; files untouched |
| Engine.Interpreter.FileCommand | ProjectWithJSON.go:87-137 | the file commands change the file system and log as `Operate` says, pointer untouched |
| Engine.Interpreter.ExecCommand | ProjectWithJSON.go:221-238 | one pass of the inner loop does what `Exec` says to the files, the pointer and the log |
| Engine.Interpreter.RunAction | ProjectWithJSON.go:221-240 | the inner loop runs every command of the action in order and collects their fragments, as `RunParams` says |
| Engine.Interpreter.VisitAction | ProjectWithJSON.go:219-245 | one pass of the outer loop runs the action when its name equals the pointer, then writes back its log (empty when skipped), as `Visit` says; a panic stops before the write |
| Engine.Interpreter.Run | ProjectWithJSON.go:217-246 | the outer loop leaves exactly the state `Upto` gives after all actions, and reports whether it finished |
| EngineExamples.FirstVisit | ProjectWithJSON.go:217-240 | Action1 creates x.txt and moves the pointer to Action3 |
| EngineExamples.SecondVisit | ProjectWithJSON.go:220-242 | Action2 is skipped and gets the empty log |
| EngineExamples.LastVisit | ProjectWithJSON.go:218 | the rest of the run is the visit of Action3 |
| EngineExamples.ThirdVisit | ProjectWithJSON.go:220-240 | with `Write file x.txt text hello world` last, Action3 runs and appends its text to x.txt |
| EngineExamples.WholeRun | ProjectWithJSON.go:217-246 | the script with the write last ends with x.txt holding the written text and the expected three logs |
| EngineExamples.GetCommand | ProjectWithJSON.go:77-85 | `Get file x.txt` is a `Get` command on the operand x.txt |
| EngineExamples.GetVisit | ProjectWithJSON.go:220-240 | with `Get file x.txt` last, Action3 runs and logs x.txt's creation time (linux) or the "unable to find" message, changing neither files nor pointer |
| EngineExamples.GetRun | ProjectWithJSON.go:217-246 | the script Create x.txt and Go to Action3 / Delete x.txt / Get x.txt: Action1 creates x.txt and jumps, Action2 is skipped with an empty log, Action3 reports the time x.txt was created |

## Left out

- JSON decoding and encoding, and the writes of the script file (`readFile`, the rest of `rewriteFile`, the fatal panics in `main` when these fail): the model starts from the decoded action list and keeps only the in-memory assignment of the log.
- The real file system: files are a map from names to contents and status-change times. `os.Create` fails only on the empty name; permissions, directories and a failing `WriteString` after a successful open are not modelled.
- `time.Now()` is one instant per run (`Env.now`); the evaluator reads it at every "current time " and the file operations stamp files with it.
- `time.Parse` is a parameter of the model (`Env.parse`), with the zero time on failure; the calendar arithmetic of the `YYYY-MM-DD HH:MM:SS` layout is not modelled. Times are whole seconds, so the sub-second part of `time.Now()` in comparisons is not captured.
- The text of the log messages: fragments are a datatype instead of `fmt.Sprintf` output. The only rendered texts are the not-found message, the no-operator destination and the stat messages it embeds. `%e` errors are a fixed placeholder. The one time the model renders, the creation time in the stat message that the no-operator destination embeds, is written as decimal seconds, not as Go's `Time.String()` text that `%s` prints at line 298.
- `runtime.GOOS` is a parameter (`Env.platform`). The commented-out Windows branch is not modelled. An empty `case` in Go ends the `switch`, so for `"darwin"` control goes on to the "unable to find" return at line 300, and the model gives that. The file does not build for darwin, though: the `Ctim` field used at line 297 exists only in the Linux layout of `syscall.Stat_t`. The "unable to find" return is in practice reached by other systems that share that layout, such as android.
- The status-change time stands for the creation time; it is set by create, rename and a write of at least one byte, as on Linux, where a write of no bytes leaves the file alone.
- The `interactionsWithJSONFile` interface is not used by the program.
- Conditions.Conditions: the method records where the first time comes from (clock or file) and the timestamp text, and evaluates them at the end of the scan instead of at the moment the source does. Since the file system, the clock and the parser do not change during one scan, the result is the same.
- Classifier: the engine dispatches on the `Command` value instead of the keyword string the classifier returns; `ExtractCommandResult` relates the two.
- Extractor.Extract: commands are taken to be ASCII text, one character per byte. Go indexes strings by byte, and `string(commandString[i])` (lines 255 and 260) turns each byte into a one-rune string, so a non-ASCII character in a name captured character by character comes out re-encoded, each of its bytes as a separate character. The rest taken by the slice `commandString[i+1:]` at line 275 keeps its bytes. The model reads whole characters and does not capture this re-encoding.
- Extractor.OperandsAreSlices: holds for ASCII commands only; with the byte re-encoding described for `Extract`, a first operand captured from non-ASCII characters is not a piece of the command.
- Conditions.Condition: as for `Extract`, the command is taken to be ASCII. `string(param[i])` at lines 150, 157 and 164 re-encodes non-ASCII bytes in the file name and the timestamp, and the branch names come from the extractor. So in the program an `If` whose branch name is not ASCII never matches the action of that name, while `Go to` with the same name does; the model does not capture this.
- Engine.Idempotent: both runs read the same clock (`Env.now`); a later second run of an `If current time …` command can take the other branch.
- ConditionShapes.FileCondition, NowCondition: stated for commands whose pieces hold no keyword where the scan or the extractor would react to one (`Plain`, `Calm`); other commands are covered only by `Condition` itself.

## Behaviour of the code worth knowing

- One would expect `case "darwin":` to read the creation time on macOS. The case is empty, and the Linux branch uses the Linux-only field `Ctim`, so the program does not build for darwin at all; on the systems where it builds, only `"linux"` gets a creation time and every other value of `runtime.GOOS` gets the "unable to find" message and the zero time.
- One would expect a malformed command to be reported in the log. Besides the fatal I/O errors, some stop the whole run with an index or slice panic: a file name or timestamp in an `If` that is not followed by a space or a `g`, or, in the extractor, a capture after the first whose word ends in "to " or "text " exactly at the end of the string (`commandString[i+1:]` then starts past the end). The model follows the code.
- One would expect an `If` without "more", "less" or "equals" to leave the pointer alone. The code makes the error text the new pointer (line 190 feeds line 235), so no later action runs unless one is named like that text.
