# Models of a session log, an editor and a message stream

The project models six pieces of the repository and proves what they promise.

- **The session log** (`packages/kernel/src/session-v4`). Commits carry changes to a conversation tree, runs, a queue and
  tool effects. `Reducer` gives each change and commit as a function; `Invariant` to `Safety`, `History` and `Progress`
  prove what holds over all runs. `Store` and `Journals` are the reducer as it runs: in place, on shared objects and
  indexes, under an undo journal. `Rebuild` builds the indexes from nothing.
- **Its file.** `JsonLines` and `Log` say what a reader makes of bytes, `Durability` what writers, failing disks,
  crashes and retries can do to a file, `Appends` what the promises of the asynchronous writer add, and `Writer` has the
  synchronous writer and the reader themselves.
- **The canonical JSON** that tool inputs are hashed by (`Numerals`, `JsonText`, `CanonicalJson`).
- **The multiline editor** (`packages/terminal/src/text-buffer.ts`). The buffer is seen as a list of tokens, characters
  and numbered paste markers (`EditorText`), and each operation of `Editor` is proved against what it does to the tokens.
- **Word wrapping** (`packages/terminal/src/word-wrap.ts`), and the moves of the cursor over wrapped rows (`EditorRows`).
- **Message streams** (`packages/models/src`). `ContentWriter` is the writer of content blocks with its byte accounts,
  over maps in insertion order (`OrderedMap`), and `ContentRuns` how the program drives it; `Channel` and `EventStreams`
  are the bounded channel and its readers.

A class holds the fields that the program updates and is proved against functions of values; the functions carry the
lemmas. Ghost fields hold what the program does not keep (the tokens of the buffer, the events so far). Many proofs hide
definitions that they do not need, which keeps each of them small.

## Model

| member | source | states |
|---|---|---|
| `Safety.IdsHaveOneOwner` | packages/kernel/src/session-v4/reduce.ts:289-306 | In every reachable state the kinds of record that use an id are compatible: one kind, or a conversation node with its reservations (queue target, prompt, both, or tool result), or a recovery with its settlement; no two operations share a prompt and no two queue entries a target. |
| `Safety.IndexesAreTheRebuild` | packages/kernel/src/session-v4/reduce.ts:99-140 | The seven indexes kept through any run of accepted and rejected commits are the only ones that describe the state; whatever rebuilds them from the state gives the same. |
| `Safety.FinishedForever` | packages/kernel/src/session-v4/reduce.ts:684-740 | A finished operation never changes again, in any later state: it has exactly the effects it had, unchanged and terminal, each with a tool-message result that hangs below its assistant node through the operation's own nodes; none of its queue entries is claimed, and it is not open. |
| `Safety.CancelledForever` | packages/kernel/src/session-v4/reduce.ts:637-663 | After a cancellation request the operation never gets another step, attempt, effect or dispatch, none of its effects is prepared, and it cannot finish as completed. |
| `Safety.EffectsLive` | packages/kernel/src/session-v4/reduce.ts:946-1092 | In every reachable state an effect has at most one dispatch, or two if it is repeatable; an output exactly when it succeeded or failed, a finish time exactly when it is terminal, an in-doubt time exactly while it is in doubt or in recovery. |
| `Safety.ConversationIsForest` | packages/kernel/src/session-v4/reduce.ts:320-358 | In every reachable state an ancestor walk from a known node never cycles and never meets an unknown node, and it succeeds exactly when there is a path of the owner's nodes; what it returns is that path. |
| `Safety.ConversationIsOrdered` | packages/kernel/src/session-v4/reduce.ts:399-443 | Every compaction retains nodes in root-to-leaf order on its parent's path; every prompt and every tool result that exists reaches its source through its own operation's nodes only. |
| `Safety.NodesAreKept` | packages/kernel/src/session-v4/reduce.ts:379-398 | No later commit changes or removes a conversation node. |
| `History.QueueIsFifo` | packages/kernel/src/session-v4/reduce.ts:742-832 | Over any run of commits each pending list is exactly the queued and claimed entries of its kind, once each, in order of addition; a claimed entry is the first, and its operation is the open one; the claims of a kind are a subsequence of its additions. |
| `History.DispatchesAreBounded` | packages/kernel/src/session-v4/reduce.ts:946-973 | Over any run the accepted dispatches of an effect are exactly the recorded ones, in order, at most one of them, or two under the repeatable policy. |
| `Runs.ReachableIsSettled` | packages/kernel/src/session-v4/reduce.ts:1167-1224 | Every session that any commits lead to satisfies the whole invariant (state, indexes, ownership), and no queued entry is reserved as a prompt between commits. |
| `Runs.TransitionKeeps` | packages/kernel/src/session-v4/reduce.ts:1167-1209 | One accepted commit keeps the invariant, and what was there only evolves: nothing settled is undone. |
| `Indexing.StepKeepsInv` | packages/kernel/src/session-v4/reduce.ts:1094-1165 | Each of the twenty kinds of change, when accepted, keeps the invariant of the state and of all seven indexes. |
| `Evolution.StepEvolves` | packages/kernel/src/session-v4/reduce.ts:1094-1165 | Each accepted change only extends the conversation, moves runs, entries and effects forward, and leaves cancelled and finished operations alone. |
| `Progress.ProgressUnlessStuck` | packages/kernel/src/session-v4/reduce.ts:454-518 | The open operation of a reachable state can be closed by later commits if and only if it is not stuck, that is, unless its prompt is the missing target of a cancelled queue entry; commits of one change each are enough. |
| `Progress.OpenCanBeClosed` | packages/kernel/src/session-v4/reduce.ts:684-740 | The commits that close an operation that is not stuck: cancel, mark in doubt, abandon, add the missing prompt and results, cancel claimed entries, move the head, finish; as many fresh ids are needed as there are effects, and one more. |
| `Progress.StuckForever` | packages/kernel/src/session-v4/reduce.ts:799-832 | A stuck operation stays open and stuck in every later state. |
| `Progress.StuckCanHappen` | packages/kernel/src/session-v4/reduce.ts:771-832 | A stuck operation is reachable: a queued prompt is accepted and claimed, and its entry cancelled before the prompt is added. |
| `CanonicalJson.CanonicalTextIdentifiesValues` | packages/kernel/src/session-v4/reduce.ts:228-250 | Two JSON values, with any finite numbers, have the same canonical text if and only if they are the same up to the order of object keys at every depth. |
| `Numerals.ReadsBack` | packages/kernel/src/session-v4/reduce.ts:228-231 | The digits of a number and the place of its point can be read back from each of the forms in which ECMAScript prints numbers (section 6.1.6.1.20 of ECMA-262). |
| `Store.SessionStore.constructor` | packages/kernel/src/session-v4/reduce.ts:252-283 | A new store shows the initial session. |
| `Store.SessionStore.AddOwner` | packages/kernel/src/session-v4/reduce.ts:219-226 | Adds an owner in place, under the journal, whether or not the id had owners before. |
| `Store.SessionStore.AddLink` | packages/kernel/src/session-v4/reduce.ts:178-194 | Adds a value to one of the set-valued indexes in place, under the journal. |
| `Store.SessionStore.Assign` | packages/kernel/src/session-v4/reduce.ts:147-158 | Editing an object under the journal: recorded at its first edit only, the journal still leads back to the start. |
| `Store.SessionStore.Ancestors` | packages/kernel/src/session-v4/reduce.ts:320-348 | The ancestor walk computes the path, or why there is none, as the recursive definition says. |
| `Store.SessionStore.BodyFits` | packages/kernel/src/session-v4/reduce.ts:399-443 | The checks of compactions and branch summaries accept exactly the allowed bodies. |
| `Store.SessionStore.PromptFits` | packages/kernel/src/session-v4/reduce.ts:497-518 | The walk from a prompt to its source head keeps no visited set; it ends because the nodes form a forest, and accepts exactly the allowed prompts. |
| `Store.SessionStore.AddConversationNode` | packages/kernel/src/session-v4/reduce.ts:379-521 | Adds a node in place exactly as the reducer function says, or rejects it. |
| `Store.SessionStore.AcceptRun` | packages/kernel/src/session-v4/reduce.ts:523-571 | Accepts a run in place exactly as the reducer function says, or rejects it. |
| `Store.SessionStore.SelectRunStep` | packages/kernel/src/session-v4/reduce.ts:573-600 | Selects a step in place, likewise. |
| `Store.SessionStore.StartAttempt` | packages/kernel/src/session-v4/reduce.ts:602-635 | Starts an attempt in place, likewise. |
| `Store.SessionStore.CancelRun` | packages/kernel/src/session-v4/reduce.ts:637-663 | Requests a cancellation in place, likewise: every prepared effect of the run is marked as not applied. |
| `Store.SessionStore.AddRunCheckpoint` | packages/kernel/src/session-v4/reduce.ts:665-682 | Adds a checkpoint in place, likewise. |
| `Store.SessionStore.FinishRun` | packages/kernel/src/session-v4/reduce.ts:684-740 | Finishes a run in place, likewise: only with its prompt on the head's path, nothing claimed and every effect settled. |
| `Store.SessionStore.AddQueueEntry` | packages/kernel/src/session-v4/reduce.ts:742-769 | Adds a queue entry in place, likewise, at the end of its pending list. |
| `Store.SessionStore.ClaimEntry` | packages/kernel/src/session-v4/reduce.ts:771-797 | Claims an entry in place, likewise: only the first of its kind. |
| `Store.SessionStore.FinishEntry` | packages/kernel/src/session-v4/reduce.ts:799-832 | Consumes or cancels an entry in place, likewise, although it is changed before the pending list is searched. |
| `Store.SessionStore.PrepareEffect` | packages/kernel/src/session-v4/reduce.ts:834-937 | Prepares a tool effect in place, likewise, with its seven index entries. |
| `Store.SessionStore.DispatchEffect` | packages/kernel/src/session-v4/reduce.ts:946-973 | Dispatches an effect in place, likewise. |
| `Store.SessionStore.MarkInDoubt` | packages/kernel/src/session-v4/reduce.ts:975-987 | Marks an effect in doubt in place, likewise. |
| `Store.SessionStore.BeginRecovery` | packages/kernel/src/session-v4/reduce.ts:989-1006 | Starts a recovery in place, likewise. |
| `Store.SessionStore.FinishEffect` | packages/kernel/src/session-v4/reduce.ts:1008-1023 | Finishes an effect in place, likewise. |
| `Store.SessionStore.ReconcileEffect` | packages/kernel/src/session-v4/reduce.ts:1025-1052 | Reconciles an effect in place, likewise. |
| `Store.SessionStore.ResolveEffect` | packages/kernel/src/session-v4/reduce.ts:1054-1092 | Resolves an effect in place, likewise. |
| `Store.SessionStore.ApplyChange` | packages/kernel/src/session-v4/reduce.ts:1094-1165 | One change in place is one step of the reducer function, or a rejection, and the journal still leads back. |
| `Store.SessionStore.ApplyAll` | packages/kernel/src/session-v4/reduce.ts:1181-1190 | The changes of a commit in place are the steps one after the other; the first rejected one ends them. |
| `Store.SessionStore.ApplyCommit` | packages/kernel/src/session-v4/reduce.ts:1181-1209 | The changes, the check of queued prompts and the commit's own entry are one transition of the reducer function. |
| `Store.SessionStore.RunUndo` | packages/kernel/src/session-v4/reduce.ts:147-205 | One undo step takes back exactly the edit, map set, map delete or set addition that noted it. |
| `Store.SessionStore.Rollback` | packages/kernel/src/session-v4/reduce.ts:211-217 | Running the undo steps backwards restores the memory of the start: every table, every object and every index, for any interleaving of edits. |
| `Store.SessionStore.Offer` | packages/kernel/src/session-v4/reduce.ts:1167-1224 | A commit is denied, repeated or admitted exactly as the transition function says; unless it is admitted and retained, state and indexes are what they were. |
| `Store.SessionStore.RebuiltIndexes` | packages/kernel/src/session-v4/reduce.ts:28-76 | The rebuild that a cloned state needs gives the indexes that were kept in place. |
| `Store.SessionStore.Clone` | packages/kernel/src/session-v4/reduce.ts:28-30 | A clone has objects of its own, and with rebuilt indexes it shows the same session. |
| `Store.SessionStore.Reduce` | packages/kernel/src/session-v4/reduce.ts:1220-1224 | Reducing a commit on a clone leads where applying it in place leads, and leaves the store as it is. |
| `Rebuild.BuildIndexes` | packages/kernel/src/session-v4/reduce.ts:99-132 | The loops over nodes, runs, checkpoints, entries and effects build exactly the indexes that the invariant describes. |
| `JsonLines.RecordIsOneLine` | packages/kernel/src/session-v4/writer.ts:64-92 | The bytes of a record hold no raw line feed and no carriage return (section 7 of RFC 8259), and are not empty. |
| `Log.ParseRecord` | packages/kernel/src/session-v4/reader.ts:48-96 | A record that the session accepts and that is within the limits reads back as one more commit. |
| `Log.ParseDuplicate` | packages/kernel/src/session-v4/reader.ts:83-88 | A record whose commit the file already holds adds a row and changes no state. |
| `Log.CrashAtomicity` | packages/kernel/src/session-v4/reader.ts:48-96 | Whatever first part of a record reaches the file, a reader finds the state before it, or the state after it exactly when the final line feed arrived. |
| `Durability.EventsKeep` | packages/kernel/src/session-v4/writer.ts:332-397 | Any sequence of appends, faults, crashes and reopenings, also failing ones, keeps the file readable, the writer in step with it, and everything recorded in it. |
| `Durability.RetriesAgree` | packages/kernel/src/session-v4/writer.ts:54-77 | A draft that was answered with a commit is answered with that same commit ever after, and a different draft under its id is refused, whatever lies between and even by a writer with a fault; neither changes anything. |
| `Durability.OneCommitPerId` | packages/kernel/src/session-v4/reader.ts:83-88 | A readable file holds no two commits with one id, and its commits are numbered from 1 without gaps. |
| `Durability.MemoryIsTheFile` | packages/kernel/src/session-v4/writer.ts:382-397 | A writer without a fault holds in memory what its file reads back as, and the file is within the file and row limits of every reader. |
| `Durability.CrashThenReopen` | packages/kernel/src/session-v4/writer.ts:332-350 | After a failed append, a crash and a reopening the writer goes on from the state before the append, or from the one after it when the whole record arrived. |
| `Durability.CreatedIsSane` | packages/kernel/src/session-v4/writer.ts:308-330 | A new file reads back as the initial session, given that its header is within the limit of a line. |
| `Appends.AppendsTakeTurns` | packages/kernel/src/session-v4/writer.ts:241-290 | However calls, a closing, the settling of promises and the waiting for the disk are interleaved, the chain of promises lets at most one append be under way: the file and every answer are those of the same drafts appended one after the other in the order of their calls, and none is left when the file is closed. |
| `Appends.NoCallIsStuck` | packages/kernel/src/session-v4/writer.ts:241-249 | While a call has not ended, the append under way can end, or the first call that waits can go on, or the promise that it waits for can settle. |
| `Writer.WriteAll` | packages/kernel/src/session-v4/writer.ts:117-124 | Partial writes are continued until everything is written; after an error some first part has arrived, nothing else. |
| `Writer.CountLines` | packages/kernel/src/session-v4/reader.ts:48-62 | The loop counts exactly the lines that a line feed ends. |
| `Writer.ReplayLines` | packages/kernel/src/session-v4/reader.ts:75-92 | Applying the lines in place to one store is the replay function, with duplicate rows absorbed. |
| `Writer.ParseBytes` | packages/kernel/src/session-v4/reader.ts:48-96 | The reader accepts a file exactly when the parse function does, and returns its session, commits, row count and committed length. |
| `Writer.SyncWriter.PrepareCommit` | packages/kernel/src/session-v4/writer.ts:64-92 | A draft is answered with the recorded commit, refused, or turned into the next commit, after applying it and rolling it back; the state in memory is unchanged. |
| `Writer.SyncWriter.Append` | packages/kernel/src/session-v4/writer.ts:367-397 | Validating, writing, syncing and applying come to one append of the world of `Durability`; a commit that validated always applies, so the failure after a durable write cannot happen. |
| `Writer.SyncWriter.Close` | packages/kernel/src/session-v4/writer.ts:399-404 | Closing changes neither file nor memory. |
| `Writer.SyncWriter.Create` | packages/kernel/src/session-v4/writer.ts:308-330 | A created file is either that of a sane writer, or there is no writer. |
| `Writer.SyncWriter.Open` | packages/kernel/src/session-v4/writer.ts:332-350 | Opening cuts a torn tail off and yields a writer in step with the file; it fails on an unreadable file, or when the cut or its sync fails, and then the file is as it was or without its tail. |
| `Editor.MultilineEditor.RenumberPastes` | packages/terminal/src/text-buffer.ts:837-867 | Numbers the markers 1 to n in order and rewrites the labels that change; the cursor and a tracked position stay between the same tokens. |
| `Editor.MultilineEditor.DeleteRange` | packages/terminal/src/text-buffer.ts:585-607 | Removes exactly the tokens of a range, renumbers the rest, and returns the removed text with its payloads. |
| `Editor.MultilineEditor.Backspace` | packages/terminal/src/text-buffer.ts:293-298 | Removes the one character or whole marker before the cursor. |
| `Editor.MultilineEditor.DeleteForward` | packages/terminal/src/text-buffer.ts:300-305 | Removes the one character or whole marker after the cursor. |
| `Editor.MultilineEditor.MoveLeft` | packages/terminal/src/text-buffer.ts:355-370 | Moves left by one token, or over spaces and then over one word or one other token; the tokens stay. |
| `Editor.MultilineEditor.MoveRight` | packages/terminal/src/text-buffer.ts:372-387 | Moves right, likewise; the tokens stay. |
| `Editor.MultilineEditor.MoveHome` | packages/terminal/src/text-buffer.ts:389-394 | Moves to the start of the line or of the document; the tokens stay. |
| `Editor.MultilineEditor.MoveEnd` | packages/terminal/src/text-buffer.ts:396-401 | Moves to the end of the line or of the document; the tokens stay. |
| `Editor.MultilineEditor.DeleteToLineStart` | packages/terminal/src/text-buffer.ts:307-315 | Kills back to the line start, or the line feed before the cursor. |
| `Editor.MultilineEditor.DeleteToLineEnd` | packages/terminal/src/text-buffer.ts:317-323 | Kills on to the line end, or the line feed at the cursor. |
| `Editor.MultilineEditor.DeleteWordBackward` | packages/terminal/src/text-buffer.ts:325-338 | Kills what a word move to the left passes over. |
| `Editor.MultilineEditor.DeleteWordForward` | packages/terminal/src/text-buffer.ts:340-353 | Kills what a word move to the right passes over. |
| `Editor.MultilineEditor.InsertPlain` | packages/terminal/src/text-buffer.ts:559-583 | Inserts the sanitized text as far as both budgets allow, and nothing else changes. |
| `Editor.MultilineEditor.InsertPaste` | packages/terminal/src/text-buffer.ts:266-291 | A small paste is inserted as text; a large one becomes one marker with as much of the payload as fits, or nothing. |
| `Editor.MultilineEditor.ExpandedText` | packages/terminal/src/text-buffer.ts:869-878 | The text with every payload in place of its marker. |
| `Editor.MultilineEditor.RecordKill` | packages/terminal/src/text-buffer.ts:653-667 | A kill joins the run of kills before it, in front or behind by direction; dropping old entries never drops the newest one. |
| `Editor.MultilineEditor.RunKill` | packages/terminal/src/text-buffer.ts:307-353 | Each kill command takes one range of tokens, joins it to the run of kills, and remembers the tokens before the first one. |
| `Editor.MultilineEditor.Yank` | packages/terminal/src/text-buffer.ts:455-469 | A yank is refused exactly when the ring is empty or the result is over a budget; otherwise the newest entry is back at the cursor. |
| `Editor.MultilineEditor.KillThenYank` | packages/terminal/src/text-buffer.ts:307-353 | After any run of kills, forward and backward mixed and over markers, one yank is never refused and gives back the same text, the same markers and the same payloads. |
| `Editor.MultilineEditor.ReplacementFits` | packages/terminal/src/text-buffer.ts:476-484 | The checks of a yank-pop pass exactly when the three sums are within their limits, and then the replaced buffer is within both budgets. |
| `Editor.MultilineEditor.YankPop` | packages/terminal/src/text-buffer.ts:471-496 | Replaces the tokens of the last yank by the next older entry exactly when there is a last yank, another entry, and the checks pass; the insertion after the deletion cannot fail. |
| `Editor.MultilineEditor.Restore` | packages/terminal/src/text-buffer.ts:191-227 | Whatever a snapshot holds, the editor ends in a valid state with exactly the chosen markers; the cursor is at its place, or at the nearer end of the marker that this is inside. |
| `Editor.MultilineEditor.SetText` | packages/terminal/src/text-buffer.ts:229-246 | Replaces the text; markers whose labels still occur, each after the one before, are put back with their payloads as a snapshot with them would be. The snapshot before is noted, and the cursor is where it was asked for. |
| `Editor.MultilineEditor.Undo` | packages/terminal/src/text-buffer.ts:498-504 | Restores the newest snapshot with its cursor, and puts the present one on the redo stack. |
| `Editor.MultilineEditor.Redo` | packages/terminal/src/text-buffer.ts:506-512 | The converse of undo. |
| `Editor.MultilineEditor.Clear` | packages/terminal/src/text-buffer.ts:248-260 | Empties the buffer, notes the snapshot before if asked to, and empties the redo stack; an empty buffer is left alone. |
| `Editor.MultilineEditor.JumpToCharacter` | packages/terminal/src/text-buffer.ts:419-453 | Moves to the nearest occurrence of a character outside all markers, before or after the cursor, and reports none exactly when there is none. |
| `EditorLabels.OwnLabelAccepted` | packages/terminal/src/text-buffer.ts:204-208 | Every label that the editor writes passes the form and figure checks of a restore with its own payload. |
| `EditorRestore.SnapshotComesBack` | packages/terminal/src/text-buffer.ts:191-227 | Restoring the snapshot of numbered tokens with printable payloads chooses all of their markers if and only if the text fits with its first k markers expanded, for every k; otherwise it chooses fewer. |
| `Editor.MultilineEditor.SnapshotThenRestore` | packages/terminal/src/text-buffer.ts:183-227 | In every valid editor, taking a snapshot and restoring it gives tokens and cursor back if and only if the text fits with its first k markers expanded, for every k. |
| `EditorRestore.ShortPayloadCanBeLost` | packages/terminal/src/text-buffer.ts:209-212 | A buffer of two pastes, within both budgets, for which that fails: the payload of the second is shorter than its label. |
| `EditorLoss.LoseAPaste` | packages/terminal/src/text-buffer.ts:191-291 | A run that reaches this buffer by two pastes into an editor of 1,002 bytes, takes a snapshot and restores it: the tokens are not the ones before. |
| `WordWrap.WordWrapLine` | packages/terminal/src/word-wrap.ts:12-78 | For width at least 1 the chunks are non-empty slices that cover the line without a gap, none wider than the width unless it is one grapheme; of graphemes, no two neighbours would have fitted together. Atomic units that are too wide are wrapped by one recursive call. |
| `WordWrap.ChunksSpellLine` | packages/terminal/src/word-wrap.ts:12-78 | The texts of chunks that cover a line, one after the other, are the line. |
| `EditorRows.VisualLines` | packages/terminal/src/text-buffer.ts:687-727 | The rows that a text is shown in cover it: each is part of one line and no wider than the width unless it is one grapheme, and each begins where the one before ends. |
| `EditorRows.MoveToVisualLine` | packages/terminal/src/text-buffer.ts:737-788 | Moving to a row, and downwards over the rows that a marker continues in, ends; the cursor ends in a row at or behind the target, never inside a marker, and a place inside a marker becomes its start and is remembered. |
| `EditorRows.MoveVertical` | packages/terminal/src/text-buffer.ts:669-685 | A move up or down goes from the row that holds the cursor, or, at the first or last row, to the end of the line on that side; the tokens stay. |
| `EditorRows.ThereAndBack` | packages/terminal/src/text-buffer.ts:753-770 | A move to another row and back leads back to the same place, however short that row is, unless the first move falls into a marker. |
| `OrderedMap.RemoveIndex` | packages/models/src/protocol-transports.ts:307-316 | The loop over a snapshot of the pairs computes the renumbering function. |
| `OrderedMap.RenumberingIsExact` | packages/models/src/protocol-transports.ts:307-316 | Removing a key and renumbering moves every later value down by one if and only if no key comes, in insertion order, after the key that is one larger. |
| `ContentBudget.DiscardIsExact` | packages/models/src/protocol-transports.ts:293-305 | All five maps move down together if and only if the keys of all five are in that order. |
| `ContentBudget.DiscardKeepsAccounts` | packages/models/src/protocol-transports.ts:293-305 | With keys in order, discarding a tool keeps the accounts: every block is charged what it holds, and the sum is kept. |
| `ContentBudget.DiscardCanLoseATool` | packages/models/src/protocol-transports.ts:293-316 | With three tools opened backwards, discarding the last one loses the first: the sum that is kept still has its arguments, the blocks have not. |
| `ContentEvents.BracketingCounts` | packages/models/src/protocol-transports.ts:147-316 | Bracketed events start exactly as many blocks as there are. |
| `ContentEvents.FillerIsNotBracketed` | packages/models/src/protocol-transports.ts:198-217 | While a block of the content was never started, the events are not bracketed; text that fills a gap is such a block until a tool that is started at its index replaces it. |
| `ContentWriter.CanonicalWriter.Text` | packages/models/src/protocol-transports.ts:147-179 | Exactly when text is taken, and the whole new state and events: appended to the last block if that is open and of its kind, else to a new one. |
| `ContentWriter.CanonicalWriter.StartTool` | packages/models/src/protocol-transports.ts:181-219 | Exactly when a tool is started, at which index, and the whole new state: the gap filled, other content there replaced and its charge with it. |
| `ContentWriter.CanonicalWriter.ToolDelta` | packages/models/src/protocol-transports.ts:221-242 | Exactly when a delta is taken, and the whole new state. |
| `ContentWriter.CanonicalWriter.ThinkingSignature` | packages/models/src/protocol-transports.ts:244-258 | Exactly when a signature is taken: the last block is thinking, open, and there is room; and the whole new state. |
| `ContentWriter.CanonicalWriter.FinishTool` | packages/models/src/protocol-transports.ts:260-278 | Exactly when a tool is completed, with which arguments and charge; otherwise it is discarded and the blocks renumbered. |
| `ContentWriter.CanonicalWriter.DiscardTool` | packages/models/src/protocol-transports.ts:280-305 | The accounts stay right when all keys above the tool are in order. |
| `ContentWriter.CanonicalWriter.Done` | packages/models/src/protocol-transports.ts:361-400 | Exactly when ending is refused, the state and the events. Then nothing is open and the accounts are right; when every tool was started at the end of the content, as when no index is passed, each block has one start, deltas that spell it and one later end if and only if no tool was discarded. |
| `ContentWriter.CanonicalWriter.Fail` | packages/models/src/protocol-transports.ts:376-400 | The state and the events of ending with an error, which comes last; the accounts stay right when every tool was started at the end of the content or behind it, and the brackets under the same condition as above. |
| `ContentWriter.BracketedUnlessDiscarded` | packages/models/src/protocol-transports.ts:260-305 | The same equivalence at any time, by counting starts: a discarded tool leaves a start without a block. |
| `ContentRuns.Drive` | packages/models/src/protocol-transports.ts:2122-2143 | What the callers in the file do: calls without indexes until one is refused or the connection ends, then `done`, or an error. The accounts are always right, a message that ends in `done` has each block bracketed and closed, and the last event is the only one of its kind. |
| `ContentWriter.DiscardThenDone` | packages/models/src/protocol-transports.ts:260-374 | Of the class alone, as no caller in the file makes this run: `done` after the only tool was discarded leaves events that are not bracketed. |
| `ContentWriter.LoseATool` | packages/models/src/protocol-transports.ts:181-305 | Of the class alone, as no caller in the file passes an index: starting tools at indexes 2, 1 and 0 and failing to finish the last one leaves 8 bytes accounted for, and blocks that are charged 4. |
| `Channel.BoundedEventChannel.Send` | packages/models/src/streaming.ts:30-37 | The ring of slots accepts an event exactly when it is not sealed and holds fewer than 4,096, at the end of the queue. |
| `Channel.BoundedEventChannel.Seal` | packages/models/src/streaming.ts:39-44 | Sealing wakes all readers, once, and keeps or drops the queue. |
| `Channel.BoundedEventChannel.Take` | packages/models/src/streaming.ts:75-82 | Takes the oldest event out of the ring. |
| `Channel.BoundedEventChannel.BeginReceive` | packages/models/src/streaming.ts:46-65 | A read takes an event, ends, is refused, or joins the readers of the current pulse. |
| `Channel.BoundedEventChannel.ResumeReceive` | packages/models/src/streaming.ts:46-65 | A woken read looks again, and takes an event, ends, or waits for the next pulse. |
| `EventStreams.EventStream.Offer` | packages/models/src/streaming.ts:172-200 | What pushing an event does to a stream, overflow and terminal events included, and when more are taken. |
| `EventStreams.EventStream.Fail` | packages/models/src/streaming.ts:112-154 | A failed stream is sealed once. |
| `EventStreams.EventStream.Cancel` | packages/models/src/streaming.ts:202-207 | The cancel callback is called at most once, and fails the stream when it throws. |
| `EventStreams.NoLostWakeUp` | packages/models/src/streaming.ts:46-105 | Under any interleaving of pushes, failures, iterator returns and readers: while an event is buffered, or the channel is sealed, or its iterator has returned, no reader waits for a pulse that is still to come. |
| `EventStreams.ReadyReaderMoves` | packages/models/src/streaming.ts:46-65 | A woken reader takes the oldest event, or ends, unless there is nothing yet; then it waits for a new pulse. |
| `EventStreams.DeliveredInOrder` | packages/models/src/streaming.ts:21-105 | Under any interleaving the accepted events are those delivered, those buffered and those that an overflow dropped, in this order; at most 4,096 wait. |
| `EventStreams.NothingAfterTerminal` | packages/models/src/streaming.ts:172-207 | A terminal event is the last accepted one, and no later push is accepted. |

## Findings

Two properties that one would expect of the program are false. Each is stated with the input that shows it and with the
exact condition under which it holds.

- **An open operation cannot always be closed.** A queued prompt can be accepted and claimed and its entry cancelled
  before the prompt is added; nothing can add the prompt then, and without it the run cannot finish
  (`Progress.StuckCanHappen`, `Progress.StuckForever`). This is the only obstacle (`Progress.ProgressUnlessStuck`).
- **A restored snapshot can lose a marker.** The budget is checked while markers are chosen one by one, so a payload that
  is shorter than its label can make a first part of the markers not fit although all of them do
  (`EditorLoss.LoseAPaste`). `Editor.MultilineEditor.SnapshotThenRestore` has the exact condition.

A third one holds of the program, and not of a class on its own. The writer of content blocks keeps its accounts and
brackets its events however the callers in `protocol-transports.ts` use it (`ContentRuns.Drive`): they pass no index to
a new tool call, and after a refused call they only report the error. The class would allow more. Started at descending
indexes, tools are renumbered over one another when one is discarded (`ContentWriter.LoseATool`), and `done` after a
discarded tool leaves a start without an end (`ContentWriter.DiscardThenDone`). No caller in the file makes these runs.
`OrderedMap.RenumberingIsExact`, `ContentBudget.DiscardIsExact` and `ContentWriter.CanonicalWriter.Done` say exactly when
such a run goes well.

## Left out

Of the session log:

- Branches other than `main`: the program accepts no other.
- The wording of errors, and which of several errors is reported first: a rejection is `None`.
- `validate.ts` and the parsing of records, with their limits on the length of ids, strings and arrays and on the
  100,000 JSON values of a commit: `WellFormed` keeps the constraints that the reducer relies on.
- SHA-256, the JSON layout of headers and commits, and how the schema reads a line back: uninterpreted; `Faithful` says
  that a written record reads back as itself.
- Strings are lists of characters; encoding errors and the byte order mark are not modelled.
- Numbers are taken as the decimal digits that identify them; which of these are doubles, and how they are found, is not
  modelled, and negative zero is read as zero, as its text is.
- Cloning of returned commits: values are not shared here.
- Commit listeners, file modes, symbolic links, the sync of the parent directory, descriptor snapshots.
- The pieces in which the asynchronous writer writes one record are one step of `Appends`.
- Progress.ProgressUnlessStuck: ids that were never used are taken to exist at any length; the program limits the
  length of ids.
- Writer.SyncWriter.Append: a failed write leaves some first part of the record, and a crash is taken not to lose bytes
  that a write took, so whether a sync that returned has reached the disk plays no part.

Of the editor and of wrapping:

- Grapheme segmentation, character widths, white space beyond ASCII, and the removal of escape sequences: a grapheme is
  one character, and the classes of characters are left open.
- The preferred column and the place that a move snapped from are parameters of the vertical moves, which are proved for
  all of them; when the other operations forget them is not modelled.
- The input history (`text-buffer.ts:514-557`): it restores snapshots.
- Editor.MultilineEditor.Undo: when the editor takes snapshots by itself, and joins insertions into one undo step, is not
  claimed; what an undo restores is.

Of the message streams:

- Everything in `protocol-transports.ts` outside the content writer; usage and cost, response identities, provider state,
  and the limits on the nesting of tool arguments.
- Which identities are acceptable, and how arguments parse and are made canonical: left open, with the byte limit kept.
- ContentRuns.Drive: which calls a provider's events lead to is left open; any calls may come in any order.
- Snapshots of partial messages, and the result promise of a stream.
- A cancel callback that calls back into the stream: whether it throws is a parameter, what else it does is not modelled.
