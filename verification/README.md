# A model of the assistant's conversation engine, planner and study tools

The project models five parts of the repository and proves what holds of them for every input and every run.

**The conversation engine** (`remote_terminal/brain.py`). A session keeps a flat list of user, assistant and tool
messages. An assistant message may request tool calls; each is answered by a tool message with the call's id. The loop
that calls the model repairs this pairing before every request, may pause in the middle of an assistant's calls until
the user confirms a command, may be overtaken by a new message while it waits, may be resumed late, and may lose old
messages to a summary. `History` reads a message list as blocks (a turn and the run of tool messages right after it);
the two repairs and the summary cut are defined block by block, and `History.PairedMeaning` says the same in terms of
positions in the flat list. `MessageLists` is the list edited in place, with the scans and insertions of the source.
`Conversation` is the engine as a function of its state and of oracles: the model, the tools, command execution, the id
source and the summariser return the k-th entry of an arbitrary sequence at their k-th call, so a statement about every
`World` is one about every behaviour. `Sessions.Session` is the object whose methods follow the source and are proved
equal to those functions. A `Run` is any sequence of messages and confirmations (approvals, denials, wrong or late ids)
from an empty session; its trace records each history handed to the model, each confirmation that met its record, and
each command run. `RoundMeaning` says what each step does, field by field and text by text; `PairingSafety`,
`TraceSafety` and `Approvals` prove what all runs keep; `Resumption` and `RepeatedIds` say exactly what becomes of a
resumed pause and of ids that are not fresh, and `FailingRuns` has a run for each condition that fails.

**Streaming** (`MixedRuns`, `StreamMeaning`, `TwoStreams`, `Handshake`, `StreamWarning`). A streaming loop waits for the user in the
middle of an answer and then goes on with its other calls. `MixedRuns` follows the histories of runs in which any number
of streams and plain requests share a session: between two waits one request works at a time, and a wake-up, up to where
the stream next waits or ends, is one step. `StreamMeaning` compares a stream with the plain loop and says what a wake-up
runs and tells the model. `Handshake` takes the wake-up apart: streaming loops and confirming POST
requests share two session fields and an event, one POST's work on them is one atomic step, and each access of a stream
is a step of its own, in any interleaving. There every pause is treated as one that guards a command, which only adds
executions to the model.

**Request guards** (`ReplayGuard`, `RateLimit`). Two caches that are pruned on every request, compared with logs that
never forget.

**Plan artifacts** (`PlanOrder`, `CommentReading`, `PlanIntegrity`). The execution order is a Kahn queue whose
in-degrees come from `depends_on` and whose decrements come from `dependencies`, with the tasks it never reached
appended. The canonical form is what is hashed; the hash is an arbitrary function.

**Study tools** (`SpacedRepetition`, `LatexFractions`, `FreeSlots`, `DailyPlan`, `TodayTasks`). Two SM-2 variants with ease in
hundredths and Python's rounding to even; the rewriting of nested LaTeX fractions; free time around busy intervals;
the day's task list and its trimming to a budget.

Where the code does not do what it was meant to, a condition on its inputs is proved to be exact, for all inputs, and an
input that fails it is given:

- `dependencies` is documented (`remote_terminal/plan_artifact.py:91`) as mapping a task to those it blocks; the code at
  lines 235-236 reads it the other way. Filled in as documented, or left empty as it is by default (line 90), a plan comes
  out with its roots first and the rest in plan order (`CommentReading.RootsThenRest`), which is a dependency order if
  and only if every dependency is a root or stands earlier in the plan (`CommentReading.CommentReadingIff`); a chain
  listed from last to first fails either way (`CommentReading.CommentReadingFails`). The model follows the code.
- Beside plain requests, every history sent is well paired in every run if and only if at most one stream serves the
  session (`TwoStreams.EverySentWellPairedIff`); with two, the first to time out gives the second's call a placeholder,
  and the second's own reply doubles it (`TwoStreams.TwoStreamsDouble`).
- In every interleaving no paused command runs twice, if and only if at most one stream serves the session
  (`Handshake.RunsAtMostOnceIff`); with two streams one command runs twice (`Handshake.TwoStreamsRunTwice`). A wait that
  timed out never leads to a run, for any number of streams.
- The streaming loop reads the acknowledged step once, on entry, so after the step warning it warns again at each later
  step and approving changes nothing (`StreamWarning.ApprovalChangesNothing`); the plain loop goes on
  (`StreamWarning.PlainApprovalGoesOn`).
- A request that was let through is let through again if and only if 600 seconds have passed and its time stamp is still
  fresh (`ReplayGuard.PassesAgainIff`). With one clock reading per request that leaves, for a numeric stamp, exactly
  600 seconds with the stamp half-way (`ReplayGuard.PassesAgainOneReading`, `ReplayGuard.TwiceAt600`). The stamp `nan`
  is always fresh: such a request passes again at any time from 600 seconds on, without end
  (`ReplayGuard.NaNPassesForever`).
- After a round that goes on, the history sent next has one reply per call if and only if there were no double replies
  before and the answer uses no id twice (`RepeatedIds.NextExactIff`, `FailingRuns.RepeatedIdSent`). After a resumed
  pause it has, if and only if there were none before and the open turn has not offered the paused call's id and
  answered it already (`Resumption.ResultReachesIff`); a model that uses an id again in a later answer gets such a
  history (`FailingRuns.ReusedIdBreaks`). Without any assumption on ids, `TraceSafety.EverySentPaired` still holds.
- After a round that goes on, the next repair has nothing to do if and only if every call of the answer has an id
  (`TraceSafety.RepairOnlyFirst`); the reply to a call without one is dropped (`FailingRuns.UnnamedCallDropped`).
- The result of a resumed pause reaches the model if and only if the last turn still offers the paused call
  (`Resumption.ResultReachesIff`); after a new message that is answered it does not (`FailingRuns.ResultLost`). The calls
  after it in the same answer are not run, and the model is told of each that there is no result
  (`Resumption.CallsAbandoned`, `FailingRuns.SecondCallAbandoned`).
- The fraction loop rewrites every fraction of a balanced text if and only if no part of one holds another braced group
  (`LatexFractions.FractionsGoneIff`); a numerator with a braced exponent keeps its fraction
  (`LatexFractions.BracedNumeratorStays`). Braces outside fractions are left to the later replacements.
- The free gaps keep to 08:00-22:00 if and only if every busy time that starts after 22:00 follows on from a busy minute
  (`FreeSlots.WithinDayIff`, `FreeSlots.LateBusyStretches`). They are disjoint if and only if no busy interval that ends
  before it starts, such as an overnight one, reaches past those sorted before it, the last one aside when something
  ends at 22:00 or later (`FreeSlots.GapsApartIff`, `FreeSlots.OvernightOverlaps`). Once the short gaps are dropped,
  both hold under weaker conditions (`FreeSlots.OfferedIff`).
- What is loaded without a signature passes the integrity check (`PlanIntegrity.LoadedVerifiesIff`).

## Model

| member | source | states |
|---|---|---|
| History.PairedMeaning | remote_terminal/brain.py:614-673 | The blockwise pairing is the positional one: every call of the assistant at i is answered at a later position with only tool messages between, and every tool message answers the nearest non-tool message before it; both directions |
| History.RepairPairs | remote_terminal/brain.py:640-673 | Whatever the list, after repair every call is answered in its own run and no tool message answers anything else |
| History.RepairExactIff | remote_terminal/brain.py:640-673 | The repaired list has exactly one reply per call if and only if no call already had two replies in its own run |
| History.RepairFixpoint | remote_terminal/brain.py:640-673 | Repair leaves a list alone if and only if it is already paired |
| History.RepairTwice | remote_terminal/brain.py:640-673 | A second repair changes nothing |
| History.RepairMinimal | remote_terminal/brain.py:614-673 | Non-tool messages survive in order; in each block the grounded replies survive in order as a prefix, followed by one placeholder for each unanswered id and nothing else |
| MessageLists.ScanDrops | remote_terminal/brain.py:619-633 | The message-by-message scan that carries the ids on offer keeps exactly what the blockwise definition keeps, and drops nothing only when the list is unchanged |
| MessageLists.MessageList.DropOrphanTools | remote_terminal/brain.py:614-637 | In place, removes exactly the orphan tool messages; the flag is true exactly when the list got shorter |
| MessageLists.MessageList.RepairHistory | remote_terminal/brain.py:640-673 | The scan that inserts as it goes ends, computes the blockwise repair in place, and returns true exactly when the list changed |
| MessageLists.MessageList.ForceFixHistory | remote_terminal/brain.py:676-708 | In place, strips incomplete calls from the last user message on and drops the orphans this leaves |
| MessageLists.MessageList.FindLastUser | remote_terminal/brain.py:684-687 | The position found is where the block of the last user message starts, or 0 |
| MessageLists.MessageList.ScanReplies | remote_terminal/brain.py:657-662 | Finds the end of the maximal run of tool messages and exactly the non-empty ids it answers |
| ForceFix.ForceFixPairsIff | remote_terminal/brain.py:676-708 | The result is wholly paired if and only if every turn before the last user message had all its replies |
| ForceFix.ForceFixIdentity | remote_terminal/brain.py:676-708 | On a paired list it changes nothing |
| ForceFix.ForceFixKeepsSpeech | remote_terminal/brain.py:676-708 | No user message and no non-empty assistant text is lost or reordered; a stand-in text appears only where calls were cut and the text was empty |
| ForceFix.LastUserIs | remote_terminal/brain.py:684-687 | The block is that of the last user turn, or the first one when there is none |
| ForceFix.ForceFixExact | remote_terminal/brain.py:688-708 | Block by block: from the last user turn on an assistant with an unanswered call keeps its text, or a stand-in, and loses its calls and replies; every other turn stays with the replies that answer it |
| SummaryCut.CutKeeps | remote_terminal/brain.py:577-602 | Old plus recent is the original list, the recent part starts at a user message and holds exactly the kept number of them, and pairing, exact pairing and absence of double replies survive the cut |
| RoundMeaning.SummaryMeaning | remote_terminal/brain.py:577-602 | The history is cut only when its texts are longer than the limit, it has more user messages than are kept, and the summary succeeds; it then is the suffix with the wanted number of user messages and the summary is the new one; otherwise nothing but the count of summaries asked changes |
| RoundMeaning.CharsAdd | remote_terminal/brain.py:580 | The size of a history adds up over its parts |
| RoundMeaning.CharsOne | remote_terminal/brain.py:580 | and is the length of the text for a single message of any role |
| RoundMeaning.UsersAre | remote_terminal/brain.py:583 | The positions found are exactly those of the user messages, in order |
| RoundMeaning.MessageArrives | remote_terminal/brain.py:1246-1280 | From any state the first history sent after a message ends with that message |
| PairingSafety.CallsShape | remote_terminal/brain.py:1391-1446 | The calls of an answer are replied to in order, up to the first that pauses or fails; a pause records that very call |
| PairingSafety.RoundShape | remote_terminal/brain.py:1283-1448 | One round turns the history into its repair, the answer and the replies so far, and sends that repair once, or twice after a 400 |
| PairingSafety.RetryResends | remote_terminal/brain.py:1348-1361 | The stricter fix after a 400 is the identity on the repaired history, so the retry sends the history that was refused |
| RoundMeaning.AskMeaning | remote_terminal/brain.py:1327-1362 | One history is sent, twice when the first answer is a 400, and the answer kept has the text and the calls of the last one |
| RoundMeaning.CallsMeaning | remote_terminal/brain.py:1391-1446 | The tool is asked for the calls in order; each done is replied to under its id with its own output; at the first that is not, the record has exactly the command, tool, call, step and id that the tool's answer, the call and the id source give, and the user is shown that command |
| RoundMeaning.RoundMeaning | remote_terminal/brain.py:1344-1446 | A round without an answer stops with an error, one without calls ends the turn with its text appended, and any other runs its calls |
| RoundMeaning.StepsInOrder | remote_terminal/brain.py:1293-1361 | The rounds of a loop have consecutive steps from its first one on, a retry that of its round |
| PairingSafety.RepairSound | remote_terminal/brain.py:640-673 | A history without double replies becomes well paired, and its last turn offers the same calls |
| PairingSafety.RoundKeeps | remote_terminal/brain.py:1283-1448 | A model round keeps the invariant: no double replies, only known ids, the paused call still unanswered in its own block |
| PairingSafety.SayKeeps | remote_terminal/brain.py:1246-1280 | A new message, overtaking a pause or not, and the summary it may trigger keep the invariant |
| PairingSafety.ResumeKeeps | remote_terminal/brain.py:1165-1244 | Resuming a pause, approved or denied, on time or late, keeps the invariant |
| PairingSafety.RunKeeps | remote_terminal/brain.py:1121-1280 | Every reachable state satisfies the invariant when call ids are fresh |
| PairingSafety.EverySentWellPaired | remote_terminal/brain.py:1283-1448 | Over every run, if call ids are non-empty and never reused, every history handed to the model has exactly one reply per call, in that call's own block, and no other tool message |
| TraceSafety.EverySentPaired | remote_terminal/brain.py:1327-1361 | Over every run and with no assumption on ids, every call in a history handed to the model is answered right after its turn, and every tool message answers the turn before it |
| RepeatedIds.NextExactIff | remote_terminal/brain.py:1327-1446 | After a round that goes on, the history sent next has exactly one reply per call if and only if there were no double replies before and no two calls of the answer share an id; the unrepaired list, if moreover every call has an id |
| RepeatedIds.LateReplyExactIff | remote_terminal/brain.py:1239-1242 | A late reply leaves exactly one reply per call if and only if there were no doubles before and the open turn does not offer its call or has not answered it yet |
| RepeatedIds.RepeatedIdBreaks | remote_terminal/brain.py:1391-1446 | An answer with a repeated id leads to a history that repair accepts and that has two replies for one id |
| FailingRuns.DenialBreaks | remote_terminal/brain.py:1165-1244 | In any run, denying a pause whose call the open turn has offered and answered sends the model a history with two replies to it |
| FailingRuns.ReusedIdBreaks | remote_terminal/brain.py:1121-1280 | Two messages and a late denial, with a model that makes the same call in two answers: a history with two replies for one id is sent |
| FailingRuns.ResultLost | remote_terminal/brain.py:1165-1244 | A call waits, a new message is answered, the call is denied: the history sent next is that of the list without the result |
| FailingRuns.UnnamedCallDropped | remote_terminal/brain.py:1327-1330 | An answer with a call that has no id: the next repair changes the list, and the history sent has no reply to it |
| FailingRuns.RepeatedIdSent | remote_terminal/brain.py:1391-1446 | An answer that uses an id twice: the history sent next is paired but not well paired |
| FailingRuns.SecondCallAbandoned | remote_terminal/brain.py:1403-1425 | An answer with two calls, paused at the first and denied: the history sent next has the denial and, for the second, that there is no result |
| TraceSafety.RepairOnlyFirst | remote_terminal/brain.py:1327-1330 | After a round that goes on, the next repair finds nothing to do if and only if every call of the answer has an id; so with such ids only a loop's first round can change the list by repair, and the reply to a call without one never reaches the model |
| TraceSafety.LoopGrows | remote_terminal/brain.py:1283-1448 | Within one loop every history sent extends the one before |
| TraceSafety.EntryTurn | remote_terminal/brain.py:1121-1280 | Each request either ends before the loop or enters it at its first step with the acknowledged step, pending record and trace stated |
| TraceSafety.CommandsNeedApproval | remote_terminal/brain.py:1165-1217 | A request runs a paused command if and only if its id matches the pending record and its action is "approve", and then exactly once and before any model round; an empty shell command is never run |
| Approvals.TurnJustAsked | remote_terminal/brain.py:1403-1425 | Whatever the request, when it ends waiting at a call, the record is what the last tool answer asked approval for and what the user is shown |
| Approvals.TurnShowsRecord | remote_terminal/brain.py:1293-1324 | and an answer under the id shown meets that record; of a step warning the user is shown the steps done |
| Approvals.RunsWhatWasShown | remote_terminal/brain.py:1165-1209 | Over every run each command executed is, under its own id, what an earlier request showed the user, what the tool had then just asked approval for, and what was approved right before |
| RoundMeaning.ExecuteMeaning | remote_terminal/brain.py:1194-1209 | What runs and what output or exception it gives, for a phone action, a delegation that is dispatched again, a plain command and an empty one |
| RoundMeaning.ResumedText | remote_terminal/brain.py:1194-1242 | The model is told the output of what the approval ran, or that the user refused the command, which is named |
| RoundMeaning.RefusedConfirmation | remote_terminal/brain.py:1165-1170 | A confirmation that meets no record, or another id, drops the record and changes nothing else |
| RoundMeaning.StepsDenied | remote_terminal/brain.py:1172-1184 | A step warning not approved ends the turn with no message, round or acknowledgement |
| TraceSafety.ConfirmationKeeps | remote_terminal/brain.py:1165-1244 | Ids honoured so far are distinct and issued, and the pending id is not among them, after every request |
| TraceSafety.HonouredOnce | remote_terminal/brain.py:1165-1244 | Over a whole run no confirmation id is honoured twice |
| TraceSafety.ChainRounds | remote_terminal/brain.py:1283-1326 | A message sent when nothing is pending and the confirmations after it take at most `max_steps` model rounds plus one for each tool-confirmation resume |
| TraceSafety.OvertakenRounds | remote_terminal/brain.py:1246-1326 | From any reachable state, even when the message overtakes a pause that is resumed later, at most twice `max_steps` plus the resumes |
| TraceSafety.PauseBelowLimit | remote_terminal/brain.py:1283-1326 | In every reachable state a pending pause lies below the step limit |
| TraceSafety.WarningHeeded | remote_terminal/brain.py:1283-1326 | Over every run no round has an index at or past the step limit, nor at or past the last acknowledged step plus the warning threshold |
| Resumption.PauseWithin | remote_terminal/brain.py:1283-1326 | In every reachable state resuming a paused call goes on to a model round: neither the step limit nor the step warning stops it |
| Resumption.FirstSent | remote_terminal/brain.py:1165-1244 | In any run, the first history sent after a resumed pause is the repair of the list with the result appended; if running the command raises, none is sent |
| Resumption.ReplyKeptIff | remote_terminal/brain.py:614-673 | A reply survives the next repair if and only if the open turn offers its call; otherwise the repair is that of the list without it |
| Resumption.ResultReachesIff | remote_terminal/brain.py:1165-1244 | In any run, a resumed pause's result is in the first history sent if and only if the open turn offers its call, and otherwise that history is the one without it; it is well paired if and only if there were no doubles and the call was not answered already |
| Resumption.LaterCallsAbandoned | remote_terminal/brain.py:640-673 | When an answer's first calls are replied to, repair keeps these replies and adds a placeholder for exactly each of the others |
| Resumption.CallsAbandoned | remote_terminal/brain.py:1403-1425 | In any run, a request that ends in a pause leaves the answer open at the paused call; resumed next, without a further tool call, the model is sent the replies so far, the result, and exactly one placeholder for each call after it |
| Sessions.Session.AskModel | remote_terminal/brain.py:1327-1362 | Repairs, asks, and after a 400 fixes harder and asks once more; the whole new state |
| Sessions.Session.RunToolCalls | remote_terminal/brain.py:1391-1446 | The calls in order, the pause at the first that needs approval; the whole new state |
| Sessions.Session.ContinueLoop | remote_terminal/brain.py:1283-1448 | The loop from a given step to its end, pause or error; the whole new state and outcome |
| Sessions.Session.MaybeSummarize | remote_terminal/brain.py:577-602 | Untouched under the limits or when the summary fails; otherwise cut at the k-th last user message |
| Sessions.Session.CountChars | remote_terminal/brain.py:580 | The total length of the message texts |
| Sessions.Session.FindUsers | remote_terminal/brain.py:583 | The positions of the user messages, all and in order |
| Sessions.Session.ExecuteApproved | remote_terminal/brain.py:1194-1209 | What an approved record runs, and which failures become output and which are exceptions |
| Sessions.Session.ResumePaused | remote_terminal/brain.py:1173-1244 | Approval or denial of a step warning or of a command, then the loop from the paused step |
| Sessions.Session.Turn | remote_terminal/brain.py:1121-1280 | Either entry point: the pending record is taken, compared and resumed or refused; or a message is appended, the history summarised and the loop started at 0 |
| MixedRuns.StreamCallsKeeps | remote_terminal/brain.py:1567-1672 | The calls of an answer, from any of them on, keep the invariant of a streaming loop: where it stops to wait, that call and those after it are still owed a reply |
| MixedRuns.StreamLoopKeeps | remote_terminal/brain.py:1464-1672 | The streaming loop keeps it to its end, its next wait or an exception |
| MixedRuns.WakeKeeps | remote_terminal/brain.py:1603-1672 | A wait answered or run out, at a call or at a step warning, and all the stream then does, keep the invariant |
| MixedRuns.MessageAway | remote_terminal/brain.py:1246-1280 | A plain message while a stream waits, whatever its own loop does, leaves what the stream owes unanswered or out of the open turn |
| MixedRuns.EverySentWellPairedMixed | remote_terminal/brain.py:1464-1672 | Over every run of plain requests and one stream at a time, with fresh call ids, every history sent has exactly one reply per call and no other tool message |
| MixedRuns.WarningStays | remote_terminal/brain.py:1477-1512 | Woken at a step warning, a stream sends nothing: it ends or waits at the warning of the next step |
| StreamMeaning.StreamStartsAlike | remote_terminal/brain.py:1464-1600 | A streaming message does to the session exactly what a plain one does up to its first wait, and waits at the same call or step |
| StreamMeaning.CallsAlike | remote_terminal/brain.py:1570-1600 | Where a stream waits, it has the call, the command that was shown and the calls after it |
| StreamMeaning.WakeSays | remote_terminal/brain.py:1603-1660 | The command runs if and only if an approval finds a record, under the record's id and tool; the model is told that the time is up, that the user refused, or what the execution gave |
| StreamMeaning.WakeMeaning | remote_terminal/brain.py:1603-1672 | At a wake-up at a call the trace gains at most that one command, before anything is sent from the next step on; the reply has the call's id, and the calls after it follow |
| StreamMeaning.WarningAnswered | remote_terminal/brain.py:1497-1516 | A step warning approved in time is acknowledged, any other ends the stream |
| StreamMeaning.LeftBehind | remote_terminal/brain.py:3704-3719 | A confirmation for a stream whose client has left only clears the event; the next one meets the record |
| StreamMeaning.StepRunsOnApproval | remote_terminal/brain.py:1603-1660 | In any mixed run no step runs a command but an approval, and that one at most: not a message, not a wait that runs out, not a refusal |
| StreamMeaning.NoRunWithoutApproval | remote_terminal/brain.py:1603-1660 | Over every mixed run, with any number of streams, at most as many commands run as approvals were given |
| TwoStreams.TwoStreamsDouble | remote_terminal/brain.py:1603-1624 | Two streams pause and both waits run out: a history that answers one call twice is sent |
| TwoStreams.EverySentWellPairedIff | remote_terminal/brain.py:1464-1672 | In a world where two streams can overlap so, every history sent in every mixed run is well paired if and only if at most one stream serves the session |
| StreamWarning.NoRoundAfterWarning | remote_terminal/brain.py:1477-1516 | Once a streaming loop has warned it runs no further model round, whatever the user answers |
| StreamWarning.RoundsAre | remote_terminal/brain.py:1477-1516 | A streaming loop runs a round at exactly the steps below the limit and below the warning that every round before goes on to |
| StreamWarning.ApprovalChangesNothing | remote_terminal/brain.py:1477-1516 | The rounds of a streaming loop are those it would run if every warning were refused |
| StreamWarning.PlainApprovalGoesOn | remote_terminal/brain.py:1172-1181 | In the plain loop an approved warning is followed by a model round at that very step |
| Handshake.StepKeeps | remote_terminal/brain.py:1587-1664 | Each single step of the stream or of a POST keeps the at-most-once invariant |
| Handshake.RunsAtMostOnceIff | remote_terminal/brain.py:3704-3719 | In every interleaving no paused command runs twice, if and only if at most one stream serves the session |
| Handshake.TwoStreamsRunTwice | remote_terminal/brain.py:3704-3719 | With two streams, an interleaving that runs one paused command by a POST and again by the stream |
| Handshake.ApprovalsConserved | remote_terminal/brain.py:1603-1632 | For any number of streams, commands run plus approvals not yet used never exceed the approving requests |
| Handshake.NeverAfterTimeout | remote_terminal/brain.py:1603-1618 | For any number of streams, none runs a command whose wait timed out |
| Handshake.AnsweredInTime | remote_terminal/brain.py:1603-1632 | An approval that reaches a waiting stream runs its command once, a refusal none |
| Handshake.UnansweredEnds | remote_terminal/brain.py:1603-1618 | A wait that runs out leaves no event, no record and nothing run |
| ReplayGuard.NonceCache.Check | remote_terminal/brain.py:1689-1718 | The decision and the whole new cache, with the two clock readings the code makes |
| ReplayGuard.CacheAgrees | remote_terminal/brain.py:1709-1717 | Over every run the cache holds logged entries only and forgets one only when it is 600 seconds old |
| ReplayGuard.DecidesAsLog | remote_terminal/brain.py:1689-1718 | The pruned cache accepts exactly what a log of everything would: fresh, and no accepted use of the nonce in the last 600 seconds |
| ReplayGuard.TunnelPasses | remote_terminal/brain.py:1695-1697 | A request from the tunnel passes and leaves no nonce |
| ReplayGuard.StaleRefused | remote_terminal/brain.py:1698-1708 | Any other is refused, and leaves none, without a nonce or a readable stamp or more than 300 seconds off |
| ReplayGuard.PassesAgainIff | remote_terminal/brain.py:1689-1718 | A request whose stamp and nonce were let through before is let through again if and only if 600 seconds have passed by the cache reading and, for a numeric stamp, it is still fresh by the freshness reading; by kind of stamp |
| ReplayGuard.PassesAgainOneReading | remote_terminal/brain.py:1689-1718 | With one clock reading: for a numeric stamp exactly 600 seconds apart and stamped half-way, for a NaN stamp 600 seconds apart or more |
| ReplayGuard.AcceptedTwice | remote_terminal/brain.py:1689-1718 | Over a run, two accepted requests with one nonce, under any stamps, are at least 600 seconds apart by the cache readings; with the same numeric stamp, at most 600 by the freshness readings |
| ReplayGuard.NeverTwiceBut600 | remote_terminal/brain.py:1689-1718 | Over a run with one clock reading per request, a numeric stamp passes twice only exactly 600 seconds apart and half-way, a NaN stamp only 600 seconds apart or more, any other never |
| ReplayGuard.TwiceAt600 | remote_terminal/brain.py:1706-1713 | And 600 seconds apart, stamped half-way, it does pass twice |
| ReplayGuard.NaNPassesForever | remote_terminal/brain.py:1701-1713 | Every request of a run that repeats one nonce under a NaN stamp is let through if and only if each comes at least 600 seconds after the one before |
| RateLimit.RateLimiter.Check | remote_terminal/brain.py:1765-1777 | The decision and the whole new table of buckets |
| RateLimit.RecentAre | remote_terminal/brain.py:1771 | Kept are exactly the times less than 60 seconds old |
| RateLimit.BucketPruned | remote_terminal/brain.py:1768-1777 | After a request, refused or not, the bucket of its address holds nothing older, and no other bucket changes |
| RateLimit.BucketIsLog | remote_terminal/brain.py:1765-1777 | At any later time the pruned bucket shows what the full log of accepted requests shows |
| RateLimit.RefusedIff | remote_terminal/brain.py:1765-1777 | A request is let through if and only if fewer than the limit were accepted from its address in the last 60 seconds |
| RateLimit.NoWindowOverLimit | remote_terminal/brain.py:1765-1777 | Over every run no half-open 60-second window holds more accepted requests of one address than the limit |
| PlanOrder.Relaxed | remote_terminal/plan_artifact.py:234-239 | One pass over `dependencies` lowers exactly the degrees of the tasks blocked by the current one and queues, once, those that reach zero |
| PlanOrder.ReleasedInOrder | remote_terminal/plan_artifact.py:234-239 | Tasks released together are queued in the order of their entries |
| PlanOrder.DrainFifo | remote_terminal/plan_artifact.py:229-239 | What is queued comes out first in, first out |
| PlanOrder.ReadyFirst | remote_terminal/plan_artifact.py:228-246 | The tasks that wait for none come first in the result |
| PlanOrder.ZeroIdsInOrder | remote_terminal/plan_artifact.py:228 | and in plan order |
| PlanOrder.IdsPrefix | remote_terminal/plan_artifact.py:222 | A task id keeps the place of its first appearance |
| PlanOrder.EveryIdOnce | remote_terminal/plan_artifact.py:219-246 | For every plan, cyclic or with the two views at odds, the order holds each task id exactly once and nothing else |
| PlanOrder.QueueFindsAcyclicPart | remote_terminal/plan_artifact.py:219-246 | When the views agree, a prefix of the order, in dependency order, is exactly the tasks that do not depend on a cycle, and the rest follows in plan order |
| PlanOrder.AcyclicIsTopological | remote_terminal/plan_artifact.py:219-246 | On an acyclic plan whose views agree the whole order is topological |
| CommentReading.RootsThenRest | remote_terminal/plan_artifact.py:219-246 | Any plan whose field releases no task when one without dependencies is done, as when it is filled in the way the comment says or left empty, comes out as the tasks without dependencies, then the others, both in plan order; duplicate ids and repeated dependencies included |
| CommentReading.ZeroDegree | remote_terminal/plan_artifact.py:222-226 | Whatever the plan, a degree is zero if and only if no task with that id has a dependency in the plan |
| CommentReading.TurnedRound | remote_terminal/plan_artifact.py:89-91 | A field filled in the way the comment says is such a one |
| CommentReading.NotFilledIn | remote_terminal/plan_artifact.py:90 | So is an empty one |
| CommentReading.CommentReadingIff | remote_terminal/plan_artifact.py:219-246 | Such a plan comes out in dependency order if and only if every dependency of a task has no dependencies itself or stands earlier among the distinct ids |
| CommentReading.ChainAcyclic | remote_terminal/plan_artifact.py:89-91 | A three-task chain listed from last to first, its field as the comment says or empty, has no cycle |
| CommentReading.CommentReadingFails | remote_terminal/plan_artifact.py:235-239 | On that chain the condition fails and the order puts a task before its own dependency |
| PlanOrder.GetExecutionOrder | remote_terminal/plan_artifact.py:219-246 | The method with its dictionary of degrees and its queue returns the order the lemmas speak of |
| PlanOrder.CountDegrees | remote_terminal/plan_artifact.py:222-226 | The degrees after both loops over the tasks |
| PlanOrder.DrainQueue | remote_terminal/plan_artifact.py:229-239 | The queue loop ends and puts out the drained part |
| PlanOrder.Release | remote_terminal/plan_artifact.py:234-239 | The inner loop: new degrees and new queue |
| PlanOrder.AppendRest | remote_terminal/plan_artifact.py:241-244 | The tasks not reached, appended in plan order |
| Sorting.SortSorts | remote_terminal/plan_artifact.py:134 | Sorting puts the elements in order and keeps each as often as it was |
| Sorting.SortIsCanonical | remote_terminal/plan_artifact.py:134 | When the order tells elements apart, sorting gives the same list for two lists if and only if one is a permutation of the other, and sorting again changes nothing |
| PlanIntegrity.TasksSurvive | remote_terminal/plan_artifact.py:42-66 | Through `PlannedTask.to_dict` and `from_dict` every task is the same |
| PlanIntegrity.TaskKeys | remote_terminal/plan_artifact.py:42-52 | Each field of a task goes under its own key |
| PlanIntegrity.TaskDefaults | remote_terminal/plan_artifact.py:54-66 | A missing key stands for its default, and a key that is there for its value |
| PlanIntegrity.MetadataDefaults | remote_terminal/plan_artifact.py:168-190 | The same for the plan's own keys |
| PlanIntegrity.LoadedFields | remote_terminal/plan_artifact.py:168-190 | Loading keeps what is there, and signs what has no signature |
| PlanIntegrity.CanonicalAgain | remote_terminal/plan_artifact.py:127-142 | The canonical form of a plan rebuilt from a canonical form is that canonical form |
| PlanIntegrity.RoundTrip | remote_terminal/plan_artifact.py:144-190 | Through `to_dict` and `from_dict` tasks and metadata are the same, dependencies come out sorted, the canonical form is kept, and so is a set signature |
| PlanIntegrity.LoadedVerifiesIff | remote_terminal/plan_artifact.py:109-125 | What is loaded from any dictionary, keys missing or not, passes the integrity check if and only if it bears the right signature or none |
| PlanIntegrity.RoundTripVerifiesIff | remote_terminal/plan_artifact.py:123-190 | The integrity check answers as before if and only if the signature is set or the hash is empty |
| PlanIntegrity.SameCanonicalIff | remote_terminal/plan_artifact.py:127-142 | Two plans have the same canonical form if and only if they agree in all but the order of keys and of blockers in `dependencies` |
| PlanIntegrity.EditDetectedIff | remote_terminal/plan_artifact.py:113-125 | With a collision-free hash, a verified plan edited under its old signature still verifies if and only if the edit only reordered `dependencies` |
| Rounding.Nearest | remote_terminal/learn_db.py:1708 | The rounded quotient is within half a unit, and even on a tie |
| Rounding.Monotone | remote_terminal/learn_db.py:1708 | Rounding never swaps two quotients |
| SpacedRepetition.FlashcardTable.UpdateReview | remote_terminal/learn_db.py:1695-1718 | An unknown card is ignored; a known one is replaced by its review, and no other card changes |
| SpacedRepetition.AlwaysInBounds | remote_terminal/learn_db.py:1702-1715 | After any history ease is at least 1.3, mastery is in 0..100 and the next review is 1 to 365 days after the last |
| SpacedRepetition.DueAgain | remote_terminal/learn_db.py:1702-1715 | After any history and one more visit the card is due after its new interval, capped at 365 days: 1 day after a failure or the first success, 6 after the second, and then the old interval times the old ease to the nearest day |
| SpacedRepetition.SameQuality | remote_terminal/learn_db.py:1709-1713 | n visits of one quality change the ease by 0.10, 0.02, -0.06 or -0.20 each, down to 1.30, and the mastery by 20, 10 or -15 each, within 0 to 100 |
| SpacedRepetition.FirstDays | remote_terminal/learn_db.py:230-234 | A new card answered perfectly three times is due in 1, 6 and 16 days |
| SpacedRepetition.BetterHistoryDominates | remote_terminal/learn_db.py:1695-1718 | Of two histories on the same days, the pointwise better one leads to at least the ease, repetitions, interval, next-review day and mastery of the other, failures included |
| SpacedRepetition.SuccessesGrow | remote_terminal/learn_db.py:1705-1710 | n >= 2 successes from a fresh or failed card bring the interval to at least 6 * 1.2^(n-2), rounding included |
| SpacedRepetition.SuccessLengthens | remote_terminal/learn_db.py:1705-1710 | Each success after the first makes the interval strictly longer |
| SpacedRepetition.FlashcardsAhead | remote_terminal/formula_engine.py:43-72 | Fed the same qualities, the flashcard variant's ease and interval are at least those of the textbook scheduler threaded with its own outputs, at every step |
| SpacedRepetition.ScheduledAgain | remote_terminal/formula_engine.py:51-72 | The scheduler's gap is its new interval capped at 365 days, with the same first intervals; a quality out of range counts as the nearest in range |
| SpacedRepetition.SameAnswer | remote_terminal/formula_engine.py:62-68 | n answers of one quality change its ease by 0.10, 0, -0.14 or -0.20 each, down to 1.30 |
| SpacedRepetition.NewCardAhead | remote_terminal/learn_db.py:230-234 | From the table's and the scheduler's defaults on, whatever the history, the card stays in bounds and is never behind |
| LatexFractions.PassRemovesBraces | remote_terminal/brain_latex.py:38-43 | On any text a pass that changes something strictly lowers the number of braces, so the loop ends |
| LatexFractions.SubstituteAll | remote_terminal/brain_latex.py:43 | The left-to-right replacement of all matches, each scan resuming where the last match ended |
| LatexFractions.Delatex | remote_terminal/brain_latex.py:40-43 | The loop computes the fixpoint: one more pass would change nothing |
| LatexFractions.OneFraction | remote_terminal/brain_latex.py:38-43 | One fraction of plain parts between plain texts comes out as `(num)/(den)` in its place |
| LatexFractions.OnePass | remote_terminal/brain_latex.py:43 | On balanced text one pass rewrites exactly the innermost fractions of the tree |
| LatexFractions.LoopSettles | remote_terminal/brain_latex.py:38-43 | On balanced text the loop's result is that of a structural recursion over the tree |
| LatexFractions.FractionsGoneIff | remote_terminal/brain_latex.py:38-43 | On balanced text no fraction is left if and only if no part of one holds a braced group that is not a fraction's |
| LatexFractions.BracesGoneIff | remote_terminal/brain_latex.py:38-43 | No brace is left if and only if nothing but fractions is braced, and then the text is the infix form of the tree |
| LatexFractions.BracedNumeratorStays | remote_terminal/brain_latex.py:38-43 | A fraction whose numerator holds a braced group is left as it is, a fraction still, whatever plain text follows |
| LatexFractions.BracedExponentStays | remote_terminal/brain_latex.py:38-43 | For instance a fraction whose numerator is a power with a braced exponent |
| FreeSlots.GetFreeSlots | remote_terminal/schedule_engine.py:327-366 | The slots are the long enough gaps around the sorted timetable and study slots |
| FreeSlots.FindGaps | remote_terminal/schedule_engine.py:352-364 | The loop with its moving cursor finds the gaps the lemmas speak of |
| FreeSlots.GapsAreTheRest | remote_terminal/schedule_engine.py:350-364 | For busy intervals of any shape, a minute from 08:00 to the horizon is in a gap if and only if nothing covers it; the gaps are non-empty and start in order |
| FreeSlots.OrderIrrelevant | remote_terminal/schedule_engine.py:350-364 | The gaps do not depend on the order in which busy intervals are read |
| FreeSlots.DayTexts | remote_terminal/schedule_engine.py:355-356 | The day runs from 08:00 to 22:00 |
| FreeSlots.GapsApartIff | remote_terminal/schedule_engine.py:350-364 | The gaps are disjoint and in order if and only if every sorted busy interval starts no later than it ends, or by 08:00, or by the end of one before it, or is the last one while something ends at 22:00 or later |
| FreeSlots.ProperApart | remote_terminal/schedule_engine.py:350-364 | In particular when no busy interval ends before it starts |
| FreeSlots.OvernightOverlaps | remote_terminal/schedule_engine.py:350-364 | A single overnight slot makes the gaps overlap |
| FreeSlots.WithinDayIff | remote_terminal/schedule_engine.py:352-364 | For busy intervals of any shape, all gaps end by 22:00 if and only if every busy time that starts later follows on from a busy minute |
| FreeSlots.LateBusyStretches | remote_terminal/schedule_engine.py:352-364 | A single busy time after 22:00 makes a gap end after the day does |
| FreeSlots.MinutesAddUp | remote_terminal/schedule_engine.py:350-364 | When no gap ends after 22:00, gap lengths and covered minutes total 840 if and only if the gaps are disjoint |
| FreeSlots.OfferedAreLong | remote_terminal/schedule_engine.py:366 | Exactly the gaps of 15 minutes or more are offered; disjoint gaps stay disjoint and in order |
| FreeSlots.OfferedIff | remote_terminal/schedule_engine.py:350-366 | The slots offered end by 22:00 if and only if no busy time that starts later has a free quarter of an hour before it, counted from the latest end before it; they are disjoint if and only if, of two busy times that have one, something before the second lasts until the first starts |
| FreeSlots.ClockOrder | remote_terminal/schedule_engine.py:508-511 | Zero-padded clock texts compare as their minutes do, and `_time_diff` is the difference of the minutes |
| DailyPlan.Planner.ComputeToday | remote_terminal/plan_engine.py:42-113 | The kept tasks and minutes are those of the candidates, without repeated knowledge points, trimmed to the budget; the totals are those of the kept tasks |
| TodayTasks.RowsBecomeTasks | remote_terminal/plan_engine.py:54-90 | The review, mistake, formula and new candidates are one for each row, in order, with its title, subject, minutes and knowledge point; a mistake's title is the first 40 characters |
| TodayTasks.WeakAreFirstThree | remote_terminal/plan_engine.py:68-77 | The weak candidates are those of the first three rows with a mastery above 0 and below 60, in order, and no others |
| TodayTasks.WeakKept | remote_terminal/plan_engine.py:68-105 | Every weak task of the final plan is one of these |
| TodayTasks.VocabularyTimes | remote_terminal/plan_engine.py:88-98 | The minutes of the vocabulary tasks from the cards due and new, with their caps |
| TodayTasks.VocabularyLast | remote_terminal/plan_engine.py:88-98 | These are the last candidates |
| TodayTasks.CandidateOrder | remote_terminal/plan_engine.py:54-97 | Candidates come in the order review, mistake, formula, weak, new, vocabulary |
| TodayTasks.FirstsListed | remote_terminal/plan_engine.py:46-52 | Listed are exactly the candidates that are the first with their knowledge point, or have none |
| TodayTasks.KeptIffItFits | remote_terminal/plan_engine.py:99-105 | A task is kept if and only if it is of a kind never cut or fits beside what was kept before it |
| TodayTasks.AllFits | remote_terminal/plan_engine.py:99-105 | Nothing is cut when all fits |
| TodayTasks.BudgetFor | remote_terminal/plan_engine.py:42 | The budget is 90 minutes unless another one than 0 is asked for |
| TodayTasks.TotalsCount | remote_terminal/plan_engine.py:108-113 | The totals count the kept tasks by kind |
| DailyPlan.Planner.Add | remote_terminal/plan_engine.py:46-52 | A task is appended unless its knowledge point is listed already |
| DailyPlan.CutTo | remote_terminal/plan_engine.py:99-105 | The trimming loop |
| DailyPlan.CountsAddUp | remote_terminal/plan_engine.py:108-113 | The counts by kind add up to the number of tasks, and the first counts exactly those that are never cut |
| DailyPlan.TrimKeeps | remote_terminal/plan_engine.py:99-105 | Trimming keeps the order and every task that is never cut, and reports the sum of the kept estimates |
| DailyPlan.TodayIsBounded | remote_terminal/plan_engine.py:42-113 | Under the query limits: an order-preserving selection, no knowledge point twice, nothing urgent trimmed, and `est_min` is the kept total and at most max(budget, 105) + 10 |
| DailyPlan.UrgentSurvives | remote_terminal/plan_engine.py:54-66 | Every due review, mistake, formula and vocabulary review is in the final plan, in order |

## Left out

- HTTP handlers, SSE output, device transport, speech, the desktop app and the model bridges: I/O. Model, tools, command execution, ids, clock and summariser are oracles.
- The `steps` list a turn returns, the system prompt, mode prefixes, transcripts, events, verification and the task bridge: they do not touch the message list or the pending record.
- MessageLists.MessageList.RepairHistory: placeholders for one block are inserted in the order in which the set of missing ids is walked; the model takes an arbitrary enumeration, the same each time for the same set.
- Sessions.Session.ExecuteApproved: what execution and the repeated dispatch of `delegate_to_claude` return are oracles; the tool's arguments are not modelled.
- MixedRuns.EverySentWellPairedMixed: the streaming loop is modelled on values, as it waits in the middle of a thread; a broken connection is seen where a pause is announced, and elsewhere counts as an exception of the next call.
- TwoStreams.EverySentWellPairedIff: two requests do not work on the session at the same moment; what truly concurrent threads do to the list between waits is not modelled.
- Handshake.RunsAtMostOnceIff: the confirming POST (lines 3708-3715) is one atomic step; the stream's wake-up does not compare ids, and the model claims no match of ids there. What a command does, and its tool name and arguments, are not modelled.
- StreamWarning.NoRoundAfterWarning: the user's answers and the ends of rounds are arbitrary functions of the step; the acknowledged step is the one read on entry.
- ReplayGuard.DecidesAsLog: the clock does not go back and requests are served one at a time, in the order of their clock readings.
- RateLimit.RefusedIff: the clock does not go back between requests; the lock is taken as serialising them.
- PlanOrder.QueueFindsAcyclicPart: needs the two dependency views to agree on tasks of the plan, unique ids, and no repeated entry in `depends_on`; when `dependencies` is turned round, CommentReading says what comes out, and for other plans only `PlanOrder.EveryIdOnce` is claimed.
- PlanIntegrity.RoundTrip: dictionaries hold values of the right type or lack the key; free-form fields are opaque texts; the JSON and YAML texts and SHA-256 are not modelled.
- SpacedRepetition.AlwaysInBounds: ease is in exact hundredths, so binary rounding of 0.1, 0.08 and 0.2 is not modelled; cards are those reachable from the table's defaults (a repeated success has an interval of at least 6).
- LatexFractions.Delatex: the fraction loop only; delimiters, roots, scripts and symbols are independent replacements.
- LatexFractions.LoopSettles: the text is balanced and every `\frac{` in it starts a two-part fraction; on other text only termination and the fixpoint are claimed.
- FreeSlots.GapsAreTheRest: minutes of the day in place of texts (`FreeSlots.ClockOrder` relates the two for zero-padded HH:MM).
- DailyPlan.Planner.ComputeToday: query results are inputs, already limited and with mastery rounded; the `reason` texts, the titles of the two vocabulary tasks and the exam fields are dropped.
- DailyPlan.UrgentSurvives: the due knowledge points are distinct rows of the table; a point listed twice would be skipped the second time.
- `FormulaReviewManager.record_review` passes the review count as the interval, so the growth results do not apply to it; `auto_schedule_study` never advances its slot, so nothing is claimed of where it puts tasks.
- `nous_runtime`, the learning database beyond one card's update, safety lists and recovery tables: storage, lookup tables and thin wrappers.
