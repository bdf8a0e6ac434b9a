# A verified model of the approval broker and of the host it drives

The broker lets an assistant propose an operation, freezes it, waits for a person to approve it, and executes it at
most once. The host side checks every command again: a dispatcher behind one ssh key, a helper that runs one argument
list, a gate with a single slot for hand-approved commands, a reader for the recorded shell, and a runner for health
checks. This project models both sides in Dafny and proves what they promise, over every input and every run.

`dafny verify dfyconfig.toml` checks the whole project.

## How the model is laid out

- `JsonText`, `JsonProofs`: `json.dumps` (both the hash's and the store's settings) and `json.loads`, on JSON values
  whose objects keep their insertion order. `Meaning` is the value up to key order.
- `Registry`: the operation table, parameter validation, the frozen plan and its hash.
- `Lifecycle`: `service.py` and `store.py` as a machine that takes one step per store call, lock operation or adapter
  call; a clock reading shares the step of the statement or test that uses it. Any number of handler threads interleave;
  a handler may die by an exception (`Die`), the process may crash and restart (`Restart`, which merges a synced
  inventory), the clock may be set (`Tick`), and the plan column of a row may be edited behind the broker's back
  (`Tamper`). `Run` applies a sequence of such choices.
- `Threads`, `FrozenContent`, `Plans`, `MockDrift`: what holds of every interleaving.
- `Requests`: what a request asks for, written out in terms of the operations, targets and parameters it names, apart
  from the functions the machine computes with; what is accepted, and what is then frozen.
- `Origins`, `Clearance`: over every interleaving, which request each row holds, what was typed before each execution,
  what was checked before each adapter call, and that the call is the one requested.
- `Approvals`, `Race`: one approval turn by turn, and two of them that both make their calls.
- `Delivery`: from the approved row to what the host runs.
- `Edits`: the same machine in which, between any two steps, any row of the proposals table may be replaced by any other
  row (`Edit`, `EditedRun`). `Tamper` is the edit of the plan column alone, under which everything else is proved.
- `Serial`, `Receipts`: what holds when requests are served one at a time, crashes included.
- `Tables`, `Turns`, `Broker`: the same service as code. `Store` holds the three tables, `BrokerService` the methods in
  the order and with the branches of `service.py`. What the outside world does during a call (`World`: the lock file,
  the precheck's answer, the script file, the adapters' answers) is a parameter of the call; the clock is read as the
  call goes, and its readings are ghost results (`Times`). A run of the `Lifecycle` machine goes along (`Trace`): every
  method appends to it exactly the steps it performs, so its tables are at every return those of a serialized run, and
  the theorems about runs hold of them (`TablesAgree`).
- `Calendar`: the stored timestamps. The machine counts seconds; this is where text and seconds meet.
- `Shell`, `HostPath`, `Resync`: words, substrings and lines; the way of a Proxmox operation to the host; inventory
  syncs.
- `Gate`: `msp-stage` and `msp-gate step` over the one slot, as code and as a function of the slot.
- `Recorder`: the ring buffer and the offset of `read-new`.
- `Smart`, `RunCheck`: the SMART classifier and the check runner.

Where the code and its documents differ, the model follows the code:

- The lifecycle promises that an approved proposal is executed once. The code reads the status before it takes the
  lock (`docs/HANDOVER.md:80` records this), so two approvals that both read the row first can both execute it.
  `Race.TwoApprovalsBothExecute` gives the run, from an empty database to the second adapter call, for every single
  operation on a host, every script, every plan and every failing mock operation; for the other mock operations
  `MockDrift.SecondCallOnlyIfUnsaved` says when a second call is made. `Threads.ExecutedOnceIff` says for every run when a
  proposal is executed once, and `Serial.SerialExecutesOnce` that it always is when requests are served one at a time.
- The plan is called frozen, but the hash covers the plan column alone. A single operation takes its target and its
  parameters from the row's other columns and its tool and action from the plan; on a host the operation's name decides
  nothing but the precheck and whether the row is an operation, a script or a plan. So another operation's name in that
  column changes nothing that a host is sent (`Edits.OperationColumn`), while an edit of the target column sends the
  operation to another target with both hash checks passed (`Edits.OtherTargetRuns`).
  `Edits.CalledArgvExactly` says, over every run with any edits, when what is sent is what was frozen.
- A target's external id is sent as it is. One that holds a space is split by the dispatcher, so the operation runs on its
  first word (`HostPath.GuestReachesHost`).
- A unit or pool name with one trailing newline passes validation, because `$` in a Python pattern matches before it;
  the dispatcher then refuses it (`HostPath.ScrubReachesHost`, `HostPath.RestartReachesHost`).
- A SMART line before the first device marker is counted for the first device (`Smart.StrayLineLeaks`);
  `Smart.NoLeakExactly` says for which inputs no line strays.

## Model

| member | source | states |
|---|---|---|
| JsonProofs.ReadBack | roles/msp_broker/files/broker/store.py:92-107 | Reading back any printed JSON value, followed by any text that does not begin with a digit, gives the value and that text, with and without ASCII escapes. |
| JsonProofs.PrintInjective | roles/msp_broker/files/broker/model.py:132-133 | Two values with the same printed text are the same value, key order included. |
| JsonProofs.CanonicalDecides | roles/msp_broker/files/broker/model.py:132-137 | Two dictionaries have the same canonical text, hence the same hash, if and only if they mean the same; key insertion order does not matter. |
| JsonProofs.StoreRoundTrip | roles/msp_broker/files/broker/store.py:92-107 | What the store's encoder writes its decoder reads as a value with the same meaning and the same canonical text. |
| JsonProofs.EncodedTextIsAscii | roles/msp_broker/files/broker/store.py:102-107 | The stored text of a string holds only printable ASCII. |
| JsonProofs.KeysAscend | roles/msp_broker/files/broker/model.py:132-133 | Both texts print the keys of a dictionary in ascending order: at the first difference the smaller code point, or the shorter key, comes first. |
| JsonProofs.Punctuation | roles/msp_broker/files/broker/model.py:132-133 | The canonical text joins items by commas and a key and its value by a colon, without blanks. |
| JsonProofs.CanonicalString | roles/msp_broker/files/broker/model.py:132-133 | A string without control characters, quotes and backslashes is printed as it is, whatever its alphabet. |
| JsonProofs.NormalUnique | roles/msp_broker/files/broker/model.py:132-133 | Sorted values are determined by their meaning. |
| Registry.ValidateParams | roles/msp_broker/files/broker/model.py:114-129 | The validation loop returns the clean parameters of the specification, and nothing for anything it must refuse. |
| Registry.RisksExactly | roles/msp_broker/files/broker/model.py:72-107 | Which operations are LOW, DISRUPTIVE, HIGH and FORBIDDEN, and that there are no others. |
| Registry.KindsExactly | roles/msp_broker/files/broker/model.py:72-107 | Which operations apply to a node, a virtual machine, a container and the mock target. |
| Registry.MockExecutors | roles/msp_broker/files/broker/model.py:72-82 | What the plans of the mock operations name as executor. |
| Registry.PhraseExactly | roles/msp_broker/files/broker/model.py:140-142 | The confirmation is "STOP " or "HALT " and the target's name for the three HIGH operations, and empty for the others. |
| Registry.TakesExactly | roles/msp_broker/files/broker/model.py:114-129 | Which parameters each operation takes: one printable message, one number of seconds from 1 to 3600, one pool or unit name over its own alphabet with perhaps a newline after it, or none. |
| Registry.CleanKeepsParameters | roles/msp_broker/files/broker/model.py:114-129 | Accepted exactly when the names given are the names declared and every value is valid; the result means the same dictionary. |
| Registry.PlanFields | roles/msp_broker/files/broker/model.py:145-168 | A built plan is a dictionary, and every one of its fields is the one it was built from; steps, script and declared text are present exactly when given. |
| Threads.MutualExclusion | roles/msp_broker/files/broker/service.py:392-423 | Over every interleaving at most one handler is between `_lock` and `_unlock`. |
| Threads.CommitsExactly | roles/msp_broker/files/broker/service.py:348-464 | Each step of an approval, rejection or cancellation writes exactly the columns listed for it, with the clock of that moment and the name of who acted, and no other row. |
| Threads.ExecutionsBounded | roles/msp_broker/files/broker/service.py:378-404 | Executions of a proposal never outnumber the approvals that read it as PROPOSED. |
| Threads.ExecutedOnceIff | roles/msp_broker/files/broker/service.py:381-401 | Over every interleaving: at most one execution if and only if no execution of the row is entered between the read and the lock of an approval that executes it. |
| Threads.ExecutedOnceWhenQuiet | roles/msp_broker/files/broker/service.py:381-401 | At most one execution in every interleaving where no commit to the row falls between an executing approval's read and its lock. |
| Race.TwoApprovalsBothExecute | roles/msp_broker/files/broker/service.py:378-404 | For every proposal that the broker accepts into an empty database and whose first call can be made (a single operation on a host whose observed state passes its own comparison, a script, a plan whose first adapter is there, a failing mock operation), there is a run in which it is approved twice, with its confirmation, and the adapter is called twice. |
| Race.BothApprovalsCall | roles/msp_broker/files/broker/service.py:381-401 | The same from every state in which such a proposal, of any risk, waits unexpired with a matching hash and a target that is there, and no handler is alive: both approvals make their calls. |
| FrozenContent.ColumnsNeverChange | roles/msp_broker/files/broker/service.py:118-144 | From any point of any run on, no step changes a frozen column of an inserted row. |
| FrozenContent.ColumnsMatchPlan | roles/msp_broker/files/broker/service.py:118-144 | Over every run the hash is that of the plan the row was proposed with, the columns client, adapter, operation, target, parameters and observed state stay the matching fields of it, and the expiry is the creation plus the lifetime. |
| Requests.LooksUp | roles/msp_broker/files/broker/service.py:73-86 | A reference finds a target exactly when it is the id of one of this client's targets or, where no target has that id, a name no other target has. |
| Requests.ChecksExactly | roles/msp_broker/files/broker/service.py:88-104 | An operation passes its checks on a target exactly when it is registered and not forbidden, the policy allows it, the reference names that target, adapter and kind are the operation's and it takes the parameters; what is kept means the parameters given. |
| Requests.AcceptedExactly | roles/msp_broker/files/broker/service.py:109-297 | A proposal, a plan or a script resolves if and only if what it asks for is acceptable: every step for a plan, their number within the policy's, the adapter there for the other two. |
| Requests.StepsExactly | roles/msp_broker/files/broker/service.py:249-268 | The steps of a plan check out exactly when each of them does, and each frozen step names the operation, adapter, executor and target of the step requested, with parameters that mean the same; the risk is HIGH if one is HIGH, else DISRUPTIVE if one is. |
| Requests.FrozenAsAsked | roles/msp_broker/files/broker/service.py:109-297 | A row's columns and its hashed plan are what the request asked for: user, client, operation, adapter, target, parameters, risk, confirmation phrase, executor, timeout, steps, script and declared text. |
| Origins.RowIsAsked | roles/msp_broker/files/broker/service.py:109-297 | Over every run each row comes from a request that somebody who may read began: its columns and plan are what that request asked for against the inventory of the moment, its frozen state is what was observed then, and its expiry counts from the clock of its insertion. |
| Origins.ExecutedByPhrase | roles/msp_broker/files/broker/service.py:378-404 | Over every run each execution and each call was made by the handler of an approval of that row, begun by an approver, who typed "STOP ", "HALT ", "APPROVE " or "APPROVE PLAN " and the target's name if the row is a HIGH operation, a script or a plan with a HIGH step. |
| Clearance.HoldsOnHost | roles/msp_broker/files/broker/proxmox.py:200-208 | The host adapter's comparison, without its function: the first of status, activity and node that was stored is unchanged, and a stored existence asks that the thing exists now. |
| Clearance.GuestUndrifted | roles/msp_broker/files/broker/proxmox.py:179-208 | For what a guest's precheck stores: the status is the same. |
| Clearance.UnitUndrifted | roles/msp_broker/files/broker/proxmox.py:179-208 | For what a unit's precheck stores: the activity is the same. |
| Clearance.PoolUndrifted | roles/msp_broker/files/broker/proxmox.py:179-208 | For what a pool's precheck stores: the pool exists now, whatever was stored. |
| Clearance.ClearedExactly | roles/msp_broker/files/broker/service.py:473-522 | From any state a handler's step leads to a call if and only if every check before that call passes: adapter, drift, script file, or the step's target, client, adapter, operation and precheck. |
| Clearance.HostCallMade | roles/msp_broker/files/broker/service.py:473-486 | The converse for a host: two steps from its precheck the call is logged, with the row's adapter, operation and parameters, if and only if the adapter is there and the answer is undrifted; otherwise the row ends as FAILED. |
| Clearance.CalledOnlyWhenClear | roles/msp_broker/files/broker/service.py:473-531 | Over every run each call was preceded by a step of the same handler at which all checks of exactly this call passed. |
| Clearance.HostCallUndrifted | roles/msp_broker/files/broker/service.py:473-484 | Over every run a single operation on a host is called only when its own precheck observed the status, activity, node or existence its proposal was frozen with. |
| Clearance.CalledAsAsked | roles/msp_broker/files/broker/service.py:473-531 | Over every run, edits of the plan column included, each call is what was requested: the operation, its adapter and parameters of the same meaning; for call i of a plan those of step i of the request, on the target its reference named; a script for a script. |
| Edits.ExecutedPlanExactly | roles/msp_broker/files/broker/service.py:425-431 | Over every run, with any rows replaced by any others at any moment: the plan a handler executes means the plan that was proposed if and only if the hash column its second read found is the one stored at the proposal. |
| Edits.ArgvExactly | roles/msp_broker/files/broker/proxmox.py:210-221 | For any row and target: what is sent to the host is what the row's plan asks for if and only if the one argument the executor takes from the row is the plan's: the target's external id for a guest, the pool for a scrub, the unit for a restart. |
| Edits.CalledArgvExactly | roles/msp_broker/files/broker/service.py:425-486 | Over every run with any edits, as long as the second read finds the stored hash: a single operation sends the host the argument list its proposal was frozen with if and only if the adapter column does not say mock and that one argument is still the frozen one. |
| Edits.EditedRowIsCalled | roles/msp_broker/files/broker/service.py:378-486 | Whatever columns an accepted operation's row is edited to, as long as they get through an approval: there is a run in which it is called with them, on the target they name. |
| Edits.OtherTargetRuns | roles/msp_broker/files/broker/service.py:433-486 | For every accepted guest operation and every other target of the client there is a run in which the target column is edited, both hash checks pass, and the host is sent the operation on the other target's external id while the frozen plan asks for its own. |
| Edits.OperationColumn | roles/msp_broker/files/broker/proxmox.py:210-221 | An edited operation column passes the hash check exactly as before and leaves what a host is sent as it was; it changes what the mock adapter does if and only if one of the two names fails or echoes and the other does not. |
| FrozenContent.StoredHashHolds | roles/msp_broker/files/broker/service.py:386-429 | In a run without edits the hash recomputed from the row equals the stored one. |
| Plans.PlanCallsArePrefix | roles/msp_broker/files/broker/service.py:502-531 | The calls of a plan are a prefix of its executed steps in order with their parameters; every call before the last returned 0; once a result is committed it is SUCCEEDED exactly when all steps were called and all returned 0. |
| Plans.ExecutedStepsAreFrozen | roles/msp_broker/files/broker/service.py:425-431 | The executed steps are, one by one, those the proposal was frozen with. |
| Plans.FoldRiskIsMaximum | roles/msp_broker/files/broker/service.py:249-257 | The risk folded over a plan's steps is the highest of theirs. |
| MockDrift.CalledOnlyWithoutDrift | roles/msp_broker/files/broker/mock.py:43-66 | Over every run a single mock operation is called only if no counter-changing execution was saved since its own precheck. |
| MockDrift.SecondCallOnlyIfUnsaved | roles/msp_broker/files/broker/mock.py:43-66 | A second call of one single mock operation is made only if nothing was saved between the two: the first failed, or its handler was stopped before it returned. |
| MockDrift.HoldsExactly | roles/msp_broker/files/broker/mock.py:43-47 | Two observed states of the mock adapter compare equal if and only if the counters are equal, whatever the targets. |
| Serial.TransitionsAreLegal | roles/msp_broker/files/broker/service.py:378-471 | Serialized, with crashes between any two steps: every row takes only the documented transitions. |
| Serial.TerminalForever | roles/msp_broker/files/broker/service.py:378-471 | A terminal status never changes again. |
| Serial.SerialExecutesOnce | roles/msp_broker/files/broker/service.py:378-404 | Serialized, every proposal is executed at most once, whatever crashes. |
| Serial.ApprovedBeforeExecuted | roles/msp_broker/files/broker/service.py:378-401 | Over every run an execution comes only after the same handler committed APPROVED for an approver. |
| Receipts.ReceiptsExactly | roles/msp_broker/files/broker/service.py:579-621 | Serialized, a receipt belongs to a closed row and agrees with it; if no handler was stopped and every row stays readable, the receipts between requests are exactly those of rejected, cancelled, succeeded and started-and-failed rows. |
| Receipts.ReceiptsNeverChange | roles/msp_broker/files/broker/service.py:455-464 | A receipt is written once. |
| Receipts.ExecutedInTime | roles/msp_broker/files/broker/service.py:395-439 | Under a clock that does not run back, every row that started was approved at or after its creation and before its expiry. |
| Tables.Store.Get | roles/msp_broker/files/broker/store.py:125-131 | The row with its decoded plan, or nothing. |
| Tables.Store.UpdateRow | roles/msp_broker/files/broker/store.py:133-147 | Exactly the named columns of exactly one row change. |
| Tables.ExpireExactly | roles/msp_broker/files/broker/store.py:170-180 | A sweep changes a row if and only if it was PROPOSED and its expiry had come, and then only its status. |
| Tables.SweepsCompose | roles/msp_broker/files/broker/store.py:170-180 | Two sweeps in either order are one at the later time, so a repeated sweep expires nothing more. |
| Tables.Store.Insert | roles/msp_broker/files/broker/store.py:109-123 | A new row, refused when the key exists. |
| Tables.Store.InventoryUpsert | roles/msp_broker/files/broker/store.py:203-223 | The loop of INSERT OR REPLACE equals its specification. |
| Broker.OneByName | roles/msp_broker/files/broker/service.py:73-86 | A name resolves exactly when one target has it, and then to that target. |
| Tables.OthersStay | roles/msp_broker/files/broker/store.py:203-223 | An upsert leaves ids outside its entries alone. |
| Tables.LastEntryWins | roles/msp_broker/files/broker/store.py:203-223 | An id among the entries ends with its last entry. |
| Broker.MockAdapter.Execute | roles/msp_broker/files/broker/mock.py:49-66 | Only `mock.fail` fails, and it leaves the state alone; every other call adds one to the counter and leaves its target, and only `mock.echo` leaves its message. |
| Broker.BrokerService.CallAdapter | roles/msp_broker/files/broker/service.py:473-526 | The mock adapter is called with the operation, target and parameters of the row, or of the step; a host returns what it returns. |
| Turns.ReachedIsARun | roles/msp_broker/files/broker/service.py:109-471 | The run carried along with the service is a serialized, unbroken run of the machine. |
| Broker.TablesAgree | roles/msp_broker/files/broker/service.py:348-471 | Between requests, after any calls, restarts and refused locks: the receipts are exactly those of the closed rows and agree with them, and every proposal was executed at most once. |
| Broker.BrokerService.Restart | roles/msp_broker/files/broker/daemon.py:39-62 | A restart upserts the seeds, then the node and the guests if the host answers, and changes no proposal and no receipt. |
| Broker.BrokerService.Lock | roles/msp_broker/files/broker/service.py:406-416 | Gets the lock exactly when its file opens and nobody holds it; a failure changes nothing. |
| Broker.BrokerService.Approve | roles/msp_broker/files/broker/service.py:378-404 | Refused if and only if a check before the lock fails or the row had expired under the lock; no lock if and only if its file does not open; otherwise the row ends as the first failed check says, or with the result of its execution and its receipt. Every other row, receipt and the inventory stay. |
| Broker.BrokerService.ApproveRead | roles/msp_broker/files/broker/service.py:381-404 | The same after the expiry sweep: which check refuses, and that a wrong hash ends the row as FAILED while the other refusals change nothing. |
| Broker.BrokerService.ApproveMatching | roles/msp_broker/files/broker/service.py:392-404 | From the lock on: refused exactly when the lock was had and the expiry had come. |
| Broker.BrokerService.ApproveLocked | roles/msp_broker/files/broker/service.py:394-404 | Under the lock the row becomes EXPIRED and the approval is refused if and only if the clock read there has reached the expiry; otherwise the row is approved and ends. |
| Broker.BrokerService.Execute | roles/msp_broker/files/broker/service.py:425-471 | A second hash mismatch ends the row as FAILED, an expiry as EXPIRED, a lost target as FAILED, in that order, each without a start or a receipt; otherwise the row and its receipt record the result. |
| Broker.BrokerService.ExecuteOn | roles/msp_broker/files/broker/service.py:439-471 | EXECUTING is committed before any adapter call; the row and its receipt record the result. |
| Broker.BrokerService.Conclude | roles/msp_broker/files/broker/service.py:454-471 | SUCCEEDED exactly for 0, with the result in the row and in the receipt. |
| Broker.BrokerService.ExecuteOperation | roles/msp_broker/files/broker/service.py:473-486 | One call if and only if the adapter is there and the host's answer is undrifted, or the mock adapter's counter the stored one; it is logged, and the mock adapter is left with the target and the message of the row. Otherwise 1, and nothing is called or changed. |
| Broker.BrokerService.ExecuteScript | roles/msp_broker/files/broker/service.py:488-500 | One run if and only if the adapter is there, the plan holds a script and its file is unchanged; the result is the run's, or 1. |
| Broker.BrokerService.ExecutePlan | roles/msp_broker/files/broker/service.py:502-531 | The calls made and the result are those of the steps up to the first that may not be called or does not return 0. |
| Broker.BrokerService.ExecuteStep | roles/msp_broker/files/broker/service.py:506-525 | One call of the step if and only if its target, adapter and operation resolve and its precheck answers, on the target its id names, with the step's own operation and parameters; the result is the call's, or 1. |
| Broker.BrokerService.Reject | roles/msp_broker/files/broker/service.py:348-360 | Refused exactly when the row is not waiting or the actor may not; otherwise exactly that row and its receipt. |
| Broker.BrokerService.Cancel | roles/msp_broker/files/broker/service.py:362-376 | The same, and only for the requester or an approver. |
| Broker.BrokerService.LookUp | roles/msp_broker/files/broker/service.py:73-86 | By id first, by name only if unique, and only this client's targets. |
| Broker.BrokerService.ValidatedOperation | roles/msp_broker/files/broker/service.py:88-104 | The chain of checks before an operation may be proposed. |
| Broker.BrokerService.Propose | roles/msp_broker/files/broker/service.py:109-147 | Accepted if and only if the operation is acceptable, the precheck answers and the id is new; then exactly one row is added, which holds what was asked for, with the risk and the confirmation of the operation, and otherwise nothing but what has expired changes. |
| Broker.BrokerService.CheckPlan | roles/msp_broker/files/broker/service.py:249-268 | The loop accepts exactly the plans each of whose steps suits, and freezes each step as it was requested, with the highest risk among them. |
| Broker.BrokerService.ProposePlan | roles/msp_broker/files/broker/service.py:238-297 | Accepted if and only if there are steps, not too many, every one suits and the id is new; then exactly one row is added, whose steps, risk and confirmation are those of the steps requested. |
| Broker.BrokerService.ProposeScript | roles/msp_broker/files/broker/service.py:149-236 | Accepted if and only if the target resolves, its adapter is there and the id is new; then exactly one row is added, HIGH and with its confirmation, holding the script asked for and the observed state, or an empty one when the precheck does not answer. |
| Broker.BrokerService.Show | roles/msp_broker/files/broker/service.py:337-343 | Shows the row exactly when it can be read, is this client's and the actor may read; changes nothing but what has expired. |
| Calendar.TextOrderIsTimeOrder | roles/msp_broker/files/broker/service.py:17-22 | For four-digit years the order of the stored texts is the order of the instants, and equal texts mean equal instants. |
| Calendar.ReadBack | roles/msp_broker/files/broker/service.py:17-22 | What is printed is parsed back. |
| Calendar.AtSecondRight | roles/msp_broker/files/broker/service.py:124-125 | Adding a lifetime carries rightly over days, months and leap years: every instant has a calendar time that means it. |
| Calendar.ExpiryTestsAgree | roles/msp_broker/files/broker/store.py:170-180 | The SQL test on texts and the test on parsed times always agree. |
| Calendar.DayCount | roles/msp_broker/files/broker/service.py:21-22 | The recursive day count equals the Gregorian closed form. |
| Calendar.MonthTable | roles/msp_broker/files/broker/service.py:17-22 | The lengths of the twelve months and the leap rule. |
| Shell.SplitJoin | roles/msp_host/files/msp-dispatch:16 | Splitting a joined list gives it back for exactly the lists of non-empty words without spaces. |
| Shell.PaddedSubstring | roles/msp_host/files/msp-gate:38 | The padded substring test is true exactly for the words of the command. |
| Shell.LowerContains | roles/msp_host/files/msp-stage:11-12 | Containment of the lower-cased texts is containment letter by letter, whatever the case. |
| Shell.ThreeLines | roles/msp_host/files/msp-gate:17-18 | Three lines written are the three lines read. |
| HostPath.SshKeepsArguments | roles/msp_host/files/msp-dispatch:13-35 | An argument list sent over ssh (section 6.5 of RFC 4254) is routed as exactly that list, as far as the key's role goes, or refused for a character. |
| HostPath.RolesAreLimits | roles/msp_host/files/msp-dispatch:13-35 | For every role and command line, with the verbs listed: only the interactive key stages; only the broker's reaches the helper, with `exec` and `run-script`, and reads with ten verbs; every other key only reads, with nineteen. |
| HostPath.HelperRuns | roles/msp_host/files/msp-execverb:7-53 | For all words that reach the helper: it runs a guest tool, a scrub, a restart or a script under exactly the listed conditions on id, exclude list, alphabets, site lists and timeout, and nothing else. |
| HostPath.GuestOperation | roles/msp_broker/files/broker/proxmox.py:7-16 | Each guest operation's executor runs the tool and action its registry name spells. |
| HostPath.GuestReachesHost | roles/msp_host/files/msp-execverb:10-24 | A guest operation runs `tool action id` if and only if the external id is a plain vmid that is not excluded, the allowlist holds the operation's own name and the tool is installed; whatever the external id holds, nothing else is run than the operation on its first word. |
| HostPath.ScrubReachesHost | roles/msp_host/files/msp-execverb:25-31 | The same for a scrub of a validated pool name. |
| HostPath.RestartReachesHost | roles/msp_host/files/msp-execverb:32-38 | The same for a restart of a validated unit name. |
| HostPath.ScriptReachesHost | roles/msp_host/files/msp-execverb:39-51 | A frozen script is handed over with its timeout exactly when the host allows both; a timeout of 2^63 or more passes the helper's number test. |
| Resync.SyncInventory | roles/msp_broker/files/broker/proxmox.py:91-128 | The sync loops write the node and one entry per listed guest. |
| Resync.SyncedExactly | roles/msp_broker/files/broker/proxmox.py:91-128 | What a sync writes, field by field: one node under its host name, then each virtual machine and each container under its own vmid and name, all of them this client's. |
| Resync.SyncStable | roles/msp_broker/files/broker/proxmox.py:91-128 | Any sync keeps every guest's external id the one its stable id spells. |
| Resync.UpsertMerges | roles/msp_broker/files/broker/store.py:203-223 | A sync of the tables is the merge of its entries over them, which is what a restart of the machine does. |
| Resync.LoadMerges | roles/msp_broker/files/broker/daemon.py:39-62 | Loading seeds and sync into the table is the merge over it that a restart of the machine does. |
| Resync.LoadedStable | roles/msp_broker/files/broker/proxmox.py:91-128 | What a start loads from its seeds and the host spells every guest's external id by its stable id. |
| Resync.GuestArgvIsFrozen | roles/msp_broker/files/broker/service.py:473-486 | Over every run, with any syncs at restarts and edited plan columns, a guest operation's argument list is the one its frozen plan determines. |
| Resync.ApprovedGuestReachesHost | roles/msp_host/files/msp-execverb:10-24 | From the approved row to the host over every such run: tool and action of the operation run on the frozen external id exactly when the host's lists and tools allow it, and nothing else is run than the operation on that id's first word. |
| Delivery.ApprovedScrubReachesHost | roles/msp_host/files/msp-execverb:25-31 | Over every run an approved scrub runs on the frozen pool exactly when its name is one line, the operation is allowed, the tool is there and the pool exists; nothing else is run. |
| Delivery.ApprovedRestartReachesHost | roles/msp_host/files/msp-execverb:32-38 | Over every run an approved restart restarts the frozen unit exactly when its name is one line, the operation is allowed and the unit is listed; nothing else is run. |
| Delivery.ApprovedScriptReachesHost | roles/msp_host/files/msp-execverb:39-51 | Over every run an approved script is sent with its frozen interpreter and timeout, and runs exactly when the host allows both. |
| Gate.GateHost.Matches | roles/msp_host/files/msp-stage:12 | The list loop finds a match exactly when a non-empty pattern is contained, ignoring case. |
| Gate.GateHost.CheckLists | roles/msp_host/files/msp-gate:24-28 | A command passes exactly when no line of the never-list stands in it, whatever the case, and none of the deny-list unless the label is DESTRUCTIVE. |
| Gate.GateHost.Stage | roles/msp_host/files/msp-stage:6-26 | Staged if and only if label, separator, command, both lists, recording, slot and temporary file allow it; then the file's three lines are the label, the time and the command. |
| Gate.GateHost.Step | roles/msp_host/files/msp-gate:16-42 | A step empties the slot and runs the words of its command if and only if the file is fit. |
| Gate.StepRunsTheFit | roles/msp_host/files/msp-gate:16-42 | The same of the specification: fit means one of the four labels, a time line over its alphabet at most 1800 s old, a command over its alphabet in which no line of the never-list stands, and none of the deny-list unless DESTRUCTIVE, the code, and if DESTRUCTIVE one of its words as target. |
| Gate.GateSafety | roles/msp_host/files/msp-gate:16-42 | Over every run, hand-planted files included: whatever ran was the command of the file that stood in the slot at some step and was fit for that step, free of that step's never-list, and of its deny-list unless DESTRUCTIVE; one file runs at most once. |
| Gate.DenyListNeedsTheLabel | roles/msp_host/files/msp-gate:24-39 | A command that the deny-list names and the never-list does not runs if and only if it is labelled DESTRUCTIVE and the code and one of its words as target are given. |
| Gate.OnlyAYoungFileBlocks | roles/msp_host/files/msp-stage:17-24 | A file blocks staging exactly while it is younger than 1800 s; an older one is replaced. |
| Gate.YoungFileStays | roles/msp_host/files/msp-stage:18-22 | No sequence of stagings removes or replaces a young file. |
| Gate.StageToGate | roles/msp_host/files/msp-stage:23-24 | What staging an accepted command writes is parsed back as its label, its time and its words. |
| Gate.TargetIsAWord | roles/msp_host/files/msp-gate:35-39 | A typed target passes exactly when it is one of the command's words in the target alphabet. |
| Gate.StagedCommandRuns | roles/msp_host/files/msp-gate:16-42 | From the dispatcher to the gate: exactly when a staged command runs, and that it then runs exactly the words after `--`. |
| Gate.EpochIs1970 | roles/msp_host/files/msp-gate:21 | Seconds are counted from 1970. |
| Recorder.Capped | roles/msp_host/files/msp-readverb:16-18 | The ring buffer prints exactly the last lines in order, after a marker exactly when there are more. |
| Recorder.Recording.ReadNew | roles/msp_host/files/msp-readverb:45-49 | Returns exactly the bytes between the saved offset and the size read, whatever is written meanwhile, and saves that size. |
| Recorder.ReadsConserve | roles/msp_host/files/msp-readverb:45-49 | Without a crash successive reads are together exactly the recording up to the offset. |
| Recorder.NothingSkipped | roles/msp_host/files/msp-readverb:45-49 | With crashes anywhere bytes may repeat, but none below the offset is ever skipped. |
| Smart.Classifier.Emit | roles/msp_checks/files/checks/check-smart.sh:29-39 | Counts the device being read under the class of its own block, and forgets it. |
| Smart.Classifier.Classify | roles/msp_checks/files/checks/check-smart.sh:40-56 | The streaming loop counts every block of any input as its lines say, and exits with the worst. |
| Smart.MarkersExactly | roles/msp_checks/files/checks/check-smart.sh:42-45 | Which lines begin a device and what it is called, which give a health status and which number, which are passed over. |
| Smart.PhrasesExactly | roles/msp_checks/files/checks/check-smart.sh:46-51 | Every other line is read by the first of the four phrases that stands in it: failed, unknown, an NVMe warning that is not 0, wear. |
| Smart.NumberExactly | roles/msp_checks/files/checks/check-smart.sh:48-49 | The number taken from a line is the one after the last colon that has one. |
| Smart.ClassExactly | roles/msp_checks/files/checks/check-smart.sh:31-37 | The class of a block, test by test, with the bits as quotients of the status: failing beats aging, aging beats an NVMe warning. |
| Smart.LastAssessment | roles/msp_checks/files/checks/check-smart.sh:46-47 | The last self-assessment line of a block decides. |
| Smart.LastSays | roles/msp_checks/files/checks/check-smart.sh:43 | The last health line of a block gives its status, and 0 where there is none. |
| Smart.BlocksOfReport | roles/msp_checks/files/checks/check-smart.sh:40-53 | A report of devices is split into exactly the devices' own blocks. |
| Smart.NoLeakExactly | roles/msp_checks/files/checks/check-smart.sh:30-45 | No line strays to another device if and only if the input starts with a marker and names every device. |
| Smart.StrayLineLeaks | roles/msp_checks/files/checks/check-smart.sh:30-38 | A line before the first marker makes a healthy device critical. |
| Smart.ExitIsWorst | roles/msp_checks/files/checks/check-smart.sh:54-56 | The exit code is the worst block's class and every block is counted exactly once. |
| RunCheck.Checker.Run | roles/msp_checks/files/msp-run-check:14-43 | Over every history: the streak is the longest critical suffix of completed runs, the log is the history without consecutive duplicates, a page is sent exactly when the suffix is long enough, and a broken run changes nothing. |
| RunCheck.ChangesRight | roles/msp_checks/files/msp-run-check:22-33 | The change log has no equal neighbours, and the history is that log with entries repeated. |
| RunCheck.SuffixUnique | roles/msp_checks/files/msp-run-check:26-28 | There is only one longest critical suffix. |
| RunCheck.Streak | roles/msp_checks/files/msp-run-check:39 | The streak reaches the limit exactly when the last so many completed runs were all critical. |

## Left out

- At-most-once for unrestricted interleavings: the code does not provide it; `Threads.ExecutedOnceIff` is the exact condition.
- Drift protection inside plans: the code discards the precheck's answer there.
- Multi-step plans on Proxmox: dispatch keys on the plan's own executor, so every such step fails; the plan loop is proved for adapters that answer anything.
- Exceptions of the store, the file system or the adapters in the middle of a method: `Lifecycle` has them between any two steps (`Die`), the methods of `BrokerService` do not.
- Race.TwoApprovalsBothExecute: not for a single mock operation that moves the counter it is compared by; `MockDrift.SecondCallOnlyIfUnsaved` says what a second call of it needs.
- FrozenContent.ExecutedPlanIsTheFrozenOne: under edits of the plan column alone; `Edits.ExecutedPlanExactly` is the same over edits of any column, with its exact condition. Rows are edited, not added or removed.
- Tables.Store.Get: only the plan column passes through text. The other JSON columns are kept as values; `JsonProofs.StoreRoundTrip` says that they would keep their meaning.
- Calendar.TextOrderIsTimeOrder: four-digit years only; `strftime` does not pad shorter ones. `strptime` also accepts unpadded fields, which the broker never writes.
- HostPath.GuestReachesHost: says when the tool is run; a missing tool makes the helper print a note and exit 0 (`NotHere`).
- SHA-256 is a free injective function of the hashed text; its UTF-8 encoding is not modelled.
- JSON floats (`NaN` and the like included) and lone surrogates: the broker never writes them into a plan, and a plan column edited to hold one counts as unreadable; Dafny characters are Unicode scalar values.
- The precheck's observation does not depend on the operation's name here: what it returns is an answer of the outside world.
- Broker.BrokerService.ExecuteScript: the symlink, digest and missing-file checks are one answer of the outside world (`intact`).
- Broker.BrokerService.ProposePlan: the policy's switch for plans and the check of the purpose decide whether the request exists.
- Broker.BrokerService.ProposeScript: the checks on file, interpreter, timeout and declared text decide whether the request exists.
- `True == 1` in Python comparisons of observed states.
- Columns `result_summary`, `post_state`, `ai_declared` and `site_id`, the log file, and the receipt's copy on disk.
- The script proposal's checks on the file, the interpreter and the declared text: they decide whether the request exists at all; at execution they are one answer of the outside world.
- Policy loading: the policy is fixed over a run. The kinds `int`, `vmid` and `port` are used by no operation.
- A corrupted mock state file.
- The parsers of `qm list`, `pct list` and `qm status`: a sync is modelled from the guests they return. Host names outside ASCII are mapped to underscores.
- Sockets, peer credentials, sudo, the key file's role lookup: the role is an input of `Dispatch`.
- How `/etc/msp` files are parsed: their lines or words are inputs.
- The gate's receipt file and journal lines beyond the record of what ran; two gate steps at the same instant.
- The cap of 200 lines and the default of two consecutive critical runs are parameters (`n`, `consecutive`).
- `read-new` picks the newest recording; one recording is modelled. Redaction is not modelled.
- A SMART status with a leading zero, which the shell would read as octal; the wording of the summary line.
- The check runner's files are replaced as one step; its lock lets no second runner in.
