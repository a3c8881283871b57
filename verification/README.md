# Stozher: a verified model of enforcement, chaining, canonicalization and authority

Stozher turns every action of an agent into a signed, hash-chained record, and lets an action that
policy gates go ahead only on a human's signature over that exact action. This project models the parts
on which that promise rests and proves them for every input and every run: of one state machine whose
steps are the transactions of enforcement, and of another whose steps are those of pushing the chain to
the kernel. In both, the transactions of all threads and processes interleave freely and any of them may
die between two. Where a property needs more than that, its statement says what, and a concrete run shows
the need.

`dafny verify dfyconfig.toml` checks the whole project.

| files | what they model |
|---|---|
| `Store`, `Database` | the gateway's tables as values, and `GatewayStore`, the object whose methods are one transaction each |
| `Protocol`, `Deployment`, `Enforcer` | enforcement as a state machine over those transactions; the object that takes its steps; and the code of one governed call and of recovery, with arbitrary steps of others (or a crash) between any two of its transactions |
| `AtMostOnce`, `Calls`, `Frames`, `Streams`, `Citations`, `Seating`, `Closings`, `Ledgers`, `Accounts`, `Outcomes`, `Overlap`, `Recorded`, `OneQuestion` | what every run of that machine keeps |
| `Push`, `Pushers`, `PushDeployment`, `PushCycle` | pushing to a kernel that may accept, refuse, not judge or not answer: one row, any number of pushers as a state machine, the object that takes its steps, and the push loop with arbitrary steps of others between any two of its transactions |
| `AnyPushers`, `OnePusher`, `Sync` | what every run of that machine keeps, what holds while pushers take turns, and the grace window |
| `Transactions`, `Marking`, `Settling`, `GuardedPushers` | exactly when one transaction of one pusher among any number keeps the store consistent, and the machine in which each makes that test |
| `FreshPushers`, `StalePusher` | concrete runs in which the transactions, which make no such test, do not |
| `Windows`, `Aggregation`, `Folder`, `Emitter` | read aggregation, its conservation, the aggregate rules of both implementations, and the record a window becomes |
| `Chain` | the two chain verifiers, the checkpoint verifier, tamper evidence |
| `Gate`, `GateRules`, `Calendar` | the local and the kernel's check of an approval; its rules on the members themselves, and both checks against them; timestamps as text and as instants |
| `Numbers`, `Json`, `Sorting`, `Canonical`, `Reader`, `Writer`, `Surrogates` | RFC 8785 text: number layouts, member order, printing, a reader that inverts it; the scan for unpaired surrogate escapes |
| `Patterns`, `Mandate`, `MandateRules`, `Budgets`, `Policy` | scope patterns, the mandate walk, its rules on the members of the grants and the walk against them, budgets along a chain, classification and gate rules |
| `Decimal`, `Money` | exact decimal arithmetic in both implementations |

Conventions. A hash is never assumed injective: where a result needs that, it concludes with equality or
an explicit collision. Signing is what verifying answered (`signer`, `Genuine`). A clock reading, a failed
write, a kernel's answer, the scheduler and the outcome of a forwarded call are parameters and therefore
arbitrary. `string` is a sequence of Unicode scalar values; both implementations' text comparison is order
by code point, which for UTF-8 octets is the same order.

Where the code and its documentation differ, the model follows the code:

- The two chain verifiers agree on verdict, report, and code except for a malformed signature member; they
  differ on the failing `seq` of a record whose `seq` is not a usable integer (`Chain.VerifiersAgree` says
  exactly when, `Chain.MissingPositionReadsApart` gives an instance).
- A checkpoint with inverted bounds verifies over a single record, because of the saturating subtraction
  (`Chain.AttestedEnd`, `Chain.InvertedBoundsAttest`).
- Asking `decision_for` without an action is documented to match every rule of a class; a rule with an
  empty `actions` list is not reached (`Policy.AskingWithoutAction`).
- "Closed exactly once" holds while sessions of one stream and key do not overlap
  (`Accounts.OpenOrClosedOnce`); when they do, one effect can get two envelopes (`Overlap.OverlapDoubles`), and
  any approval that passes its check can be cited by two (`Overlap.OverlapCitesTwice`).
  `Accounts.ClosedOnceExactlyWhenOpen` gives the exact condition without that assumption.
- A wedge sits exactly on the last consumed row, and a refusal reason is never erased, while pushers take
  turns (`OnePusher.TurnsKeepInv`, `OnePusher.TurnsKeepRefusals`). Nothing makes them: opening a session,
  stopping a process and every process's push thread run cycles of their own. With several at work
  `AnyPushers.RunKeepsPrefix` and `AnyPushers.WedgeStands` survive and those two do not, because
  acceptance and refusal are two transactions each and none tests what the other pushers did:
  - with fresh batches a late clearing takes a later row's wedge, a late wedge stands behind an accepted row,
    and two adjacent rows are refused (`FreshPushers.LateClearingEndsWedge`,
    `FreshPushers.LateWedgeStandsBehind`, `FreshPushers.RefusedSideBySide`);
  - with an old batch an accepted row can read as refused, a reason can be erased, and a wedge cleared
    (`StalePusher.StaleErrorUnmakesAcceptance`, `StalePusher.StaleErrorErasesReason`,
    `StalePusher.StaleAcceptanceEndsWedge`).

  `Marking.HearKeepsExactly`, `Settling.SettleKeepsExactly` and `Transactions.CrashKeepsExactly` say exactly when
  each transaction, and each death, keeps the store consistent. If each transaction made a test of the tables and
  its own row, any number of pushers with batches of any age would keep it so, as long as none dies between its
  two transactions (`GuardedPushers.GuardedRunKeepsInv`); what even such deaths leave is
  `GuardedPushers.GuardedRunIsFirm`.
- Alone, too, a pusher that dies between its two transactions leaves wedges inconsistent
  (`Push.CrashAfterRefusal`, `Push.CrashAfterAcceptance`).
- Grace is bounded from the first refusal for as long as the kernel accepts nothing on the stream and nobody
  settles an acceptance heard on it before (`Sync.NoServiceAfterGrace`). Either ends the wedge, and with it the
  bound (`Sync.GoneWasAccepted`): an old row accepted again (`StalePusher.StaleAcceptanceEndsWedge`), or an
  acceptance heard before the refusal and settled after it, with no acceptance in between
  (`FreshPushers.LateClearingEndsWedge`).
- Delegated budgets narrow hop by hop only: a dimension narrows along a chain, whatever the caps, exactly
  when no grant between leaf and root omits it (`Budgets.NarrowsExactlyWhenNamed`), and
  `Budgets.AcceptedAboveRoot` is an accepted walk whose leaf may make ten times its root's requests.
- An aggregate record refused locally, or one whose append raises, takes its reads with it
  (`Aggregation.FlushedIsEverything`).
- With more than 16 sample slots a full window's latest hash is cut off (`Windows.EndsAreSampled`).

## Model

| member | source | states |
|---|---|---|
| `AtMostOnce.ApprovalForwardsAtMostOnce` | gateway/src/stozher_gateway/enforce.py:1124-1217 | In every run of every interleaving of threads, processes and crashes, two forwarded calls never went ahead on one approval's request hash |
| `Calls.EveryForwardFits` | gateway/src/stozher_gateway/enforce.py:188-321 | Every forward of every run carries an authorization whose request has the call's own subject, key, component, mandate reference, policy version, class, action, target and arguments hash exactly when the call is gated, and a write-ahead record exactly when it is not an ungated read |
| `Calls.GatedForwardIsEarned` | gateway/src/stozher_gateway/enforce.py:1124-1217 | Every forward of a gated call went ahead on an authorization whose request hash that very call had claimed: a decision of `approve` for that request, signed by someone listed among the approvers policy names for the call who is not the one that asked, and in force when it was checked |
| `Calls.UnfoldedForwardIsAccounted` | gateway/src/stozher_gateway/enforce.py:255-321 | In every orderly run, every forward of a call that is gated or not of class `read` has a write-ahead record of its own, open with no envelope or closed by exactly one |
| `Calls.RunKeepsInv` | gateway/src/stozher_gateway/enforce.py:188-321 | Every reachable state: each thread has done what its call asks so far, each claim was checked under its call's approvers, each forward fits its call |
| `AtMostOnce.ForwardIsEarned` | gateway/src/stozher_gateway/enforce.py:1124-1217 | A forward that carries an authorization was made by the thread that won the claim on its request, on a decision that passed the check under the claim's approvers; `Calls.GatedForwardIsEarned` says which forwards carry one and whose approvers those are |
| `AtMostOnce.RunKeepsInv` | gateway/src/stozher_gateway/store.py:860-882 | Every reachable state: claims are the replay table, each claim's decision passed its check, each thread past its claim owns it, each caller forwards once |
| `AtMostOnce.StepKeepsInv` | gateway/src/stozher_gateway/enforce.py:188-321 | One step of any thread, of the world, or a crash keeps that |
| `AtMostOnce.CheckWithoutReplay` | gateway/src/stozher_gateway/gate.py:108-213 | A check that passes against a replay set passes without one |
| `Accounts.OpenOrClosedOnce` | gateway/src/stozher_gateway/enforce.py:255-359 | With no overlapping sessions of one stream and key, every write-ahead record of every reachable state is either open with no closing envelope or closed by exactly one |
| `Accounts.ForwardedIsAccounted` | gateway/src/stozher_gateway/enforce.py:255-321 | A forward that carries a write-ahead id has that record, written by its own caller, open with no envelope or closed by exactly one; `Calls.UnfoldedForwardIsAccounted` says which forwards carry one |
| `Accounts.ClosedOnceExactlyWhenOpen` | gateway/src/stozher_gateway/store.py:298-320 | In any run whatever, a step that closes a record leaves it closed by exactly one envelope exactly when it was still open, the test the closing update does not make |
| `Accounts.RunKeepsForwardsWritten` | gateway/src/stozher_gateway/enforce.py:255-268 | A forward's write-ahead record was written by its own caller, and a forward without one carries no authorization |
| `Accounts.ApprovalCitedAtMostOnce` | gateway/src/stozher_gateway/enforce.py:323-359 | In every orderly run, an approving request hash is cited by at most one chained envelope |
| `Accounts.CitedByClaimant` | gateway/src/stozher_gateway/enforce.py:1442-1495 | An envelope that cites an approval closes the write-ahead record of the caller that claimed it, or is the seed's own |
| `Citations.StepKeepsOwners` | gateway/src/stozher_gateway/store.py:422-444 | Each write-ahead record belongs to the one caller that wrote it |
| `Citations.StepKeepsProvenance` | gateway/src/stozher_gateway/enforce.py:1410-1495 | Every record and envelope cites only what its caller claimed, or a denial |
| `Closings.RecoveriesAreDisjoint` | gateway/src/stozher_gateway/enforce.py:323-359 | Two recovering sessions never share a write-ahead record, unless sessions of one stream and key overlap |
| `Outcomes.ClosedAsItWent` | gateway/src/stozher_gateway/enforce.py:255-352 | In every run an envelope that closes a write-ahead record says `applied` only if a call was forwarded with that record and came back, `failed` only if one was and raised, and `attempted` otherwise |
| `Outcomes.CitedAsItWent` | gateway/src/stozher_gateway/enforce.py:1157-1182 | Any other envelope with an authorization is a seed's, `applied`, or a denial's, `denied` |
| `Outcomes.WrittenAsAttempted` | gateway/src/stozher_gateway/enforce.py:1339-1371 | Every write-ahead record says `attempted` |
| `Overlap.OverlapDoubles` | gateway/src/stozher_gateway/store.py:310-319 | A concrete run with two overlapping sessions chains two envelopes for one forwarded call, both closing its one record |
| `Overlap.OverlapCitesTwice` | gateway/src/stozher_gateway/enforce.py:323-359 | Under an overlap, for every approval that passes its check a run exists in which one forwarded call's approval is cited by two envelopes |
| `Overlap.SomeApprovalPasses` | gateway/src/stozher_gateway/gate.py:108-213 | There are such approvals, whatever the hash function |
| `Recorded.ApprovedIsRecorded` | gateway/src/stozher_gateway/enforce.py:1356-1369 | Every envelope chained for an approved call, whether applied, failed or recovered as attempted, agrees with the signed request on subject, key, component, mandate reference, policy version, class, action, target and arguments hash |
| `Recorded.KernelAnswers` | kernel/stozher-core/src/gate.rs:78-275 | Whatever approvers the kernel knows, its answer for such an envelope depends only on whom they place the signature with, on when the envelope was emitted, and on whether the approval was spent before |
| `Recorded.KernelAnswersAlike` | kernel/stozher-core/src/gate.rs:78-275 | Where both find the same approver for the signing key, only emission and replay are left to decide |
| `Recorded.ClaimedCheckPredicts` | gateway/src/stozher_gateway/enforce.py:1135-1151 | The claim's passed check carries over to every envelope that cites it, whatever approvers the kernel knows |
| `OneQuestion.NeverAskedTwice` | gateway/src/stozher_gateway/store.py:535-554 | No reachable state holds two undecided, unconsumed, still-answerable requests with the same nine identity members, however many processes park at once |
| `OneQuestion.StepKeepsInv` | gateway/src/stozher_gateway/store.py:160-177 | Each step keeps at most one open question per call |
| `Streams.EveryStreamVerifies` | gateway/src/stozher_gateway/store.py:269-320 | In every reachable store each non-empty stream is a range both verifiers accept from position 0, with the last stored id as head and the number of rows as count |
| `Streams.StepsAppend` | gateway/src/stozher_gateway/emitter.py:137-170 | A step changes the envelope table by appending at most one row, at its stream's head |
| `Streams.AppendKeeps` | gateway/src/stozher_gateway/store.py:298-309 | An append at the head keeps every stream linked |
| `Frames.IntentsOnlyGrow` | gateway/src/stozher_gateway/store.py:422-451 | A write-ahead record is written once, by a thread about to act, and afterwards only ever closed |
| `Frames.MovesFollow` | gateway/src/stozher_gateway/enforce.py:188-321 | A thread that lives through a step stands where it stood or one move further along the control flow of a call |
| `Frames.OthersStand` | gateway/src/stozher_gateway/enforce.py:188-321 | A step moves no thread but its own |
| `Frames.ClaimsOnlyGrow` | gateway/src/stozher_gateway/store.py:860-882 | Claims are added on unseen hashes and never change |
| `Frames.SessionsAdvance` | gateway/src/stozher_gateway/enforce.py:93-110 | Sessions open, recover what they read, serve, and never go back |
| `Store.Latest` | gateway/src/stozher_gateway/store.py:298-303 | The row at the highest position of a stream, if the stream has one |
| `Store.OutstandingRow` | gateway/src/stozher_gateway/store.py:160-177 | The oldest unanswered, still answerable request for this call; none exactly when there is none |
| `Store.FirstDecided` | gateway/src/stozher_gateway/store.py:556-580 | A decided, unconsumed request describing exactly this call; none exactly when there is none |
| `Store.ByAge` | gateway/src/stozher_gateway/store.py:573-577 | Ordering by age keeps the rows |
| `Store.ByAgeAscends` | gateway/src/stozher_gateway/store.py:573-577 | The rows come oldest first, and those of one age in the order they were stored |
| `Store.Without` | gateway/src/stozher_gateway/store.py:130-158 | Replacing on the request hash removes that hash's rows and no others |
| `Database.GatewayStore.constructor` | gateway/src/stozher_gateway/store.py:221-235 | A new database is empty |
| `Database.GatewayStore.AppendNext` | gateway/src/stozher_gateway/store.py:269-320 | Take the stream's next position, build, store and close the write-ahead record, or change nothing |
| `Database.GatewayStore.Unpushed` | gateway/src/stozher_gateway/store.py:322-333 | The first unconsumed rows ordered by stream and position, none skipped |
| `Database.GatewayStore.MarkPushed` | gateway/src/stozher_gateway/store.py:335-349 | The rows of one id get this instant and reason and keep their record; every other row and table is as it was |
| `Database.GatewayStore.MarkPushError` | gateway/src/stozher_gateway/store.py:351-355 | The rows of one id get this error, and stay consumed or not as they were, since the update tests nothing; every other row is as it was |
| `Database.GatewayStore.RecordWedge` | gateway/src/stozher_gateway/store.py:375-389 | The stream is wedged afterwards; a wedge already there stands, and no other stream gains or changes one |
| `Database.GatewayStore.ClearWedge` | gateway/src/stozher_gateway/store.py:403-407 | The stream is not wedged afterwards; every other wedge stands |
| `Database.GatewayStore.NoteGraceUse` | gateway/src/stozher_gateway/store.py:409-420 | Count one served call and return the running total |
| `Database.GatewayStore.RecordIntent` | gateway/src/stozher_gateway/store.py:422-444 | Store a write-ahead record; a taken key fails and changes nothing |
| `Database.GatewayStore.OpenIntents` | gateway/src/stozher_gateway/store.py:453-466 | Exactly the open records of one stream and key, each once, oldest first |
| `Database.GatewayStore.ParkUnique` | gateway/src/stozher_gateway/store.py:509-554 | One transaction: the oldest request for the call's nine members that has no decision, is not used and can still be answered is returned and nothing changes; when there is none the new row is held, and only rows of its own hash give way |
| `Database.FindOutstanding` | gateway/src/stozher_gateway/store.py:160-177 | The search loop finds the oldest match |
| `Database.GatewayStore.DecidedFor` | gateway/src/stozher_gateway/store.py:556-580 | The search loop finds the oldest decided, unused request for exactly these nine members; none exactly when there is none |
| `Database.GatewayStore.RecordDecision` | gateway/src/stozher_gateway/store.py:721-732 | The rows of one hash get this decision, used or not as they were; every other row keeps its place and content |
| `Database.GatewayStore.Consume` | gateway/src/stozher_gateway/store.py:700-705 | The rows of one hash are used from this instant, their decision as it was; every other row keeps its place and content |
| `Database.GatewayStore.GateSeen` | gateway/src/stozher_gateway/store.py:846-851 | Whether a request hash was spent |
| `Database.GatewayStore.ClaimGateUse` | gateway/src/stozher_gateway/store.py:860-882 | A compare-and-set: true exactly when the hash was unspent; it is spent afterwards, and no earlier claim changes |
| `Deployment.Deployment.Locate` | gateway/src/stozher_gateway/enforce.py:766-773 | Look for the oldest answer to the call's nine members; the thread moves to it, or on to parking when there is none |
| `Deployment.Deployment.Park` | gateway/src/stozher_gateway/enforce.py:773-801 | End the call with its request parked, or with the oldest request already waiting for the same nine members |
| `Deployment.Deployment.Check` | gateway/src/stozher_gateway/enforce.py:1134-1155 | Pass exactly a good approval: of this request, by a listed approver who is not the one that asked, in force now, and unspent or reusable; answer denied exactly for a reasoned denial by such a one |
| `Deployment.Deployment.Claim` | gateway/src/stozher_gateway/enforce.py:1200-1206 | Claim, and hold the claim or know that another does |
| `Deployment.Deployment.Spend` | gateway/src/stozher_gateway/enforce.py:1206-1217 | Mark the row used on every outcome of the check and the claim |
| `Deployment.Deployment.Deny` | gateway/src/stozher_gateway/enforce.py:1157-1182 | At most one row more, of this call's members, denied under its own authorization; no write-ahead record changes, and the call ends |
| `Deployment.Deployment.WriteAhead` | gateway/src/stozher_gateway/enforce.py:1339-1371 | Store one new open record of the call's own members and authorization, as attempted, before the effect; or end the call |
| `Deployment.Deployment.Forward` | gateway/src/stozher_gateway/enforce.py:269-273 | The call reaches the downstream and comes back, raises or is refused there |
| `Deployment.Deployment.Record` | gateway/src/stozher_gateway/enforce.py:273-321 | Chain one row of the call's members and authorization, failed exactly if the call raised and applied otherwise, closing its write-ahead record in the same transaction |
| `Deployment.Deployment.Recover` | gateway/src/stozher_gateway/enforce.py:332-352 | Chain one open record with the outcome, members and authorization it was written with, restamped, and close it; or nothing |
| `Deployment.Deployment.ReadOpen` | gateway/src/stozher_gateway/enforce.py:323-333 | A session reads exactly what is open for it |
| `Deployment.Deployment.Seed` | gateway/src/stozher_gateway/enforce.py:1219-1273 | A catalog seed goes on exactly when its own decision is a good approval of it; otherwise nothing changes |
| `Deployment.Deployment.SeedRecord` | gateway/src/stozher_gateway/enforce.py:1283-1322 | At most one row more, applied under the seed's own authorization, and the seed ends |
| `Deployment.Deployment.Take` | gateway/src/stozher_gateway/store.py:237-264 | One step of an arbitrary scheduler, performed on the database, is one step of the state machine |
| `Enforcer.Enforcer.Submit` | gateway/src/stozher_gateway/enforce.py:188-321 | A governed call reaches the downstream once or not at all; gated, on an approval of its own nine members; and an answer of success means the chain ends in an applied record of those members under that approval |
| `Enforcer.Enforcer.Gate` | gateway/src/stozher_gateway/enforce.py:725-872 | Go ahead on an approval of exactly this call's nine members, or stop without forwarding: awaiting an answer exactly when no request held answers the call, and denied or blocked otherwise |
| `Enforcer.Enforcer.Consume` | gateway/src/stozher_gateway/enforce.py:1124-1217 | Go ahead only on a good approval, whose claim is won; answer denied only for a reasoned denial by someone who may decide; any failure ends the call unforwarded |
| `Enforcer.Enforcer.Refuse` | gateway/src/stozher_gateway/enforce.py:1152-1191 | A decision that does not authorize ends the call: denied, or blocked with the check's own code |
| `Enforcer.Enforcer.Perform` | gateway/src/stozher_gateway/enforce.py:255-321 | Write ahead, forward, record; every answer says whether the effect happened and how it came back, and one whose record could not be stored never happens |
| `Enforcer.Enforcer.RecoverIntents` | gateway/src/stozher_gateway/enforce.py:323-359 | After recovery, what is open for the session is exactly what could not be chained; every other record has one row more, as attempted, with the members and authorization it was written with, stamped when it was chained |
| `Enforcer.Enforcer.Others` | gateway/src/stozher_gateway/store.py:237-264 | Arbitrary steps of others leave a thread where it stood, or dead |
| `Enforcer.OneLessOpen` | gateway/src/stozher_gateway/store.py:310-319 | Closing one open record leaves the others open and only them |
| `Enforcer.ForeignUndisturbed` | gateway/src/stozher_gateway/store.py:237-264 | A step of another thread, or a crash, forwards nothing for this one |
| `Gate.WindowIsChronological` | kernel/stozher-core/src/gate.rs:201-235 | The window comparisons on text decide exactly the order of the instants |
| `Gate.BoundIsNine` | gateway/src/stozher_gateway/gate.py:188-202 | What an approval binds is subject, key, component, mandate reference, policy version, class, action, target and arguments hash, and each of them |
| `Gate.CheckBound` | kernel/stozher-core/src/gate.rs:237-251 | The loop over the bound members passes exactly when those nine read alike, and names one that does not |
| `Gate.EqualBindingAgrees` | gateway/src/stozher_gateway/gate.py:188-202 | When the gateway's comparison of values and the kernel's of text decide alike |
| `Gate.StandingAgrees` | kernel/stozher-core/src/gate.rs:110-200 | Both implementations stand behind exactly the same decisions |
| `GateRules.LocalPassesExactly` | gateway/src/stozher_gateway/gate.py:108-213 | The gateway passes an authorization exactly when its decision is of this request's hash, signed by a listed approver who neither is nor acts for the one that asked, says `approve`, was given while the request was open and is in force at that instant on the calendar, is reusable by its own word or unspent, and the nine members performed are the request's |
| `GateRules.KernelPassesExactly` | kernel/stozher-core/src/gate.rs:78-275 | The kernel passes exactly such a decision for an envelope whose nine members read alike |
| `GateRules.LocalGoesByRules` | gateway/src/stozher_gateway/gate.py:108-213 | The gateway's answer to every request and decision, refusals by code and in order, written on the members |
| `GateRules.KernelGoesByRules` | kernel/stozher-core/src/gate.rs:78-275 | And the kernel's |
| `GateRules.WithoutAuthorization` | kernel/stozher-core/src/gate.rs:78-108 | With no authorization, or half of one, each check answers by whether the gate is required |
| `GateRules.DeniedExactly` | gateway/src/stozher_gateway/gate.py:108-213 | A denial reads as one exactly when whoever may decide denied this very request and gave a reason |
| `GateRules.GrantPassesExactly` | gateway/src/stozher_gateway/enforce.py:1134-1155 | The check of a parked or catalog decision passes exactly a good approval of its own request |
| `Gate.LocalNeverLaxer` | gateway/src/stozher_gateway/gate.py:108-213 | What the local check passes the kernel's passes with the same approval; the converse fails on exactly one ground |
| `Gate.LocalCheckPredictsKernel` | kernel/stozher-core/src/gate.rs:78-275 | After a local check, the kernel's answer for the emitted envelope depends only on whom its own approvers place the signature with, on the emission instant, and on replay |
| `Gate.SameApproverSameFault` | kernel/stozher-core/src/gate.rs:110-200 | Two lists of approvers that find the same one for a key fault it alike |
| `Gate.FindApprover` | gateway/src/stozher_gateway/gate.py:108-213 | The first approver with a key; none exactly when none has it |
| `Calendar.LexOrderIsChronological` | kernel/stozher-core/src/envelope.rs:636-702 | For all accepted timestamps, order as text is order of instants on the Gregorian calendar, and distinct strings denote distinct instants |
| `Calendar.EveryInstantIsSpelled` | kernel/stozher-core/src/envelope.rs:636-702 | Every millisecond of the years 1 to 9999 is denoted by an accepted timestamp |
| `Calendar.RenderedIsRead` | kernel/stozher-core/src/envelope.rs:636-683 | A rendered date and time is accepted and reads back as itself |
| `Calendar.NextDayIsNextNumber` | kernel/stozher-core/src/envelope.rs:689-703 | The day number counts calendar days one by one, leap years included |
| `Calendar.DateOfNumber` | kernel/stozher-core/src/envelope.rs:689-703 | Every day number is the number of a date |
| `Calendar.DaysByRule` | kernel/stozher-core/src/envelope.rs:689-703 | The days before a year are 365 for each year past, one more for every fourth, one less for every hundredth, and one more for every four hundredth |
| `Chain.VerifyPython` | gateway/src/stozher_gateway/chain.py:40-77 | Accepts exactly the ranges in which every record is sound and well placed; otherwise reports the first fault |
| `Chain.VerifyRust` | kernel/stozher-core/src/chain.rs:34-128 | Likewise; the branch for a missing previous hash is unreachable |
| `Chain.VerifiersAgree` | kernel/stozher-core/src/chain.rs:39-128 | Same verdict, report and (but for a malformed signature member) code on every list of records; same failing position exactly when its `seq` reads alike in both |
| `Chain.MissingPositionReadsApart` | gateway/src/stozher_gateway/chain.py:44-77 | An instance where the failing positions differ |
| `Chain.VerdictMeansAccepts` | kernel/stozher-core/src/chain.rs:34-128 | The first-fault report is acceptance of every record |
| `Chain.AcceptedReport` | gateway/src/stozher_gateway/chain.py:29-77 | Head, count and anchor of an accepted range |
| `Chain.SameHeadSameRange` | kernel/stozher-core/src/chain.rs:34-128 | Two accepted ranges from position 0 with one head are identical, or two records collide |
| `Chain.ConcatenationVerifies` | kernel/stozher-core/src/chain.rs:34-128 | A concatenation verifies exactly when its first part does and its second does, anchored at the first part's head at the next position |
| `Chain.VerifyCheckpoint` | kernel/stozher-core/src/chain.rs:157-229 | Accepts exactly what the checkpoint attests; otherwise reports the first of the faults in order |
| `Chain.AttestedEnd` | kernel/stozher-core/src/chain.rs:187-192 | `to-seq` is the last position exactly when the bounds are in order |
| `Chain.InvertedBoundsAttest` | kernel/stozher-core/src/chain.rs:187-192 | A checkpoint with inverted bounds that verifies |
| `AnyPushers.RunKeepsPrefix` | gateway/src/stozher_gateway/emitter.py:238-365 | With any number of pushers, appends and calls between any two transactions and crashes anywhere: ids are unique, the consumed rows of a stream are a prefix of it, and a wedge names a consumed row of its stream |
| `AnyPushers.StepGrows` | gateway/src/stozher_gateway/store.py:335-355 | No step of any pusher moves a row, changes its record, or makes a consumed row unconsumed |
| `AnyPushers.RunGrows` | gateway/src/stozher_gateway/store.py:335-355 | Nor does any run |
| `AnyPushers.WedgeStands` | gateway/src/stozher_gateway/store.py:375-407 | From any state on, whatever any number of pushers do and however they crash, a wedge keeps its reason and the instant of the first refusal over steps in which the kernel accepts nothing on its stream and nobody settles an acceptance heard on it before |
| `OnePusher.TurnsKeepInv` | gateway/src/stozher_gateway/emitter.py:238-365 | While pushers take turns, with appends and calls between any two transactions, whenever none is between its two: consumed rows are a prefix of their stream, a wedge sits exactly on the last consumed row, and no two refused rows are adjacent |
| `OnePusher.StepKeepsInv` | gateway/src/stozher_gateway/emitter.py:238-365 | Each single transaction keeps that the cycle at work can finish consistently |
| `OnePusher.HearIsPushOne` | gateway/src/stozher_gateway/emitter.py:288-350 | The answer to a row and the transaction that follows are one row of the cycle |
| `OnePusher.TurnsKeepRefusals` | gateway/src/stozher_gateway/store.py:335-355 | While pushers take turns a recorded refusal reason is never erased |
| `Transactions.SettledExactly` | gateway/src/stozher_gateway/emitter.py:238-365 | With nobody between two transactions, consistency up to what pushers are still to do is consistency of the store, no more and no less |
| `Marking.HearKeepsExactly` | gateway/src/stozher_gateway/store.py:335-355 | Among any number of pushers, the transaction after the kernel's answer keeps the store consistent, and every consumed row as it is, exactly when it leaves the row alone, or the row is not yet consumed and, where it is refused, its stream is unwedged and the row before it was not refused, or the row reads so already: same instant and reason, or same error |
| `Settling.SettleKeepsExactly` | gateway/src/stozher_gateway/store.py:375-407 | Clearing a wedge keeps that exactly when the wedge is gone, sits before the stream's last consumed row, or somebody is about to record it again; recording one exactly when a wedge stands already, the refused row is still the last consumed, or the last one was accepted and somebody is still to clear past the refused row |
| `Transactions.CrashKeepsExactly` | gateway/src/stozher_gateway/emitter.py:293-350 | A pusher's death keeps that exactly when it is not between its two transactions, or nobody needs its second |
| `GuardedPushers.StepKeeps` | gateway/src/stozher_gateway/emitter.py:288-350 | With each transaction making its test on the tables and its own row, every step of every pusher but a death midway keeps the store consistent up to what pushers are still to do |
| `GuardedPushers.GuardedRunKeepsInv` | gateway/src/stozher_gateway/emitter.py:238-365 | So in every run of that machine in which no pusher dies midway, with any number of them, whenever nobody is midway: consumed rows are a prefix of their stream, a wedge sits exactly on the last consumed row, and no two refused rows are adjacent |
| `GuardedPushers.GuardedRunIsFirm` | gateway/src/stozher_gateway/emitter.py:238-365 | With crashes anywhere, no two refused rows are adjacent and every wedge, recorded or in hand, sits on a row refused with its reason |
| `GuardedPushers.GuardedRunRewritesNothing` | gateway/src/stozher_gateway/store.py:335-355 | With crashes anywhere, a row once consumed reads forever as it did |
| `FreshPushers.LateClearingEndsWedge` | gateway/src/stozher_gateway/emitter.py:297-298 | A run of two pushers with fresh batches, every mark passing its test: a late clearing takes a later refusal's wedge though the kernel accepted nothing since |
| `FreshPushers.LateWedgeStandsBehind` | gateway/src/stozher_gateway/emitter.py:348-349 | And one in which a late wedge stands behind an accepted row |
| `FreshPushers.RefusedSideBySide` | gateway/src/stozher_gateway/emitter.py:348-349 | And one in which two adjacent rows are refused, which no second transaction undoes |
| `StalePusher.StaleAcceptanceEndsWedge` | gateway/src/stozher_gateway/emitter.py:293-299 | A concrete run of two pushers: an old row accepted again clears the wedge of a later row's refusal |
| `StalePusher.StaleErrorUnmakesAcceptance` | gateway/src/stozher_gateway/emitter.py:290-292 | And one in which an unreachable kernel makes an accepted row read as refused |
| `StalePusher.StaleErrorErasesReason` | gateway/src/stozher_gateway/store.py:351-355 | And one in which it erases a recorded refusal reason |
| `Push.AcceptingKeepsInv` | gateway/src/stozher_gateway/emitter.py:293-299 | Accepting the next row of a stream keeps the store consistent, wedged stream or not |
| `Push.RefusingKeepsInv` | gateway/src/stozher_gateway/emitter.py:348-350 | So does refusing the next row of an unwedged stream |
| `Push.CrashAfterRefusal` | gateway/src/stozher_gateway/emitter.py:348-349 | A crash between the two transactions of a refusal leaves an unwedged refused stream |
| `Push.CrashAfterAcceptance` | gateway/src/stozher_gateway/emitter.py:294-299 | A crash between the two transactions of an acceptance is harmless exactly when the stream was not wedged |
| `Push.BatchIsLined` | gateway/src/stozher_gateway/store.py:322-333 | Each stream's rows of a batch are the next it has to push, in order |
| `PushCycle.Pushes.PushPending` | gateway/src/stozher_gateway/emitter.py:238-365 | The loop over a batch, with arbitrary steps of others after each transaction, is a run of the machine and returns how many acceptances it heard; while nobody else pushes it leaves the store consistent |
| `PushCycle.Pushes.PushRow` | gateway/src/stozher_gateway/emitter.py:253-350 | One row: a held stream is passed over, an answer that judges nothing ends the cycle, a refusal holds the stream |
| `PushDeployment.Pushing.Take` | gateway/src/stozher_gateway/store.py:237-264 | One transaction of an arbitrary pusher, performed on the database, is one step of the machine |
| `Emitter.Emitter.EmitWindow` | gateway/src/stozher_gateway/emitter.py:213-234 | Seal a window and chain a record that carries its own counts, or lose it; the key is always at hand |
| `Sync.ServedExactly` | gateway/src/stozher_gateway/sync.py:71-101 | From a wedge on, over steps in which the kernel accepts nothing on the stream and nobody settles an acceptance heard on it before, a call is served exactly when the first refusal's reason leaves grace, the call's class may use it and the window from the first refusal has not run out, and otherwise refused with that refusal's reason |
| `Sync.DecidesByStanding` | gateway/src/stozher_gateway/sync.py:71-101 | What is served when the kernel accepted, could not be reached, or refused: after a refusal only for a reason that is neither a mandate's nor an unpublished policy, a class that is neither consequential nor prohibited, and within the window, as a finding |
| `Sync.NoServiceAfterGrace` | gateway/src/stozher_gateway/sync.py:71-101 | Over such steps no call decided at or after the first refusal plus the grace window is served, whatever any number of pushers, refusals and crashes lie between |
| `Sync.GraceIsCounted` | gateway/src/stozher_gateway/enforce.py:602-628 | Over such steps the wedge's count grows by the calls served, and the first refusal leaves grace for each of them |
| `Sync.GoneWasAccepted` | gateway/src/stozher_gateway/emitter.py:293-299 | A wedge that is gone went by an acceptance heard on its stream since, or by the settling of one heard before |
| `Windows.EndsAreSampled` | gateway/src/stozher_gateway/emitter.py:60-68 | Exactly when the first and the latest read of a window are among its samples |
| `Windows.Counts` | gateway/src/stozher_gateway/emitter.py:60-62 | Each action with the number of its reads |
| `Windows.CountsAddUp` | gateway/src/stozher_gateway/emitter.py:56-58 | The counts add up to the reads, over no more actions than reads |
| `Windows.ValidateAggregate` | kernel/stozher-core/src/envelope.rs:501-567 | The kernel accepts exactly the well-formed aggregates |
| `Windows.Aggregated` | gateway/src/stozher_gateway/envelope.py:312-342 | The gateway accepts exactly those whose hashes and instants are also well-formed |
| `Windows.SumCounts` | kernel/stozher-core/src/envelope.rs:532-549 | The accumulating loop: the exact sum, or the first ill-typed or negative count |
| `Windows.SealedIsSound` | gateway/src/stozher_gateway/emitter.py:217-230 | A sealed window is well-formed exactly when it names at most 1024 actions |
| `Windows.BoundedWindowsPass` | gateway/src/stozher_gateway/emitter.py:172-191 | All windows of at most `max` reads pass exactly when `max` is at most 1024 |
| `Aggregation.RunConserves` | gateway/src/stozher_gateway/emitter.py:172-234 | In every interleaving of folding, closing and emitting, each read of each key and action is counted exactly once, in an open, a closing, a chained or a lost window |
| `Aggregation.FlushedIsEverything` | gateway/src/stozher_gateway/emitter.py:205-234 | Once all is flushed, chained records and lost windows account for exactly the reads folded, and the records alone do for a key and action exactly when no lost window held one |
| `Aggregation.NothingLost` | gateway/src/stozher_gateway/emitter.py:231-234 | Nothing is lost where every record is chained |
| `Aggregation.EmittedIsSound` | gateway/src/stozher_gateway/emitter.py:213-234 | With `max_events` at most 1024 every record any run emits passes the aggregate rules |
| `Aggregation.ClaimsAreCounts` | gateway/src/stozher_gateway/emitter.py:217-230 | What records claim is what their windows counted |
| `Folder.ReadFolder.Fold` | gateway/src/stozher_gateway/emitter.py:172-191 | The locked part of folding: count, and take the window out when it is full |
| `Folder.ReadFolder.CloseExpired` | gateway/src/stozher_gateway/emitter.py:193-203 | Take out exactly the windows opened no later than the deadline |
| `Folder.ReadFolder.TakeAll` | gateway/src/stozher_gateway/emitter.py:205-209 | Take out every window |
| `Folder.ReadFolder.Retire` | gateway/src/stozher_gateway/emitter.py:213-234 | One window taken out is chained or lost, and no other is touched |
| `Folder.ReadFolder.Flush` | gateway/src/stozher_gateway/emitter.py:205-234 | After it nothing is open, and chained records and lost windows account for exactly the reads folded, whichever appends fail |
| `Folder.Add` | gateway/src/stozher_gateway/emitter.py:60-68 | Counting and sampling one read keeps the window's fields those of its reads |
| `Folder.Total` | gateway/src/stozher_gateway/emitter.py:56-58 | The sum of the counts |
| `Folder.Body` | gateway/src/stozher_gateway/emitter.py:217-230 | The record a window is sealed into |
| `Numbers.PrintersAgree` | spec/vectors/generate_vectors.py:131-167 | For every literal of a positive number the gateway's printer and the generator's give the same characters |
| `Numbers.NumberReadsBack` | gateway/src/stozher_gateway/canonical.py:237-259 | Every layout of Number::toString reads back as the same digits and exponent |
| `Numbers.PowerIsSigned` | gateway/src/stozher_gateway/canonical.py:237-259 | A power of ten is written with its sign, a plus too, and no zero in front |
| `Numbers.LargeLayoutsMeet` | gateway/src/stozher_gateway/canonical.py:237-259 | 10 to the 20 is written out, 10 to the 21 is `1e+21` |
| `Numbers.SmallLayoutsMeet` | gateway/src/stozher_gateway/canonical.py:237-259 | 0.000001 is written out, the next smaller power is `1e-7` |
| `Numbers.PrintedReadsBack` | gateway/src/stozher_gateway/canonical.py:237-272 | So does the output of either printer |
| `Numbers.ShortestIsTheNumber` | gateway/src/stozher_gateway/canonical.py:262-272 | The normal form is the literal's digits without the zeros around them, the exponent accounting for each |
| `Numbers.NormalFormOf` | gateway/src/stozher_gateway/canonical.py:262-272 | A literal with these digits between zeros has them as its normal form |
| `Json.NameOrderIsTotal` | kernel/stozher-core/src/jcs.rs:159-168 | Of two different member names exactly one comes first |
| `Json.OctetOrderIsUnitOrder` | gateway/src/stozher_gateway/canonical.py:208-209 | Sorting by UTF-16-BE octets sorts by code units |
| `Json.UnitsDetermine` | kernel/stozher-core/src/jcs.rs:166-168 | A name is determined by its code units |
| `Json.NameOrderAgainstCodePoints` | kernel/stozher-core/src/jcs.rs:6-9 | Exactly where the order of names differs from the order of code points |
| `Sorting.SortOrders` | kernel/stozher-core/src/jcs.rs:159-163 | Sorting puts distinct names in strict order |
| `Sorting.OrderIsUnique` | kernel/stozher-core/src/jcs.rs:159-163 | Members in order are determined by which members there are |
| `Sorting.SameMeaningSameOrder` | gateway/src/stozher_gateway/canonical.py:206-215 | Values that mean the same have one ordered form, however their members were inserted |
| `Sorting.OrderedMeansTheSame` | gateway/src/stozher_gateway/canonical.py:206-215 | Ordering members changes no meaning |
| `Sorting.SortCommutes` | gateway/src/stozher_gateway/canonical.py:206-215 | Sorting by name and then writing values in order is ordering the value |
| `Writer.Writer.Write` | gateway/src/stozher_gateway/canonical.py:175-219 | Appends exactly the canonical form; refuses exactly when some number is not finite |
| `Canonical.EscapeIsWritten` | gateway/src/stozher_gateway/canonical.py:44-52 | Seven characters are escaped by name, the other controls as `\u00` and two lower-case digits, the rest stand as they are |
| `Writer.Writer.WriteString` | kernel/stozher-core/src/jcs.rs:171-191 | Appends, between quotes, each character's escape by that table, one after the other |
| `Writer.Writer.WriteNumber` | gateway/src/stozher_gateway/canonical.py:237-259 | Appends the number's text; -0 is 0 |
| `Writer.Writer.WriteList` | kernel/stozher-core/src/jcs.rs:132-141 | The loop over items appends the list's canonical form |
| `Writer.Writer.WriteObject` | kernel/stozher-core/src/jcs.rs:142-153 | The loop over sorted names appends the object's canonical form |
| `Reader.PrintReads` | gateway/src/stozher_gateway/canonical.py:175-259 | A reader inverts the printer on every value |
| `Reader.CanonReads` | gateway/src/stozher_gateway/canonical.py:125-141 | The canonical form reads back as a value that means the same |
| `Reader.CanonIsMeaning` | kernel/stozher-core/src/jcs.rs:125-191 | Two canonical forms are equal exactly when the values mean the same: insertion order never matters and nothing is confused |
| `Reader.HashBindsMeaning` | gateway/src/stozher_gateway/canonical.py:154-156 | One object hash for two meanings is a collision of the digest |
| `Reader.StringReads` | kernel/stozher-core/src/jcs.rs:171-191 | Escaped strings read back |
| `Reader.PiecesRead` | gateway/src/stozher_gateway/canonical.py:175-219 | The pieces of a canonical text are recovered from it |
| `Reader.ValueReads` | gateway/src/stozher_gateway/canonical.py:196-219 | Lists and objects are recovered from their pieces |
| `Reader.TokensSeparated` | gateway/src/stozher_gateway/canonical.py:196-219 | No number is printed right after a number |
| `Surrogates.HasLoneSurrogateEscape` | kernel/stozher-core/src/jcs.rs:53-102 | The scan says yes exactly when some escaped surrogate has no partner beside it: pairing from the left mistakes none |
| `Surrogates.SkipPair` | kernel/stozher-core/src/jcs.rs:82-92 | A paired surrogate changes nothing about the rest |
| `Surrogates.HexAtExactly` | kernel/stozher-core/src/jcs.rs:55-61 | An escape's unit is four hexadecimal digits of either case, or a plus sign and three |
| `Patterns.CoversIsInclusion` | gateway/src/stozher_gateway/mandate.py:176-201 | Covering holds exactly when every value the narrower pattern matches the wider matches |
| `Patterns.PatternMeans` | gateway/src/stozher_gateway/mandate.py:176-183 | A pattern matches everything, its own text, or what goes on after its prefix and a point |
| `Patterns.CoversTransitive` | gateway/src/stozher_gateway/mandate.py:193-201 | Covering is transitive |
| `Patterns.CoversReflexive` | gateway/src/stozher_gateway/mandate.py:193-201 | Covering is reflexive |
| `Patterns.ScopeNarrows` | gateway/src/stozher_gateway/mandate.py:186-190 | A delegated scope permits nothing its parent does not |
| `Patterns.ScopeSubsetOrder` | gateway/src/stozher_gateway/mandate.py:186-190 | Narrowing of whole scopes is reflexive and transitive |
| `Mandate.VerifyMandateChain` | gateway/src/stozher_gateway/mandate.py:47-114 | The answer is the walk's, under the earliest valid revocation of each mandate |
| `Mandate.FollowMandates` | gateway/src/stozher_gateway/mandate.py:71-114 | The loop follows the walk and ends on any map of mandates, cyclic ones included |
| `Mandate.EarliestIsUnique` | gateway/src/stozher_gateway/mandate.py:147-159 | The revocations settle the instants |
| `Mandate.AcceptedExactlyWithChain` | gateway/src/stozher_gateway/mandate.py:71-114 | Accepts exactly when a chain of valid delegations leads to an enrolled human within the hop limit, and names that human |
| `MandateRules.AcceptedExactlyWhenLawful` | gateway/src/stozher_gateway/mandate.py:71-144 | Accepts exactly when a chain exists in which every grant is signed by its grantor, to somebody else, unexpired, unrevoked and in scope; every hop is an agent's delegation of what it holds, with fewer hops, narrower scope, window and caps; and the last is a human's whose key is enrolled; and names that human, key and depth |
| `MandateRules.GrantRefusedInOrder` | gateway/src/stozher_gateway/mandate.py:117-144 | What is answered of a grant by itself, by code and in order |
| `MandateRules.HopRefusedInOrder` | gateway/src/stozher_gateway/mandate.py:95-112 | What is answered of a hop, by code and in order |
| `MandateRules.CapRefused` | gateway/src/stozher_gateway/mandate.py:211-234 | A cap is called wider exactly when both are comparable and the child's is more; anything else refused is a type error |
| `Mandate.LeafSuffices` | gateway/src/stozher_gateway/mandate.py:71-144 | Accepted once, a leaf is accepted with the same root and depth for everything its own scope permits, at every instant of its own window at which no member is revoked |
| `Mandate.LeafIsNecessary` | gateway/src/stozher_gateway/mandate.py:117-144 | And for nothing outside its own scope and window, nor once revoked |
| `Mandate.DepthWithinRoot` | gateway/src/stozher_gateway/mandate.py:103-112 | A depth of one or more never exceeds the root's hop budget nor the limit |
| `Mandate.RevocationInstants` | gateway/src/stozher_gateway/mandate.py:147-159 | The earliest valid revocation of each mandate, and no other |
| `Mandate.WindowCarries` | gateway/src/stozher_gateway/mandate.py:107-108 | A leaf's window lies within every window of its chain |
| `Mandate.BudgetsWithin` | gateway/src/stozher_gateway/mandate.py:204-234 | A delegation's budget passes exactly when every dimension both name passes |
| `Mandate.CapNarrows` | gateway/src/stozher_gateway/mandate.py:211-234 | One cap passes exactly when both are amounts, or integers, and the child's is at most the parent's |
| `Budgets.CapsNarrow` | gateway/src/stozher_gateway/mandate.py:204-234 | Along a chain whose every grant names a dimension the leaf's cap is within every cap above it |
| `Budgets.NarrowsExactlyWhenNamed` | gateway/src/stozher_gateway/mandate.py:204-234 | Every budgeting of a chain that is still a chain and names the dimension at both ends keeps the leaf within the root exactly when no grant between them omits the dimension |
| `Budgets.OmittedCapLeavesOpen` | gateway/src/stozher_gateway/mandate.py:208-210 | For every chain with a grant between the ends that omits the dimension, budgets exist with which it is still a chain and the leaf exceeds the root |
| `Budgets.AcceptedAboveRoot` | gateway/src/stozher_gateway/mandate.py:71-114 | A concrete walk is accepted although its leaf's budget exceeds its root's |
| `Policy.ScoreIsMatch` | gateway/src/stozher_gateway/policy.py:32-51 | A policy dimension scores exactly where the mandate pattern matches |
| `Policy.ScoresExactly` | gateway/src/stozher_gateway/policy.py:32-51 | It scores two for the value itself, one for a prefix of it, and nothing for `*` or an absent dimension |
| `Policy.EntryScoresExactly` | gateway/src/stozher_gateway/policy.py:130-146 | An entry matches when all three dimensions do, and scores their sum |
| `Policy.StrongerExactly` | gateway/src/stozher_gateway/policy.py:27-29 | Prohibited is stronger than consequential, that than benign, that than read, and an unknown class than all |
| `Policy.FallsBackExactly` | gateway/src/stozher_gateway/policy.py:147-171 | Where no entry speaks: the published action, then the manifest's class, then a catalog's where it is stronger than the default |
| `Policy.Classify` | gateway/src/stozher_gateway/policy.py:130-171 | The loop returns the earliest entry of maximal specificity, or else the fallback |
| `Policy.ClassifiesOnce` | gateway/src/stozher_gateway/policy.py:130-171 | There is exactly one such class |
| `Policy.NamedIgnoresProposals` | gateway/src/stozher_gateway/policy.py:173-195 | `names` holds exactly when the class ignores both manifest and catalog proposals |
| `Policy.CatalogNeverWeakens` | gateway/src/stozher_gateway/policy.py:148-171 | A catalog proposal never yields a weaker class than its absence |
| `Policy.DecisionFor` | gateway/src/stozher_gateway/policy.py:199-221 | The first rule that applies decides; with none, a denial |
| `Policy.AppliesExactly` | gateway/src/stozher_gateway/policy.py:199-221 | A rule applies to the classes it lists, and to every action unless it lists some, and then to those one of its patterns matches |
| `Policy.AskingWithoutAction` | gateway/src/stozher_gateway/policy.py:199-221 | Asking without an action reaches every rule of the class but one with an empty list of actions |
| `Decimal.PartsReadGrammar` | kernel/stozher-core/src/decimal.rs:47-75 | The split reads exactly `digits [ "." digits ]` of at most 32 characters |
| `Decimal.Compare` | kernel/stozher-core/src/decimal.rs:84-118 | Comparison digit by digit is comparison of the exact amounts |
| `Decimal.AtMost` | kernel/stozher-core/src/decimal.rs:125-127 | At most, decided exactly |
| `Decimal.CompareFractions` | kernel/stozher-core/src/decimal.rs:104-117 | The loop over fraction digits compares the fractions |
| `Decimal.CompareWhole` | kernel/stozher-core/src/decimal.rs:88-102 | Integer parts compare as numbers |
| `Decimal.Add` | kernel/stozher-core/src/decimal.rs:144-194 | The exact sum at the wider scale, refused exactly when it would be longer than 32 characters |
| `Decimal.AddDigits` | kernel/stozher-core/src/decimal.rs:158-174 | The loop with a carry adds the numbers |
| `Decimal.SumIsExact` | kernel/stozher-core/src/decimal.rs:128-144 | The written sum is well-formed, at the wider scale, and denotes the sum of the amounts |
| `Decimal.SplitIsWritten` | kernel/stozher-core/src/decimal.rs:176-187 | Splitting off the decimals and trimming writes the number |
| `Decimal.TrimIsDigits` | kernel/stozher-core/src/decimal.rs:88-93 | A trimmed digit string is the one without leading zeros |
| `Money.PatternIsGrammar` | gateway/src/stozher_gateway/money.py:35-61 | The gateway's pattern accepts the same strings with the same digits |
| `Money.ComparesAmounts` | gateway/src/stozher_gateway/money.py:64-76 | Its comparison is comparison of the amounts |
| `Money.AtMostIsAtMost` | gateway/src/stozher_gateway/money.py:79-85 | Its bound is exact |
| `Money.AddsAlike` | gateway/src/stozher_gateway/money.py:88-113 | It adds to the same string as the kernel, or both refuse |
| `Money.NeverRounds` | gateway/src/stozher_gateway/money.py:103-110 | No sum outgrows the 64-digit context |

## Left out

- SQLite, HTTP, asyncio, MCP, the console, configuration and notifications: each store method is one atomic transaction, and nothing more of them is modelled.
- Ed25519, SHA-256, key derivation: signing is what verification answered, hashing an arbitrary function.
- The kernel's ingest, its own mandate walk and its queue: the kernel is any sequence of answers.
- The first refusals of a call (prohibited, wedged stream, no mandate, stale policy, budget, denied by policy): each only chains a blocked record, which is a step of the state machine; the rules they ask are modelled in `Sync`, `Mandate` and `Policy`.
- A catalog seed runs as a thread of its own, not inside the call that found it; its `catalog_entry` guard is left out, so more seeds are attempted than the code would.
- A seed's envelope is emitted by the session that applies it and may differ from the signed seed request, so `Recorded.ApprovedIsRecorded` speaks of calls.
- `UNIQUE(id)` on envelopes is not a separate check: an append may fail, and in the pushing machine a row is chained only with a new id.
- Enforcement and pushing are two machines over one kind of database: what a call on a wedged stream is told is `Sync.DecideCall`, not a step of enforcement, and of enforcement the pushing machine sees that rows are chained and calls served.
- A refused row's diagnostic scan for envelopes citing the same approval, and all logging.
- Folded reads live in memory and are lost on a crash, so they are outside the write-ahead results.
- An emitted envelope may fall outside the approval's window, because a forward can be slow and recovery restamps; `Recorded.KernelAnswers` says what the kernel then answers.
- Evidence, payloads, correlation and cost members, and most of `envelope::validate`: an abstract structural check with the position rules.
- An open window is a value the dictionary is reassigned with, not an object of its own: updating it in place through an alias is not captured.
- The order in which several windows taken out together are emitted.
- Parsing of JSON text by the libraries, and in-memory strings with lone surrogates (a `char` is a Unicode scalar value); of the text, only the scan for their escapes is modelled.
- Binary64 and the shortest-digit search of `repr` and `ryu-js`: numbers start as a normalized digit string and exponent.
- Recursion limits of the interpreter.
- `Money.Add`: does not model what the context would round to, because no sum reaches that far.
- The grace window is in whole seconds, and mandates are taken to have the members their schema requires.
- `requeue_parks`, `apply_pending_seeds`, evidence arguments, retention and `stream_status`.
