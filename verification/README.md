# A model of the ARCA electronic invoicing module

This project models the part of the module that can go irreversibly wrong: asking ARCA, Argentina's tax
authority, for an authorization code (CAE) for an invoice, over a call whose answer can be lost, from
several workers at once, and recovering afterwards. Around that core it models the access tickets of the
authentication service (WSAA), the classification of call outcomes, the fiscal arithmetic, the CUIT, the
life of a certificate, and the scripts that prepare and check a homologación database.

`dafny verify dfyconfig.toml` checks everything.

## How it is organised

| file | what it holds |
|---|---|
| Wsfe.dfy | every way a FECAESolicitar call can end, and the outcome it is given |
| Ledger.dfy | ARCA's log of vouchers, FECompUltimoAutorizado and FECompConsultar |
| Protocol.dfy | the authorization protocol as a state machine over events of workers, users, ARCA and the clock |
| ProtocolInvariant.dfy | the inductive invariant: its core, and what it says of numbers |
| ProtocolCore.dfy, ProtocolSteps.dfy | every event keeps the core whatever is numbered how, and the numbers when they are trusted |
| ProtocolTheorems.dfy | what holds in every state a run can reach |
| Moves.dfy, Counterexamples.dfy | single steps of a run, and runs that go wrong when one assumption fails |
| InvoiceLife.dfy | what an invoice shows after each outcome, and that none is left where nobody can go on |
| Requests.dfy, Recovery.dfy | what requests and recovery do to the store and the ledger: one, one after the other, both scheduled passes and their searches |
| Workflow.dfy | the code in its own order, step after step, against the two before |
| PendingOrder.dfy | the order of the scheduled pass against the order ARCA needs |
| FiscalTransaction.dfy | the two connections of a fiscal block: locks, checkpoints, rollback, nested blocks |
| FiscalSessions.dfy | fiscal blocks side by side, and what a transaction's snapshot shows the holder of a lock |
| Wsaa.dfy | the ticket cache, one call on its own and any number of callers |
| FiscalAmounts.dfy | rounding, VAT per aliquot, the breakdown and its tolerance |
| Cuit.dfy, Certificate.dfy, Homologation.dfy | the CUIT, the certificate's life, bootstrap and preflight |
| Ordering.dfy, Base.dfy | sorted sets, `Option` |

The protocol is stated over five things: the durable store, what each work connection has pending, the
advisory lock table, the requests on the wire, and ARCA's ledger. Any worker can leave its block at any
step (return, exception or crash), any request can land, be refused or vanish, and the lock-key hash is an
arbitrary function, collisions included. ARCA is given no check of its own on numbers (its validation
10016): that it only ever processes its last number plus one is proved.

`Workflow.Odoo` is a class with the same state in its fields. Its methods do what the code does, in the
code's order, and each extends the run so far by the events it performs. `Happens` performs any other event
the environment is trusted for, so every interleaving of the methods' own steps with the rest of the world
is a run the theorems are about, and what they say of a run's earlier points still holds after a call.

## What the environment is trusted for

`Protocol.Trusted` and `Protocol.WireFresh` say it, event by event:

1. posted document numbers are unique per sequence, nobody changes the number of an invoice while a request
   for it is open, and ARCA gives every voucher a new CAE;
2. the invoice a request reads under its lock belongs to a sequence that lock guards;
3. a request whose worker is gone has landed or died before its attempt becomes stale, and any request before
   its call is reported over; while the worker is there its lock is enough, however long the call takes;
4. the reconcile buttons, which take no lock, are used only when nothing of that sequence is alive;
5. ARCA tells the truth: in the sense of `Wsfe.Honest` and `Wsfe.HonestConsultation` (after a fault, a rejected
   detail, a list of errors without detail or a failure to connect there is no voucher and never will be,
   after `A` with a CAE or `P` there is one, and a consultation that is not a refusal is about what it holds),
   and in FECompUltimoAutorizado, whose number is the last of its ledger.

Not everything needs all of it. That each voucher is on record, that no invoice gets two, that an open attempt
and the invoice's state go together and that an authorization lasts are proved without the first assumption,
for users who number and renumber as they like (`Protocol.NumbersOnly`); the numbers themselves, a voucher's
own CAE and the QR need it. Locks, the unique index and the refusal to reopen need no trust at
all: `ProtocolTheorems.OneWorkerPerKey`, `InvoiceLife.RunKeepsIndex` and `ProtocolTheorems.PostedWhileItMayExist`
are about every run of enabled steps.

Two things are built in: this system is the only issuer for its points of sale, so nobody else adds to the
ledger, and there is one ARCA environment, so there is one ledger. So is PostgreSQL's rule that a transaction
cannot update a row that was updated since its snapshot: it guards the commit of an attempt, of an outcome and
of a reconciliation. Rows are compared by value there, so a row changed and changed back counts as unchanged,
which allows the model more than PostgreSQL does.

Counterexamples.dfy holds, for each of the first four (the two about numbers and the halves of the third
apart), a run in which only that one is broken and a voucher is lost or an invoice carries another one's CAE.

## What was found

- The lock key is computed from the caller's transaction (models/account_move.py:212-216) while the block
  re-reads the invoice; a caller with an old snapshot guards the wrong sequence, and the reconciler can settle
  an attempt whose worker is still waiting for its answer. `Counterexamples.StaleViewLosesAVoucher`.
- An outcome cannot be recorded once the invoice's row has been changed since the call began, which
  `button_draft` can do; the attempt then stays `sent` until it is reconciled, and nothing else stops a
  record. `Counterexamples.DraftDuringTheCallStopsTheRecord`, `ProtocolTheorems.IndexNeverBlocks`.
- `button_draft` refuses `authorized` and `uncertain` but not `processing` (models/account_move.py:1035-1055),
  so an invoice with a request in flight can be reopened and renumbered.
  `Counterexamples.LateRenumberingMisleads`.
- A read timeout is final for the caller while the request may still land; only the time until
  reconciliation protects it. `Counterexamples.EarlyTimeoutLosesAVoucher`.
- An invoice is authorized without a CAE when ARCA answers `P` and gives none, and only then.
  `Wsfe.PartialWithoutCaeAuthorizes`, `Wsfe.AuthorizedCarriesCae`.
- Tickets of two services of one certificate live in one row, so of two concurrent logins one commit fails
  and a live ticket is lost. `Wsaa.ConcurrentLoginsLoseATicket`; `Wsaa.GrantedLoginIsLostIff` says when.
- Generating a key replaces a stored one exactly in a draft that already holds one
  (`Certificate.GeneratingReplacesOnlyInDraft`); the record's own actions never lead there.
- Neither the bootstrap nor the preflight looks at the certificate's state: both accept a revoked or expired
  one that still has its certificate, and the bootstrap gives a revoked record its key back.
  `Homologation.RevokedDatabaseIsAccepted`, `Homologation.ReadyCanSign`, `Homologation.RevokedRecordsComeBack`.
- A database whose recorded commit came from the image's build marker fails the preflight of a session with
  the same environment. `Homologation.MarkedDatabaseIsRefused`, `Homologation.SameEnvironmentPasses`.
- The repository's own README says the lock is per company; the code keys it by issuing CUIT, and the model
  follows the code.

## Model

| member | source | states |
|---|---|---|
| Wsfe.CollectErrors | models/l10n_ar_arca_wsfe.py:345-353 | one entry per error ARCA listed, in order: its own code and its own message, an absent attribute as empty text |
| Wsfe.StripTakesBlanks | models/l10n_ar_arca_wsfe.py:265-267 | reading a code takes the blanks off both its ends and nothing else |
| Wsfe.FirstWithCode | models/l10n_ar_arca_wsfe.py:366-382 | the first entry with a code, none before it |
| Wsfe.RaiseBusinessError | models/l10n_ar_arca_wsfe.py:366-382 | the error raised is the first 601 if there is one, otherwise the first of all |
| Wsfe.RefusalCode | models/l10n_ar_arca_wsfe.py:366-382 | from the attributes ARCA sent: the refusal carries a code that reads 601 if any does, otherwise that of the first error |
| Wsfe.RejectionCode | models/l10n_ar_arca_wsfe.py:441-448 | a rejected detail carries the code of the first error, the global ones before its observations |
| Wsfe.ParseCaeResponse | models/l10n_ar_arca_wsfe.py:395-458 | the loop over errors and observations reaches exactly one outcome for every shape of answer |
| Wsfe.OutcomeSoundIffHonest | models/arca_errors.py:1-56 | for every call result, the outcome frees the number only if there is no voucher and authorizes only if there is one, if and only if ARCA was honest about that result |
| Wsfe.OnlyProvenAbsenceReleases | models/l10n_ar_arca_wsfe.py:115-189 | aborted or rejected exactly after faults, rejections, detail-less errors and failures before sending; authorized exactly after A with a CAE, or P |
| Wsfe.OutcomeByResult | models/l10n_ar_arca_wsfe.py:115-189 | which end of a call is aborted, rejected or authorized, and with which CAE, both ways; anything else is uncertain |
| Wsfe.AuthorizedCarriesCae | models/l10n_ar_arca_wsfe.py:450-458 | authorized without a CAE exactly when the first detail is a P that brings none |
| Wsfe.PartialWithoutCaeAuthorizes | models/l10n_ar_arca_wsfe.py:450-458 | an answer that does it |
| Wsfe.ConsultationTrueIffHonest | models/l10n_ar_arca_wsfe.py:244-283 | not found means there is no voucher, and found that it is this one, exactly when ARCA was honest; anything else is a refusal |
| Wsfe.ConsultationByCode | models/l10n_ar_arca_wsfe.py:264-273 | not found exactly when some code ARCA sent, stripped, is 602, or there is neither error nor result; found exactly when there is a result and no error |
| Wsfe.NoDataIsAbsence | models/l10n_ar_arca_wsfe.py:264-267 | one error 602, wherever it stands, is enough |
| Wsfe.FeCompConsultar | models/l10n_ar_arca_wsfe.py:244-283 | code 602 anywhere means the voucher does not exist, other errors are refusals, no result means it does not exist: on the attributes ARCA sent |
| Ledger.LastIsTheGreatest | models/l10n_ar_arca_wsfe.py:196-214 | FECompUltimoAutorizado is the greatest number ARCA holds in the sequence, or the base |
| Ledger.GapFreeHoldsEveryNumber | models/l10n_ar_arca_wsfe.py:196-214 | a gap-free ledger holds a number exactly when it is between the base and FECompUltimoAutorizado |
| Ledger.GapFreeHoldsItOnce | models/l10n_ar_arca_wsfe.py:196-214 | and holds no coordinate twice |
| ProtocolCore.StepKeepsCore | models/account_move.py:265-398 | every event of every party keeps attempts, invoices, vouchers and locks in order, whatever numbers users give and whatever CAEs ARCA gives |
| ProtocolSteps.StepKeepsInv | models/account_move.py:265-398 | and the numbers too, when they are trusted, a renumbering between the re-check and the commit included |
| ProtocolTheorems.RunKeepsCore | models/account_move.py:265-398 | the first holds along every run that breaks at most the trust in numbers |
| ProtocolTheorems.RunKeepsInv | models/account_move.py:265-398 | the second along every trusted run, whatever the interleaving and wherever workers die |
| ProtocolTheorems.EveryVoucherIsOnRecord | models/account_move.py:309-387 | each voucher at ARCA has a committed attempt with its issuer, point of sale, type and number, that is sent, uncertain or authorized, however invoices are numbered meanwhile |
| ProtocolTheorems.OneVoucherPerInvoice | models/account_move.py:226-263 | retries, negative reconciliations, drafts, renumberings and crashes never leave ARCA with two vouchers for one invoice |
| ProtocolTheorems.LedgerIsGapFree | models/account_move.py:400-431 | each sequence at ARCA runs from its base without gap or repetition |
| ProtocolTheorems.PrecheckStaysTrue | models/account_move.py:299-332 | from FECompUltimoAutorizado until the request leaves, the checked number stays the next one |
| ProtocolTheorems.ArcaOnlySeesTheNextNumber | models/account_move.py:299-332 | a request on the wire, even of a dead worker, always carries ARCA's last number plus one, and is alone in its sequence |
| ProtocolTheorems.OpenAttemptIffProcessingOrUncertain | models/account_move.py:256-263 | an invoice is processing or uncertain exactly when it has an open attempt, and never has two |
| ProtocolTheorems.AuthorizedHasItsVoucher | models/account_move.py:368-387 | an authorized invoice has an authorized attempt with the same CAE and a voucher with its coordinate |
| ProtocolTheorems.AuthorizedForever | models/account_move.py:1035-1055 | authorized and its CAE survive every later post, draft, renumbering, request, reconciliation and crash, and so does being posted |
| ProtocolTheorems.StepKeepsPosted | models/account_move.py:1035-1055 | no step, trusted or not, takes an authorized or uncertain invoice back to draft |
| ProtocolTheorems.DraftPossibleIff | models/account_move.py:1035-1055 | a posted invoice can be taken back to draft exactly when it is neither authorized nor uncertain |
| ProtocolTheorems.PostedWhileItMayExist | models/account_move.py:1035-1055 | over any run whatever, an invoice stays posted for as long as it is authorized or uncertain |
| InvoiceLife.OutcomeShows | models/account_move.py:331-387 | an outcome written: authorized with its CAE, rejected after a refusal or an abort, uncertain after a lost answer, on the invoice; authorized, rejected, aborted, uncertain on its attempt; nothing else changed |
| InvoiceLife.ReconciliationShows | models/account_move.py:447-483 | a consultation written: authorized with the CAE found, or the attempt aborted and the invoice pending; nothing else changed |
| InvoiceLife.UsersSpareTheOutcome | models/account_move.py:108-139 | posting makes a new invoice pending and no other; users change no CAE, no attempt and no other invoice |
| InvoiceLife.RunKeepsIndex | models/l10n_ar_arca_attempt.py:121-128 | over any run whatever, no company has two authorized attempts for one coordinate |
| InvoiceLife.NoInvoiceIsStuck | models/account_move.py:226-263 | over every run, a posted invoice can be requested, or is authorized, or has the open attempt that will be reconciled |
| ProtocolTheorems.OneWorkerPerKey | models/fiscal_transaction.py:77-104 | for any key function, and with nothing trusted of ARCA, users or time, one worker at most is inside a key's block, and no way out leaves a lock |
| ProtocolTheorems.AloneInside | models/account_move.py:277-329 | while a worker is inside, no attempt of its key is created or resolved by anyone else |
| ProtocolTheorems.IndexNeverBlocks | models/l10n_ar_arca_attempt.py:121-128 | the unique index never refuses recording what ARCA answered: the commit succeeds exactly when the invoice's row is as the transaction has seen it |
| ProtocolTheorems.HonestConsultationIsTrusted | models/l10n_ar_arca_attempt.py:226-247 | the answer a reconciler works on agrees with the ledger exactly when the consultation was honest |
| ProtocolTheorems.OneAuthorizedPerCoordinate | models/l10n_ar_arca_attempt.py:121-128 | two companies under one CUIT, which the index does not compare, never both authorize one number |
| ProtocolTheorems.QrNamesTheVoucher | models/account_move.py:955-985 | the QR's cuit, ptoVta, tipoCmp, nroCmp and codAut name exactly one voucher, if and only if the invoice was not renumbered since it was sent |
| Counterexamples.EarlyTimeoutLosesAVoucher | models/l10n_ar_arca_attempt.py:302-310 | a request that lands after its call ended as uncertain and was reconciled leaves a voucher nobody accounts for |
| Counterexamples.SlowRequestLosesAVoucher | models/l10n_ar_arca_attempt.py:15-21 | so does one that outlives its dead worker and the stale window |
| Counterexamples.ButtonInFlightLosesAVoucher | models/l10n_ar_arca_attempt.py:203-207 | so does the reconcile button pressed while the request travels |
| Counterexamples.LateRenumberingMisleads | models/account_move.py:1035-1055 | reopening and renumbering a processing invoice can give another one its CAE |
| Counterexamples.DuplicateNumberMisleads | models/account_move.py:447-483 | so can posting two invoices under one number |
| Counterexamples.StaleViewLosesAVoucher | models/account_move.py:212-216 | a lock key from an old snapshot lets the reconciler settle as absent an attempt whose request then lands |
| Counterexamples.DraftDuringTheCallStopsTheRecord | models/account_move.py:1035-1055 | in a fully trusted run, setting the invoice to draft during the call keeps an authorization from being recorded |
| Workflow.Odoo.RequestCae | models/account_move.py:200-224 | one request, whatever stops it, however its call ends and whether its invoice is changed meanwhile: the exit, the states of invoice and attempt after it, nothing changed when it stops, every lock free again |
| Requests.WhyARequestStops | models/account_move.py:200-307 | a request goes through exactly when its invoice is posted and pending or rejected, its sequence is free and its number is the next one; which refusal it gets otherwise |
| Requests.TheLedgerDecides | models/account_move.py:400-431 | with nothing else in the way: taken exactly when ARCA holds the number, a gap exactly when it lacks the one before |
| Requests.RequestLeaves | models/account_move.py:309-387 | the invoice and the attempt a request leaves, state by state, for every end of the call; every other invoice and attempt as before |
| Requests.RequestLogs | models/account_move.py:331-332 | ARCA's ledger gains the voucher of that number and attempt, or nothing |
| Requests.TurnedDownIsReady | models/account_move.py:350-365 | after a refusal or an abort the invoice is rejected and ready for another request, the attempt says which it was, and ARCA holds nothing |
| Requests.TurnedDownThenGranted | models/account_move.py:350-365 | so the next request with the same number, once granted, authorizes it |
| Requests.LostAnswerIsRecovered | models/l10n_ar_arca_attempt.py:209-261 | a request whose answer was lost or not recorded: reconciled, the invoice carries the very CAE ARCA gave it, or is pending with nothing at ARCA |
| Workflow.Odoo.TakeNumber | models/account_move.py:265-307 | lock, re-check, certificate, point of sale, last number and request in the code's order, and nothing changed when one refuses |
| Workflow.Odoo.RecordAttempt | models/account_move.py:309-329 | the attempt is durable, and nothing has left |
| Workflow.Odoo.Transmit | models/account_move.py:331-332 | the request leaves, and ARCA's ledger grows by its voucher or not at all |
| Workflow.Odoo.Finish | models/account_move.py:331-387 | from the durable attempt: the outcome shown by attempt and invoice, or refused because the invoice's row changed, or nothing after an exception nobody classifies |
| Workflow.Odoo.Happens | models/account_move.py:108-139 | any other event of the world, one at a time, keeps the run going |
| Workflow.Odoo.StillAuthorized | models/account_move.py:1035-1055 | what was authorized before any of these calls is authorized after it, with the same CAE, and still posted |
| Workflow.Odoo.CheckpointAttempt | models/account_move.py:309-329 | the attempt and the processing state become durable together |
| Workflow.Odoo.CheckpointOutcome | models/account_move.py:331-387 | the outcome is written on attempt and invoice together, over the rows the transaction has seen, each in the state that outcome gives it |
| Workflow.Odoo.ReconcileIsolated | models/l10n_ar_arca_attempt.py:263-291 | one attempt under its own sequence's lock: settled as ARCA's ledger says, with its invoice and nothing else, exactly when it is open, its sequence free and ARCA answers; otherwise nothing changes |
| Workflow.Odoo.CronReconcileOpenAttempts | models/l10n_ar_arca_attempt.py:293-321 | of the fifty oldest that may be taken, those it can lock and ARCA answers about are settled with their invoices; every other attempt is as it was |
| Recovery.RecoverAllAttempts | models/l10n_ar_arca_attempt.py:263-291 | whichever attempts ARCA answers about and whichever sequences are busy, a pass settles the open ones it takes, can lock and gets an answer about, and no other |
| Recovery.RecoverAllSparesInvoice | models/l10n_ar_arca_attempt.py:275-290 | an invoice none of whose attempts is settled stays as it is |
| Recovery.RecoverAllFollows | models/l10n_ar_arca_attempt.py:209-261 | an invoice with a settled attempt goes with it, whatever the rest of the pass does |
| Recovery.PassByAttempt | models/l10n_ar_arca_attempt.py:293-321 | a scheduled pass spares what is final, unanswered, busy or sent in the last five minutes, and settles every uncertain or older attempt when there are no more than fifty |
| Recovery.OldestFirst | models/l10n_ar_arca_attempt.py:306-318 | what a pass leaves for later is younger than all it takes, and only when the limit is full |
| Recovery.RecoverAllSettles | models/l10n_ar_arca_attempt.py:209-261 | with ARCA answering and their locks free, each attempt of a pass ends authorized if the ledger holds its coordinate and aborted if not, its invoice authorized with that CAE or pending again, and no other attempt or invoice changes |
| Recovery.PassShrinks | models/l10n_ar_arca_attempt.py:293-321 | one pass leaves, of the attempts it may take, those beyond its limit and no more |
| Workflow.Odoo.RecoverEverything | models/l10n_ar_arca_attempt.py:293-321 | recovery ends: of any store, the n stale or uncertain attempts are final after n/50 passes, rounded up, each in agreement with ARCA, and the others are untouched |
| Workflow.Odoo.RecoverWithPauses | models/l10n_ar_arca_attempt.py:293-321 | with time passing in between, those ripe at the start are final after n/50 passes, n counting every open attempt |
| Requests.SearchPending | models/account_move.py:492-499 | the search: the invoices that are posted and pending, all of them and no other, each once, by date and then name, cut at the limit |
| Workflow.Odoo.CronAuthorizePending | models/account_move.py:485-511 | the scheduled pass: posted pending invoices only, all of them when there are no more than fifty, a request for each; every invoice not selected stays as it is |
| Workflow.Odoo.AuthorizePending | models/account_move.py:500-511 | the requests one after the other, none of which stops the next |
| Requests.PassAuthorizesAll | models/account_move.py:485-511 | invoices in turn, all granted, all end authorized with the CAE each was granted |
| Requests.SearchedPassAuthorizesAll | models/account_move.py:485-511 | when pending numbers follow ARCA's last ones and dates do not go back, an ARCA that grants everything leaves every invoice the search selects authorized with its CAE |
| Requests.NothingStaysPending | models/account_move.py:485-511 | then, with no more than fifty, every invoice that was posted and pending is authorized with its CAE |
| Requests.PassSparesUnselected | models/account_move.py:492-511 | an invoice that was not selected is untouched, whatever ARCA answers about the others |
| Requests.OrderedPassAuthorizesAll | models/account_move.py:485-511 | the same for any selection ordered by date and zero-padded name, wherever the limit cuts |
| Requests.GrantKeepsTurn | models/account_move.py:400-431 | one granted request makes the next selected number the next one at ARCA |
| PendingOrder.PaddedOrder | models/account_move.py:492-499 | zero padding makes name order number order |
| PendingOrder.SelectionIsInTurn | models/account_move.py:492-499 | any prefix of the ordered selection takes each sequence number by number |
| FiscalTransaction.RunBlock | models/fiscal_transaction.py:77-104 | the connections do what the block's specification says, the caller's pending writes untouched and every statement under an armed lock timeout |
| FiscalTransaction.Cursor.TryAdvisoryLock | models/fiscal_transaction.py:92-96 | the lock is granted or refused at once |
| FiscalTransaction.FiscalTransaction.Checkpoint | models/fiscal_transaction.py:52-64 | a checkpoint makes pending writes durable, frees no advisory lock and re-arms the timeout |
| FiscalTransaction.FiscalTransaction.Discard | models/fiscal_transaction.py:70-74 | a discard drops them and re-arms the timeout |
| FiscalTransaction.BlockFreesItsLock | models/fiscal_transaction.py:86-104 | for every body, nested blocks included, every end leaves the lock table as it was |
| FiscalTransaction.HeldKeyRefuses | models/fiscal_transaction.py:87-96 | a held key refuses at once with nothing written, also from inside a block with the same key |
| FiscalTransaction.FailureKeepsTheCheckpoint | models/fiscal_transaction.py:36-74 | a failure or crash, wherever it comes after a checkpoint, leaves what was checkpointed and what blocks nested since then committed, and nothing else |
| FiscalTransaction.FailureAfterWrites | models/fiscal_transaction.py:36-74 | with nothing nested since, exactly what ending at the checkpoint would have left |
| FiscalTransaction.FailureKeepsNothing | models/fiscal_transaction.py:97-104 | without a checkpoint a failing block leaves only what its nested blocks committed |
| FiscalTransaction.CompletionKeepsEverything | models/fiscal_transaction.py:97-104 | a block that returns makes all its writes durable |
| FiscalTransaction.DiscardDropsPending | models/fiscal_transaction.py:70-74 | a discard takes back the block's own writes since the checkpoint, and nothing of its nested blocks |
| FiscalTransaction.NestedCommitSurvives | models/l10n_ar_arca_wsaa.py:65-99 | what a ticket's own block commits between two checkpoints survives the failure of the block around it, handled or not |
| FiscalSessions.HolderMissesNothing | models/fiscal_transaction.py:86-103 | over all interleavings, everything earlier holders of a key committed is in the snapshot its holder reads |
| FiscalSessions.HolderReadsNoOlder | models/account_move.py:277-280 | of any row an earlier holder wrote, invoices included, the holder reads that value or one committed later |
| FiscalSessions.WhatAStepCommits | models/fiscal_transaction.py:36-74 | a checkpoint and a committing close make the session's pending writes the committed values; a discard, a failing close or a crash commits nothing |
| FiscalSessions.GuardedReadIsCurrent | models/fiscal_transaction.py:86-103 | of a row written under its key alone, it reads the committed value |
| FiscalSessions.HolderConflictsIffOvertaken | models/fiscal_transaction.py:52-64 | a holder's commit is refused exactly when a row it has written was committed from outside its key since its snapshot |
| FiscalSessions.GuardedCommitSucceeds | models/fiscal_transaction.py:52-64 | so a commit of rows written under its key alone never is |
| Wsaa.ReadCachedToken | models/l10n_ar_arca_wsaa.py:109-125 | a cached ticket is handed out exactly when more than fifteen minutes are left of it |
| Wsaa.TicketCell.Authenticate | models/l10n_ar_arca_wsaa.py:175-222 | only a granted login is stored, with its expiration |
| Wsaa.TicketCell.GetOrRefreshToken | models/l10n_ar_arca_wsaa.py:65-99 | look, lock, look again, log in: what is returned and stored in each case, the lock free at the end |
| Wsaa.LoginOnlyWhenNothingUsable | models/l10n_ar_arca_wsaa.py:81-94 | over all interleavings, a worker about to log in is the only one and no committed ticket of the service is usable |
| Wsaa.ReturnedTicketsAreCommitted | models/l10n_ar_arca_wsaa.py:65-99 | every ticket handed out was committed in the cache |
| Wsaa.ReturnedTicketsHaveTimeLeft | models/l10n_ar_arca_wsaa.py:109-125 | and has more than fifteen minutes left, unless ARCA has just issued it |
| Wsaa.DoneMeansHandedOut | models/l10n_ar_arca_wsaa.py:81-99 | over all interleavings, whoever gets through has been handed a ticket of its service |
| Wsaa.ChangeDropsTickets | models/l10n_ar_arca_certificate.py:492-508 | after a change of the certificate no cached ticket is found |
| Wsaa.UsableTicketsStay | models/l10n_ar_arca_wsaa.py:128-135 | nothing but a certificate change takes a usable ticket away, other services' logins included |
| Wsaa.WhyALoginIsRefused | models/l10n_ar_arca_wsaa.py:192-207 | a login refused for a living ticket: the copy was lost, or is cached inside its margin |
| Wsaa.GrantedLoginIsLostIff | models/l10n_ar_arca_wsaa.py:128-135 | a granted login cannot be committed exactly when the certificate's row was updated since the second look |
| Wsaa.ConcurrentLoginsLoseATicket | models/l10n_ar_arca_wsaa.py:101-106 | two services whose logins overlap: one ticket lives at ARCA and nobody has it |
| FiscalAmounts.RoundIsNearest | models/account_move.py:799-800 | rounding gives the nearest cent, the farther from zero of two |
| FiscalAmounts.AggregateVat | models/account_move.py:832-857 | the dictionary loop gives one rounded entry per aliquot in order, or names the first line that is no aliquot |
| FiscalAmounts.TheSixAliquots | models/constants.py:103-110 | the lines refused are those of any aliquot but the six accepted ones |
| FiscalAmounts.EachAliquotOnceInOrder | models/account_move.py:832-857 | validation 10022: each Id once, accepted and ascending, at most six, none missing |
| FiscalAmounts.OrderDoesNotMatter | models/account_move.py:838-857 | reordering the lines changes nothing |
| FiscalAmounts.AggregationConserves | models/account_move.py:854-857 | total base and total tax differ from the lines' by half a cent per aliquot at most |
| FiscalAmounts.RequestAmounts | models/account_move.py:765-803 | each of the five amounts is the rounded part it stands for, class C sending two of them and no VAT; ImpTotal is exactly their sum, within 2.5 cents of the unrounded one, and sent only if within tolerance and every line is an aliquot |
| FiscalAmounts.TotalAcceptedIffWithinTolerance | models/account_move.py:805-829 | validation 10048: accepted if and only if within one cent or one part in ten thousand of the invoice |
| FiscalAmounts.ClassCHasNoVat | models/account_move.py:779-788 | class C: no VAT amount, no VAT lines, two parts within a cent |
| FiscalAmounts.VatGroupMatchesImpIVA | models/account_move.py:789-803 | the group's Importe add up to ImpIVA within 3.5 cents when the unrounded sums agree |
| Cuit.ValidIffDivisible | models/l10n_ar_arca_certificate.py:26-47 | eleven digits are valid exactly when the weighted sum with the check digit divides by 11 |
| Cuit.ValidByDigits | models/l10n_ar_arca_certificate.py:26-39 | the same digit by digit, with the published weights |
| Cuit.SeparatorsDoNotMatter | models/l10n_ar_arca_certificate.py:42-47 | validity depends on the digits only |
| Cuit.OneWrongDigitIsDetected | models/l10n_ar_arca_certificate.py:26-39 | changing any one digit of a valid CUIT makes it invalid |
| Cuit.ExchangedDigitsAreDetected | models/l10n_ar_arca_certificate.py:26-39 | so does exchanging two neighbouring different digits |
| Cuit.HyphenatedReadsBack | models/l10n_ar_arca_certificate.py:221-235 | formatting and stripping give the number back |
| Cuit.ShownIssuerReadsBack | models/l10n_ar_arca_certificate.py:200-213 | what a form shows as the issuer holds the company's digits, whatever they are |
| Certificate.ArcaCertificate.GenerateKeyAndCsr | models/l10n_ar_arca_certificate.py:331-447 | a key and CSR are made in draft only, and a refusal changes nothing |
| Certificate.ArcaCertificate.ProcessCertificate | models/l10n_ar_arca_certificate.py:460-515 | a file is stored exactly when it parses, matches the key, names the holder and is valid now; tickets go |
| Certificate.ArcaCertificate.CheckHolder | models/l10n_ar_arca_certificate.py:517-543 | a subject with another number is refused, one without a number is not |
| Certificate.ArcaCertificate.CheckUsable | models/l10n_ar_arca_certificate.py:237-272 | usable exactly when active, not past its date, with key and certificate; past its date it is marked |
| Certificate.ArcaCertificate.Revoke | models/l10n_ar_arca_certificate.py:563-574 | revoked, with key and tickets dropped |
| Certificate.CronCheckExpiration | models/l10n_ar_arca_certificate.py:593-605 | each active record past its date expires and loses its tickets, every other is left alone |
| Certificate.HistoryIsSane | models/l10n_ar_arca_certificate.py:130-182 | the record's invariant, over any sequence of actions and copies |
| Certificate.ActiveCanSign | models/l10n_ar_arca_certificate.py:460-515 | active means key and certificate are there with equal public halves |
| Certificate.UsableUntilItsDate | models/l10n_ar_arca_certificate.py:237-272 | an active certificate is refused for its date only, never for missing material |
| Certificate.CsrMatchesTheKey | models/l10n_ar_arca_certificate.py:393-435 | while a CSR is pending it is for the stored key |
| Certificate.TicketsBelongToTheCertificate | models/l10n_ar_arca_certificate.py:492-508 | cached tickets were got with the certificate stored now |
| Certificate.CopiesAreDrafts | models/l10n_ar_arca_certificate.py:130-182 | a copy is a draft of the same holder without key, certificate or tickets |
| Certificate.KeyIsNeverReplaced | models/l10n_ar_arca_certificate.py:366-397 | a stored key is kept by every action except the revocation that drops it |
| Certificate.GeneratingReplacesOnlyInDraft | models/l10n_ar_arca_certificate.py:366-397 | on any record at all, generating loses a key exactly in a draft that holds one |
| Certificate.RevokedForGood | models/l10n_ar_arca_certificate.py:563-574 | no sequence of actions brings a revoked certificate back |
| Certificate.IssuedCertificateIsAccepted | models/l10n_ar_arca_certificate.py:460-543 | the certificate ARCA issues for the pending CSR is accepted while valid, unless the holder was changed |
| Certificate.CsrNamesTheHolder | models/l10n_ar_arca_certificate.py:399-424 | the CSR's subject reads back as the holder's digits |
| Homologation.StorageProblems | tools/arca_homologation_bootstrap.py:145-177 | every problem listed, and none exactly when both columns hold bytes and no attachment is left |
| Homologation.OdooShell.Prepare | tools/arca_homologation_bootstrap.py:548-603 | an aborted run commits nothing; a run that ends commits the prepared database |
| Homologation.OdooShell.FindOrCreateCertificate | tools/arca_homologation_bootstrap.py:253-317 | the pinned record, or one new record for a company that has none |
| Homologation.OdooShell.LoadMaterialInto | tools/arca_homologation_bootstrap.py:331-360 | key and certificate are filled in where absent, the certificate through its own checks |
| Homologation.OdooShell.LinkTo | tools/arca_homologation_bootstrap.py:407-420 | a company is pointed at its own seeded certificate, never away from another |
| Homologation.OdooShell.VerifyStorage | tools/arca_homologation_bootstrap.py:482-532 | the run goes on exactly when the material is in the row and nowhere else |
| Homologation.NoCertificateIsOverwritten | tools/arca_homologation_bootstrap.py:331-360 | on every record, key and certificate that were there are kept, and so are tickets and state where there was a certificate |
| Homologation.NoLinkIsOverwritten | tools/arca_homologation_bootstrap.py:407-420 | no company is re-pointed, and nothing but the automatic request is switched |
| Homologation.SecondRunIsNoOp | tools/arca_homologation_bootstrap.py:548-603 | a second run changes nothing and needs no credentials |
| Homologation.RunPreflight | tools/arca_homologation_runner.py:306-325 | the checks in order pass exactly when all of them hold |
| Homologation.ReadyPassesPreflight | tools/arca_homologation_runner.py:306-325 | after a committed bootstrap the preflight passes if and only if the connection is encrypted, the commit is the recorded one and no other certificate existed |
| Homologation.SameEnvironmentPasses | tools/arca_homologation_runner.py:200-206 | with the bootstrap's own environment, exactly when the commit came from its variable |
| Homologation.RecordedShaMatches | tools/arca_homologation_runner.py:125-157 | the recorded commit matches a full SHA whatever its case, and no abbreviation |
| Homologation.TicketsSurvive | tools/arca_homologation_bootstrap.py:331-360 | a record's tickets survive exactly when it had a certificate or no tickets, or is not the seeded one |
| Homologation.LivedRecordsKeepTheirTickets | tools/arca_homologation_bootstrap.py:331-360 | a record that lived by its own actions loses no ticket |
| Homologation.ReadyCanSign | tools/arca_homologation_bootstrap.py:331-360 | what a run leaves is usable unless its certificate was there before and is not active or past its date |
| Homologation.RevokedRecordsComeBack | tools/arca_homologation_bootstrap.py:331-360 | a revoked record that kept its certificate gets its key back, and uploading the same certificate then activates it |
| Homologation.RevokedDatabaseIsAccepted | tools/arca_homologation_bootstrap.py:548-603 | a database with a revoked record that the bootstrap commits and the preflight accepts |
| Homologation.MarkedDatabaseIsRefused | tools/arca_homologation_runner.py:200-206 | a database prepared from the image's marker that the preflight refuses with the same environment |
| Homologation.CommitsIff | tools/arca_homologation_bootstrap.py:548-603 | of any database and environment, the exact condition under which a run commits: the pinned record, or one that can be made, with material that belongs together and nothing in attachments |
| Homologation.MaterialComesFrom | tools/arca_homologation_bootstrap.py:331-360 | the key and the certificate committed are those that were there, else the environment's |
| Homologation.TargetIs | tools/arca_homologation_bootstrap.py:240-250 | the company is the one asked for by number, or the one with the least id |
| Homologation.ProblemsByField | tools/arca_homologation_bootstrap.py:145-177 | each storage problem names the column that has it |
| Homologation.SameCommit | tools/arca_homologation_runner.py:125-157 | recorded and running commits agree exactly when both have forty hexadecimal digits, equal but for case |
| Homologation.WhereTheCommitComesFrom | tools/arca_homologation_bootstrap.py:127-142 | the variable decides when it is there, the marker only when it is not |

## Left out

- SOAP, WSDL and XML, RSA, X.509 and CMS: keys and certificates are values with a public half, and call
  results are the shapes the code distinguishes.
- The other fields of the request (concept, currency, receptor, associated documents, dates), the document
  and receptor tables, FEParamGet* and FEDummy: they only add easy members.
- The attempt's payloads, messages, durations and due date; notifications, views, reports, translations,
  access rights and the migration script.
- The test-mode branch of `fiscal_transaction`, where a checkpoint only flushes.
- Documents that are not electronic (`not_required` after posting), and the automatic request after a commit:
  it is one more `RequestCae`.
- The warning of the expiration cron for certificates about to expire.
- Binary floating point: amounts are exact, and `float_round` is rounding to the nearest cent, ties away from
  zero.
- Blanks other than space, tab, line feed and carriage return, which stripping an error code also removes.
- CUIT digits other than ASCII ones, which `isdigit` also accepts.
- Trimming and parsing of the environment variables, and the TLS query, which is a parameter.
- Testing and production as two ledgers: an attempt's environment, which the unique index does not compare
  either, is not in the model.
- Dates and names of invoices are parameters of the pending pass: nothing else in the protocol depends on them.
- Certificate.ArcaCertificate.CheckUsable: whether the `expired` mark survives depends on the caller's
  transaction, which the refusal usually rolls back; the invariant holds either way.
- Wsaa.UsableTicketsStay: a cache written back from an old snapshot fails to commit, because PostgreSQL
  refuses to update a row changed since; under a weaker isolation the other service's ticket would be lost.
- A process that dies while its COMMIT is on its way to PostgreSQL: a crash ends a block's two connections at
  once, with the commit done or not.
- Homologation.OdooShell.Prepare: other sessions writing while the script runs.
