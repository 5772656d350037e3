/**
 The protocol as the code performs it, step after step: one request, the reconciler and the two
 scheduled passes.  Every method extends a calm run of the state machine by the events it performs,
 so whatever holds of every run holds of these methods among any others.
 */
module Workflow {
  import opened Base
  import opened Ledger
  import opened Ordering
  import opened Protocol
  import opened ProtocolInvariant
  import opened ProtocolTheorems
  import opened InvoiceLife
  import opened Recovery
  import opened Requests
  import opened Moves
  import Wsfe

  /** A recorded attempt whose invoice is posted and processing. */
  predicate InProgress(store: Store, a: AttemptId) {
    HasAttempt(store, a)
    && store.invoices[store.attempts[a].invoice].posted && store.invoices[store.attempts[a].invoice].arca.Processing?
  }

  class Odoo {
    const cfg: Config
    var store: Store
    var workers: map<WorkerId, Worker>
    var locks: map<int, WorkerId>
    var wire: set<AttemptId>
    var log: seq<Voucher>
    var now: nat
    var nextAttempt: AttemptId
    ghost var run: seq<State>

    function View(): State
      reads this
    {
      State(store, workers, locks, wire, log, now)
    }

    /** The fields are where a calm run from the empty store has come to. */
    ghost predicate Valid()
      reads this
    {
      && CalmRun(cfg, run) && run[0] == Initial && Top(run) == View()
      && forall a :: a in store.attempts ==> a < nextAttempt
    }

    constructor (cfg: Config)
      ensures Valid() && View() == Initial
    {
      this.cfg := cfg;
      store, workers, locks, wire, log, now := Store(map[], map[]), map[], map[], {}, [], 0;
      nextAttempt := 0;
      run := [Initial];
    }

    /** Whatever the workflow has done, the invariant of the protocol holds. */
    lemma ValidIsReachable()
      requires Valid()
      ensures Reachable(cfg, View())
    {
      assert RunTo(cfg, NoLapse, run, View());
    }

    /** What was authorized at any earlier point of the run still is, and is still posted. */
    lemma StillAuthorized(earlier: seq<State>, i: InvoiceId, cae: Option<Cae>)
      requires Valid() && |earlier| > 0 && earlier <= run && AuthorizedWith(Top(earlier).store, i, cae)
      ensures AuthorizedWith(store, i, cae)
      ensures Top(earlier).store.invoices[i].posted ==> store.invoices[i].posted
    {
      assert RunTo(cfg, NoLapse, [Initial], Initial);
      AuthorizedForever(cfg, NoLapse, run, i, cae, |earlier| - 1, |run| - 1);
    }

    /** Anything else that may happen, to anyone: an invoice entered, posted, edited, another worker's
        step, a crash, ARCA's turn, a minute. */
    method Happens(e: Event)
      requires Valid() && CalmStep(cfg, View(), e)
      modifies this
      ensures Valid() && View() == Apply(cfg, old(View()), e) && old(run) <= run
    {
      var s := Apply(cfg, View(), e);
      NewAttempts(cfg, View(), e);
      Extend(cfg, NoLapse, run, e);
      run := run + [s];
      store, workers, locks, wire, log, now := s.store, s.workers, s.locks, s.wire, s.log, s.now;
      if e.CommitAttempt? && e.attempt >= nextAttempt {
        nextAttempt := e.attempt + 1;
      }
    }

    // ----- single steps -------------------------------------------------------------------------

    method AcquireLock(w: WorkerId, i: InvoiceId)
      requires Valid() && WireFresh(View()) && w !in workers && i in store.invoices
      requires cfg.key(store.invoices[i].coord.sequence) !in locks
      modifies this`workers, this`locks, this`run
      ensures Valid() && old(run) <= run && WireFresh(View())
      ensures View() == Acquire(old(View()), w, cfg.key(store.invoices[i].coord.sequence), Locked(i))
    {
      var q := store.invoices[i].coord.sequence;
      workers := workers[w := Worker(cfg.key(q), Locked(i))];
      locks := locks[cfg.key(q) := w];
      run := TakeLock(cfg, NoLapse, run, w, i, q);
    }

    method ReadRow(w: WorkerId)
      requires Valid() && WireFresh(View()) && Reads(View(), w)
      requires workers[w].key == cfg.key(store.invoices[workers[w].stage.invoice].coord.sequence)
      modifies this`workers, this`run
      ensures Valid() && old(run) <= run && WireFresh(View())
      ensures var i := old(workers)[w].stage.invoice;
              View() == Goto(old(View()), w, Checked(i, store.invoices[i]))
    {
      var i := workers[w].stage.invoice;
      workers := workers[w := workers[w].(stage := Checked(i, store.invoices[i]))];
      run := ReadReady(cfg, NoLapse, run, w);
    }

    method AcceptNumber(w: WorkerId)
      requires Valid() && WireFresh(View()) && NumberFits(cfg, View(), w)
      modifies this`workers, this`run
      ensures Valid() && old(run) <= run && WireFresh(View())
      ensures var stage := old(workers)[w].stage;
              View() == Goto(old(View()), w, Numbered(stage.invoice, stage.row))
    {
      workers := workers[w := workers[w].(stage := Numbered(workers[w].stage.invoice, workers[w].stage.row))];
      run := NumberNext(cfg, NoLapse, run, w);
    }

    /** However the block is left, its lock goes with it. */
    method LeaveBlock(w: WorkerId)
      requires Valid() && WireFresh(View()) && w in workers && !workers[w].stage.Waiting?
      modifies this`workers, this`locks, this`run
      ensures Valid() && old(run) <= run && WireFresh(View())
      ensures View() == DoLeave(old(View()), w)
    {
      locks := locks - {workers[w].key};
      workers := workers - {w};
      run := Moves.Exit(cfg, NoLapse, run, w);
    }

    /** The attempt and the processing state, pending on the work connection ... */
    method CreateAttempt(w: WorkerId)
      requires Valid() && WireFresh(View()) && w in workers && workers[w].stage.Numbered?
      modifies this`workers, this`run
      ensures Valid() && old(run) <= run && WireFresh(View())
      ensures var stage := old(workers)[w].stage;
              View() == Goto(old(View()), w, Staged(stage.invoice, stage.row, now))
    {
      workers := workers[w := workers[w].(stage := Staged(workers[w].stage.invoice, workers[w].stage.row, now))];
      run := StageAttempt(cfg, NoLapse, run, w);
    }

    /** ... and committed, before the request leaves. */
    method CheckpointAttempt(w: WorkerId) returns (a: AttemptId)
      requires Valid() && WireFresh(View()) && w in workers && workers[w].stage.Staged?
      requires CanCommitAttempt(View(), w, nextAttempt) && nextAttempt !in wire
      modifies this`store, this`workers, this`nextAttempt, this`run
      ensures Valid() && old(run) <= run && WireFresh(View())
      ensures a == old(nextAttempt) && nextAttempt == a + 1
      ensures View() == DoCommitAttempt(old(View()), w, a)
    {
      a := nextAttempt;
      var stage := workers[w].stage;
      store := Write(store, a, AttemptFrom(stage), Processing, stage.row.cae);
      workers := workers[w := workers[w].(stage := Armed(a))];
      nextAttempt := nextAttempt + 1;
      run := PersistAttempt(cfg, NoLapse, run, w, a);
    }

    /** The first read of the transaction that will record the outcome. */
    method OpenTransaction(w: WorkerId)
      requires Valid() && WireFresh(View()) && w in workers && workers[w].stage.Armed?
      requires HasAttempt(store, workers[w].stage.attempt)
      modifies this`workers, this`run
      ensures Valid() && old(run) <= run && WireFresh(View())
      ensures View() == DoBeginCall(old(View()), w)
    {
      var a := workers[w].stage.attempt;
      workers := workers[w := workers[w].(stage := Opened(a, SeenAt(store, a)))];
      run := OpenCall(cfg, NoLapse, run, w);
    }

    method SendRequest(w: WorkerId)
      requires Valid() && WireFresh(View()) && w in workers && workers[w].stage.Opened?
      modifies this`wire, this`workers, this`run
      ensures Valid() && old(run) <= run && WireFresh(View())
      ensures View() == DoSend(old(View()), w)
    {
      var a := workers[w].stage.attempt;
      wire := wire + {a};
      workers := workers[w := workers[w].(stage := Waiting(a, workers[w].stage.seen))];
      run := SendOff(cfg, NoLapse, run, w);
    }

    /** ARCA's turn. */
    method ArcaProcesses(a: AttemptId, verdict: Verdict)
      requires Valid() && WireFresh(View()) && a in wire && a in store.attempts && NewCae(log, verdict)
      modifies this`wire, this`log, this`run
      ensures Valid() && old(run) <= run && WireFresh(View())
      ensures View() == DoLand(old(View()), a, verdict)
    {
      wire := wire - {a};
      if verdict.Accept? {
        log := log + [Voucher(store.attempts[a].coord, verdict.cae, a)];
      }
      run := Process(cfg, NoLapse, run, a, verdict);
    }

    method CallEnds(w: WorkerId, result: Wsfe.CallResult)
      requires Valid() && WireFresh(View()) && w in workers
      requires workers[w].stage.Opened? || workers[w].stage.Waiting?
      requires CallOver(View(), workers[w].stage.attempt, result)
      modifies this`workers, this`run
      ensures Valid() && old(run) <= run && WireFresh(View())
      ensures View() == DoReturn(old(View()), w, result)
    {
      var stage := workers[w].stage;
      workers := workers[w := workers[w].(stage := Resolved(stage.attempt, stage.seen, Wsfe.OutcomeOf(result)))];
      run := Conclude(cfg, NoLapse, run, w, result);
    }

    /** `_mark_*` and the invoice, committed over the rows the transaction has seen. */
    method CheckpointOutcome(w: WorkerId)
      requires Valid() && WireFresh(View()) && CanCommitOutcome(View(), w)
      modifies this`store, this`workers, this`run
      ensures Valid() && old(run) <= run && WireFresh(View())
      ensures View() == DoCommitOutcome(old(View()), w)
      ensures var stage := old(workers)[w].stage;
              && OthersKept(old(store), store, stage.attempt) && HasAttempt(store, stage.attempt)
              && Shows(stage.seen, stage.outcome, SeenAt(store, stage.attempt))
    {
      OutcomeShows(store, workers[w].stage.attempt, workers[w].stage.outcome);
      store := WriteOutcome(store, workers[w].stage.attempt, workers[w].stage.outcome);
      workers := workers[w := workers[w].(stage := Finished)];
      run := RecordOutcome(cfg, NoLapse, run, w);
    }

    // ----- one request --------------------------------------------------------------------------

    /** The lock, and the row as it is under it. */
    method LockAndRead(w: WorkerId, i: InvoiceId)
      requires Valid() && WireFresh(View()) && w !in workers && i in store.invoices && Ready(store.invoices[i])
      requires cfg.key(store.invoices[i].coord.sequence) !in locks
      modifies this`workers, this`locks, this`run
      ensures Valid() && old(run) <= run && WireFresh(View())
      ensures View() == Acquire(old(View()), w, cfg.key(store.invoices[i].coord.sequence),
                                Checked(i, store.invoices[i]))
    {
      AcquireLock(w, i);
      ReadRow(w);
      var row := store.invoices[i];
      assert workers == old(workers)[w := Worker(cfg.key(row.coord.sequence), Checked(i, row))];
    }

    /** The block is left before anything was written. */
    method GiveUp(w: WorkerId, ghost before: map<WorkerId, Worker>, ghost locksBefore: map<int, WorkerId>)
      requires Valid() && WireFresh(View()) && w in workers && !workers[w].stage.Waiting?
      requires w !in before && workers.Keys == before.Keys + {w} && workers[w].key !in locksBefore
      requires workers == before[w := workers[w]] && locks == locksBefore[workers[w].key := w]
      modifies this`workers, this`locks, this`run
      ensures Valid() && old(run) <= run && WireFresh(View())
      ensures workers == before && locks == locksBefore
    {
      LeaveBlock(w);
    }

    /** The lock, the re-check, the certificate and FECompUltimoAutorizado: the worker's number, or why it
        stops. */
    method TakeNumber(w: WorkerId, i: InvoiceId, reply: Reply) returns (exit: Option<Exit>)
      requires Valid() && WireFresh(View()) && w !in workers && i in store.invoices
      modifies this`workers, this`locks, this`run
      ensures Valid() && old(run) <= run && WireFresh(View())
      ensures exit == StopOf(cfg, store.invoices[i], log, old(locks).Keys, reply)
      ensures exit.Some? ==> View() == old(View())
      ensures exit.None? ==> View() == Acquire(old(View()), w, cfg.key(store.invoices[i].coord.sequence),
                                               Numbered(i, store.invoices[i]))
    {
      var row := store.invoices[i];
      if !Ready(row) {
        return Some(NotReady);
      }
      if reply == Blocked(NoLockKey) {
        return Some(Refused(NoLockKey));
      }
      var key := cfg.key(row.coord.sequence);
      if key in locks {
        return Some(SequenceBusy);
      }
      LockAndRead(w, i);
      exit := CheckUnderLock(row, reply);
      if exit.Some? {
        GiveUp(w, old(workers), old(locks));
        return;
      }
      AcceptNumber(w);
      assert workers == old(workers)[w := Worker(key, Numbered(i, row))];
    }

    /** What is asked between the lock and the attempt, in the code's order. */
    method CheckUnderLock(row: Invoice, reply: Reply) returns (exit: Option<Exit>)
      requires Ready(row) && reply != Blocked(NoLockKey)
      ensures exit == StopOf(cfg, row, log, {}, reply)
      ensures exit.None? ==> row.coord.number == Last(cfg.base, log, row.coord.sequence) + 1
    {
      if reply.Blocked? && reply.obstacle != NotBuilt {
        return Some(Refused(reply.obstacle));
      }
      var lastAuthorized := Last(cfg.base, log, row.coord.sequence);
      if row.coord.number != lastAuthorized + 1 {
        return if row.coord.number <= lastAuthorized then Some(NumberTaken) else Some(NumberingGap);
      }
      exit := if reply.Blocked? then Some(Refused(NotBuilt)) else None;
    }

    /** The attempt is durable before anything leaves. */
    method RecordAttempt(w: WorkerId, i: InvoiceId) returns (a: AttemptId)
      requires Valid() && w in workers && i in store.invoices
      requires workers[w].stage == Numbered(i, store.invoices[i])
      modifies this`store, this`workers, this`nextAttempt, this`run
      ensures Valid() && old(run) <= run && WireFresh(View())
      ensures a == old(nextAttempt) && nextAttempt == a + 1 && a !in wire && !Landed(log, a)
      ensures store == Sending(old(store), i, a, now)
      ensures workers == old(workers)[w := Worker(old(workers)[w].key, Armed(a))]
    {
      RunIsFresh();
      CreateAttempt(w);
      a := CheckpointAttempt(w);
      assert store == Sending(old(store), i, a, now);
      assert workers == old(workers)[w := Worker(old(workers)[w].key, Armed(a))];
    }

    /** The request leaves, and ARCA treats it. */
    method Transmit(w: WorkerId, a: AttemptId, verdict: Verdict)
      requires Valid() && WireFresh(View()) && w in workers && workers[w].stage.Opened? && workers[w].stage.attempt == a
      requires a in store.attempts && a !in wire && !Landed(log, a) && NewCae(log, verdict)
      modifies this`workers, this`wire, this`log, this`run
      ensures Valid() && old(run) <= run && WireFresh(View())
      ensures wire == old(wire) && a !in wire
      ensures log == if verdict.Accept? then old(log) + [Voucher(store.attempts[a].coord, verdict.cae, a)] else old(log)
      ensures workers == old(workers)[w := Worker(old(workers)[w].key, Waiting(a, old(workers)[w].stage.seen))]
    {
      SendRequest(w);
      ArcaProcesses(a, verdict);
      assert wire == old(wire);
    }

    /** The answer, or its loss, becomes an outcome. */
    method Answer(w: WorkerId, a: AttemptId, reply: Reply) returns (outcome: Wsfe.Outcome)
      requires Valid() && WireFresh(View()) && w in workers && Ends(reply)
      requires (workers[w].stage.Opened? || workers[w].stage.Waiting?) && workers[w].stage.attempt == a && a !in wire
      requires CallOver(View(), a, ResultOf(reply))
      modifies this`workers, this`run
      ensures Valid() && old(run) <= run && WireFresh(View()) && outcome == OutcomeOf(reply)
      ensures View() == Goto(old(View()), w, Resolved(a, old(workers)[w].stage.seen, outcome))
    {
      outcome := OutcomeOf(reply);
      CallEnds(w, ResultOf(reply));
    }

    method RecordAnswer(w: WorkerId, a: AttemptId)
      requires Valid() && w in workers && workers[w].stage.Resolved? && workers[w].stage.attempt == a
      requires HasAttempt(store, a) && workers[w].stage.seen == SeenAt(store, a)
      modifies this`store, this`workers, this`run
      ensures Valid() && old(run) <= run && WireFresh(View())
      ensures var recorded := WriteOutcome(old(store), a, old(workers)[w].stage.outcome);
              View() == Goto(old(View()).(store := recorded), w, Finished)
    {
      RunIsFresh();
      ValidIsReachable();
      IndexNeverBlocks(cfg, View(), w);
      CheckpointOutcome(w);
    }

    /** The wire of a calm run is fresh, and attempts not yet recorded are not on it. */
    lemma RunIsFresh()
      requires Valid()
      ensures WireFresh(View())
      ensures nextAttempt !in store.attempts && nextAttempt !in wire && !Landed(log, nextAttempt)
    {
      ValidIsReachable();
      ReachableInv(cfg, View());
    }

    /** A user sets the invoice to draft, which nothing stops while its request is being made. */
    method ButtonDraftPressed(i: InvoiceId)
      requires Valid() && WireFresh(View()) && CanButtonDraft(View(), i)
      modifies this`store, this`run
      ensures Valid() && old(run) <= run && WireFresh(View()) && store == InDraft(old(store), i)
    {
      store := InDraft(store, i);
      run := Moves.SetToDraft(cfg, NoLapse, run, i);
    }

    /** The call as far as its end, from the durable attempt on. */
    method Call(w: WorkerId, a: AttemptId, reply: Reply) returns (outcome: Wsfe.Outcome)
      requires Valid() && WireFresh(View()) && w in workers && workers[w].stage == Armed(a) && InProgress(store, a)
      requires a !in wire && !Landed(log, a) && Ends(reply) && Plausible(log, reply)
      modifies this`store, this`workers, this`wire, this`log, this`run
      ensures Valid() && old(run) <= run && WireFresh(View()) && outcome == OutcomeOf(reply) && wire == old(wire)
      ensures InProgress(old(store), a)
      ensures store == if Drafted(reply) then InDraft(old(store), old(store).attempts[a].invoice) else old(store)
      ensures log == LogAfter(old(log), old(store).attempts[a].coord, a, reply)
      ensures workers == old(workers)[w := Worker(old(workers)[w].key, Resolved(a, SeenAt(old(store), a), outcome))]
    {
      OpenTransaction(w);
      if reply.Transmitted? {
        Transmit(w, a, reply.verdict);
        if reply.drafted {
          ButtonDraftPressed(store.attempts[a].invoice);
        }
      }
      CallIsOver(old(log), View(), a, reply);
      outcome := Answer(w, a, reply);
      assert workers == old(workers)[w := Worker(old(workers)[w].key, Resolved(a, SeenAt(old(store), a), outcome))];
    }

    /** The call and the record of its outcome, unless the invoice's row is no longer the one seen: then
        PostgreSQL refuses the write. */
    method CallAndRecord(w: WorkerId, a: AttemptId, reply: Reply) returns (exit: Exit)
      requires Valid() && WireFresh(View()) && w in workers && workers[w].stage == Armed(a) && InProgress(store, a)
      requires a !in wire && !Landed(log, a) && Ends(reply) && Plausible(log, reply)
      modifies this`store, this`workers, this`wire, this`log, this`run
      ensures Valid() && old(run) <= run && WireFresh(View()) && wire == old(wire) && exit == ExitOf(reply)
      ensures InProgress(old(store), a) && store == AfterCall(old(store), old(store).attempts[a].invoice, a, reply)
      ensures log == LogAfter(old(log), old(store).attempts[a].coord, a, reply)
      ensures w in workers && !workers[w].stage.Waiting?
      ensures workers == old(workers)[w := workers[w]] && workers[w].key == old(workers)[w].key
    {
      var outcome := Call(w, a, reply);
      if StillSeen(store, a, workers[w].stage.seen) {
        RecordAnswer(w, a);
        exit := Concluded(outcome);
      } else {
        exit := NotRecorded;
      }
    }

    /** The block from the durable attempt on, left by its end or by an exception. */
    method Finish(w: WorkerId, a: AttemptId, reply: Reply) returns (exit: Exit)
      requires Valid() && WireFresh(View()) && w in workers && workers[w].stage == Armed(a) && InProgress(store, a)
      requires a !in wire && !Landed(log, a) && Plausible(log, reply)
      modifies this`store, this`workers, this`locks, this`wire, this`log, this`run
      ensures Valid() && old(run) <= run && wire == old(wire) && exit == ExitOf(reply)
      ensures workers == old(workers) - {w} && locks == old(locks) - {old(workers)[w].key}
      ensures InProgress(old(store), a) && store == AfterCall(old(store), old(store).attempts[a].invoice, a, reply)
      ensures !Ends(reply) ==> store == old(store)
      ensures Ends(reply) && !Drafted(reply) ==>
                HasAttempt(store, a) && Shows(SeenAt(old(store), a), OutcomeOf(reply), SeenAt(store, a))
      ensures log == LogAfter(old(log), old(store).attempts[a].coord, a, reply)
    {
      exit := Escaped;
      if Ends(reply) {
        OutcomeShows(store, a, OutcomeOf(reply));
        exit := CallAndRecord(w, a, reply);
      }
      LeaveBlock(w);
    }

    /** The rest of the block, from the number on. */
    method Perform(w: WorkerId, i: InvoiceId, reply: Reply) returns (exit: Exit)
      requires Valid() && w in workers && i in store.invoices && !reply.Blocked?
      requires workers[w].stage == Numbered(i, store.invoices[i]) && Ready(store.invoices[i]) && Plausible(log, reply)
      modifies this`store, this`workers, this`locks, this`wire, this`log, this`nextAttempt, this`run
      ensures Valid() && old(run) <= run && wire == old(wire)
      ensures exit == ExitOf(reply)
      ensures workers == old(workers) - {w} && locks == old(locks) - {old(workers)[w].key}
      ensures nextAttempt == old(nextAttempt) + 1 && store == Settled(old(store), i, old(nextAttempt), now, reply)
      ensures log == LogAfter(old(log), old(store).invoices[i].coord, old(nextAttempt), reply)
    {
      var a := RecordAttempt(w, i);
      exit := Finish(w, a, reply);
    }

    /** The block, from the lock to its end. */
    method Authorize(w: WorkerId, i: InvoiceId, reply: Reply) returns (exit: Exit)
      requires Valid() && w !in workers && i in store.invoices && Plausible(log, reply)
      modifies this`store, this`workers, this`locks, this`wire, this`log, this`nextAttempt, this`run
      ensures Valid() && old(run) <= run && workers == old(workers) && locks == old(locks) && wire == old(wire)
      ensures var stop := StopOf(cfg, old(store).invoices[i], old(log), locks.Keys, reply);
              exit == if stop.Some? then stop.value else ExitOf(reply)
      ensures Books(store, log, nextAttempt)
           == Requested(cfg, old(Books(store, log, nextAttempt)), locks.Keys, now, i, reply)
    {
      RunIsFresh();
      var stopped := TakeNumber(w, i, reply);
      if stopped.Some? {
        return stopped.value;
      }
      exit := Perform(w, i, reply);
      assert workers == old(workers) && locks == old(locks);
    }

    /** `_l10n_ar_arca_request_cae`: what one request does, from the outside. */
    method RequestCae(w: WorkerId, i: InvoiceId, reply: Reply) returns (exit: Exit)
      requires Valid() && w !in workers && i in store.invoices && Plausible(log, reply)
      modifies this`store, this`workers, this`locks, this`wire, this`log, this`nextAttempt, this`run
      ensures Valid() && old(run) <= run && workers == old(workers) && locks == old(locks) && wire == old(wire)
      ensures Books(store, log, nextAttempt)
           == Requested(cfg, old(Books(store, log, nextAttempt)), locks.Keys, now, i, reply)
      ensures var stop := StopOf(cfg, old(store).invoices[i], old(log), locks.Keys, reply);
              if stop.Some?
              then exit == stop.value && Books(store, log, nextAttempt) == old(Books(store, log, nextAttempt))
              else exit == (if !Ends(reply) then Escaped else if Drafted(reply) then NotRecorded
                            else Concluded(OutcomeOf(reply)))
                   && HasAttempt(store, old(nextAttempt))
                   && LeftBy(reply, old(store).invoices[i], i, now, SeenAt(store, old(nextAttempt)))
    {
      exit := Authorize(w, i, reply);
      if StopOf(cfg, old(store).invoices[i], old(log), locks.Keys, reply).None? {
        RequestLeaves(cfg, old(Books(store, log, nextAttempt)), locks.Keys, now, i, reply);
      }
    }

    // ----- recovery -----------------------------------------------------------------------------

    method AcquireRecoveryLock(w: WorkerId, a: AttemptId)
      requires Valid() && WireFresh(View()) && CanBeginRecovery(cfg, View(), w, a)
      modifies this`workers, this`locks, this`run
      ensures Valid() && old(run) <= run && WireFresh(View())
      ensures View() == Acquire(old(View()), w, cfg.key(store.attempts[a].coord.sequence), Recovering(a))
    {
      var key := cfg.key(store.attempts[a].coord.sequence);
      workers := workers[w := Worker(key, Recovering(a))];
      locks := locks[key := w];
      run := TakeRecoveryLock(cfg, NoLapse, run, w, a);
    }

    method FeCompConsultar(w: WorkerId)
      requires Valid() && WireFresh(View()) && CanQuery(View(), w)
      modifies this`workers, this`run
      ensures Valid() && old(run) <= run && WireFresh(View())
      ensures var a := old(workers)[w].stage.attempt;
              View() == DoQuery(old(View()), w, AnswerOf(Consult(log, store.attempts[a].coord)))
    {
      var a := workers[w].stage.attempt;
      var answer := AnswerOf(Consult(log, store.attempts[a].coord));
      workers := workers[w := workers[w].(stage := Consulted(a, SeenAt(store, a), answer))];
      run := AskArca(cfg, NoLapse, run, w);
    }

    method CheckpointRecovery(w: WorkerId)
      requires Valid() && w in workers && workers[w].stage.Consulted?
      requires StillSeen(store, workers[w].stage.attempt, workers[w].stage.seen)
      modifies this`store, this`workers, this`run
      ensures Valid() && old(run) <= run && WireFresh(View())
      ensures CanCommitRecovery(old(View()), w) && View() == DoCommitRecovery(old(View()), w)
    {
      RunIsFresh();
      ValidIsReachable();
      IndexNeverBlocks(cfg, View(), w);
      store := WriteReconciliation(store, workers[w].stage.attempt, workers[w].stage.answer);
      workers := workers[w := workers[w].(stage := Finished)];
      run := RecordRecovery(cfg, NoLapse, run, w);
    }

    /** `_reconcile` of an open attempt, and the checkpoint after it. */
    method Reconcile(w: WorkerId, a: AttemptId)
      requires Valid() && WireFresh(View()) && CanQuery(View(), w) && workers[w].stage.attempt == a
      modifies this`store, this`workers, this`run
      ensures Valid() && old(run) <= run && WireFresh(View())
      ensures store == WriteReconciliation(old(store), a, AnswerOf(Consult(log, old(store).attempts[a].coord)))
      ensures workers == old(workers)[w := Worker(old(workers)[w].key, Finished)]
    {
      FeCompConsultar(w);
      CheckpointRecovery(w);
      assert workers == old(workers)[w := Worker(old(workers)[w].key, Finished)];
    }

    /** The block of `_reconcile_isolated`: under the lock of the attempt's own sequence. */
    method ReconcileInBlock(w: WorkerId, a: AttemptId, answers: bool) returns (done: bool)
      requires Valid() && w !in workers && a in store.attempts
      requires store.attempts[a].Open() ==> Eligible(store.attempts[a], now)
      modifies this`store, this`workers, this`locks, this`run
      ensures Valid() && old(run) <= run && workers == old(workers) && locks == old(locks)
      ensures store == RecoverOne(cfg, old(store), log, locks.Keys, a, answers)
      ensures done <==> cfg.key(old(store).attempts[a].coord.sequence) !in locks
                        && (old(store).attempts[a].Open() ==> answers)
    {
      RunIsFresh();
      AttemptHasInvoice(a);
      var key := cfg.key(store.attempts[a].coord.sequence);
      if key in locks {
        return false;
      }
      AcquireRecoveryLock(w, a);
      done := true;
      if store.attempts[a].Open() {
        if answers {
          Reconcile(w, a);
        } else {
          done := false;
        }
      }
      LeaveBlock(w);
      assert workers == old(workers) && locks == old(locks);
    }

    /** `_reconcile_isolated`: the attempt is settled, with its invoice and nothing else, or nothing changes. */
    method ReconcileIsolated(w: WorkerId, a: AttemptId, answers: bool) returns (done: bool)
      requires Valid() && w !in workers && a in store.attempts
      requires store.attempts[a].Open() ==> Eligible(store.attempts[a], now)
      modifies this`store, this`workers, this`locks, this`run
      ensures Valid() && old(run) <= run && workers == old(workers) && locks == old(locks)
      ensures store == RecoverOne(cfg, old(store), log, locks.Keys, a, answers)
      ensures var row := old(store).attempts[a];
              var free := cfg.key(row.coord.sequence) !in locks;
              && (done <==> free && (row.Open() ==> answers))
              && (if free && row.Open() && answers
                  then HasAttempt(old(store), a) && OthersKept(old(store), store, a)
                       && RecoveredFrom(row, store.attempts[a], log) && InvoiceFollows(store, a)
                  else store == old(store))
    {
      AttemptHasInvoice(a);
      done := ReconcileInBlock(w, a, answers);
      if Spared(cfg, old(store), locks.Keys, a, answers) {
        RecoverOneSpares(cfg, old(store), log, locks.Keys, a, answers);
      } else {
        RecoverOneSettles(cfg, old(store), log, locks.Keys, a);
      }
    }

    lemma AttemptHasInvoice(a: AttemptId)
      requires Valid() && a in store.attempts
      ensures HasAttempt(store, a)
    {
      ValidIsReachable();
      ReachableInv(cfg, View());
    }

    /** One attempt after the other, none of which stops the next. */
    method ReconcileEach(w: WorkerId, ids: seq<AttemptId>, answering: set<AttemptId>)
      requires Valid() && w !in workers && Increasing(ids)
      requires forall a :: a in ids ==> a in store.attempts && Eligible(store.attempts[a], now)
      modifies this`store, this`workers, this`locks, this`run
      ensures Valid() && old(run) <= run && workers == old(workers) && locks == old(locks)
      ensures store == RecoverAll(cfg, old(store), log, locks.Keys, ids, answering)
    {
      var k := 0;
      while k < |ids|
        invariant 0 <= k <= |ids|
        invariant Valid() && old(run) <= run && workers == old(workers) && locks == old(locks)
        invariant AwaitingTurn(old(store), store, ids, k)
        invariant RecoverAll(cfg, store, log, locks.Keys, ids[k..], answering)
               == RecoverAll(cfg, old(store), log, locks.Keys, ids, answering)
      {
        assert ids[k..][0] == ids[k] && ids[k..][1..] == ids[k + 1..];
        assert ids[k] in ids;
        AwaitingTurnStep(cfg, old(store), store, log, locks.Keys, ids, k, ids[k] in answering);
        var done := ReconcileIsolated(w, ids[k], ids[k] in answering);
        k := k + 1;
      }
    }

    /** `_cron_reconcile_open_attempts`: of the fifty oldest it may take, those it can lock and ARCA answers about
        are settled with their invoices; every other attempt is as it was. */
    method CronReconcileOpenAttempts(w: WorkerId, answering: set<AttemptId>)
      requires Valid() && w !in workers
      modifies this`store, this`workers, this`locks, this`run
      ensures Valid() && old(run) <= run && workers == old(workers) && locks == old(locks)
      ensures store == RecoverAll(cfg, old(store), log, locks.Keys, Oldest(old(store), now, 50), answering)
      ensures PassAnswered(cfg, old(store), store, log, locks.Keys, Oldest(old(store), now, 50), answering)
    {
      var ids := Oldest(store, now, CRON_LIMIT);
      RefsAreOk();
      ReconcileEach(w, ids, answering);
      PassSettles(cfg, old(store), log, locks.Keys, ids, answering);
    }

    /** The requests of the pending pass, one after the other. */
    method AuthorizePending(w: WorkerId, selected: seq<InvoiceId>, replies: seq<Reply>)
      requires Valid() && w !in workers && |replies| == |selected|
      requires forall i :: i in selected ==> i in store.invoices
      requires CaesNew(log, replies)
      modifies this`store, this`workers, this`locks, this`wire, this`log, this`nextAttempt, this`run
      ensures Valid() && old(run) <= run && workers == old(workers) && locks == old(locks) && wire == old(wire)
      ensures Books(store, log, nextAttempt)
           == Passed(cfg, old(Books(store, log, nextAttempt)), locks.Keys, now, selected, replies)
    {
      var k := 0;
      while k < |selected|
        invariant 0 <= k <= |selected|
        invariant Valid() && old(run) <= run && workers == old(workers) && locks == old(locks) && wire == old(wire)
        invariant store.invoices.Keys == old(store).invoices.Keys
        invariant CaesNew(log, replies[k..])
        invariant Passed(cfg, Books(store, log, nextAttempt), locks.Keys, now, selected[k..], replies[k..])
               == Passed(cfg, old(Books(store, log, nextAttempt)), locks.Keys, now, selected, replies)
      {
        var i := selected[k];
        assert i in selected;
        PassedFrom(cfg, Books(store, log, nextAttempt), locks.Keys, now, selected, replies, k);
        assert replies[k..][0] == replies[k] && replies[k..][1..] == replies[k + 1..];
        CaesStayNew(log, replies[k..], store.invoices[i].coord, nextAttempt);
        var exit := RequestCae(w, i, replies[k]);
        k := k + 1;
      }
    }

    /** `_cron_l10n_ar_arca_authorize_pending`: its search, and a request for each invoice it selects. */
    method CronAuthorizePending(w: WorkerId, date: InvoiceId -> nat, name: Coordinate -> string,
                                answers: InvoiceId -> Reply)
      returns (selected: seq<InvoiceId>, all: seq<InvoiceId>)
      requires Valid() && w !in workers && NewCaes(log, answers)
      modifies this`store, this`workers, this`locks, this`wire, this`log, this`nextAttempt, this`run
      ensures Valid() && old(run) <= run && workers == old(workers) && locks == old(locks) && wire == old(wire)
      ensures Listing(old(store), date, name, all) && selected == UpTo(all, 50)
      ensures forall i :: i in selected ==>
                i in old(store).invoices && old(store).invoices[i].posted
                && old(store).invoices[i].arca == ArcaState.Pending
      ensures forall i :: i in old(store).invoices && old(store).invoices[i].posted
                          && old(store).invoices[i].arca == ArcaState.Pending && |all| <= 50 ==>
                i in selected
      ensures forall i :: i in old(store).invoices && i !in selected ==>
                i in store.invoices && store.invoices[i] == old(store).invoices[i]
      ensures Books(store, log, nextAttempt)
           == Passed(cfg, old(Books(store, log, nextAttempt)), locks.Keys, now, selected, RepliesTo(answers, selected))
    {
      selected, all := SearchPending(store, date, name, CRON_LIMIT);
      NewCaesInTurn(log, answers, selected);
      AuthorizePending(w, selected, RepliesTo(answers, selected));
      forall i | i in old(store).invoices && i !in selected {
        PassSparesUnselected(cfg, old(Books(store, log, nextAttempt)), locks.Keys, now, selected,
                             RepliesTo(answers, selected), i);
      }
    }

    /** Minutes in which no request left behind gets stale on its way. */
    method WaitMinutes(minutes: nat)
      requires Valid() && FreshAt(wire, store.attempts, workers, now + minutes)
      modifies this`now, this`run
      ensures Valid() && old(run) <= run && now == old(now) + minutes
    {
      now := now + minutes;
      run := Wait(cfg, NoLapse, run, minutes);
    }

    /** One pass of the reconciler with ARCA answering and the sequences it needs free. */
    method OnePass(w: WorkerId)
      requires Valid() && w !in workers && KeysFree(cfg, store, locks.Keys, OpenAttempts(store, now))
      modifies this`store, this`workers, this`locks, this`run
      ensures Valid() && old(run) <= run && workers == old(workers) && locks == old(locks)
      ensures PassDone(old(store), store, log, Oldest(old(store), now, CRON_LIMIT))
    {
      var ids := Oldest(store, now, CRON_LIMIT);
      RefsAreOk();
      CronReconcileOpenAttempts(w, store.attempts.Keys);
      RecoverAllSettles(cfg, old(store), log, locks.Keys, ids, old(store).attempts.Keys);
    }

    /** Pass after pass in one moment: after n/50 passes, rounded up, none of the n attempts that may be
        taken is left, each agrees with ARCA's ledger, and no other attempt has changed. */
    method RecoverEverything(w: WorkerId, passes: nat)
      requires Valid() && w !in workers && KeysFree(cfg, store, locks.Keys, OpenAttempts(store, now))
      modifies this`store, this`workers, this`locks, this`run
      ensures Valid() && old(run) <= run && workers == old(workers) && locks == old(locks)
      ensures |OpenAttempts(store, now)| == LeftAfter(|OpenAttempts(old(store), now)|, CRON_LIMIT * passes)
      ensures Progressed(old(store), store, log)
      ensures |OpenAttempts(old(store), now)| <= 50 * passes ==> OpenAttempts(store, now) == {}
      ensures forall a :: a in store.attempts && a !in OpenAttempts(old(store), now) ==>
                store.attempts[a] == old(store).attempts[a]
    {
      RefsAreOk();
      var k := 0;
      while k < passes
        invariant 0 <= k <= passes
        invariant Valid() && old(run) <= run && workers == old(workers) && locks == old(locks)
        invariant KeysFree(cfg, store, locks.Keys, OpenAttempts(store, now))
        invariant AdvancedBy(old(store), store, log, now, CRON_LIMIT * k)
      {
        ghost var before := store;
        OnePass(w);
        PassAdvances(cfg, old(store), before, store, log, now, locks.Keys, CRON_LIMIT * k);
        k := k + 1;
      }
    }

    /** One pass among others: what could be taken at the `start` comes closer to being settled. */
    method PassOnTheWay(w: WorkerId, ghost first: Store, ghost start: nat, ghost settled: nat)
      requires Valid() && w !in workers && KeysFree(cfg, store, locks.Keys, Unsettled(store))
      requires start <= now && SingleLive(first.attempts)
      requires Progressed(first, store, log) && CloserBy(first, start, store, settled)
      modifies this`store, this`workers, this`locks, this`run
      ensures Valid() && old(run) <= run && workers == old(workers) && locks == old(locks)
      ensures KeysFree(cfg, store, locks.Keys, Unsettled(store))
      ensures TimesKept(old(store).attempts, store.attempts)
      ensures Progressed(first, store, log) && CloserBy(first, start, store, settled + CRON_LIMIT)
    {
      RipeAreUnsettled(cfg, store, locks.Keys, now);
      OnePass(w);
      AfterAPass(cfg, first, start, old(store), store, log, locks.Keys, now, settled);
      SameTimes(old(store), store, log, Oldest(old(store), now, CRON_LIMIT));
    }

    /** And the pause after it. */
    method PassThenPause(w: WorkerId, pause: nat, ghost first: Store, ghost start: nat, ghost settled: nat,
                         ghost end: nat)
      requires Valid() && w !in workers && KeysFree(cfg, store, locks.Keys, Unsettled(store))
      requires start <= now && now + pause <= end && FreshAt(wire, store.attempts, workers, end)
      requires SingleLive(first.attempts)
      requires Progressed(first, store, log) && CloserBy(first, start, store, settled)
      modifies this`store, this`workers, this`locks, this`now, this`run
      ensures Valid() && old(run) <= run && workers == old(workers) && locks == old(locks) && now == old(now) + pause
      ensures KeysFree(cfg, store, locks.Keys, Unsettled(store)) && FreshAt(wire, store.attempts, workers, end)
      ensures Progressed(first, store, log) && CloserBy(first, start, store, settled + CRON_LIMIT)
    {
      ghost var before := store;
      PassOnTheWay(w, first, start, settled);
      FreshSooner(wire, before.attempts, store.attempts, workers, now + pause, end);
      WaitMinutes(pause);
    }

    /** With time passing between the passes others become ripe and may be taken first, so every open
        attempt counts: after n/50 passes, rounded up, each that could be taken at the start is final and
        agrees with ARCA's ledger. */
    method RecoverWithPauses(w: WorkerId, passes: nat, pause: nat)
      requires Valid() && w !in workers && KeysFree(cfg, store, locks.Keys, Unsettled(store))
      requires FreshAt(wire, store.attempts, workers, now + passes * pause)
      modifies this`store, this`workers, this`locks, this`now, this`run
      ensures Valid() && old(run) <= run && workers == old(workers) && locks == old(locks)
      ensures Progressed(old(store), store, log)
      ensures |Unsettled(old(store))| <= 50 * passes ==>
                forall a :: a in OpenAttempts(old(store), old(now)) ==>
                  a in store.attempts && RecoveredFrom(old(store).attempts[a], store.attempts[a], log)
                  && InvoiceFollows(store, a)
    {
      RefsAreOk();
      var k := 0;
      ghost var end := now + passes * pause;
      while k < passes
        invariant 0 <= k <= passes && now == old(now) + k * pause
        invariant Valid() && old(run) <= run && workers == old(workers) && locks == old(locks)
        invariant KeysFree(cfg, store, locks.Keys, Unsettled(store))
        invariant FreshAt(wire, store.attempts, workers, end)
        invariant Progressed(old(store), store, log)
        invariant CloserBy(old(store), old(now), store, CRON_LIMIT * k)
      {
        PausesFit(k, passes, pause);
        PassThenPause(w, pause, old(store), old(now), CRON_LIMIT * k, end);
        k := k + 1;
      }
      AllSettledInTheEnd(old(store), old(now), store, log, CRON_LIMIT * passes);
    }

    lemma RefsAreOk()
      requires Valid()
      ensures RefsOk(store) && SingleLive(store.attempts)
    {
      ValidIsReachable();
      ReachableInv(cfg, View());
    }
  }

  /** The only attempt an event can add is the one it records. */
  lemma NewAttempts(c: Config, s: State, e: Event)
    requires Enabled(c, s, e)
    ensures forall a :: a in Apply(c, s, e).store.attempts ==>
              a in s.store.attempts || (e.CommitAttempt? && a == e.attempt)
  {
  }

  /** What is fresh at the end is fresh before it, and a pass changes no attempt's time. */
  lemma FreshSooner(wire: set<AttemptId>, before: map<AttemptId, Attempt>, after: map<AttemptId, Attempt>,
                    workers: map<WorkerId, Worker>, sooner: nat, end: nat)
    requires FreshAt(wire, before, workers, end) && sooner <= end && TimesKept(before, after)
    ensures FreshAt(wire, after, workers, end) && FreshAt(wire, after, workers, sooner)
  {
  }

  /** ARCA has treated the request, or it never left: its call can be over. */
  lemma CallIsOver(log: seq<Voucher>, s: State, a: AttemptId, reply: Reply)
    requires Ends(reply) && Plausible(log, reply) && a !in s.wire && !Landed(log, a)
    requires match VerdictOf(reply)
             case Accept(cae) => |s.log| == |log| + 1 && s.log[|log|].attempt == a && s.log[|log|].cae == cae
             case _ => s.log == log
    ensures CallOver(s, a, ResultOf(reply))
  {
    if VerdictOf(reply).Accept? {
      assert s.log[|log|] in s.log;
      assert Landed(s.log, a);
    }
  }
}
