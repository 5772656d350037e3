/**
 The inductive invariant of the protocol, in two parts.  `CoreInv` is about attempts, invoices, vouchers
 and locks, and holds whatever numbers users give their invoices; `NumberInv` is about the numbers.
 */
module ProtocolInvariant {
  import opened Base
  import opened Ledger
  import opened Protocol
  import Wsfe

  // ----- the committed store -------------------------------------------------------------------

  ghost predicate RefsOk(store: Store) {
    forall a :: a in store.attempts ==> store.attempts[a].invoice in store.invoices
  }

  function MirrorOf(state: AttemptState): ArcaState {
    match state
    case Sent => ArcaState.Processing
    case Uncertain => ArcaState.Uncertain
    case Authorized => ArcaState.Authorized
    case Rejected => ArcaState.Rejected
    case Aborted => ArcaState.Pending
  }

  predicate Busy(arca: ArcaState) { arca.Processing? || arca.Uncertain? || arca.Authorized? }

  /** A live attempt shows in its invoice's state ... */
  ghost predicate Mirrored(store: Store)
    requires RefsOk(store)
  {
    forall a :: a in store.attempts && store.attempts[a].Live()
      ==> store.invoices[store.attempts[a].invoice].arca == MirrorOf(store.attempts[a].state)
  }

  /** ... and an authorized one in its CAE. */
  ghost predicate CaeMirrored(store: Store)
    requires RefsOk(store)
  {
    forall a :: a in store.attempts && store.attempts[a].state.Authorized?
      ==> store.invoices[store.attempts[a].invoice].cae == store.attempts[a].cae
  }

  ghost predicate HasLive(attempts: map<AttemptId, Attempt>, i: InvoiceId) {
    exists a :: a in attempts && attempts[a].invoice == i && attempts[a].Live()
  }

  /** An invoice that is processing, uncertain or authorized has a live attempt. */
  ghost predicate Backed(store: Store) {
    forall i :: i in store.invoices && Busy(store.invoices[i].arca) ==> HasLive(store.attempts, i)
  }

  /** An invoice never has two live attempts. */
  ghost predicate SingleLive(attempts: map<AttemptId, Attempt>) {
    forall a, b :: a in attempts && b in attempts && attempts[a].Live() && attempts[b].Live()
      && attempts[a].invoice == attempts[b].invoice
      ==> a == b
  }

  /** While an attempt is open its invoice keeps the coordinate that was attempted. */
  ghost predicate OpenCoordKept(store: Store)
    requires RefsOk(store)
  {
    forall a :: a in store.attempts && store.attempts[a].Open()
      ==> store.invoices[store.attempts[a].invoice].coord == store.attempts[a].coord
  }

  ghost predicate ClaimsDistinct(invoices: map<InvoiceId, Invoice>) {
    forall i, j :: i in invoices && j in invoices && i != j && Claims(invoices[i]) && Claims(invoices[j])
      ==> invoices[i].coord != invoices[j].coord
  }

  ghost predicate CoreStore(store: Store) {
    && RefsOk(store)
    && Mirrored(store)
    && CaeMirrored(store)
    && Backed(store)
    && SingleLive(store.attempts)
  }

  ghost predicate NumberStore(store: Store)
    requires RefsOk(store)
  {
    OpenCoordKept(store) && ClaimsDistinct(store.invoices)
  }

  ghost predicate StoreOk(store: Store) { CoreStore(store) && NumberStore(store) }

  // ----- the attempts against ARCA's ledger ----------------------------------------------------

  /** Every voucher has a live attempt with its coordinate. */
  ghost predicate VouchersBacked(attempts: map<AttemptId, Attempt>, log: seq<Voucher>) {
    forall v :: v in log ==>
      && v.attempt in attempts
      && attempts[v.attempt].coord == v.coord
      && attempts[v.attempt].Live()
  }

  ghost predicate OneVoucherEach(log: seq<Voucher>) {
    forall j, k :: 0 <= j < k < |log| ==> log[j].attempt != log[k].attempt
  }

  ghost predicate CaesDistinct(log: seq<Voucher>) {
    forall j, k :: 0 <= j < k < |log| ==> log[j].cae != log[k].cae
  }

  ghost predicate IsNext(c: Config, log: seq<Voucher>, coord: Coordinate) {
    coord.number == Last(c.base, log, coord.sequence) + 1
  }

  /** An open attempt ARCA has not fulfilled holds exactly the next number of its sequence. */
  ghost predicate OpenIsNext(c: Config, attempts: map<AttemptId, Attempt>, log: seq<Voucher>) {
    forall a :: a in attempts && attempts[a].Open() && !Landed(log, a) ==> IsNext(c, log, attempts[a].coord)
  }

  /** A voucher at an open attempt's coordinate is that attempt's own. */
  ghost predicate OwnVoucher(attempts: map<AttemptId, Attempt>, log: seq<Voucher>) {
    forall a, v :: a in attempts && attempts[a].Open() && v in log && v.coord == attempts[a].coord
      ==> v.attempt == a
  }

  ghost predicate LandedWith(log: seq<Voucher>, a: AttemptId, cae: Option<Cae>) {
    exists v :: v in log && v.attempt == a && (cae.Some? ==> v.cae == cae.value)
  }

  ghost predicate AuthorizedLanded(attempts: map<AttemptId, Attempt>, log: seq<Voucher>) {
    forall a :: a in attempts && attempts[a].state.Authorized? ==> LandedWith(log, a, attempts[a].cae)
  }

  ghost predicate CoreLedger(attempts: map<AttemptId, Attempt>, log: seq<Voucher>) {
    VouchersBacked(attempts, log) && OneVoucherEach(log)
  }

  ghost predicate NumberLedger(c: Config, attempts: map<AttemptId, Attempt>, log: seq<Voucher>) {
    && GapFree(c.base, log)
    && CaesDistinct(log)
    && OpenIsNext(c, attempts, log)
    && OwnVoucher(attempts, log)
    && AuthorizedLanded(attempts, log)
  }

  ghost predicate LedgerOk(c: Config, attempts: map<AttemptId, Attempt>, log: seq<Voucher>) {
    CoreLedger(attempts, log) && NumberLedger(c, attempts, log)
  }

  /** A request on the wire is a sent attempt ARCA has not processed. */
  ghost predicate WireOk(attempts: map<AttemptId, Attempt>, log: seq<Voucher>, wire: set<AttemptId>) {
    forall a :: a in wire ==> a in attempts && attempts[a].state.Sent? && !Landed(log, a)
  }

  // ----- locks and workers ---------------------------------------------------------------------

  /** The lock table is exactly the keys of the workers inside their blocks. */
  ghost predicate LocksOk(workers: map<WorkerId, Worker>, locks: map<int, WorkerId>) {
    && (forall w :: w in workers ==> workers[w].key in locks && locks[workers[w].key] == w)
    && (forall k :: k in locks ==> locks[k] in workers && workers[locks[k]].key == k)
  }

  ghost predicate NoOpenAt(attempts: map<AttemptId, Attempt>, coord: Coordinate) {
    forall a :: a in attempts && attempts[a].Open() ==> attempts[a].coord != coord
  }

  /** The worker's lock is the one of the attempt's sequence. */
  ghost predicate Holds(c: Config, attempts: map<AttemptId, Attempt>, key: int, a: AttemptId) {
    a in attempts && key == c.key(attempts[a].coord.sequence)
  }

  /** A worker's lock covers the sequence of the row it read, which was ready. */
  ghost predicate ReadOk(c: Config, key: int, row: Invoice) { key == c.key(row.coord.sequence) && Ready(row) }

  /** The attempt is the worker's to write, and as its snapshot has it. */
  ghost predicate Own(c: Config, attempts: map<AttemptId, Attempt>, key: int, a: AttemptId, seen: Seen) {
    Holds(c, attempts, key, a) && attempts[a] == seen.attempt
  }

  ghost predicate CoreWorker(c: Config, store: Store, log: seq<Voucher>, wire: set<AttemptId>, key: int, stage: Stage) {
    match stage
    case Locked(i) => i in store.invoices
    case Checked(_, row) => ReadOk(c, key, row)
    case Numbered(_, row) => ReadOk(c, key, row)
    case Staged(_, row, _) => ReadOk(c, key, row)
    case Armed(a) =>
      Holds(c, store.attempts, key, a) && store.attempts[a].state.Sent? && a !in wire && !Landed(log, a)
    case Opened(a, seen) =>
      Own(c, store.attempts, key, a, seen) && store.attempts[a].state.Sent? && a !in wire && !Landed(log, a)
    case Waiting(a, seen) => Own(c, store.attempts, key, a, seen) && store.attempts[a].state.Sent?
    case Resolved(a, seen, outcome) =>
      Own(c, store.attempts, key, a, seen) && store.attempts[a].state.Sent? && a !in wire
      && (Wsfe.ReleasesNumber(outcome) ==> !Landed(log, a))
    case Recovering(a) => Holds(c, store.attempts, key, a) && (store.attempts[a].Open() ==> a !in wire)
    case Consulted(a, seen, answer) =>
      Own(c, store.attempts, key, a, seen) && store.attempts[a].Open() && a !in wire
      && !answer.Refused? && (answer.NotFound? ==> !Landed(log, a))
    case Finished => true
  }

  /** The number a worker found next still is, and what it was told about its attempt is still so. */
  ghost predicate NumberWorker(c: Config, attempts: map<AttemptId, Attempt>, log: seq<Voucher>, stage: Stage) {
    match stage
    case Checked(_, row) => NoOpenAt(attempts, row.coord)
    case Numbered(_, row) => NoOpenAt(attempts, row.coord) && IsNext(c, log, row.coord)
    case Staged(_, row, _) => NoOpenAt(attempts, row.coord) && IsNext(c, log, row.coord)
    case Resolved(a, _, outcome) => outcome.Authorized? ==> LandedWith(log, a, outcome.cae)
    case Consulted(a, _, answer) => a in attempts && answer == AnswerOf(Consult(log, attempts[a].coord))
    case _ => true
  }

  ghost predicate CoreWorkers(c: Config, store: Store, log: seq<Voucher>, wire: set<AttemptId>,
                              workers: map<WorkerId, Worker>)
  {
    forall w :: w in workers ==> CoreWorker(c, store, log, wire, workers[w].key, workers[w].stage)
  }

  ghost predicate NumberWorkers(c: Config, attempts: map<AttemptId, Attempt>, log: seq<Voucher>,
                                workers: map<WorkerId, Worker>)
  {
    forall w :: w in workers ==> NumberWorker(c, attempts, log, workers[w].stage)
  }

  ghost predicate CoreInv(c: Config, s: State) {
    && CoreStore(s.store)
    && CoreLedger(s.store.attempts, s.log)
    && WireOk(s.store.attempts, s.log, s.wire)
    && LocksOk(s.workers, s.locks)
    && CoreWorkers(c, s.store, s.log, s.wire, s.workers)
  }

  ghost predicate NumberInv(c: Config, s: State) {
    && RefsOk(s.store) && NumberStore(s.store)
    && NumberLedger(c, s.store.attempts, s.log)
    && NumberWorkers(c, s.store.attempts, s.log, s.workers)
  }

  ghost predicate Inv(c: Config, s: State) { CoreInv(c, s) && NumberInv(c, s) }
}
