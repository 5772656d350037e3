/**
 What requests do to the store and to ARCA's ledger: one request, one after the other, and the scheduled pass
 with its search.
 */
module Requests {
  import opened Base
  import opened Ledger
  import opened Protocol
  import opened InvoiceLife
  import opened PendingOrder
  import opened Recovery
  import Wsfe

  /** What stops a request before anything is written, besides the invoice, the lock and the number. */
  datatype Obstacle =
    | NoLockKey          // the issuer, the document type or the number cannot be read
    | NoCertificate
    | OtherPointOfSale   // the number is of another point of sale than the journal's
    | NoLastNumber       // FECompUltimoAutorizado failed
    | NotBuilt           // the request could not be built from the invoice

  /** What one request meets outside this system: an obstacle before it is recorded, a failure before it
      leaves, an exception nobody classifies (the certificate turned out unusable), or ARCA, which treats
      the request one way and lets the call end in any way that is honest about it; meanwhile a user may set
      the invoice to draft. */
  datatype Reply =
    | Blocked(obstacle: Obstacle)
    | Unsent(stage: Wsfe.PreSend)
    | Escapes
    | Transmitted(verdict: Verdict, result: Wsfe.CallResult, drafted: bool)

  function VerdictOf(reply: Reply): Verdict { if reply.Transmitted? then reply.verdict else Die }

  /** The call ends in a way the code classifies. */
  predicate Ends(reply: Reply) { reply.Unsent? || reply.Transmitted? }

  predicate Drafted(reply: Reply) { reply.Transmitted? && reply.drafted }

  function ResultOf(reply: Reply): Wsfe.CallResult
    requires Ends(reply)
  {
    if reply.Transmitted? then reply.result else Wsfe.NotSent(reply.stage)
  }

  function OutcomeOf(reply: Reply): Wsfe.Outcome
    requires Ends(reply)
  {
    Wsfe.OutcomeOf(ResultOf(reply))
  }

  ghost predicate NewCae(log: seq<Voucher>, verdict: Verdict) {
    verdict.Accept? ==> verdict.cae != "" && forall v :: v in log ==> v.cae != verdict.cae
  }

  /** ARCA is honest, and a CAE it returns is the one it gave. */
  ghost predicate Plausible(log: seq<Voucher>, reply: Reply) {
    reply.Transmitted? ==>
      && NewCae(log, reply.verdict)
      && Wsfe.Honest(reply.result, reply.verdict.Accept?)
      && (OutcomeOf(reply).Authorized? && OutcomeOf(reply).cae.Some? ==>
            reply.verdict.Accept? && OutcomeOf(reply).cae.value == reply.verdict.cae)
  }

  datatype Exit =
    | NotReady | SequenceBusy | NumberTaken | NumberingGap
    | Refused(obstacle: Obstacle)
    | Escaped
    | NotRecorded       // the invoice's row was changed during the call
    | Concluded(outcome: Wsfe.Outcome)

  // ----- what the methods leave behind ----------------------------------------------------------

  function NewAttempt(store: Store, i: InvoiceId, now: nat): Attempt
    requires i in store.invoices
  {
    Attempt(i, store.invoices[i].company, store.invoices[i].coord, Sent, now, None)
  }

  /** The store once the attempt is durable and the invoice is processing. */
  function Sending(store: Store, i: InvoiceId, a: AttemptId, now: nat): Store
    requires i in store.invoices
  {
    Write(store, a, NewAttempt(store, i, now), Processing, store.invoices[i].cae)
  }

  function InDraft(store: Store, i: InvoiceId): Store
    requires i in store.invoices
  {
    SetInvoice(store, i, store.invoices[i].(posted := false))
  }

  /** The store once the call has ended: without its outcome when nothing classified the end, or when the
      invoice was changed meanwhile. */
  function Settled(store: Store, i: InvoiceId, a: AttemptId, now: nat, reply: Reply): Store
    requires i in store.invoices
  {
    AfterCall(Sending(store, i, a, now), i, a, reply)
  }

  /** The same, from the store in which the attempt is already recorded. */
  function AfterCall(sending: Store, i: InvoiceId, a: AttemptId, reply: Reply): Store
    requires HasAttempt(sending, a) && sending.attempts[a].invoice == i
  {
    if !Ends(reply) then sending
    else if Drafted(reply) then InDraft(sending, i)
    else WriteOutcome(sending, a, OutcomeOf(reply))
  }

  function ExitOf(reply: Reply): Exit {
    if !Ends(reply) then Escaped else if Drafted(reply) then NotRecorded else Concluded(OutcomeOf(reply))
  }

  function LogAfter(log: seq<Voucher>, coord: Coordinate, a: AttemptId, reply: Reply): seq<Voucher> {
    match VerdictOf(reply)
    case Accept(cae) => log + [Voucher(coord, cae, a)]
    case _ => log
  }

  // ----- the pending pass -----------------------------------------------------------------------

  /** What requests change: the store, ARCA's ledger and the next attempt id. */
  datatype Books = Books(store: Store, log: seq<Voucher>, next: AttemptId)

  /** Why a request for this row would stop before anything is written, if it would. */
  function StopOf(c: Config, row: Invoice, log: seq<Voucher>, locks: set<int>, reply: Reply): Option<Exit> {
    var expected := Last(c.base, log, row.coord.sequence) + 1;
    if !Ready(row) then Some(NotReady)
    else if reply == Blocked(NoLockKey) then Some(Refused(NoLockKey))
    else if c.key(row.coord.sequence) in locks then Some(SequenceBusy)
    else if reply.Blocked? && reply.obstacle != NotBuilt then Some(Refused(reply.obstacle))
    else if row.coord.number < expected then Some(NumberTaken)
    else if row.coord.number > expected then Some(NumberingGap)
    else if reply.Blocked? then Some(Refused(NotBuilt))
    else None
  }

  /** One request, as `RequestCae` performs it. */
  function Requested(c: Config, books: Books, locks: set<int>, now: nat, i: InvoiceId, reply: Reply): Books {
    if i in books.store.invoices && StopOf(c, books.store.invoices[i], books.log, locks, reply).None?
    then Books(Settled(books.store, i, books.next, now, reply),
               LogAfter(books.log, books.store.invoices[i].coord, books.next, reply), books.next + 1)
    else books
  }

  // ----- what one request leaves --------------------------------------------------------------------

  /** A request goes through exactly when its invoice is posted and pending or rejected, its sequence is free, its
      number is the next one and nothing else is in its way; otherwise the first obstacle is named. */
  lemma WhyARequestStops(c: Config, row: Invoice, log: seq<Voucher>, locks: set<int>, reply: Reply)
    ensures var stop := StopOf(c, row, log, locks, reply);
            var ready := row.posted && (row.arca == ArcaState.Pending || row.arca == ArcaState.Rejected);
            var last := Last(c.base, log, row.coord.sequence);
            && (stop == None <==> ready && c.key(row.coord.sequence) !in locks && row.coord.number == last + 1
                                  && !reply.Blocked?)
            && (stop == Some(NotReady) <==> !ready)
            && (stop == Some(SequenceBusy) <==> ready && reply != Blocked(NoLockKey)
                                                && c.key(row.coord.sequence) in locks)
            && (stop == Some(NumberTaken) ==> row.coord.number <= last)
            && (stop == Some(NumberingGap) ==> row.coord.number > last + 1)
            && (stop.Some? && stop.value.Refused? ==> reply == Blocked(stop.value.obstacle))
            && (stop == Some(Refused(NotBuilt)) ==> row.coord.number == last + 1)
  {
  }

  ghost predicate Held(log: seq<Voucher>, q: Sequence, number: int) {
    exists v :: v in log && v.coord.sequence == q && v.coord.number == number
  }

  /** With nothing else in its way, what a request hears about its number is what ARCA holds: taken when ARCA
      holds it, a gap when ARCA does not even hold the one before it. */
  lemma TheLedgerDecides(c: Config, row: Invoice, log: seq<Voucher>, locks: set<int>, reply: Reply)
    requires GapFree(c.base, log) && Ready(row) && c.key(row.coord.sequence) !in locks && !reply.Blocked?
    requires row.coord.number > c.base(row.coord.sequence)
    ensures var q, n, stop := row.coord.sequence, row.coord.number, StopOf(c, row, log, locks, reply);
            && (stop == Some(NumberTaken) <==> Held(log, q, n))
            && (stop == Some(NumberingGap) <==> n - 1 > c.base(q) && !Held(log, q, n - 1))
            && (stop == None <==> !Held(log, q, n) && (n - 1 == c.base(q) || Held(log, q, n - 1)))
  {
    var q, n := row.coord.sequence, row.coord.number;
    HeldUpToLast(c.base, log, q, n);
    HeldUpToLast(c.base, log, q, n - 1);
  }

  lemma HeldUpToLast(base: Sequence -> nat, log: seq<Voucher>, q: Sequence, number: nat)
    requires GapFree(base, log)
    ensures Held(log, q, number) <==> base(q) < number <= Last(base, log, q)
  {
    GapFreeHoldsEveryNumber(base, log, Coordinate(q, number));
    if Held(log, q, number) {
      var v :| v in log && v.coord.sequence == q && v.coord.number == number;
      assert v.coord == Coordinate(q, number);
    }
  }

  /** The invoice and the attempt a request leaves: as its outcome says, or processing and sent when no outcome
      was recorded. */
  predicate LeftBy(reply: Reply, row: Invoice, i: InvoiceId, now: nat, after: Seen) {
    var sent := Attempt(i, row.company, row.coord, Sent, now, None);
    if !Ends(reply) then after == Seen(sent, row.(arca := Processing))
    else if Drafted(reply) then after == Seen(sent, row.(arca := Processing, posted := false))
    else Shows(Seen(sent, row), OutcomeOf(reply), after)
  }

  /** One request changes its own invoice and its own attempt, and nothing else. */
  lemma RequestLeaves(c: Config, books: Books, locks: set<int>, now: nat, i: InvoiceId, reply: Reply)
    requires i in books.store.invoices && StopOf(c, books.store.invoices[i], books.log, locks, reply).None?
    ensures var store, after := books.store, Requested(c, books, locks, now, i, reply).store;
            && HasAttempt(after, books.next) && after.attempts[books.next].invoice == i
            && LeftBy(reply, store.invoices[i], i, now, SeenAt(after, books.next))
            && after.attempts.Keys == store.attempts.Keys + {books.next} && after.invoices.Keys == store.invoices.Keys
            && (forall b :: b in store.attempts && b != books.next ==> after.attempts[b] == store.attempts[b])
            && (forall j :: j in store.invoices && j != i ==> after.invoices[j] == store.invoices[j])
  {
    var sending := Sending(books.store, i, books.next, now);
    if Ends(reply) && !Drafted(reply) {
      OutcomeShows(sending, books.next, OutcomeOf(reply));
    }
  }

  /** ARCA's ledger has the voucher it accepted, with the number and the attempt of the request, and no other. */
  lemma RequestLogs(c: Config, books: Books, locks: set<int>, now: nat, i: InvoiceId, reply: Reply)
    requires i in books.store.invoices && StopOf(c, books.store.invoices[i], books.log, locks, reply).None?
    ensures var after := Requested(c, books, locks, now, i, reply);
            && after.next == books.next + 1
            && after.log == books.log + (if reply.Transmitted? && reply.verdict.Accept?
                                         then [Voucher(books.store.invoices[i].coord, reply.verdict.cae, books.next)]
                                         else [])
  {
  }

  /** A request that ARCA refused, or that never left. */
  predicate TurnedDown(reply: Reply) {
    Ends(reply) && !Drafted(reply) && (OutcomeOf(reply).Rejected? || OutcomeOf(reply).Aborted?)
  }

  /** Refused or never sent: the invoice is rejected and ready for another request with the same number,
      nothing was added to ARCA's ledger, and the attempt says which of the two it was. */
  lemma TurnedDownIsReady(c: Config, books: Books, locks: set<int>, now: nat, i: InvoiceId, reply: Reply)
    requires i in books.store.invoices && StopOf(c, books.store.invoices[i], books.log, locks, reply).None?
    requires TurnedDown(reply) && Plausible(books.log, reply)
    ensures var after := Requested(c, books, locks, now, i, reply);
            && i in after.store.invoices && books.next in after.store.attempts
            && Ready(after.store.invoices[i])
            && after.store.invoices[i] == books.store.invoices[i].(arca := ArcaState.Rejected)
            && (OutcomeOf(reply).Rejected? ==> after.store.attempts[books.next].state == AttemptState.Rejected)
            && (OutcomeOf(reply).Aborted? ==> after.store.attempts[books.next].state == AttemptState.Aborted)
            && after.log == books.log
  {
    RequestLeaves(c, books, locks, now, i, reply);
    Wsfe.OnlyProvenAbsenceReleases(ResultOf(reply));
  }

  /** So a request turned down costs the invoice nothing: the next one ARCA grants authorizes it. */
  lemma TurnedDownThenGranted(c: Config, books: Books, locks: set<int>, now: nat, later: nat, i: InvoiceId,
                              reply: Reply, retry: Reply)
    requires i in books.store.invoices && StopOf(c, books.store.invoices[i], books.log, locks, reply).None?
    requires TurnedDown(reply) && Plausible(books.log, reply) && Grants(retry)
    ensures var after := Requested(c, Requested(c, books, locks, now, i, reply), locks, later, i, retry);
            && i in after.store.invoices && after.store.invoices[i].arca == ArcaState.Authorized
            && after.store.invoices[i].cae == Some(retry.verdict.cae)
            && after.log == books.log + [Voucher(books.store.invoices[i].coord, retry.verdict.cae, books.next + 1)]
  {
    var once := Requested(c, books, locks, now, i, reply);
    TurnedDownIsReady(c, books, locks, now, i, reply);
    assert StopOf(c, once.store.invoices[i], once.log, locks, retry).None?;
    RequestLeaves(c, once, locks, later, i, retry);
  }

  /** A request that left and whose end is unknown, or could not be recorded, or escaped. */
  predicate LeftOpen(reply: Reply) {
    !reply.Blocked? && (Ends(reply) && !Drafted(reply) ==> OutcomeOf(reply).Uncertain?)
  }

  /** The answer was lost: once the reconciler gets to ask, the invoice carries the very CAE ARCA gave it, or is
      pending again with nothing at ARCA. */
  lemma LostAnswerIsRecovered(c: Config, books: Books, locks: set<int>, now: nat, i: InvoiceId, reply: Reply,
                              locksThen: set<int>)
    requires i in books.store.invoices && StopOf(c, books.store.invoices[i], books.log, locks, reply).None?
    requires LeftOpen(reply) && c.key(books.store.invoices[i].coord.sequence) !in locksThen
    ensures var sent := Requested(c, books, locks, now, i, reply);
            var after := RecoverOne(c, sent.store, sent.log, locksThen, books.next, true);
            && i in after.invoices && books.next in after.attempts
            && (match VerdictOf(reply)
                case Accept(cae) =>
                  after.invoices[i].arca == ArcaState.Authorized && after.invoices[i].cae == Some(cae)
                  && after.attempts[books.next].state == AttemptState.Authorized
                case _ =>
                  after.invoices[i].arca == ArcaState.Pending && after.invoices[i].cae == books.store.invoices[i].cae
                  && after.attempts[books.next].state == AttemptState.Aborted && sent.log == books.log)
  {
    var row := books.store.invoices[i];
    var sent := Requested(c, books, locks, now, i, reply);
    RequestLeaves(c, books, locks, now, i, reply);
    NextIsNotHeld(c.base, books.log, row.coord);
    match VerdictOf(reply)
    case Accept(cae) => ConsultFindsTheNew(books.log, Voucher(row.coord, cae, books.next));
    case _ =>
  }

  lemma NextIsNotHeld(base: Sequence -> nat, log: seq<Voucher>, coord: Coordinate)
    requires coord.number == Last(base, log, coord.sequence) + 1
    ensures Consult(log, coord).None?
  {
    forall v | v in log
      ensures v.coord != coord
    {
      NumbersUpToLast(base, log, v);
    }
  }

  lemma {:induction false} ConsultFindsTheNew(log: seq<Voucher>, v: Voucher)
    requires Consult(log, v.coord).None?
    ensures Consult(log + [v], v.coord) == Some(v.cae)
  {
    if log != [] {
      assert (log + [v])[1..] == log[1..] + [v];
      ConsultFindsTheNew(log[1..], v);
    }
  }

  function Passed(c: Config, books: Books, locks: set<int>, now: nat, selected: seq<InvoiceId>,
                  replies: seq<Reply>): Books
    requires |replies| == |selected|
    decreases |selected|
  {
    if selected == [] then books
    else Passed(c, Requested(c, books, locks, now, selected[0], replies[0]), locks, now, selected[1..], replies[1..])
  }

  lemma PassedFrom(c: Config, books: Books, locks: set<int>, now: nat, selected: seq<InvoiceId>,
                   replies: seq<Reply>, k: nat)
    requires k < |selected| == |replies|
    ensures var after := Requested(c, books, locks, now, selected[k], replies[k]);
            && Passed(c, books, locks, now, selected[k..], replies[k..])
               == Passed(c, after, locks, now, selected[k + 1..], replies[k + 1..])
            && after.store.invoices.Keys == books.store.invoices.Keys
  {
    assert selected[k..][0] == selected[k] && selected[k..][1..] == selected[k + 1..];
    assert replies[k..][0] == replies[k] && replies[k..][1..] == replies[k + 1..];
  }

  /** The CAEs ARCA may give during a pass are new and differ. */
  ghost predicate CaesNew(log: seq<Voucher>, replies: seq<Reply>) {
    && (forall k :: 0 <= k < |replies| ==> Plausible(log, replies[k]))
    && (forall j, k :: 0 <= j < k < |replies| && VerdictOf(replies[j]).Accept? && VerdictOf(replies[k]).Accept?
          ==> VerdictOf(replies[j]).cae != VerdictOf(replies[k]).cae)
  }

  lemma CaesStayNew(log: seq<Voucher>, replies: seq<Reply>, coord: Coordinate, a: AttemptId)
    requires replies != [] && CaesNew(log, replies)
    ensures CaesNew(log, replies[1..]) && CaesNew(LogAfter(log, coord, a, replies[0]), replies[1..])
  {
  }

  function CoordsOf(store: Store, selected: seq<InvoiceId>): seq<Coordinate>
    requires forall i :: i in selected ==> i in store.invoices
  {
    seq(|selected|, k requires 0 <= k < |selected| => store.invoices[selected[k]].coord)
  }

  /** Distinct ready invoices whose numbers, in this order, are each the next one of their sequence. */
  ghost predicate AllInTurn(c: Config, books: Books, selected: seq<InvoiceId>) {
    && (forall i :: i in selected ==> i in books.store.invoices && Ready(books.store.invoices[i]))
    && (forall j, k :: 0 <= j < k < |selected| ==> selected[j] != selected[k])
    && InTurn((q: Sequence) => Last(c.base, books.log, q), CoordsOf(books.store, selected))
  }

  /** ARCA creates the voucher and returns its CAE. */
  predicate Grants(reply: Reply) {
    reply.Transmitted? && !reply.drafted && reply.verdict.Accept? && reply.verdict.cae != ""
    && OutcomeOf(reply) == Wsfe.Authorized(Some(reply.verdict.cae))
  }

  predicate AllGranted(replies: seq<Reply>) { forall k | 0 <= k < |replies| :: Grants(replies[k]) }

  lemma {:induction false} CountTail(coords: seq<Coordinate>, q: Sequence)
    requires coords != []
    ensures CountOf(coords, q) == (if coords[0].sequence == q then 1 else 0) + CountOf(coords[1..], q)
    decreases |coords|
  {
    var n := |coords| - 1;
    if n > 0 {
      CountTail(coords[..n], q);
      assert coords[..n][1..] == coords[1..][..n - 1];
    }
  }

  /** A granted request for the first of a selection touches none of the other invoices. */
  lemma GrantSparesOthers(c: Config, books: Books, now: nat, selected: seq<InvoiceId>, reply: Reply)
    requires selected != [] && AllInTurn(c, books, selected) && Grants(reply)
    ensures var books' := Requested(c, books, {}, now, selected[0], reply);
            && books'.store == Settled(books.store, selected[0], books.next, now, reply)
            && books'.log
               == books.log + [Voucher(books.store.invoices[selected[0]].coord, reply.verdict.cae, books.next)]
            && forall j :: j in selected[1..] ==>
                 j in selected && j in books'.store.invoices
                 && books'.store.invoices[j] == books.store.invoices[j]
  {
    var i := selected[0];
    assert i in selected;
    assert CoordsOf(books.store, selected)[..0] == [];
    forall j | j in selected[1..]
      ensures j in selected && j != i
    {
      var k :| 0 <= k < |selected[1..]| && selected[1..][k] == j;
      assert selected[k + 1] == j;
    }
  }

  lemma TurnPasses(c: Config, log: seq<Voucher>, coords: seq<Coordinate>, v: Voucher)
    requires coords != [] && v.coord == coords[0]
    requires InTurn((q: Sequence) => Last(c.base, log, q), coords)
    ensures InTurn((q: Sequence) => Last(c.base, log + [v], q), coords[1..])
  {
    var rest := coords[1..];
    assert coords[..0] == [];
    forall k | 0 <= k < |rest|
      ensures rest[k].number
           == Last(c.base, log + [v], rest[k].sequence) + 1 + CountOf(rest[..k], rest[k].sequence)
    {
      assert rest[k] == coords[k + 1];
      CountTail(coords[..k + 1], rest[k].sequence);
      assert coords[..k + 1][1..] == rest[..k];
      LastAppend(c.base, log, v, rest[k].sequence);
    }
  }

  /** Granting the first request leaves the others in turn. */
  lemma GrantKeepsTurn(c: Config, books: Books, now: nat, selected: seq<InvoiceId>, reply: Reply)
    requires selected != [] && AllInTurn(c, books, selected) && Grants(reply)
    ensures AllInTurn(c, Requested(c, books, {}, now, selected[0], reply), selected[1..])
  {
    GrantSparesOthers(c, books, now, selected, reply);
    var books' := Requested(c, books, {}, now, selected[0], reply);
    var coords := CoordsOf(books.store, selected);
    TurnPasses(c, books.log, coords, books'.log[|books.log|]);
    assert CoordsOf(books'.store, selected[1..]) == coords[1..];
  }

  /** When the selection is in turn and ARCA grants every request, each invoice ends authorized with
      the CAE it was granted. */
  lemma {:induction false} PassAuthorizesAll(c: Config, books: Books, now: nat, selected: seq<InvoiceId>,
                                             replies: seq<Reply>, k: nat)
    requires |replies| == |selected| && AllInTurn(c, books, selected) && AllGranted(replies) && k < |selected|
    ensures var books' := Passed(c, books, {}, now, selected, replies);
            selected[k] in books'.store.invoices
            && books'.store.invoices[selected[k]].arca.Authorized?
            && books'.store.invoices[selected[k]].cae == Some(replies[k].verdict.cae)
    decreases |selected|
  {
    var books' := Requested(c, books, {}, now, selected[0], replies[0]);
    GrantSparesOthers(c, books, now, selected, replies[0]);
    GrantKeepsTurn(c, books, now, selected, replies[0]);
    if k == 0 {
      forall j | 0 <= j < |selected[1..]|
        ensures selected[1..][j] != selected[0]
      {
        assert selected[1..][j] == selected[j + 1];
      }
      PassSparesUnselected(c, books', {}, now, selected[1..], replies[1..], selected[0]);
    } else {
      PassAuthorizesAll(c, books', now, selected[1..], replies[1..], k - 1);
    }
  }

  /** The scheduled pass end to end: if the pending numbers of each sequence follow ARCA's last and their
      dates do not go back, then, wherever the limit cuts the search, an ARCA that grants everything
      leaves every selected invoice authorized. */
  lemma OrderedPassAuthorizesAll(c: Config, books: Books, now: nat, prefix: Sequence -> string, last: Sequence -> nat,
                                 docs: seq<Doc>, selected: seq<InvoiceId>, replies: seq<Reply>, k: nat)
    requires forall q :: last(q) == Last(c.base, books.log, q)
    requires forall d :: d in docs ==> Nameable(d)
    requires Ordered(prefix, docs) && FollowsOn(last, docs)
    requires |replies| == |selected| <= |docs| && AllGranted(replies)
    requires forall i :: i in selected ==> i in books.store.invoices && Ready(books.store.invoices[i])
    requires forall j :: 0 <= j < |selected| ==> books.store.invoices[selected[j]].coord == docs[j].coord
    requires k < |selected|
    ensures var books' := Passed(c, books, {}, now, selected, replies);
            selected[k] in books'.store.invoices
            && books'.store.invoices[selected[k]].arca.Authorized?
            && books'.store.invoices[selected[k]].cae == Some(replies[k].verdict.cae)
  {
    SelectionIsInTurn(prefix, last, docs, |selected|);
    assert CoordsOf(books.store, selected) == Coords(docs[..|selected|]);
    PassAuthorizesAll(c, books, now, selected, replies, k);
  }

  // ----- the search of the pending pass ---------------------------------------------------------

  /** How the search orders an invoice; its date and its name are not part of the protocol. */
  function RankOf(store: Store, date: InvoiceId -> nat, name: Coordinate -> string, i: InvoiceId): Rank
    requires i in store.invoices
  {
    Rank(date(i), name(store.invoices[i].coord))
  }

  function Ranks(store: Store, date: InvoiceId -> nat, name: Coordinate -> string, ids: seq<InvoiceId>): seq<Rank>
    requires forall i :: i in ids ==> i in store.invoices
  {
    seq(|ids|, k requires 0 <= k < |ids| => RankOf(store, date, name, ids[k]))
  }

  ghost predicate Distinct(ids: seq<InvoiceId>) { forall j, k :: 0 <= j < k < |ids| ==> ids[j] != ids[k] }

  /** Every pending invoice once, by date and name. */
  ghost predicate Listing(store: Store, date: InvoiceId -> nat, name: Coordinate -> string, all: seq<InvoiceId>) {
    && Distinct(all)
    && (forall i :: i in all <==>
                      i in store.invoices && store.invoices[i].posted && store.invoices[i].arca == ArcaState.Pending)
    && Sorted(Ranks(store, date, name, all))
  }

  function UpTo(ids: seq<InvoiceId>, limit: nat): seq<InvoiceId> { if |ids| <= limit then ids else ids[..limit] }

  /** The search itself: the listing is built one invoice at a time, and cut. */
  method SearchPending(store: Store, date: InvoiceId -> nat, name: Coordinate -> string, limit: nat)
    returns (selected: seq<InvoiceId>, all: seq<InvoiceId>)
    ensures Listing(store, date, name, all) && selected == UpTo(all, limit)
    ensures selected <= all && |selected| == if |all| < limit then |all| else limit
    ensures forall i :: i in all <==>
              i in store.invoices && store.invoices[i].posted && store.invoices[i].arca == ArcaState.Pending
    ensures forall j, k :: 0 <= j < k < |all| ==> all[j] != all[k] && date(all[j]) <= date(all[k])
    ensures forall j, k :: 0 <= j < k < |all| && date(all[j]) == date(all[k]) ==>
              !LexLess(name(store.invoices[all[k]].coord), name(store.invoices[all[j]].coord))
  {
    var pending := set i | i in store.invoices && store.invoices[i].posted && store.invoices[i].arca.Pending?;
    all := ListedOneByOne(store, date, name, pending);
    selected := UpTo(all, limit);
    forall j, k | 0 <= j < k < |all|
      ensures date(all[j]) <= date(all[k])
      ensures date(all[j]) == date(all[k]) ==>
                !LexLess(name(store.invoices[all[k]].coord), name(store.invoices[all[j]].coord))
    {
      assert !Before(Ranks(store, date, name, all)[k], Ranks(store, date, name, all)[j]);
    }
  }

  /** Invoices in order, each put in its place among those listed before. */
  method ListedOneByOne(store: Store, date: InvoiceId -> nat, name: Coordinate -> string, ids: set<InvoiceId>)
    returns (all: seq<InvoiceId>)
    requires forall i :: i in ids ==> i in store.invoices
    ensures Distinct(all) && forall i :: i in all <==> i in ids
    ensures Sorted(Ranks(store, date, name, all))
  {
    var left := ids;
    all := [];
    while left != {}
      invariant Distinct(all) && left <= ids
      invariant forall i :: i in all <==> i in ids && i !in left
      invariant Sorted(Ranks(store, date, name, all))
      decreases |left|
    {
      var i :| i in left;
      var k := Place(Ranks(store, date, name, all), RankOf(store, date, name, i));
      var longer := all[..k] + [i] + all[k..];
      Inserted(all, k, i);
      assert Ranks(store, date, name, longer)
          == Ranks(store, date, name, all)[..k] + [RankOf(store, date, name, i)] + Ranks(store, date, name, all)[k..];
      all, left := longer, left - {i};
    }
  }

  lemma Inserted(ids: seq<InvoiceId>, k: nat, i: InvoiceId)
    requires k <= |ids| && Distinct(ids) && i !in ids
    ensures Distinct(ids[..k] + [i] + ids[k..])
    ensures forall j :: j in ids[..k] + [i] + ids[k..] <==> j == i || j in ids
  {
    assert ids == ids[..k] + ids[k..];
  }

  /** What ARCA has ready for each invoice, should it be asked. */
  ghost predicate NewCaes(log: seq<Voucher>, answers: InvoiceId -> Reply) {
    && (forall i :: Plausible(log, answers(i)))
    && (forall i, j :: i != j && VerdictOf(answers(i)).Accept? && VerdictOf(answers(j)).Accept?
          ==> VerdictOf(answers(i)).cae != VerdictOf(answers(j)).cae)
  }

  function RepliesTo(answers: InvoiceId -> Reply, selected: seq<InvoiceId>): seq<Reply> {
    seq(|selected|, k requires 0 <= k < |selected| => answers(selected[k]))
  }

  lemma NewCaesInTurn(log: seq<Voucher>, answers: InvoiceId -> Reply, selected: seq<InvoiceId>)
    requires NewCaes(log, answers) && Distinct(selected)
    ensures CaesNew(log, RepliesTo(answers, selected))
  {
  }

  function DocsOf(store: Store, date: InvoiceId -> nat, ids: seq<InvoiceId>): seq<Doc>
    requires forall i :: i in ids ==> i in store.invoices
  {
    seq(|ids|, k requires 0 <= k < |ids| => Doc(date(ids[k]), store.invoices[ids[k]].coord))
  }

  /** Names are a prefix per sequence and the number, zero padded. */
  ghost predicate NamedByNumber(store: Store, name: Coordinate -> string, prefix: Sequence -> string,
                                all: seq<InvoiceId>)
  {
    forall i :: i in all && i in store.invoices ==>
      store.invoices[i].coord.number < Power10(NUMBER_WIDTH)
      && name(store.invoices[i].coord)
         == prefix(store.invoices[i].coord.sequence) + Padded(NUMBER_WIDTH, store.invoices[i].coord.number)
  }

  lemma ListingIsOrdered(store: Store, date: InvoiceId -> nat, name: Coordinate -> string, prefix: Sequence -> string,
                         all: seq<InvoiceId>)
    requires Listing(store, date, name, all) && NamedByNumber(store, name, prefix, all)
    ensures var docs := DocsOf(store, date, all);
            (forall d :: d in docs ==> Nameable(d)) && Ordered(prefix, docs)
  {
    var docs, ranks := DocsOf(store, date, all), Ranks(store, date, name, all);
    forall j | 0 <= j < |docs|
      ensures Nameable(docs[j]) && ranks[j] == Rank(docs[j].date, Name(prefix, docs[j]))
    {
      assert all[j] in all;
    }
    forall i, j | 0 <= i < j < |docs|
      ensures docs[i].date < docs[j].date
              || (docs[i].date == docs[j].date && !LexLess(Name(prefix, docs[j]), Name(prefix, docs[i])))
    {
      assert !Before(ranks[j], ranks[i]);
    }
  }

  /** The scheduled pass end to end: if the pending numbers of each sequence follow ARCA's last one and
      their dates do not go back, an ARCA that grants everything leaves every invoice the search selects
      authorized, wherever its limit cuts. */
  lemma SearchedPassAuthorizesAll(c: Config, books: Books, now: nat, date: InvoiceId -> nat, name: Coordinate -> string,
                                  prefix: Sequence -> string, last: Sequence -> nat, all: seq<InvoiceId>,
                                  answers: InvoiceId -> Reply, k: nat)
    requires Listing(books.store, date, name, all) && NamedByNumber(books.store, name, prefix, all)
    requires forall q :: last(q) == Last(c.base, books.log, q)
    requires FollowsOn(last, DocsOf(books.store, date, all))
    requires forall i :: i in all ==> Grants(answers(i))
    requires k < |UpTo(all, CRON_LIMIT)|
    ensures var selected := UpTo(all, CRON_LIMIT);
            var books' := Passed(c, books, {}, now, selected, RepliesTo(answers, selected));
            selected[k] in books'.store.invoices && Grants(answers(selected[k]))
            && books'.store.invoices[selected[k]].arca.Authorized?
            && books'.store.invoices[selected[k]].cae == Some(answers(selected[k]).verdict.cae)
  {
    var selected := UpTo(all, CRON_LIMIT);
    ListingIsOrdered(books.store, date, name, prefix, all);
    forall j | 0 <= j < |selected|
      ensures selected[j] == all[j] && all[j] in all
    {
    }
    OrderedPassAuthorizesAll(c, books, now, prefix, last, DocsOf(books.store, date, all), selected,
                             RepliesTo(answers, selected), k);
  }

  /** When the pass selects them all, no invoice that was posted and pending is left so. */
  lemma NothingStaysPending(c: Config, books: Books, now: nat, date: InvoiceId -> nat, name: Coordinate -> string,
                            prefix: Sequence -> string, last: Sequence -> nat, all: seq<InvoiceId>,
                            answers: InvoiceId -> Reply, i: InvoiceId)
    requires Listing(books.store, date, name, all) && NamedByNumber(books.store, name, prefix, all)
    requires forall q :: last(q) == Last(c.base, books.log, q)
    requires FollowsOn(last, DocsOf(books.store, date, all))
    requires forall j :: j in all ==> Grants(answers(j))
    requires |all| <= 50
    requires i in books.store.invoices && books.store.invoices[i].posted
    requires books.store.invoices[i].arca == ArcaState.Pending
    ensures var books' := Passed(c, books, {}, now, all, RepliesTo(answers, all));
            i in books'.store.invoices && Grants(answers(i)) && books'.store.invoices[i].arca == ArcaState.Authorized
            && books'.store.invoices[i].cae == Some(answers(i).verdict.cae)
  {
    var k :| 0 <= k < |all| && all[k] == i;
    SearchedPassAuthorizesAll(c, books, now, date, name, prefix, last, all, answers, k);
  }

  /** An invoice the pass does not select, because it is no posted pending one or is beyond the limit, is left
      as it is, whatever ARCA answers. */
  lemma {:induction false} PassSparesUnselected(c: Config, books: Books, locks: set<int>, now: nat,
                                                selected: seq<InvoiceId>, replies: seq<Reply>, i: InvoiceId)
    requires |replies| == |selected| && i !in selected && i in books.store.invoices
    ensures var books' := Passed(c, books, locks, now, selected, replies);
            i in books'.store.invoices && books'.store.invoices[i] == books.store.invoices[i]
    decreases |selected|
  {
    if selected != [] {
      var books' := Requested(c, books, locks, now, selected[0], replies[0]);
      assert selected[0] in selected && forall j :: j in selected[1..] ==> j in selected;
      PassSparesUnselected(c, books', locks, now, selected[1..], replies[1..], i);
    }
  }
}
