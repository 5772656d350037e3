/**
 The access tickets of one certificate: a cache keyed by service, read without a lock and again under
 it, over a server that refuses a second ticket while the one it gave lives.

 The cell holding the cache is one row, so a commit against a version someone else has replaced
 fails, whichever service it was for.
 */
module Wsaa {
  import opened Base

  type Service = string
  type WorkerId = nat

  /** An entry of the cache; a missing or unreadable expiration is None. */
  datatype Entry = Entry(token: string, sign: string, expiration: Option<int>)
  type Cache = map<Service, Entry>

  const TOKEN_RENEWAL_MARGIN_MINUTES := 15

  predicate Usable(e: Entry, now: int) {
    e.expiration.Some? && e.expiration.value > now + TOKEN_RENEWAL_MARGIN_MINUTES
  }

  predicate Live(e: Entry, now: int) { e.expiration.Some? && e.expiration.value > now }

  /** `_read_cached_token`: credentials comfortably ahead of their expiry, or nothing. */
  function ReadCachedToken(cache: Cache, service: Service, now: int): (r: Option<Entry>)
    ensures r.Some? <==> service in cache && Usable(cache[service], now)
    ensures r.Some? <==>
              service in cache && cache[service].expiration.Some? && cache[service].expiration.value - now > 15
    ensures r.Some? ==> r.value == cache[service]
  {
    if service !in cache then None
    else
      var entry := cache[service];
      if entry.expiration.None? then None
      else if entry.expiration.value <= now + TOKEN_RENEWAL_MARGIN_MINUTES then None
      else Some(entry)
  }

  // ----- one call, on its own -------------------------------------------------------------------

  /** `_parse_login_response` gives every ticket an expiration, an hour when ARCA's is unreadable. */
  datatype LoginAnswer =
    | Granted(token: string, sign: string, expiresAt: int)
    | AlreadyAuthenticated
    | LoginRefused
    | Unreachable

  datatype TokenResult = CertificateUnusable | Token(entry: Entry) | TicketBusy | BusinessError | AuthenticationAborted

  /** The committed row of a certificate, and the ticket locks others hold. */
  class TicketCell {
    var cache: Cache
    var locks: set<int>

    constructor ()
      ensures cache == map[] && locks == {}
    {
      cache, locks := map[], {};
    }

    method StoreToken(service: Service, entry: Entry)
      modifies this`cache
      ensures cache == old(cache)[service := entry]
    {
      cache := cache[service := entry];
    }

    /** `_authenticate`: only a granted login is stored. */
    method Authenticate(service: Service, answer: LoginAnswer) returns (r: TokenResult)
      modifies this`cache
      ensures r.Token? <==> answer.Granted?
      ensures r.Token? ==> cache == old(cache)[service := r.entry]
                           && r.entry == Entry(answer.token, answer.sign, Some(answer.expiresAt))
      ensures !r.Token? ==> cache == old(cache)
      ensures answer.Unreachable? <==> r.AuthenticationAborted?
      ensures answer.AlreadyAuthenticated? || answer.LoginRefused? <==> r.BusinessError?
    {
      match answer {
        case Granted(token, sign, expiresAt) =>
          var entry := Entry(token, sign, Some(expiresAt));
          StoreToken(service, entry);
          r := Token(entry);
        case AlreadyAuthenticated => r := BusinessError;
        case LoginRefused => r := BusinessError;
        case Unreachable => r := AuthenticationAborted;
      }
    }

    /** `_get_or_refresh_token`. The first look is through the caller's own transaction, whose `view`
        may be older than the row; the second is on the dedicated connection, under the lock, and sees
        every commit. The lock is free again however the call ends. */
    method GetOrRefreshToken(usable: bool, view: Cache, service: Service, key: int, now: int, answer: LoginAnswer)
      returns (r: TokenResult)
      modifies this
      ensures locks == old(locks)
      ensures r.CertificateUnusable? <==> !usable
      ensures usable && ReadCachedToken(view, service, now).Some? ==>
                r == Token(view[service]) && cache == old(cache)
      ensures r.TicketBusy? <==> usable && ReadCachedToken(view, service, now).None? && key in locks
      ensures var asked := usable && ReadCachedToken(view, service, now).None? && key !in locks;
              && (asked && ReadCachedToken(old(cache), service, now).Some? ==>
                    r == Token(old(cache)[service]) && cache == old(cache))
              && (asked && ReadCachedToken(old(cache), service, now).None? ==>
                    (r.Token? <==> answer.Granted?)
                    && (answer.Granted? ==>
                          r.entry == Entry(answer.token, answer.sign, Some(answer.expiresAt))
                          && cache == old(cache)[service := r.entry]))
      ensures !r.Token? ==> cache == old(cache)
    {
      if !usable {
        return CertificateUnusable;
      }
      var cached := ReadCachedToken(view, service, now);
      if cached.Some? {
        return Token(cached.value);
      }
      if key in locks {
        return TicketBusy;
      }
      locks := locks + {key};
      cached := ReadCachedToken(cache, service, now);
      if cached.Some? {
        r := Token(cached.value);
      } else {
        r := Authenticate(service, answer);
      }
      locks := locks - {key};
      assert locks == old(locks);
    }
  }

  // ----- any number of callers ------------------------------------------------------------------

  /** `version` is the row's when the snapshot was taken. */
  datatype Stage =
    | Locked
    | Missed(snapshot: Cache, version: nat)
    | Issued(snapshot: Cache, version: nat, entry: Entry)
    | Done

  datatype Worker = Worker(service: Service, key: int, stage: Stage)

  /** `version` counts the updates of the row, `issued` is the last ticket ARCA gave per service, `lost`
      those whose copy a crash, a failed commit or a certificate change took, `committed` and `returned` are
      history. */
  datatype State = State(
    cache: Cache,
    version: nat,
    workers: map<WorkerId, Worker>,
    locks: map<int, WorkerId>,
    issued: map<Service, Entry>,
    lost: set<Service>,
    committed: set<(Service, Entry)>,
    returned: set<(Service, Entry)>,
    now: int)

  datatype Event =
    | Hit(service: Service, entry: Entry)
    | TakeLock(worker: WorkerId, service: Service)
    | Reread(worker: WorkerId)
    | Login(worker: WorkerId, entry: Entry)
    | Commit(worker: WorkerId)
    | Leave(worker: WorkerId)
    | CertificateChange
    | Tick

  predicate At(s: State, w: WorkerId) { w in s.workers }

  function Goto(s: State, w: WorkerId, stage: Stage): State
    requires At(s, w)
  {
    s.(workers := s.workers[w := s.workers[w].(stage := stage)])
  }

  predicate CanLogin(s: State, w: WorkerId, entry: Entry) {
    At(s, w) && s.workers[w].stage.Missed? && entry.expiration.Some?
    && var service := s.workers[w].service;
    service in s.issued ==> !Live(s.issued[service], s.now)
  }

  predicate Enabled(key: Service -> int, s: State, e: Event) {
    match e
    case Hit(service, entry) =>
      // the caller's snapshot may be old: any ticket that was ever committed and has not run down
      (service, entry) in s.committed && Usable(entry, s.now)
    case TakeLock(w, service) => !At(s, w) && key(service) !in s.locks
    case Reread(w) => At(s, w) && s.workers[w].stage.Locked?
    case Login(w, entry) => CanLogin(s, w, entry)
    case Commit(w) => At(s, w) && s.workers[w].stage.Issued? && s.version == s.workers[w].stage.version
    case Leave(w) => At(s, w)
    case CertificateChange => true
    case Tick => true
  }

  function DoReread(s: State, w: WorkerId): State
    requires At(s, w)
  {
    var service := s.workers[w].service;
    var cached := ReadCachedToken(s.cache, service, s.now);
    if cached.Some? then Goto(s, w, Done).(returned := s.returned + {(service, cached.value)})
    else Goto(s, w, Missed(s.cache, s.version))
  }

  function DoCommit(s: State, w: WorkerId): State
    requires At(s, w) && s.workers[w].stage.Issued?
  {
    var service, entry := s.workers[w].service, s.workers[w].stage.entry;
    Goto(s, w, Done).(
      cache := s.workers[w].stage.snapshot[service := entry],
      version := s.version + 1,
      committed := s.committed + {(service, entry)},
      returned := s.returned + {(service, entry)})
  }

  function DoLeave(s: State, w: WorkerId): State
    requires At(s, w)
  {
    var worker := s.workers[w];
    s.(workers := s.workers - {w}, locks := s.locks - {worker.key},
       lost := if worker.stage.Issued? then s.lost + {worker.service} else s.lost)
  }

  function Apply(key: Service -> int, s: State, e: Event): State
    requires Enabled(key, s, e)
  {
    match e
    case Hit(service, entry) => s.(returned := s.returned + {(service, entry)})
    case TakeLock(w, service) =>
      s.(workers := s.workers[w := Worker(service, key(service), Locked)], locks := s.locks[key(service) := w])
    case Reread(w) => DoReread(s, w)
    case Login(w, entry) =>
      var service := s.workers[w].service;
      Goto(s, w, Issued(s.workers[w].stage.snapshot, s.workers[w].stage.version, entry)).(
        issued := s.issued[service := entry], lost := s.lost - {service})
    case Commit(w) => DoCommit(s, w)
    case Leave(w) => DoLeave(s, w)
    case CertificateChange => s.(cache := map[], version := s.version + 1, lost := s.lost + s.issued.Keys)
    case Tick => s.(now := s.now + 1)
  }

  // ----- invariant ------------------------------------------------------------------------------

  predicate NothingUsable(s: State, service: Service) { ReadCachedToken(s.cache, service, s.now).None? }

  ghost predicate LocksOk(key: Service -> int, s: State) {
    && (forall w :: w in s.workers ==>
          s.workers[w].key == key(s.workers[w].service)
          && s.workers[w].key in s.locks && s.locks[s.workers[w].key] == w)
    && (forall k :: k in s.locks ==> s.locks[k] in s.workers && s.workers[s.locks[k]].key == k)
  }

  /** While a worker is between its second look and its commit, nobody provides what it missed. */
  ghost predicate MissedOk(s: State) {
    forall w :: w in s.workers && (s.workers[w].stage.Missed? || s.workers[w].stage.Issued?)
      ==> NothingUsable(s, s.workers[w].service)
  }

  /** A snapshot whose version is still the row's is the row. */
  ghost predicate SnapshotsOk(s: State) {
    forall w :: w in s.workers && (s.workers[w].stage.Missed? || s.workers[w].stage.Issued?)
      ==> s.workers[w].stage.version <= s.version
          && (s.workers[w].stage.version == s.version ==> s.workers[w].stage.snapshot == s.cache)
  }

  ghost predicate CommittedOk(s: State) {
    && (forall service :: service in s.cache ==> (service, s.cache[service]) in s.committed)
    && s.returned <= s.committed
  }

  ghost predicate Held(s: State, service: Service) {
    exists w :: w in s.workers && s.workers[w].service == service && s.workers[w].stage.Issued?
  }

  /** A ticket ARCA gave and nobody lost is in the cache or in the hands that will commit it. */
  ghost predicate IssuedOk(s: State) {
    && (forall w :: w in s.workers && s.workers[w].stage.Issued? ==>
          s.workers[w].service in s.issued && s.issued[s.workers[w].service] == s.workers[w].stage.entry)
    && (forall service :: service in s.issued && service !in s.lost && !Held(s, service) ==>
          service in s.cache && s.cache[service] == s.issued[service])
  }

  ghost predicate Inv(key: Service -> int, s: State) {
    LocksOk(key, s) && MissedOk(s) && SnapshotsOk(s) && CommittedOk(s) && IssuedOk(s)
  }

  lemma LoginKeepsInv(key: Service -> int, s: State, w: WorkerId, entry: Entry)
    requires Inv(key, s) && Enabled(key, s, Login(w, entry))
    ensures Inv(key, Apply(key, s, Login(w, entry)))
  {
    var s' := Apply(key, s, Login(w, entry));
    assert s'.workers[w].stage.Issued?;
    forall service | service in s'.issued && service !in s'.lost && !Held(s', service)
      ensures service in s'.cache && s'.cache[service] == s'.issued[service]
    {
      HeldStays(s, s', service);
    }
  }

  lemma HeldStays(s: State, s': State, service: Service)
    requires forall w :: w in s.workers && s.workers[w].stage.Issued? ==>
               w in s'.workers && s'.workers[w].stage.Issued? && s'.workers[w].service == s.workers[w].service
    ensures Held(s, service) ==> Held(s', service)
  {
    if Held(s, service) {
      var w :| w in s.workers && s.workers[w].service == service && s.workers[w].stage.Issued?;
      assert w in s'.workers;
    }
  }

  lemma CommitKeepsInv(key: Service -> int, s: State, w: WorkerId)
    requires Inv(key, s) && Enabled(key, s, Commit(w))
    ensures Inv(key, Apply(key, s, Commit(w)))
  {
    var s' := Apply(key, s, Commit(w));
    forall service | service != s.workers[w].service
      ensures Held(s, service) ==> Held(s', service)
    {
      OthersStillHold(s, s', w, service);
    }
  }

  lemma LeaveKeepsInv(key: Service -> int, s: State, w: WorkerId)
    requires Inv(key, s) && Enabled(key, s, Leave(w))
    ensures Inv(key, Apply(key, s, Leave(w)))
  {
    var s' := Apply(key, s, Leave(w));
    forall service | !(s.workers[w].stage.Issued? && s.workers[w].service == service)
      ensures Held(s, service) ==> Held(s', service)
    {
      OthersStillHold(s, s', w, service);
    }
  }

  /** What one worker does leaves the tickets in other hands there. */
  lemma OthersStillHold(s: State, s': State, w: WorkerId, service: Service)
    requires At(s, w) && !(s.workers[w].stage.Issued? && s.workers[w].service == service)
    requires forall other :: other in s.workers && other != w ==>
               other in s'.workers && s'.workers[other] == s.workers[other]
    ensures Held(s, service) ==> Held(s', service)
  {
    if Held(s, service) {
      var other :| other in s.workers && s.workers[other].service == service && s.workers[other].stage.Issued?;
      assert other in s'.workers;
    }
  }

  /** Where nothing was issued, lost or committed, the tickets are where they were. */
  lemma IssuedStays(s: State, s': State)
    requires IssuedOk(s) && s'.cache == s.cache && s'.issued == s.issued && s'.lost == s.lost
    requires forall w :: w in s.workers && s.workers[w].stage.Issued? ==>
               w in s'.workers && s'.workers[w] == s.workers[w]
    requires forall w :: w in s'.workers && s'.workers[w].stage.Issued? ==>
               w in s.workers && s.workers[w] == s'.workers[w]
    ensures IssuedOk(s')
  {
    forall service
      ensures Held(s, service) ==> Held(s', service)
    {
      HeldStays(s, s', service);
    }
  }

  lemma RereadKeepsInv(key: Service -> int, s: State, w: WorkerId)
    requires Inv(key, s) && Enabled(key, s, Reread(w))
    ensures Inv(key, Apply(key, s, Reread(w)))
  {
    IssuedStays(s, DoReread(s, w));
    RereadKeepsMissed(s, w);
  }

  lemma RereadKeepsMissed(s: State, w: WorkerId)
    requires MissedOk(s) && SnapshotsOk(s) && CommittedOk(s) && At(s, w)
    ensures MissedOk(DoReread(s, w)) && SnapshotsOk(DoReread(s, w)) && CommittedOk(DoReread(s, w))
  {
  }

  lemma QuietKeepsInv(key: Service -> int, s: State, e: Event)
    requires Inv(key, s) && Enabled(key, s, e)
    requires e.Hit? || e.Tick?
    ensures Inv(key, Apply(key, s, e))
  {
    IssuedStays(s, Apply(key, s, e));
  }

  lemma TakeLockKeepsInv(key: Service -> int, s: State, w: WorkerId, service: Service)
    requires Inv(key, s) && Enabled(key, s, TakeLock(w, service))
    ensures Inv(key, Apply(key, s, TakeLock(w, service)))
  {
    IssuedStays(s, Apply(key, s, TakeLock(w, service)));
  }

  lemma ChangeKeepsInv(key: Service -> int, s: State)
    requires Inv(key, s)
    ensures Inv(key, Apply(key, s, CertificateChange))
  {
  }

  lemma StepKeepsInv(key: Service -> int, s: State, e: Event)
    requires Inv(key, s) && Enabled(key, s, e)
    ensures Inv(key, Apply(key, s, e))
  {
    match e
    case Reread(w) => RereadKeepsInv(key, s, w);
    case Login(w, entry) => LoginKeepsInv(key, s, w, entry);
    case Commit(w) => CommitKeepsInv(key, s, w);
    case Leave(w) => LeaveKeepsInv(key, s, w);
    case TakeLock(w, service) => TakeLockKeepsInv(key, s, w, service);
    case CertificateChange => ChangeKeepsInv(key, s);
    case _ => QuietKeepsInv(key, s, e);
  }

  // ----- runs -----------------------------------------------------------------------------------

  const Initial := State(map[], 0, map[], map[], map[], {}, {}, {}, 0)

  ghost predicate Next(key: Service -> int, s: State, s': State) {
    exists e :: Enabled(key, s, e) && s' == Apply(key, s, e)
  }

  ghost predicate NextAt(key: Service -> int, run: seq<State>, k: nat)
    requires 0 < k < |run|
  {
    Next(key, run[k - 1], run[k])
  }

  ghost predicate Run(key: Service -> int, run: seq<State>) {
    |run| > 0 && run[0] == Initial
    && forall k {:trigger NextAt(key, run, k)} :: 0 < k < |run| ==> NextAt(key, run, k)
  }

  lemma {:induction false} RunHasInv(key: Service -> int, run: seq<State>, k: nat)
    requires Run(key, run) && k < |run|
    ensures Inv(key, run[k])
  {
    if k > 0 {
      RunHasInv(key, run, k - 1);
      assert NextAt(key, run, k);
      var e :| Enabled(key, run[k - 1], e) && run[k] == Apply(key, run[k - 1], e);
      StepKeepsInv(key, run[k - 1], e);
    }
  }

  /** loginCms is only called when no committed ticket of the service has more than the margin left,
      and by one worker at a time. */
  lemma LoginOnlyWhenNothingUsable(key: Service -> int, run: seq<State>, k: nat, w: WorkerId)
    requires Run(key, run) && k < |run| && At(run[k], w) && run[k].workers[w].stage.Missed?
    ensures var s, service := run[k], run[k].workers[w].service;
            && (service !in s.cache || !Usable(s.cache[service], s.now))
            && forall w' :: w' in s.workers && s.workers[w'].service == service ==> w' == w
  {
    RunHasInv(key, run, k);
  }

  /** Every caller is handed a ticket that was committed, whatever its own transaction does next. */
  lemma ReturnedTicketsAreCommitted(key: Service -> int, run: seq<State>, k: nat, service: Service, entry: Entry)
    requires Run(key, run) && k < |run| && (service, entry) in run[k].returned
    ensures exists j :: 0 <= j <= k && service in run[j].cache && run[j].cache[service] == entry
  {
    RunHasInv(key, run, k);
    CommittedWasCached(key, run, k, service, entry);
  }

  lemma {:induction false} CommittedWasCached(key: Service -> int, run: seq<State>, k: nat, service: Service,
                                              entry: Entry)
    requires Run(key, run) && k < |run| && (service, entry) in run[k].committed
    ensures exists j :: 0 <= j <= k && service in run[j].cache && run[j].cache[service] == entry
  {
    if k > 0 {
      assert NextAt(key, run, k);
      if (service, entry) in run[k - 1].committed {
        CommittedWasCached(key, run, k - 1, service, entry);
      } else {
        assert service in run[k].cache && run[k].cache[service] == entry;
      }
    }
  }

  /** And one with more than fifteen minutes left of it, unless ARCA has just issued it. */
  lemma ReturnedTicketsHaveTimeLeft(key: Service -> int, s: State, e: Event, service: Service, entry: Entry)
    requires Enabled(key, s, e) && (service, entry) in Apply(key, s, e).returned && (service, entry) !in s.returned
    ensures (entry.expiration.Some? && entry.expiration.value - s.now > 15)
            || (e.Commit? && At(s, e.worker) && s.workers[e.worker].stage.Issued?
                && s.workers[e.worker].stage.entry == entry)
  {
    match e
    case Reread(w) =>
      var cached := ReadCachedToken(s.cache, s.workers[w].service, s.now);
      assert cached.Some? ==> (service, entry) == (s.workers[w].service, cached.value);
    case _ =>
  }

  /** Nobody who got through is sent away without one ... */
  lemma {:induction false} DoneMeansHandedOut(key: Service -> int, run: seq<State>, k: nat, w: WorkerId)
    requires Run(key, run) && k < |run| && At(run[k], w) && run[k].workers[w].stage.Done?
    ensures exists entry :: (run[k].workers[w].service, entry) in run[k].returned
  {
    if k > 0 {
      assert NextAt(key, run, k);
      var e :| Enabled(key, run[k - 1], e) && run[k] == Apply(key, run[k - 1], e);
      if At(run[k - 1], w) && run[k - 1].workers[w].stage.Done? {
        DoneMeansHandedOut(key, run, k - 1, w);
        var entry :| (run[k - 1].workers[w].service, entry) in run[k - 1].returned;
        ReturnedStays(key, run[k - 1], e);
        assert (run[k].workers[w].service, entry) in run[k].returned;
      } else {
        DoneIsHanded(key, run[k - 1], e, w);
      }
    }
  }

  lemma ReturnedStays(key: Service -> int, s: State, e: Event)
    requires Enabled(key, s, e)
    ensures s.returned <= Apply(key, s, e).returned
    ensures forall w :: At(s, w) && At(Apply(key, s, e), w) ==>
              Apply(key, s, e).workers[w].service == s.workers[w].service
  {
  }

  lemma DoneIsHanded(key: Service -> int, s: State, e: Event, w: WorkerId)
    requires Enabled(key, s, e) && At(Apply(key, s, e), w) && Apply(key, s, e).workers[w].stage.Done?
    requires !(At(s, w) && s.workers[w].stage.Done?)
    ensures exists entry :: (Apply(key, s, e).workers[w].service, entry) in Apply(key, s, e).returned
  {
    var s' := Apply(key, s, e);
    match e
    case Reread(_) =>
      var cached := ReadCachedToken(s.cache, s.workers[w].service, s.now);
      assert (s'.workers[w].service, cached.value) in s'.returned;
    case Commit(_) =>
      assert (s'.workers[w].service, s.workers[w].stage.entry) in s'.returned;
    case _ =>
  }

  /** ... and a change of the certificate leaves none of the old ones to be found. */
  lemma ChangeDropsTickets(key: Service -> int, s: State, service: Service)
    ensures ReadCachedToken(Apply(key, s, CertificateChange).cache, service, s.now) == None
  {
  }

  /** Only a certificate change takes away a ticket that is still usable. */
  lemma UsableTicketsStay(key: Service -> int, run: seq<State>, k: nat, e: Event, service: Service)
    requires Run(key, run) && k < |run| && Enabled(key, run[k], e) && !e.CertificateChange?
    requires service in run[k].cache && Usable(run[k].cache[service], run[k].now)
    ensures var s' := Apply(key, run[k], e);
            service in s'.cache && s'.cache[service] == run[k].cache[service]
  {
    RunHasInv(key, run, k);
  }

  /** ARCA refuses a login exactly when its ticket lives, and then either the copy was lost or it is
      cached and inside its renewal margin. */
  lemma WhyALoginIsRefused(key: Service -> int, run: seq<State>, k: nat, w: WorkerId, entry: Entry)
    requires Run(key, run) && k < |run| && At(run[k], w) && run[k].workers[w].stage.Missed?
    requires entry.expiration.Some?
    ensures var s, service := run[k], run[k].workers[w].service;
            && (!Enabled(key, s, Login(w, entry)) <==> service in s.issued && Live(s.issued[service], s.now))
            && (!Enabled(key, s, Login(w, entry)) && service !in s.lost ==>
                  service in s.cache && s.cache[service] == s.issued[service]
                  && s.cache[service].expiration.value - s.now <= 15)
  {
    RunHasInv(key, run, k);
    LoginOnlyWhenNothingUsable(key, run, k, w);
  }

  // ----- tickets of two services ----------------------------------------------------------------

  /** The row was updated in this step: another login was committed, or the certificate changed. */
  ghost predicate Updated(key: Service -> int, run: seq<State>, m: nat)
    requires 0 < m < |run|
  {
    exists e: Event ::
      (e.Commit? || e.CertificateChange?) && Enabled(key, run[m - 1], e) && run[m] == Apply(key, run[m - 1], e)
  }

  lemma {:induction false} VersionCounts(key: Service -> int, run: seq<State>, j: nat, k: nat)
    requires Run(key, run) && j <= k < |run|
    ensures run[j].version <= run[k].version
    ensures run[j].version != run[k].version <==> exists m :: j < m <= k && Updated(key, run, m)
  {
    if j < k {
      VersionCounts(key, run, j, k - 1);
      assert NextAt(key, run, k);
      StepCounts(key, run, k);
      if run[j].version != run[k - 1].version {
        var m :| j < m <= k - 1 && Updated(key, run, m);
      }
    }
  }

  lemma StepCounts(key: Service -> int, run: seq<State>, m: nat)
    requires 0 < m < |run| && Next(key, run[m - 1], run[m])
    ensures run[m].version == if Updated(key, run, m) then run[m - 1].version + 1 else run[m - 1].version
  {
    var e :| Enabled(key, run[m - 1], e) && run[m] == Apply(key, run[m - 1], e);
  }

  /** A granted login cannot be committed exactly when the certificate's row has been updated since the
      worker's second look (at `j`): by another service's ticket, or by a change of the certificate. */
  lemma GrantedLoginIsLostIff(key: Service -> int, run: seq<State>, j: nat, k: nat, w: WorkerId)
    requires Run(key, run) && j <= k < |run| && At(run[k], w) && run[k].workers[w].stage.Issued?
    requires run[k].workers[w].stage.version == run[j].version
    ensures !Enabled(key, run[k], Commit(w)) <==> exists m :: j < m <= k && Updated(key, run, m)
  {
    VersionCounts(key, run, j, k);
  }

  lemma Extended(key: Service -> int, run: seq<State>, e: Event) returns (run': seq<State>)
    requires Run(key, run) && Enabled(key, run[|run| - 1], e)
    ensures Run(key, run') && run <= run' && run'[|run'| - 1] == Apply(key, run[|run| - 1], e)
  {
    run' := run + [Apply(key, run[|run| - 1], e)];
    forall k | 0 < k < |run'|
      ensures NextAt(key, run', k)
    {
      if k < |run| {
        assert NextAt(key, run, k);
      } else {
        assert Next(key, run'[k - 1], run'[k]);
      }
    }
  }

  const FirstTicket := Entry("t1", "s1", Some(720))
  const SecondTicket := Entry("t2", "s2", Some(720))

  /** Two services of one certificate, both missed on one cache. */
  lemma BothMiss(key: Service -> int) returns (run: seq<State>)
    requires key("wsfe") != key("wsfex")
    ensures Run(key, run)
    ensures var s := run[|run| - 1];
            s.cache == map[] && s.issued == map[] && s.version == 0 && s.now == 0 && s.lost == {}
            && s.workers == map[0 := Worker("wsfe", key("wsfe"), Missed(map[], 0)),
                                1 := Worker("wsfex", key("wsfex"), Missed(map[], 0))]
  {
    run := Extended(key, [Initial], TakeLock(0, "wsfe"));
    run := Extended(key, run, TakeLock(1, "wsfex"));
    run := Extended(key, run, Reread(0));
    run := Extended(key, run, Reread(1));
  }

  /** Both logins are granted and one is committed: the other cannot be, and ARCA keeps a ticket alive
      that nobody has. */
  lemma ConcurrentLoginsLoseATicket(key: Service -> int)
    requires key("wsfe") != key("wsfex")
    ensures exists run :: Run(key, run) && LosesATicket(run[|run| - 1], "wsfex")
  {
    var run := BothMiss(key);
    run := Extended(key, run, Login(0, FirstTicket));
    run := Extended(key, run, Login(1, SecondTicket));
    run := Extended(key, run, Commit(0));
    assert !Enabled(key, run[|run| - 1], Commit(1));
    run := Extended(key, run, Leave(1));
    assert LosesATicket(run[|run| - 1], "wsfex");
  }

  predicate LosesATicket(s: State, service: Service) {
    service in s.issued && Live(s.issued[service], s.now) && service in s.lost && service !in s.cache
  }
}
