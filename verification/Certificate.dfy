/**
 A certificate record's life: key and CSR generated once, the certificate ARCA issues for it stored
 and replaced, revoked, expired, copied. Keys and certificates are values with a public half.
 */
module Certificate {
  import opened Base
  import Cuit

  datatype LifeState = Draft | CsrGenerated | Active | Expired | Revoked

  datatype KeyFile = RsaKey(publicHalf: nat, secret: nat) | UnreadableKey

  datatype Csr = Csr(publicHalf: nat, subjectSerial: string)

  datatype CertificateFile =
    | X509(publicHalf: nat, subjectSerial: Option<string>, notBefore: int, notAfter: int, serial: nat)
    | NotPem

  /** `tickets` holds, per service, the certificate whose signature the cached ticket was got with. */
  datatype Record = Record(
    holderCuit: string,
    state: LifeState,
    privateKey: Option<KeyFile>,
    csr: Option<Csr>,
    certificate: Option<CertificateFile>,
    dateStart: Option<int>,
    dateEnd: Option<int>,
    tickets: map<string, CertificateFile>)

  datatype Reason =
    | InvalidHolder | CertificateActive | CsrExists | NotAPemFile | NoPrivateKey | KeyUnreadable | KeyMismatch
    | OtherHolder | AlreadyExpired | NotValidYet | WasRevoked | WasExpired | NotActiveYet | HasExpired | NoCertificate

  datatype ActionResult = Done | Refused(reason: Reason)

  function HolderDigits(r: Record): string { Cuit.Digits(r.holderCuit) }

  // ----- what each action leaves ----------------------------------------------------------------

  function Created(holder: string): Record {
    Record(holder, Draft, None, None, None, None, None, map[])
  }

  /** Odoo's copy: the fields marked `copy=False` are empty, and so is the state back at its default. */
  function Copied(r: Record): Record {
    r.(state := Draft, privateKey := None, certificate := None, tickets := map[])
  }

  function WithNewKey(r: Record, key: KeyFile): Record
    requires key.RsaKey?
  {
    r.(privateKey := Some(key), csr := Some(Csr(key.publicHalf, "CUIT " + HolderDigits(r))), state := CsrGenerated)
  }

  function WithCertificate(r: Record, file: CertificateFile): Record
    requires file.X509?
  {
    r.(certificate := Some(file), dateStart := Some(file.notBefore), dateEnd := Some(file.notAfter),
       state := Active, tickets := map[])
  }

  predicate NamesHolder(file: CertificateFile, r: Record)
    requires file.X509?
  {
    file.subjectSerial.None?
    || Cuit.Digits(file.subjectSerial.value) == ""
    || Cuit.Digits(file.subjectSerial.value) == HolderDigits(r)
  }

  /** What the upload demands of a file, all of it. */
  predicate Acceptable(r: Record, file: CertificateFile, now: int) {
    && file.X509?
    && r.privateKey.Some? && r.privateKey.value.RsaKey?
    && file.publicHalf == r.privateKey.value.publicHalf
    && NamesHolder(file, r)
    && file.notBefore <= now <= file.notAfter
  }

  predicate PastEnd(r: Record, now: int) { r.dateEnd.Some? && r.dateEnd.value < now }

  predicate Usable(r: Record, now: int) {
    r.state.Active? && !PastEnd(r, now) && r.privateKey.Some? && r.certificate.Some?
  }

  /** Asking whether it can be used marks an active certificate past its date. */
  function AfterUse(r: Record, now: int): Record {
    if r.state.Active? && PastEnd(r, now) then r.(state := Expired) else r
  }

  function ExpiredBy(r: Record, now: int): Record {
    if r.state.Active? && PastEnd(r, now) then r.(state := Expired, tickets := map[]) else r
  }

  datatype Action =
    | Generate(key: KeyFile)
    | Process(file: CertificateFile, now: int)
    | RevokeIt
    | Use(now: int)
    | Login(service: string, now: int)
    | ExpireCron(now: int)
    | Correct(holder: string)

  predicate Possible(a: Action) { a.Generate? ==> a.key.RsaKey? }

  /** The record after an action, refused or not. */
  function After(r: Record, a: Action): Record
    requires Possible(a)
  {
    match a
    case Generate(key) => if r.state.Draft? then WithNewKey(r, key) else r
    case Process(file, now) => if Acceptable(r, file, now) then WithCertificate(r, file) else r
    case RevokeIt => r.(state := Revoked, tickets := map[], privateKey := None)
    case Use(now) => AfterUse(r, now)
    case Login(service, now) =>
      if Usable(r, now) then r.(tickets := r.tickets[service := r.certificate.value]) else AfterUse(r, now)
    case ExpireCron(now) => ExpiredBy(r, now)
    case Correct(holder) => if Cuit.IsValidCuit(holder) then r.(holderCuit := holder) else r
  }

  // ----- the record -----------------------------------------------------------------------------

  class ArcaCertificate {
    var holderCuit: string
    var state: LifeState
    var privateKey: Option<KeyFile>
    var csr: Option<Csr>
    var certificate: Option<CertificateFile>
    var dateStart: Option<int>
    var dateEnd: Option<int>
    var tickets: map<string, CertificateFile>

    function View(): Record
      reads this
    {
      Record(holderCuit, state, privateKey, csr, certificate, dateStart, dateEnd, tickets)
    }

    constructor (holder: string)
      requires Cuit.IsValidCuit(holder)
      ensures View() == Created(holder)
    {
      holderCuit, state, privateKey, csr := holder, Draft, None, None;
      certificate, dateStart, dateEnd, tickets := None, None, None, map[];
    }

    /** The holder can be corrected at any time, to a valid CUIT. */
    method WriteHolder(holder: string) returns (r: ActionResult)
      modifies this`holderCuit
      ensures r.Done? <==> Cuit.IsValidCuit(holder)
      ensures View() == After(old(View()), Correct(holder))
      ensures holderCuit == if r.Done? then holder else old(holderCuit)
    {
      if !Cuit.IsValidCuit(holder) {
        return Refused(InvalidHolder);
      }
      holderCuit := holder;
      r := Done;
    }

    /** `action_generate_key_and_csr`, with the key pair the library drew. */
    method GenerateKeyAndCsr(key: KeyFile) returns (r: ActionResult)
      requires key.RsaKey?
      modifies this
      ensures r.Done? <==> old(state).Draft?
      ensures View() == After(old(View()), Generate(key))
      ensures r.Done? ==>
                state == CsrGenerated && privateKey == Some(key) && csr.Some? && csr.value.publicHalf == key.publicHalf
                && certificate == old(certificate) && tickets == old(tickets) && holderCuit == old(holderCuit)
      ensures r.Refused? ==> View() == old(View())
      ensures r == Refused(CertificateActive) <==> old(state).Active?
    {
      if state.Active? {
        return Refused(CertificateActive);
      }
      if !state.Draft? {
        return Refused(CsrExists);
      }
      privateKey := Some(key);
      csr := Some(Csr(key.publicHalf, "CUIT " + Cuit.Digits(holderCuit)));
      state := CsrGenerated;
      r := Done;
    }

    method LoadPrivateKey() returns (key: Option<KeyFile>, r: ActionResult)
      ensures r.Done? <==> privateKey.Some? && privateKey.value.RsaKey?
      ensures r.Done? ==> key == privateKey
    {
      if privateKey.None? {
        return None, Refused(NoPrivateKey);
      }
      if privateKey.value.UnreadableKey? {
        return None, Refused(KeyUnreadable);
      }
      return privateKey, Done;
    }

    /** `_check_certificate_holder_cuit`: a subject without a number does not block. */
    method CheckHolder(file: CertificateFile) returns (r: ActionResult)
      requires file.X509?
      ensures r.Done? <==> NamesHolder(file, View())
    {
      if file.subjectSerial.None? {
        return Done;
      }
      var digits := Cuit.Digits(file.subjectSerial.value);
      if digits != "" && digits != Cuit.Digits(holderCuit) {
        return Refused(OtherHolder);
      }
      r := Done;
    }

    /** `action_process_certificate`: it asks for the matching key, not for a state. */
    method ProcessCertificate(file: CertificateFile, now: int) returns (r: ActionResult)
      modifies this
      ensures r.Done? <==> Acceptable(old(View()), file, now)
      ensures View() == After(old(View()), Process(file, now))
      ensures r.Done? <==>
                file.X509? && file.notBefore <= now <= file.notAfter
                && privateKey.Some? && privateKey.value.RsaKey? && privateKey.value.publicHalf == file.publicHalf
                && (file.subjectSerial.None? || Cuit.Digits(file.subjectSerial.value) in ["", Cuit.Digits(holderCuit)])
      ensures r.Done? ==>
                state == Active && certificate == Some(file) && tickets == map[]
                && dateStart == Some(file.notBefore) && dateEnd == Some(file.notAfter)
      ensures r.Refused? ==> View() == old(View())
      ensures privateKey == old(privateKey) && csr == old(csr) && holderCuit == old(holderCuit)
    {
      if file.NotPem? {
        return Refused(NotAPemFile);
      }
      var key, loaded := LoadPrivateKey();
      if loaded.Refused? {
        return loaded;
      }
      if file.publicHalf != key.value.publicHalf {
        return Refused(KeyMismatch);
      }
      var holder := CheckHolder(file);
      if holder.Refused? {
        return holder;
      }
      if file.notAfter < now {
        return Refused(AlreadyExpired);
      }
      if file.notBefore > now {
        return Refused(NotValidYet);
      }
      certificate := Some(file);
      dateStart, dateEnd := Some(file.notBefore), Some(file.notAfter);
      state := Active;
      tickets := map[];
      r := Done;
    }

    method Revoke()
      modifies this
      ensures View() == After(old(View()), RevokeIt)
      ensures state == Revoked && tickets == map[] && privateKey == None
      ensures View() == old(View()).(state := state, tickets := tickets, privateKey := privateKey)
    {
      state, tickets, privateKey := Revoked, map[], None;
    }

    /** `_check_usable`: the refusal of a certificate past its date also marks it expired, for as long
        as the caller's transaction stands. */
    method CheckUsable(now: int) returns (r: ActionResult)
      modifies this`state
      ensures r.Done? <==> Usable(old(View()), now)
      ensures View() == After(old(View()), Use(now))
      ensures r == Refused(HasExpired) <==> old(state).Active? && PastEnd(old(View()), now)
      ensures r.Done? <==>
                old(state) == Active && (dateEnd.None? || now <= dateEnd.value) && privateKey.Some? && certificate.Some?
      ensures state == if r == Refused(HasExpired) then Expired else old(state)
    {
      if state.Revoked? {
        return Refused(WasRevoked);
      }
      if state.Expired? {
        return Refused(WasExpired);
      }
      if !state.Active? {
        return Refused(NotActiveYet);
      }
      if dateEnd.Some? && dateEnd.value < now {
        state := Expired;
        return Refused(HasExpired);
      }
      if privateKey.None? {
        return Refused(NoPrivateKey);
      }
      if certificate.None? {
        return Refused(NoCertificate);
      }
      r := Done;
    }

    /** A ticket for a service, signed with what is stored. */
    method StoreTicket(service: string, now: int) returns (r: ActionResult)
      modifies this
      ensures r.Done? <==> Usable(old(View()), now)
      ensures View() == After(old(View()), Login(service, now))
      ensures r.Done? ==>
                certificate.Some? && View() == old(View()).(tickets := old(tickets)[service := certificate.value])
    {
      r := CheckUsable(now);
      if r.Done? {
        tickets := tickets[service := certificate.value];
      }
    }
  }

  /** `_cron_check_certificate_expiration`: all records are looked at, those past their date expire. */
  method CronCheckExpiration(records: seq<ArcaCertificate>, now: int)
    requires forall i, j :: 0 <= i < j < |records| ==> records[i] != records[j]
    modifies records
    ensures forall i :: 0 <= i < |records| ==> records[i].View() == After(old(records[i].View()), ExpireCron(now))
    ensures forall i :: 0 <= i < |records| ==>
              var before := old(records[i].View());
              records[i].View()
              == if before.state == Active && before.dateEnd.Some? && before.dateEnd.value < now
                 then before.(state := Expired, tickets := map[]) else before
  {
    for k := 0 to |records|
      invariant forall i :: 0 <= i < k ==> records[i].View() == After(old(records[i].View()), ExpireCron(now))
      invariant forall i :: k <= i < |records| ==> records[i].View() == old(records[i].View())
    {
      var record := records[k];
      if record.state.Active? && record.dateEnd.Some? && record.dateEnd.value < now {
        record.state := Expired;
        record.tickets := map[];
      }
    }
  }

  // ----- any history ----------------------------------------------------------------------------

  /** A record is created, or comes from another by an action or a copy. */
  datatype History = Create(holder: string) | Act(before: History, action: Action) | CopyOf(before: History)

  predicate Lawful(h: History) {
    match h
    case Create(holder) => Cuit.IsValidCuit(holder)
    case Act(before, action) => Lawful(before) && Possible(action)
    case CopyOf(before) => Lawful(before)
  }

  function Now(h: History): Record
    requires Lawful(h)
  {
    match h
    case Create(holder) => Created(holder)
    case Act(before, action) => After(Now(before), action)
    case CopyOf(before) => Copied(Now(before))
  }

  predicate KeyReadable(r: Record) { r.privateKey.Some? && r.privateKey.value.RsaKey? }

  predicate Sane(r: Record) {
    && Cuit.IsValidCuit(r.holderCuit)
    && (r.privateKey.Some? ==> r.privateKey.value.RsaKey?)
    && (r.state.Draft? || r.state.Revoked? ==> r.privateKey.None?)
    && (r.state.CsrGenerated? || r.state.Active? || r.state.Expired? ==> KeyReadable(r))
    && (r.state.CsrGenerated? ==> r.csr.Some? && r.csr.value.publicHalf == r.privateKey.value.publicHalf)
    && (r.state.Active? || r.state.Expired? ==>
          r.certificate.Some? && r.certificate.value.X509?
          && r.certificate.value.publicHalf == r.privateKey.value.publicHalf
          && r.dateEnd == Some(r.certificate.value.notAfter))
    && (r.state.Draft? || r.state.CsrGenerated? ==> r.certificate.None?)
    && (forall service :: service in r.tickets ==> r.certificate == Some(r.tickets[service]))
    && (r.tickets != map[] ==> r.state.Active? || r.state.Expired?)
  }

  lemma AfterIsSane(r: Record, a: Action)
    requires Sane(r) && Possible(a)
    ensures Sane(After(r, a))
  {
    match a
    case Login(service, now) =>
    case _ =>
  }

  lemma {:induction false} HistoryIsSane(h: History)
    requires Lawful(h)
    ensures Sane(Now(h))
  {
    match h
    case Create(holder) =>
    case Act(before, action) =>
      HistoryIsSane(before);
      AfterIsSane(Now(before), action);
    case CopyOf(before) => HistoryIsSane(before);
  }

  /** An active certificate can sign: key and certificate are there, and belong together. */
  lemma {:induction false} ActiveCanSign(h: History)
    requires Lawful(h) && Now(h).state.Active?
    ensures var r := Now(h);
            r.privateKey.Some? && r.certificate.Some? && r.privateKey.value.RsaKey? && r.certificate.value.X509?
            && r.privateKey.value.publicHalf == r.certificate.value.publicHalf
  {
    HistoryIsSane(h);
  }

  /** So the date is all that is left to decide: no active certificate is refused for missing material. */
  lemma {:induction false} UsableUntilItsDate(h: History, now: int)
    requires Lawful(h)
    ensures var r := Now(h);
            Usable(r, now) <==>
              r.state.Active? && r.certificate.Some? && r.certificate.value.X509? && now <= r.certificate.value.notAfter
  {
    HistoryIsSane(h);
  }

  /** The CSR waiting at ARCA is for the key that is stored. */
  lemma {:induction false} CsrMatchesTheKey(h: History)
    requires Lawful(h) && Now(h).state.CsrGenerated?
    ensures var r := Now(h);
            r.csr.Some? && r.privateKey.Some? && r.privateKey.value.RsaKey?
            && r.csr.value.publicHalf == r.privateKey.value.publicHalf
  {
    HistoryIsSane(h);
  }

  /** Every cached ticket was got with the certificate stored now. */
  lemma {:induction false} TicketsBelongToTheCertificate(h: History, service: string)
    requires Lawful(h) && service in Now(h).tickets
    ensures Now(h).certificate == Some(Now(h).tickets[service])
  {
    HistoryIsSane(h);
  }

  /** A copy starts again: a draft for the same holder, without key, certificate or tickets. */
  lemma {:induction false} CopiesAreDrafts(h: History, now: int)
    requires Lawful(h)
    ensures var original, copy := Now(h), Now(CopyOf(h));
            && copy.state == Draft && copy.privateKey == None && copy.certificate == None && copy.tickets == map[]
            && copy.holderCuit == original.holderCuit && copy.csr == original.csr
            && !Usable(copy, now) && Sane(copy)
  {
    HistoryIsSane(CopyOf(h));
  }

  /** A stored key is never replaced: the next action keeps it, or is the revocation that drops it. */
  lemma {:induction false} KeyIsNeverReplaced(h: History, a: Action)
    requires Lawful(h) && Possible(a) && Now(h).privateKey.Some?
    ensures var before, after := Now(h), After(Now(h), a);
            after.privateKey == if a.RevokeIt? then None else before.privateKey
  {
    HistoryIsSane(h);
  }

  /** On any record at all, reached or not, generating loses a key exactly in a draft that holds one. */
  lemma GeneratingReplacesOnlyInDraft(r: Record, key: KeyFile)
    requires key.RsaKey? && r.privateKey.Some? && r.privateKey.value != key
    ensures After(r, Generate(key)).privateKey != r.privateKey <==> r.state.Draft?
  {
  }

  /** No action brings a revoked certificate back. */
  lemma {:induction false} RevokedForGood(h: History, actions: seq<Action>)
    requires Lawful(h) && Now(h).state.Revoked? && forall k :: 0 <= k < |actions| ==> Possible(actions[k])
    ensures Lawful(Extended(h, actions)) && Now(Extended(h, actions)).state.Revoked?
  {
    if actions != [] {
      var front := actions[..|actions| - 1];
      assert forall k :: 0 <= k < |front| ==> front[k] == actions[k];
      RevokedForGood(h, front);
      assert Possible(actions[|actions| - 1]);
      HistoryIsSane(Extended(h, front));
    }
  }

  function Extended(h: History, actions: seq<Action>): History {
    if actions == [] then h else Act(Extended(h, actions[..|actions| - 1]), actions[|actions| - 1])
  }

  // ----- the round through ARCA -----------------------------------------------------------------

  /** What ARCA issues for a request: its public key, and the number its subject carries. */
  function IssuedFor(csr: Csr, notBefore: int, notAfter: int, serial: nat): CertificateFile {
    X509(csr.publicHalf, Some(csr.subjectSerial), notBefore, notAfter, serial)
  }

  /** The certificate ARCA issues for the pending CSR is accepted while it is valid, unless the holder
      was corrected to another number in between. */
  lemma IssuedCertificateIsAccepted(h: History, notBefore: int, notAfter: int, serial: nat, now: int)
    requires Lawful(h) && Now(h).state.CsrGenerated? && Now(h).csr.Some?
    ensures var r, file := Now(h), IssuedFor(Now(h).csr.value, notBefore, notAfter, serial);
            Acceptable(r, file, now) <==>
              notBefore <= now <= notAfter
              && (Cuit.Digits(r.csr.value.subjectSerial) == HolderDigits(r)
                  || Cuit.Digits(r.csr.value.subjectSerial) == "")
  {
    HistoryIsSane(h);
  }

  /** The number in the subject is the holder's as it was when the CSR was made. */
  lemma CsrNamesTheHolder(r: Record, key: KeyFile)
    requires key.RsaKey?
    ensures var csr := WithNewKey(r, key).csr;
            csr.Some? && Cuit.Digits(csr.value.subjectSerial) == HolderDigits(r)
  {
    Cuit.DigitsOfConcat("CUIT ", HolderDigits(r));
    Cuit.NoDigits("CUIT ");
    Cuit.DigitsOfDigits(HolderDigits(r));
    assert "" + HolderDigits(r) == HolderDigits(r);
  }
}
