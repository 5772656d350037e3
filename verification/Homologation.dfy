/**
 The homologación database: the bootstrap that prepares it, in one transaction with one commit at its
 end, and the preflight every session has to pass, which only reads. Texts from the environment are
 taken trimmed, and the gate and the company number already parsed.
 */
module Homologation {
  import opened Base
  import C = Certificate
  import Cuit
  import Ordering

  // ----- the database ---------------------------------------------------------------------------

  datatype Field = CertificateField | PrivateKeyField

  datatype Company = Company(autoRequest: bool, certificate: Option<nat>)

  datatype Stored = Stored(company: nat, testing: bool, record: C.Record)

  /** A row of `ir.model.data` under the bootstrap's external identifier. */
  datatype Row = Row(isCertificate: bool, resId: nat)

  datatype Db = Db(
    moduleInstalled: bool,
    columns: set<Field>,
    companies: map<nat, Company>,
    certificates: map<nat, Stored>,
    rows: seq<Row>,
    attachments: map<nat, nat>,
    installedSha: Option<string>,
    nextId: nat)

  /** Records are numbered by a sequence. */
  predicate Numbered(db: Db) { forall id :: id in db.certificates ==> id < db.nextId }

  datatype CompanyChoice = FirstCompany | CompanyNumber(id: nat) | NotANumber

  datatype Environ = Environ(
    allowed: bool,
    company: CompanyChoice,
    holderCuit: string,
    certificate: Option<C.CertificateFile>,
    privateKey: Option<C.KeyFile>,
    codeSha: string)

  datatype Why =
    | NotAllowed | ModuleMissing | ColumnsMissing | NoCompany | UnpinnedCertificates | NoHolder | NotACertificate
    | NotTesting | MaterialMissing | CertificateRefused | OtherCertificateLinked | OtherCompanysCertificate
    | PinNotUnique | NotAPair | NotInTheRow | NoSha

  // ----- the code's identity --------------------------------------------------------------------

  predicate IsHex(c: char) { '0' <= c <= '9' || 'a' <= c <= 'f' || 'A' <= c <= 'F' }

  predicate IsFullSha(s: string) { |s| == 40 && forall k | 0 <= k < 40 :: IsHex(s[k]) }

  function LowerChar(c: char): char {
    if 'A' <= c <= 'F' then (c as int - 'A' as int + 'a' as int) as char else c
  }

  function LowerHex(s: string): string { seq(|s|, k requires 0 <= k < |s| => LowerChar(s[k])) }

  /** Lower case is lower case already, and the same commit. */
  lemma LowerHexTwice(s: string)
    ensures LowerHex(LowerHex(s)) == LowerHex(s)
    ensures IsFullSha(LowerHex(s)) <==> IsFullSha(s)
  {
    assert forall k :: 0 <= k < |s| ==> (IsHex(LowerChar(s[k])) <==> IsHex(s[k]));
    if IsFullSha(LowerHex(s)) {
      forall k | 0 <= k < 40
        ensures IsHex(s[k])
      {
        assert IsHex(LowerHex(s)[k]);
      }
    }
  }

  /** `resolve_code_sha`: the variable first, the image's marker when there is no variable. */
  function ResolveCodeSha(codeSha: string, marker: Option<string>): Option<string> {
    var candidate := if codeSha == "" && marker.Some? then marker.value else codeSha;
    if IsFullSha(candidate) then Some(LowerHex(candidate)) else None
  }

  /** `sha_problem`, as whether there is one. */
  predicate ShaMatches(recorded: Option<string>, running: string) {
    && recorded.Some? && recorded.value != "" && running != ""
    && IsFullSha(recorded.value) && IsFullSha(running)
    && LowerHex(recorded.value) == LowerHex(running)
  }

  /** Two letters of a commit that differ in case at most. */
  predicate SameLetter(a: char, b: char) {
    a == b
    || ('A' <= a <= 'F' && b as int - a as int == 32)
    || ('A' <= b <= 'F' && a as int - b as int == 32)
  }

  /** The recorded commit is the running one when both are forty hexadecimal digits, the same but for case. */
  lemma SameCommit(recorded: Option<string>, running: string)
    ensures ShaMatches(recorded, running) <==>
              recorded.Some? && |recorded.value| == 40 == |running|
              && forall k :: 0 <= k < 40 ==>
                   IsHex(recorded.value[k]) && IsHex(running[k]) && SameLetter(recorded.value[k], running[k])
  {
    if recorded.Some? && |recorded.value| == 40 == |running| {
      forall k | 0 <= k < 40 && IsHex(recorded.value[k]) && IsHex(running[k])
        ensures LowerHex(recorded.value)[k] == LowerHex(running)[k] <==> SameLetter(recorded.value[k], running[k])
      {
      }
      if ShaMatches(recorded, running) {
        forall k | 0 <= k < 40
          ensures LowerHex(recorded.value)[k] == LowerHex(running)[k]
        {
        }
      }
    }
  }

  /** The variable decides when it is there, the image's marker when it is not. */
  lemma WhereTheCommitComesFrom(codeSha: string, marker: Option<string>)
    ensures codeSha != "" ==>
              ResolveCodeSha(codeSha, marker) == if IsFullSha(codeSha) then Some(LowerHex(codeSha)) else None
    ensures codeSha == "" ==>
              ResolveCodeSha(codeSha, marker)
              == if marker.Some? && IsFullSha(marker.value) then Some(LowerHex(marker.value)) else None
  {
  }

  // ----- where the material is ------------------------------------------------------------------

  datatype Problem =
    | NoColumn(field: Field)
    | IsNull(field: Field)
    | ZeroBytes(field: Field)
    | OldAttachments(count: nat)

  const MATERIAL_FIELDS := [CertificateField, PrivateKeyField]

  function FieldProblem(columns: set<Field>, sizes: map<Field, Option<nat>>, field: Field): seq<Problem> {
    if field !in columns then [NoColumn(field)]
    else if field !in sizes || sizes[field].None? then [IsNull(field)]
    else if sizes[field].value == 0 then [ZeroBytes(field)]
    else []
  }

  function FieldProblems(columns: set<Field>, sizes: map<Field, Option<nat>>, fields: seq<Field>): seq<Problem> {
    if fields == [] then []
    else FieldProblems(columns, sizes, fields[..|fields| - 1]) + FieldProblem(columns, sizes, fields[|fields| - 1])
  }

  /** `storage_problems`, the same in both scripts. */
  method StorageProblems(columns: set<Field>, sizes: map<Field, Option<nat>>, attachments: nat)
    returns (problems: seq<Problem>)
    ensures problems == FieldProblems(columns, sizes, MATERIAL_FIELDS)
                        + if attachments > 0 then [OldAttachments(attachments)] else []
    ensures problems == [] <==>
              attachments == 0
              && forall field :: field in MATERIAL_FIELDS ==>
                   field in columns && field in sizes && sizes[field].Some? && sizes[field].value > 0
  {
    problems := [];
    for k := 0 to |MATERIAL_FIELDS|
      invariant problems == FieldProblems(columns, sizes, MATERIAL_FIELDS[..k])
      invariant problems == [] <==>
                  forall i :: 0 <= i < k ==>
                    MATERIAL_FIELDS[i] in columns && MATERIAL_FIELDS[i] in sizes
                    && sizes[MATERIAL_FIELDS[i]].Some? && sizes[MATERIAL_FIELDS[i]].value > 0
    {
      var field := MATERIAL_FIELDS[k];
      assert MATERIAL_FIELDS[..k + 1][..k] == MATERIAL_FIELDS[..k];
      if field !in columns {
        problems := problems + [NoColumn(field)];
        continue;
      }
      if field !in sizes || sizes[field].None? {
        problems := problems + [IsNull(field)];
      } else if sizes[field].value == 0 {
        problems := problems + [ZeroBytes(field)];
      }
    }
    assert MATERIAL_FIELDS[..|MATERIAL_FIELDS|] == MATERIAL_FIELDS;
    if attachments > 0 {
      problems := problems + [OldAttachments(attachments)];
    }
  }

  /** Each problem names the column that has it. */
  lemma ProblemsByField(columns: set<Field>, sizes: map<Field, Option<nat>>, field: Field)
    ensures var problems := FieldProblems(columns, sizes, MATERIAL_FIELDS);
            && (NoColumn(field) in problems <==> field !in columns)
            && (IsNull(field) in problems <==> field in columns && (field !in sizes || sizes[field] == None))
            && (ZeroBytes(field) in problems <==> field in columns && field in sizes && sizes[field] == Some(0))
  {
    assert [CertificateField][..0] == [] && MATERIAL_FIELDS[..1] == [CertificateField];
    assert FieldProblems(columns, sizes, [CertificateField])
        == [] + FieldProblem(columns, sizes, CertificateField);
    assert FieldProblems(columns, sizes, MATERIAL_FIELDS)
        == FieldProblems(columns, sizes, [CertificateField]) + FieldProblem(columns, sizes, PrivateKeyField);
  }

  /** How many bytes a column holds. An empty value is written as NULL, so what is there has some. */
  function Octets<T>(stored: Option<T>): Option<nat> { if stored.None? then None else Some(1) }

  function Sizes(record: C.Record): map<Field, Option<nat>> {
    map[CertificateField := Octets(record.certificate), PrivateKeyField := Octets(record.privateKey)]
  }

  predicate InTheRow(db: Db, id: nat) {
    && id in db.certificates
    && CertificateField in db.columns && PrivateKeyField in db.columns
    && db.certificates[id].record.certificate.Some? && db.certificates[id].record.privateKey.Some?
    && AttachmentsOf(db, id) == 0
  }

  function AttachmentsOf(db: Db, id: nat): nat { if id in db.attachments then db.attachments[id] else 0 }

  // ----- what each step of the bootstrap leaves -------------------------------------------------

  datatype Step = Go(db: Db) | Abort(why: Why)

  function Quiet(db: Db): Db {
    db.(companies := map id | id in db.companies :: db.companies[id].(autoRequest := false))
  }

  function TargetCompany(db: Db, choice: CompanyChoice): Option<nat> {
    match choice
    case CompanyNumber(id) => if id in db.companies then Some(id) else None
    case NotANumber => None
    case FirstCompany => if db.companies.Keys == {} then None else Some(Ordering.Least(db.companies.Keys))
  }

  /** The company asked for by number, or the one with the least id; none other is ever taken. */
  lemma TargetIs(db: Db, choice: CompanyChoice, company: nat)
    ensures TargetCompany(db, choice) == Some(company) <==>
              company in db.companies
              && (choice == CompanyNumber(company)
                  || (choice == FirstCompany && forall other :: other in db.companies ==> company <= other))
  {
    if choice == FirstCompany && db.companies.Keys != {} {
      assert Ordering.Least(db.companies.Keys) in db.companies;
    }
  }

  /** The record the external identifier names, when there is one. */
  predicate Pinned(db: Db) { db.rows != [] && (db.rows[0].isCertificate ==> db.rows[0].resId in db.certificates) }

  predicate HasCertificates(db: Db, company: nat) {
    exists id :: id in db.certificates && db.certificates[id].company == company
  }

  datatype Found = Found(db: Db, id: nat) | NotFound(why: Why)

  function WithSeed(db: Db, company: nat, holder: string): Db {
    var id := db.nextId;
    db.(certificates := db.certificates[id := Stored(company, true, C.Created(holder))],
        rows := db.rows + [Row(true, id)], nextId := id + 1)
  }

  function FindOrCreate(db: Db, company: nat, e: Environ): Found {
    if Pinned(db) then
      if db.rows[0].isCertificate then Found(db, db.rows[0].resId) else NotFound(NotACertificate)
    else if HasCertificates(db, company) then NotFound(UnpinnedCertificates)
    else if e.holderCuit == "" || !Cuit.IsValidCuit(e.holderCuit) then NotFound(NoHolder)
    else Found(WithSeed(db, company, e.holderCuit), db.nextId)
  }

  function WithRecord(db: Db, id: nat, record: C.Record): Db
    requires id in db.certificates
  {
    db.(certificates := db.certificates[id := db.certificates[id].(record := record)])
  }

  predicate MaterialComplete(record: C.Record, e: Environ) {
    (record.privateKey.Some? || e.privateKey.Some?) && (record.certificate.Some? || e.certificate.Some?)
  }

  /** The key is only written where there is none, and the certificate only processed where there is
      none. */
  function LoadMaterial(db: Db, id: nat, e: Environ, now: int): Step
    requires id in db.certificates
  {
    var record := db.certificates[id].record;
    if !MaterialComplete(record, e) then Abort(MaterialMissing)
    else
      var keyed := if record.privateKey.Some? then record else record.(privateKey := e.privateKey);
      if record.certificate.Some? then Go(WithRecord(db, id, keyed))
      else if !C.Acceptable(keyed, e.certificate.value, now) then Abort(CertificateRefused)
      else Go(WithRecord(db, id, C.WithCertificate(keyed, e.certificate.value)))
  }

  function LinkCompany(db: Db, company: nat, id: nat): Step
    requires id in db.certificates && company in db.companies
  {
    var existing := db.companies[company].certificate;
    if existing.Some? && existing.value != id then Abort(OtherCertificateLinked)
    else if existing.Some? then Go(db)
    else if db.certificates[id].company != company then Abort(OtherCompanysCertificate)
    else Go(db.(companies := db.companies[company := db.companies[company].(certificate := Some(id))]))
  }

  predicate IsPair(record: C.Record) {
    && record.certificate.Some? && record.certificate.value.X509?
    && record.privateKey.Some? && record.privateKey.value.RsaKey?
    && record.certificate.value.publicHalf == record.privateKey.value.publicHalf
  }

  /** What is verified last: none of it is repaired. */
  function Verified(db: Db, id: nat): Step
    requires id in db.certificates
  {
    if db.rows != [Row(true, id)] then Abort(PinNotUnique)
    else if !IsPair(db.certificates[id].record) then Abort(NotAPair)
    else if !InTheRow(db, id) then Abort(NotInTheRow)
    else Go(db)
  }

  datatype Outcome = Ready(db: Db, id: nat) | Aborted(why: Why)

  /** The database a whole bootstrap asks to commit, or why it does not. */
  function Bootstrapped(db: Db, e: Environ, marker: Option<string>, now: int): Outcome {
    if !e.allowed then Aborted(NotAllowed)
    else if !db.moduleInstalled then Aborted(ModuleMissing)
    else if !(CertificateField in db.columns && PrivateKeyField in db.columns) then Aborted(ColumnsMissing)
    else Seeded(Quiet(db), e, marker, now)
  }

  function Seeded(db: Db, e: Environ, marker: Option<string>, now: int): Outcome {
    var company := TargetCompany(db, e.company);
    if company.None? then Aborted(NoCompany)
    else
      match FindOrCreate(db, company.value, e)
      case NotFound(why) => Aborted(why)
      case Found(found, id) =>
        if !found.certificates[id].testing then Aborted(NotTesting)
        else
          match LoadMaterial(found, id, e, now)
          case Abort(why) => Aborted(why)
          case Go(loaded) =>
            match LinkCompany(loaded, company.value, id)
            case Abort(why) => Aborted(why)
            case Go(linked) => Recorded(linked, id, e, marker)
  }

  function Recorded(db: Db, id: nat, e: Environ, marker: Option<string>): Outcome
    requires id in db.certificates
  {
    match Verified(db, id)
    case Abort(why) => Aborted(why)
    case Go(verified) =>
      var sha := ResolveCodeSha(e.codeSha, marker);
      if sha.None? then Aborted(NoSha) else Ready(verified.(installedSha := sha), id)
  }

  // ----- the bootstrap --------------------------------------------------------------------------

  datatype StepResult = Fine | Stopped(why: Why)

  /** `db` is what the shell's transaction sees, `committed` what everyone else does. */
  class OdooShell {
    var db: Db
    var committed: Db

    constructor (committed: Db)
      ensures this.committed == committed && db == committed
    {
      this.committed := committed;
      db := committed;
    }

    method DisableAutoRequest()
      modifies this`db
      ensures db == Quiet(old(db))
    {
      db := db.(companies := map id | id in db.companies :: db.companies[id].(autoRequest := false));
    }

    method FindOrCreateCertificate(company: nat, e: Environ) returns (id: nat, r: StepResult)
      modifies this`db
      ensures match FindOrCreate(old(db), company, e)
              case NotFound(why) => r == Stopped(why) && db == old(db)
              case Found(found, seed) => r == Fine && id == seed && db == found
    {
      id := 0;
      if db.rows != [] && (db.rows[0].isCertificate ==> db.rows[0].resId in db.certificates) {
        if !db.rows[0].isCertificate {
          return id, Stopped(NotACertificate);
        }
        return db.rows[0].resId, Fine;
      }
      if exists other :: other in db.certificates && db.certificates[other].company == company {
        return id, Stopped(UnpinnedCertificates);
      }
      if e.holderCuit == "" || !Cuit.IsValidCuit(e.holderCuit) {
        return id, Stopped(NoHolder);
      }
      id := db.nextId;
      db := db.(certificates := db.certificates[id := Stored(company, true, C.Created(e.holderCuit))],
                nextId := id + 1);
      db := db.(rows := db.rows + [Row(true, id)]);
      r := Fine;
    }

    method LoadMaterialInto(id: nat, e: Environ, now: int) returns (r: StepResult)
      requires id in db.certificates
      modifies this`db
      ensures match LoadMaterial(old(db), id, e, now)
              case Abort(why) => r == Stopped(why)
              case Go(loaded) => r == Fine && db == loaded
    {
      var before := db.certificates[id].record;
      if !((before.privateKey.Some? || e.privateKey.Some?) && (before.certificate.Some? || e.certificate.Some?)) {
        return Stopped(MaterialMissing);
      }
      if before.privateKey.None? {
        db := WithRecord(db, id, before.(privateKey := e.privateKey));
      }
      if before.certificate.None? {
        var keyed := db.certificates[id].record;
        if !C.Acceptable(keyed, e.certificate.value, now) {
          return Stopped(CertificateRefused);
        }
        db := WithRecord(db, id, C.WithCertificate(keyed, e.certificate.value));
      }
      assert before.privateKey.Some? && before.certificate.Some? ==> WithRecord(old(db), id, before) == old(db);
      r := Fine;
    }

    method LinkTo(company: nat, id: nat) returns (r: StepResult)
      requires id in db.certificates && company in db.companies
      modifies this`db
      ensures match LinkCompany(old(db), company, id)
              case Abort(why) => r == Stopped(why)
              case Go(linked) => r == Fine && db == linked
    {
      var existing := db.companies[company].certificate;
      if existing.Some? && existing.value != id {
        return Stopped(OtherCertificateLinked);
      }
      if existing.Some? {
        return Fine;
      }
      if db.certificates[id].company != company {
        return Stopped(OtherCompanysCertificate);
      }
      db := db.(companies := db.companies[company := db.companies[company].(certificate := Some(id))]);
      r := Fine;
    }

    method VerifyStorage(id: nat) returns (r: StepResult)
      requires id in db.certificates
      ensures r == if InTheRow(db, id) then Fine else Stopped(NotInTheRow)
    {
      var problems := StorageProblems(db.columns, Sizes(db.certificates[id].record), AttachmentsOf(db, id));
      assert CertificateField in MATERIAL_FIELDS && PrivateKeyField in MATERIAL_FIELDS;
      r := if problems == [] then Fine else Stopped(NotInTheRow);
    }

    method VerifyAndRecord(id: nat, e: Environ, marker: Option<string>) returns (r: StepResult)
      requires id in db.certificates
      modifies this`db
      ensures match Recorded(old(db), id, e, marker)
              case Aborted(why) => r == Stopped(why)
              case Ready(prepared, _) => r == Fine && db == prepared
    {
      if db.rows != [Row(true, id)] {
        return Stopped(PinNotUnique);
      }
      if !IsPair(db.certificates[id].record) {
        return Stopped(NotAPair);
      }
      r := VerifyStorage(id);
      if r.Stopped? {
        return;
      }
      var sha := ResolveCodeSha(e.codeSha, marker);
      if sha.None? {
        return Stopped(NoSha);
      }
      db := db.(installedSha := sha);
    }

    method SeedCompany(e: Environ, marker: Option<string>, now: int) returns (r: StepResult)
      modifies this`db
      ensures match Seeded(old(db), e, marker, now)
              case Aborted(why) => r == Stopped(why)
              case Ready(prepared, _) => r == Fine && db == prepared
    {
      var company := TargetCompany(db, e.company);
      if company.None? {
        return Stopped(NoCompany);
      }
      var id, found := FindOrCreateCertificate(company.value, e);
      if found.Stopped? {
        return found;
      }
      if !db.certificates[id].testing {
        return Stopped(NotTesting);
      }
      r := LoadMaterialInto(id, e, now);
      if r.Stopped? {
        return;
      }
      r := LinkTo(company.value, id);
      if r.Stopped? {
        return;
      }
      r := VerifyAndRecord(id, e, marker);
    }

    /** The only commit is the last thing done: a run that stops anywhere leaves no trace. */
    method Prepare(e: Environ, marker: Option<string>, now: int) returns (r: StepResult)
      requires db == committed
      modifies this
      ensures match Bootstrapped(old(committed), e, marker, now)
              case Aborted(why) => r == Stopped(why) && committed == old(committed)
              case Ready(prepared, _) => r == Fine && committed == prepared
    {
      if !e.allowed {
        return Stopped(NotAllowed);
      }
      if !db.moduleInstalled {
        return Stopped(ModuleMissing);
      }
      if !(CertificateField in db.columns && PrivateKeyField in db.columns) {
        return Stopped(ColumnsMissing);
      }
      DisableAutoRequest();
      r := SeedCompany(e, marker, now);
      if r.Fine? {
        committed := db;
      }
    }
  }

  // ----- the preflight --------------------------------------------------------------------------

  predicate AutoRequestOff(db: Db) { forall id :: id in db.companies ==> !db.companies[id].autoRequest }

  /** Everything the preflight asks of the database. */
  predicate PreflightPasses(db: Db, tls: bool, codeSha: string) {
    tls && db.moduleInstalled && ShaMatches(db.installedSha, codeSha) && AutoRequestOff(db)
    && exists id ::
         id in db.certificates && db.certificates.Keys == {id} && db.certificates[id].testing && InTheRow(db, id)
  }

  /** A homologación certificate whose material is in its two columns and in no attachment. */
  predicate SeededInTheRow(db: Db, id: nat)
    requires id in db.certificates
  {
    var stored := db.certificates[id];
    stored.testing && stored.record.certificate.Some? && stored.record.privateKey.Some?
    && CertificateField in db.columns && PrivateKeyField in db.columns
    && (id in db.attachments ==> db.attachments[id] == 0)
  }

  datatype Check =
    | Passed(id: nat) | NotEncrypted | NotInstalled | OtherCode | AutoRequestOn | NotExactlyOne(count: nat)
    | NotHomologation | IncompleteMaterial | OutOfTheRow

  /** `run_preflight`: its checks in order, the first that fails ends it. */
  method RunPreflight(db: Db, tls: bool, codeSha: string) returns (r: Check)
    ensures r.Passed? <==> PreflightPasses(db, tls, codeSha)
    ensures r.Passed? ==> db.certificates.Keys == {r.id}
    ensures r.Passed? <==>
              tls && db.moduleInstalled && ShaMatches(db.installedSha, codeSha)
              && (forall company :: company in db.companies ==> !db.companies[company].autoRequest)
              && |db.certificates| == 1
              && (forall id :: id in db.certificates ==> SeededInTheRow(db, id))
    ensures r.NotEncrypted? <==> !tls
    ensures r.NotInstalled? <==> tls && !db.moduleInstalled
    ensures r.OtherCode? <==> tls && db.moduleInstalled && !ShaMatches(db.installedSha, codeSha)
    ensures r.AutoRequestOn? ==> exists company :: company in db.companies && db.companies[company].autoRequest
    ensures r.NotExactlyOne? ==> r.count == |db.certificates| && r.count != 1
  {
    if !tls {
      return NotEncrypted;
    }
    if !db.moduleInstalled {
      return NotInstalled;
    }
    if !ShaMatches(db.installedSha, codeSha) {
      return OtherCode;
    }
    if !AutoRequestOff(db) {
      return AutoRequestOn;
    }
    if |db.certificates| != 1 {
      return NotExactlyOne(|db.certificates|);
    }
    var id := Ordering.Least(db.certificates.Keys);
    OnlyMember(db.certificates.Keys, id);
    var certificate := db.certificates[id];
    if !certificate.testing {
      return NotHomologation;
    }
    if certificate.record.certificate.None? || certificate.record.privateKey.None? {
      return IncompleteMaterial;
    }
    var problems := StorageProblems(db.columns, Sizes(certificate.record), AttachmentsOf(db, id));
    assert CertificateField in MATERIAL_FIELDS && PrivateKeyField in MATERIAL_FIELDS;
    if problems != [] {
      return OutOfTheRow;
    }
    r := Passed(id);
  }

  lemma OnlyMember(s: set<nat>, x: nat)
    requires |s| == 1 && x in s
    ensures s == {x}
  {
    assert |s - {x}| == 0;
  }

  // ----- what a prepared database has in common -------------------------------------------------

  /** A certificate before and after: identity, key and certificate kept, and tickets as long as there
      was a certificate they belong to. */
  predicate Kept(before: Stored, after: Stored) {
    && after.company == before.company && after.testing == before.testing
    && after.record.holderCuit == before.record.holderCuit
    && (before.record.privateKey.Some? ==> after.record.privateKey == before.record.privateKey)
    && (before.record.certificate.Some? ==>
          after.record.certificate == before.record.certificate && after.record.tickets == before.record.tickets
          && after.record.state == before.record.state)
  }

  lemma MaterialIsKept(db: Db, id: nat, e: Environ, now: int)
    requires id in db.certificates && LoadMaterial(db, id, e, now).Go?
    ensures var after := LoadMaterial(db, id, e, now).db;
            && id in after.certificates && Kept(db.certificates[id], after.certificates[id])
            && after == WithRecord(db, id, after.certificates[id].record)
            && (db.certificates[id].record.certificate.None? ==>
                  after.certificates[id].record.tickets == map[] && after.certificates[id].record.state.Active?
                  && C.Usable(after.certificates[id].record, now))
  {
  }

  /** Everything the bootstrap may change among the certificates. */
  ghost predicate CertificatesKept(before: Db, after: Db, id: nat) {
    && (forall other :: other in before.certificates ==> other in after.certificates)
    && (forall other :: other in after.certificates ==> other in before.certificates || other == id == before.nextId)
    && (forall other :: other in before.certificates && other != id ==>
          after.certificates[other] == before.certificates[other])
    && (id in before.certificates ==> id in after.certificates && Kept(before.certificates[id], after.certificates[id]))
    && (after.rows == before.rows || after.rows == before.rows + [Row(true, id)])
  }

  /** And among the companies. */
  ghost predicate CompaniesKept(before: Db, after: Db, id: nat) {
    && after.companies.Keys == before.companies.Keys
    && (forall c :: c in before.companies ==>
          !after.companies[c].autoRequest
          && (after.companies[c].certificate == before.companies[c].certificate
              || (before.companies[c].certificate.None? && after.companies[c].certificate == Some(id))))
  }

  /** The stages of a run that commits. */
  lemma ReadyStages(db: Db, e: Environ, marker: Option<string>, now: int)
    returns (company: nat, id: nat, found: Db, loaded: Db, linked: Db)
    requires Bootstrapped(db, e, marker, now).Ready?
    ensures TargetCompany(Quiet(db), e.company) == Some(company) && company in found.companies
    ensures FindOrCreate(Quiet(db), company, e) == Found(found, id)
    ensures id in found.certificates && found.certificates[id].testing && LoadMaterial(found, id, e, now) == Go(loaded)
    ensures id in loaded.certificates && company in loaded.companies && LinkCompany(loaded, company, id) == Go(linked)
    ensures id in linked.certificates && Verified(linked, id) == Go(linked)
    ensures ResolveCodeSha(e.codeSha, marker).Some?
    ensures Bootstrapped(db, e, marker, now) == Ready(linked.(installedSha := ResolveCodeSha(e.codeSha, marker)), id)
  {
    company := TargetCompany(Quiet(db), e.company).value;
    var seed := FindOrCreate(Quiet(db), company, e);
    id, found := seed.id, seed.db;
    loaded := LoadMaterial(found, id, e, now).db;
    linked := LinkCompany(loaded, company, id).db;
  }

  lemma SeedingKeeps(db: Db, company: nat, e: Environ)
    requires Numbered(db) && FindOrCreate(db, company, e).Found?
    ensures var found := FindOrCreate(db, company, e);
            && found.id in found.db.certificates && CertificatesKept(db, found.db, found.id)
            && found.db.companies == db.companies
            && (found.id !in db.certificates ==> found.db.certificates[found.id].record == C.Created(e.holderCuit))
            && found.db.(certificates := db.certificates, rows := db.rows, nextId := db.nextId) == db
  {
  }

  lemma LoadingKeeps(db: Db, found: Db, id: nat, e: Environ, now: int)
    requires id in found.certificates && CertificatesKept(db, found, id) && LoadMaterial(found, id, e, now).Go?
    ensures CertificatesKept(db, LoadMaterial(found, id, e, now).db, id)
  {
    MaterialIsKept(found, id, e, now);
  }

  /** An existing key, certificate or ticket is never overwritten, on any record. */
  lemma NoCertificateIsOverwritten(db: Db, e: Environ, marker: Option<string>, now: int)
    requires Numbered(db) && Bootstrapped(db, e, marker, now).Ready?
    ensures var r := Bootstrapped(db, e, marker, now); CertificatesKept(db, r.db, r.id)
  {
    var company, id, found, loaded, linked := ReadyStages(db, e, marker, now);
    SeedingKeeps(Quiet(db), company, e);
    LoadingKeeps(db, found, id, e, now);
    assert linked.certificates == loaded.certificates && linked.rows == loaded.rows;
  }

  /** Nor is a company's link, and nothing else moves but the requests that are switched off. */
  lemma NoLinkIsOverwritten(db: Db, e: Environ, marker: Option<string>, now: int)
    requires Numbered(db) && Bootstrapped(db, e, marker, now).Ready?
    ensures var r := Bootstrapped(db, e, marker, now);
            && CompaniesKept(db, r.db, r.id)
            && r.db.moduleInstalled == db.moduleInstalled && r.db.columns == db.columns
            && r.db.attachments == db.attachments
  {
    var company, id, found, loaded, linked := ReadyStages(db, e, marker, now);
    SeedingKeeps(Quiet(db), company, e);
    MaterialIsKept(found, id, e, now);
    LinkingKeeps(db, loaded, company, id);
  }

  lemma LinkingKeeps(db: Db, loaded: Db, company: nat, id: nat)
    requires id in loaded.certificates && company in loaded.companies && loaded.companies == Quiet(db).companies
    requires LinkCompany(loaded, company, id).Go?
    ensures CompaniesKept(db, LinkCompany(loaded, company, id).db, id)
  {
  }

  /** What a committed run leaves, wherever it started. */
  ghost predicate Prepared(db: Db, id: nat) {
    && db.moduleInstalled && CertificateField in db.columns && PrivateKeyField in db.columns
    && AutoRequestOff(db)
    && id in db.certificates && db.certificates[id].testing
    && db.rows == [Row(true, id)]
    && IsPair(db.certificates[id].record) && InTheRow(db, id)
    && db.installedSha.Some?
  }

  lemma QuietIsQuiet(db: Db)
    requires AutoRequestOff(db)
    ensures Quiet(db) == db
  {
    assert Quiet(db).companies == db.companies;
  }

  lemma ReadyIsPrepared(db: Db, e: Environ, marker: Option<string>, now: int)
    requires Bootstrapped(db, e, marker, now).Ready?
    ensures var r := Bootstrapped(db, e, marker, now);
            && Prepared(r.db, r.id) && r.db.installedSha == ResolveCodeSha(e.codeSha, marker)
            && e.allowed
            && (exists company ::
                  TargetCompany(r.db, e.company) == Some(company) && r.db.companies[company].certificate == Some(r.id))
  {
    var company, id, found, loaded, linked := ReadyStages(db, e, marker, now);
    LinkingKeeps(db, loaded, company, id);
    SameCompanies(db, linked, e.company, company);
  }

  lemma SameCompanies(db: Db, after: Db, choice: CompanyChoice, company: nat)
    requires after.companies.Keys == db.companies.Keys && TargetCompany(Quiet(db), choice) == Some(company)
    ensures TargetCompany(after, choice) == Some(company)
  {
    assert Quiet(db).companies.Keys == db.companies.Keys;
  }

  /** The key and the certificate a run leaves: what was there, else what the environment gives. */
  function KeyOf(record: C.Record, e: Environ): Option<C.KeyFile> {
    if record.privateKey.Some? then record.privateKey else e.privateKey
  }

  function CertificateOf(record: C.Record, e: Environ): Option<C.CertificateFile> {
    if record.certificate.Some? then record.certificate else e.certificate
  }

  /** They are there and belong together; a certificate not there before is one the upload accepts. */
  predicate MaterialFits(record: C.Record, e: Environ, now: int) {
    var key, certificate := KeyOf(record, e), CertificateOf(record, e);
    && key.Some? && key.value.RsaKey? && certificate.Some? && certificate.value.X509?
    && key.value.publicHalf == certificate.value.publicHalf
    && (record.certificate.None? ==>
          C.NamesHolder(certificate.value, record) && certificate.value.notBefore <= now <= certificate.value.notAfter)
  }

  /** The database has the one pinned record, which may be used for the company. */
  predicate PinFits(db: Db, company: nat, e: Environ, now: int)
    requires company in db.companies
  {
    && |db.rows| == 1 && db.rows[0].isCertificate && db.rows[0].resId in db.certificates
    && var id := db.rows[0].resId;
    && db.certificates[id].testing
    && MaterialFits(db.certificates[id].record, e, now) && AttachmentsOf(db, id) == 0
    && MayLink(db, company, id)
  }

  /** Or it has none, and one can be made for the company. */
  predicate SeedFits(db: Db, company: nat, e: Environ, now: int)
    requires company in db.companies
  {
    && db.rows == [] && (forall id | id in db.certificates :: db.certificates[id].company != company)
    && Cuit.IsValidCuit(e.holderCuit)
    && MaterialFits(C.Created(e.holderCuit), e, now) && AttachmentsOf(db, db.nextId) == 0
    && (db.companies[company].certificate == None || db.companies[company].certificate == Some(db.nextId))
  }

  /** What a run commits for its record: the key and the certificate above, on the record that was there or on a
      new one for the environment's holder, and the commit the code came from. */
  lemma MaterialComesFrom(db: Db, e: Environ, marker: Option<string>, now: int)
    requires Numbered(db) && Bootstrapped(db, e, marker, now).Ready?
    ensures var r := Bootstrapped(db, e, marker, now);
            var before := if r.id in db.certificates then db.certificates[r.id].record else C.Created(e.holderCuit);
            && r.id in r.db.certificates
            && r.db.certificates[r.id].record.privateKey == KeyOf(before, e)
            && r.db.certificates[r.id].record.certificate == CertificateOf(before, e)
            && r.db.certificates[r.id].record.holderCuit == before.holderCuit
            && r.db.installedSha == ResolveCodeSha(e.codeSha, marker)
  {
    var company, id, found, loaded, linked := ReadyStages(db, e, marker, now);
    SeedingKeeps(Quiet(db), company, e);
    MaterialIsKept(found, id, e, now);
  }

  /** A run commits exactly when all of this holds of the database and the environment before it. */
  lemma CommitsIff(db: Db, e: Environ, marker: Option<string>, now: int)
    requires Numbered(db)
    ensures Bootstrapped(db, e, marker, now).Ready? <==>
              && e.allowed && db.moduleInstalled && CertificateField in db.columns && PrivateKeyField in db.columns
              && ResolveCodeSha(e.codeSha, marker).Some?
              && exists company :: company in db.companies && TargetCompany(db, e.company) == Some(company)
                                   && (PinFits(db, company, e, now) || SeedFits(db, company, e, now))
  {
    var quiet := Quiet(db);
    assert quiet.companies.Keys == db.companies.Keys;
    if TargetCompany(db, e.company).Some? && CertificateField in db.columns && PrivateKeyField in db.columns {
      var company := TargetCompany(db, e.company).value;
      TargetIs(db, e.company, company);
      SeedingFits(quiet, company, e, marker, now);
      assert PinFits(quiet, company, e, now) <==> PinFits(db, company, e, now);
      assert SeedFits(quiet, company, e, now) <==> SeedFits(db, company, e, now);
    }
  }

  lemma SeedingFits(db: Db, company: nat, e: Environ, marker: Option<string>, now: int)
    requires Numbered(db) && CertificateField in db.columns && PrivateKeyField in db.columns
    requires company in db.companies && TargetCompany(db, e.company) == Some(company)
    ensures Seeded(db, e, marker, now).Ready? <==>
              ResolveCodeSha(e.codeSha, marker).Some? && (PinFits(db, company, e, now) || SeedFits(db, company, e, now))
  {
    EmptyIsNoCuit();
    match FindOrCreate(db, company, e)
    case NotFound(_) =>
    case Found(found, id) =>
      MaterialFitsIff(found, id, company, e, now);
      if |db.rows| == 1 && Pinned(db) {
        assert db.rows == [Row(true, id)] by {
          assert db.rows[0] == Row(true, id);
        }
      }
  }

  lemma EmptyIsNoCuit()
    ensures !Cuit.IsValidCuit("")
  {
    assert Cuit.Digits("") == "";
  }

  /** From the record found or made on: it is loaded, linked and verified exactly when its material fits. */
  lemma MaterialFitsIff(found: Db, id: nat, company: nat, e: Environ, now: int)
    requires id in found.certificates && company in found.companies
    requires CertificateField in found.columns && PrivateKeyField in found.columns
    ensures MaterialFits(found.certificates[id].record, e, now) && AttachmentsOf(found, id) == 0
            && found.rows == [Row(true, id)] && MayLink(found, company, id)
            <==>
            var loaded := LoadMaterial(found, id, e, now);
            && loaded.Go?
            && var linked := LinkCompany(loaded.db, company, id);
            && linked.Go? && Verified(linked.db, id).Go?
  {
    LoadedIff(found, id, e, now);
    if LoadMaterial(found, id, e, now).Go? {
      LinkedIff(LoadMaterial(found, id, e, now).db, company, id);
    }
  }

  predicate MayLink(db: Db, company: nat, id: nat)
    requires id in db.certificates && company in db.companies
  {
    db.companies[company].certificate == Some(id)
    || (db.companies[company].certificate == None && db.certificates[id].company == company)
  }

  lemma LoadedIff(found: Db, id: nat, e: Environ, now: int)
    requires id in found.certificates
    ensures var before, loaded := found.certificates[id].record, LoadMaterial(found, id, e, now);
            && (MaterialFits(before, e, now) <==>
                  loaded.Go? && id in loaded.db.certificates && IsPair(loaded.db.certificates[id].record))
            && (loaded.Go? ==>
                  id in loaded.db.certificates && loaded.db.certificates[id].company == found.certificates[id].company
                  && loaded.db == found.(certificates := loaded.db.certificates))
  {
  }

  lemma LinkedIff(loaded: Db, company: nat, id: nat)
    requires id in loaded.certificates && company in loaded.companies
    requires CertificateField in loaded.columns && PrivateKeyField in loaded.columns
    ensures var linked := LinkCompany(loaded, company, id);
            linked.Go? && Verified(linked.db, id).Go? <==>
              MayLink(loaded, company, id) && loaded.rows == [Row(true, id)]
              && IsPair(loaded.certificates[id].record) && AttachmentsOf(loaded, id) == 0
  {
  }

  /** Running it again changes nothing, and asks for no credentials: whatever material and holder the
      second environment offers, or none. */
  lemma SecondRunIsNoOp(db: Db, e: Environ, marker: Option<string>, now: int, again: Environ, later: int)
    requires Bootstrapped(db, e, marker, now).Ready?
    requires again.allowed == e.allowed && again.company == e.company && again.codeSha == e.codeSha
    ensures Bootstrapped(Bootstrapped(db, e, marker, now).db, again, marker, later) == Bootstrapped(db, e, marker, now)
  {
    var r := Bootstrapped(db, e, marker, now);
    ReadyIsPrepared(db, e, marker, now);
    QuietIsQuiet(r.db);
    SettledRun(r.db, r.id, again, marker, later);
  }

  lemma SettledRun(db: Db, id: nat, e: Environ, marker: Option<string>, now: int)
    requires Prepared(db, id) && Quiet(db) == db && e.allowed
    requires exists company ::
               TargetCompany(db, e.company) == Some(company) && db.companies[company].certificate == Some(id)
    requires db.installedSha == ResolveCodeSha(e.codeSha, marker)
    ensures Bootstrapped(db, e, marker, now) == Ready(db, id)
  {
    var company := TargetCompany(db, e.company).value;
    assert FindOrCreate(db, company, e) == Found(db, id);
    assert WithRecord(db, id, db.certificates[id].record) == db;
    assert LoadMaterial(db, id, e, now) == Go(db);
    assert LinkCompany(db, company, id) == Go(db);
  }

  // ----- bootstrap and preflight agree ----------------------------------------------------------

  /** After a run that commits, the preflight of a session passes exactly when the connection is
      encrypted, the session runs the recorded commit, and there was no certificate but the seeded one. */
  lemma ReadyPassesPreflight(db: Db, e: Environ, marker: Option<string>, now: int, tls: bool, codeSha: string)
    requires Numbered(db) && Bootstrapped(db, e, marker, now).Ready?
    ensures var r := Bootstrapped(db, e, marker, now);
            PreflightPasses(r.db, tls, codeSha) <==>
              tls && IsFullSha(codeSha) && ResolveCodeSha(e.codeSha, marker) == Some(LowerHex(codeSha))
              && db.certificates.Keys <= {r.id}
  {
    var r := Bootstrapped(db, e, marker, now);
    ReadyIsPrepared(db, e, marker, now);
    RecordedShaMatches(e.codeSha, marker, codeSha);
    NoCertificateIsOverwritten(db, e, marker, now);
    OnlySeed(db, r.db, r.id);
  }

  lemma OnlySeed(before: Db, after: Db, id: nat)
    requires CertificatesKept(before, after, id) && id in after.certificates
    ensures after.certificates.Keys == {id} <==> before.certificates.Keys <= {id}
  {
    if before.certificates.Keys <= {id} {
      assert forall other :: other in after.certificates.Keys ==> other == id;
    } else {
      var other :| other in before.certificates && other != id;
      assert other in after.certificates.Keys;
    }
  }

  lemma RecordedShaMatches(given: string, marker: Option<string>, running: string)
    requires ResolveCodeSha(given, marker).Some?
    ensures ShaMatches(ResolveCodeSha(given, marker), running) <==>
              IsFullSha(running) && ResolveCodeSha(given, marker) == Some(LowerHex(running))
  {
    LowerHexTwice(if given == "" && marker.Some? then marker.value else given);
  }

  /** So with the same environment it passes, unless the commit came from the image's marker: a session
      has no marker to fall back on. */
  lemma SameEnvironmentPasses(db: Db, e: Environ, marker: Option<string>, now: int)
    requires Numbered(db) && Bootstrapped(db, e, marker, now).Ready?
    ensures var r := Bootstrapped(db, e, marker, now);
            PreflightPasses(r.db, true, e.codeSha) <==> e.codeSha != "" && db.certificates.Keys <= {r.id}
  {
    ReadyPassesPreflight(db, e, marker, now, true, e.codeSha);
  }

  // ----- tickets, and the state nobody asks about -----------------------------------------------

  /** Tickets survive exactly when there was a certificate for them, or there were none. */
  lemma TicketsSurvive(db: Db, e: Environ, marker: Option<string>, now: int, id: nat)
    requires Numbered(db) && Bootstrapped(db, e, marker, now).Ready? && id in db.certificates
    ensures var r := Bootstrapped(db, e, marker, now);
            id in r.db.certificates
            && (r.db.certificates[id].record.tickets == db.certificates[id].record.tickets <==>
                  id != r.id || db.certificates[id].record.certificate.Some?
                  || db.certificates[id].record.tickets == map[])
  {
    var company, seed, found, loaded, linked := ReadyStages(db, e, marker, now);
    SeedingKeeps(Quiet(db), company, e);
    MaterialIsKept(found, seed, e, now);
  }

  /** A record that lived by its own actions keeps every ticket. */
  lemma LivedRecordsKeepTheirTickets(db: Db, e: Environ, marker: Option<string>, now: int, id: nat, h: C.History)
    requires Numbered(db) && Bootstrapped(db, e, marker, now).Ready? && id in db.certificates
    requires C.Lawful(h) && db.certificates[id].record == C.Now(h)
    ensures var r := Bootstrapped(db, e, marker, now);
            id in r.db.certificates && r.db.certificates[id].record.tickets == db.certificates[id].record.tickets
  {
    TicketsSurvive(db, e, marker, now, id);
    C.HistoryIsSane(h);
  }

  /** Neither script looks at the state: what a committed run leaves can sign unless the certificate was
      there before and is revoked, expired or past its date. */
  lemma ReadyCanSign(db: Db, e: Environ, marker: Option<string>, now: int)
    requires Numbered(db) && Bootstrapped(db, e, marker, now).Ready?
    ensures var r := Bootstrapped(db, e, marker, now);
            r.id in r.db.certificates
            && (C.Usable(r.db.certificates[r.id].record, now) <==>
                  (r.id in db.certificates && db.certificates[r.id].record.certificate.Some? ==>
                     db.certificates[r.id].record.state.Active? && !C.PastEnd(r.db.certificates[r.id].record, now)))
  {
    var company, id, found, loaded, linked := ReadyStages(db, e, marker, now);
    SeedingKeeps(Quiet(db), company, e);
    MaterialIsKept(found, id, e, now);
  }

  /** A revoked record whose certificate is still there gets a key again, so that uploading the same
      certificate makes it active: revocation is final for a record's own actions only. */
  lemma RevokedRecordsComeBack(db: Db, e: Environ, marker: Option<string>, now: int, later: int)
    requires Numbered(db) && Bootstrapped(db, e, marker, now).Ready?
    requires var r := Bootstrapped(db, e, marker, now);
             r.id in db.certificates && db.certificates[r.id].record.state.Revoked?
             && db.certificates[r.id].record.privateKey.None? && db.certificates[r.id].record.certificate.Some?
    ensures var r := Bootstrapped(db, e, marker, now);
            && r.id in r.db.certificates
            && var record := r.db.certificates[r.id].record;
            && record.state.Revoked? && record.certificate.Some? && record.certificate.value.X509?
            && record.privateKey == e.privateKey && record.privateKey.Some?
            && (C.After(record, C.Process(record.certificate.value, later)).state.Active? <==>
                  C.NamesHolder(record.certificate.value, record)
                  && record.certificate.value.notBefore <= later <= record.certificate.value.notAfter)
  {
    var company, id, found, loaded, linked := ReadyStages(db, e, marker, now);
    SeedingKeeps(Quiet(db), company, e);
    MaterialIsKept(found, id, e, now);
  }

  // ----- two databases ----------------------------------------------------------------------------

  const SomeCommit := "0123456789abcdef0123456789abcdef01234567"
  const SomeKey := C.RsaKey(7, 9)
  const SomeCertificate := C.X509(7, None, 0, 100, 1)

  /** One company and its pinned certificate, in homologación. */
  function OneCertificate(state: C.LifeState, key: Option<C.KeyFile>): Db {
    var record := C.Record("", state, key, None, Some(SomeCertificate), Some(0), Some(100), map[]);
    Db(true, {CertificateField, PrivateKeyField}, map[1 := Company(false, None)], map[1 := Stored(1, true, record)],
       [Row(true, 1)], map[], None, 2)
  }

  lemma SomeCommitIsFull()
    ensures IsFullSha(SomeCommit) && SomeCommit != ""
  {
    assert |SomeCommit| == 40;
  }

  /** A run of the bootstrap over a revoked record commits, gives it a key again, and leaves a database the
      preflight accepts. */
  lemma RevokedDatabaseIsAccepted()
    ensures var e := Environ(true, CompanyNumber(1), "", None, Some(SomeKey), SomeCommit);
            var r := Bootstrapped(OneCertificate(C.Revoked, None), e, None, 10);
            && r.Ready? && r.id in r.db.certificates
            && r.db.certificates[r.id].record.state.Revoked?
            && r.db.certificates[r.id].record.privateKey == Some(SomeKey)
            && PreflightPasses(r.db, true, SomeCommit)
  {
    var e := Environ(true, CompanyNumber(1), "", None, Some(SomeKey), SomeCommit);
    var db := OneCertificate(C.Revoked, None);
    SomeCommitIsFull();
    BootstrapOfOne(db, C.Revoked, None, e, None);
    SameEnvironmentPasses(db, e, None, 10);
  }

  /** A run whose commit came from the image's marker commits, and the preflight with the same environment
      refuses what it left. */
  lemma MarkedDatabaseIsRefused()
    ensures var e := Environ(true, CompanyNumber(1), "", None, None, "");
            var r := Bootstrapped(OneCertificate(C.Active, Some(SomeKey)), e, Some(SomeCommit), 10);
            r.Ready? && !PreflightPasses(r.db, true, e.codeSha)
  {
    var e := Environ(true, CompanyNumber(1), "", None, None, "");
    var db := OneCertificate(C.Active, Some(SomeKey));
    SomeCommitIsFull();
    BootstrapOfOne(db, C.Active, Some(SomeKey), e, Some(SomeCommit));
    SameEnvironmentPasses(db, e, Some(SomeCommit), 10);
  }

  /** The bootstrap of such a database, when a key is there or given and the commit is known. */
  lemma BootstrapOfOne(db: Db, state: C.LifeState, key: Option<C.KeyFile>, e: Environ, marker: Option<string>)
    requires db == OneCertificate(state, key) && e.allowed && e.company == CompanyNumber(1)
    requires if key.Some? then key == Some(SomeKey) else e.privateKey == Some(SomeKey)
    requires ResolveCodeSha(e.codeSha, marker).Some?
    ensures var r := Bootstrapped(db, e, marker, 10);
            && r.Ready? && r.id == 1 && 1 in r.db.certificates
            && r.db.certificates[1].record == db.certificates[1].record.(privateKey := Some(SomeKey))
  {
    var quiet := Quiet(db);
    assert FindOrCreate(quiet, 1, e) == Found(quiet, 1);
    var loaded := WithRecord(quiet, 1, db.certificates[1].record.(privateKey := Some(SomeKey)));
    assert LoadMaterial(quiet, 1, e, 10) == Go(loaded);
    var linked := loaded.(companies := loaded.companies[1 := loaded.companies[1].(certificate := Some(1))]);
    assert LinkCompany(loaded, 1, 1) == Go(linked);
    assert Verified(linked, 1) == Go(linked);
  }
}
