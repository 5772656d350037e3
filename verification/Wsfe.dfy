/**
 The WSFEv1 transport: every way a FECAESolicitar call can end, and the one outcome each is turned
 into.  What ARCA really did is not visible to the caller; `Honest` says what may be assumed about
 it, and the theorem at the end says that assumption is exactly what the classification needs.
 */
module Wsfe {
  import opened Base

  /** What invoking a SOAP operation may raise, by exception class. */
  datatype Failure =
    | Fault(code: string)
    | TransportError(status: int)
    | XmlSyntaxError
    | ReadTimeout
    | ConnectTimeout
    | ConnectionError(repr: string)
    | OtherFailure

  /** An element of `Errors.Err` or `Observaciones.Obs`, with its attributes possibly missing. */
  datatype RawEntry = RawEntry(code: Option<string>, message: Option<string>)
  datatype Entry = Entry(code: string, message: string)

  datatype Detail = Detail(resultado: Option<string>, cae: Option<string>, observations: Option<seq<RawEntry>>)
  datatype Response = Response(errors: Option<seq<RawEntry>>, details: Option<seq<Detail>>)

  /** Where a call can stop before the envelope leaves: the service description or the ticket. */
  datatype PreSend = NoServiceDescription | TicketUnavailable | TicketRefused

  datatype CallResult =
    | NotSent(stage: PreSend)
    | Raised(failure: Failure)
    | Answered(response: Option<Response>)

  /** The taxonomy of arca_errors, plus success. */
  datatype Outcome =
    | Authorized(cae: Option<string>)
    | Rejected(code: string)
    | Aborted
    | Uncertain

  // ----- entries ---------------------------------------------------------------------------

  const ERROR_NO_DATA_FOUND := "602"
  const ERROR_CUIT_NOT_REPRESENTED := "601"

  function OrEmpty(text: Option<string>): string {
    match text
    case None => ""
    case Some(t) => t
  }

  function ToEntry(raw: RawEntry): Entry {
    Entry(OrEmpty(raw.code), OrEmpty(raw.message))
  }

  function Entries(container: Option<seq<RawEntry>>): seq<Entry> {
    match container
    case None => []
    case Some(raws) => seq(|raws|, i requires 0 <= i < |raws| => ToEntry(raws[i]))
  }

  method CollectErrors(container: Option<seq<RawEntry>>) returns (errors: seq<Entry>)
    ensures errors == Entries(container)
    ensures container.None? ==> errors == []
    ensures container.Some? ==>
              |errors| == |container.value|
              && forall k :: 0 <= k < |errors| ==>
                   && errors[k].code == (if container.value[k].code.Some? then container.value[k].code.value else "")
                   && errors[k].message
                      == (if container.value[k].message.Some? then container.value[k].message.value else "")
  {
    errors := [];
    if container.Some? {
      var raws := container.value;
      for i := 0 to |raws|
        invariant errors == Entries(container)[..i]
      {
        errors := errors + [ToEntry(raws[i])];
      }
    }
  }

  /** The code attribute of one of the raw errors, without blanks around it, is this one. */
  ghost predicate Mentions(container: Option<seq<RawEntry>>, code: string) {
    container.Some?
    && exists k :: 0 <= k < |container.value| && Strip(OrEmpty(container.value[k].code)) == code
  }

  predicate Blank(c: char) { c == ' ' || c == '\t' || c == '\n' || c == '\r' }

  function Strip(text: string): string
    decreases |text|
  {
    if text == "" then ""
    else if Blank(text[0]) then Strip(text[1..])
    else if Blank(text[|text| - 1]) then Strip(text[..|text| - 1])
    else text
  }

  predicate NoBlankEnds(text: string) {
    text == "" || (text[0] !in " \t\n\r" && text[|text| - 1] !in " \t\n\r")
  }

  /** What is left when both ends are stripped: the text from `i` to `j`, all blanks outside. */
  predicate StripsTo(text: string, i: nat, j: nat) {
    && i <= j <= |text|
    && Strip(text) == text[i..j]
    && (forall k | 0 <= k < i :: text[k] in " \t\n\r")
    && (forall k | j <= k < |text| :: text[k] in " \t\n\r")
  }

  lemma {:induction false} StripBounds(text: string) returns (i: nat, j: nat)
    ensures StripsTo(text, i, j)
    decreases |text|
  {
    if text == "" {
      return 0, 0;
    } else if Blank(text[0]) {
      i, j := StripBounds(text[1..]);
      i, j := i + 1, j + 1;
      StripsFirst(text, i - 1, j - 1);
    } else if Blank(text[|text| - 1]) {
      i, j := StripBounds(text[..|text| - 1]);
      assert text[..|text| - 1][i..j] == text[i..j];
    } else {
      i, j := 0, |text|;
      assert text[i..j] == text;
    }
  }

  lemma StripsFirst(text: string, i: nat, j: nat)
    requires text != "" && Blank(text[0]) && StripsTo(text[1..], i, j)
    ensures StripsTo(text, i + 1, j + 1)
  {
    assert text[1..][i..j] == text[i + 1..j + 1];
    forall k | 0 < k <= i || j < k < |text|
      ensures text[k] in " \t\n\r"
    {
      assert text[1..][k - 1] == text[k];
    }
  }

  /** Stripping takes blanks off both ends and nothing else, ... */
  lemma StripTakesBlanks(text: string)
    ensures exists i, j :: StripsTo(text, i, j)
    ensures NoBlankEnds(Strip(text))
  {
    var i, j := StripBounds(text);
    StrippedEnds(text);
  }

  lemma {:induction false} StrippedEnds(text: string)
    ensures NoBlankEnds(Strip(text))
    decreases |text|
  {
    if text != "" && Blank(text[0]) {
      StrippedEnds(text[1..]);
    } else if text != "" && Blank(text[|text| - 1]) {
      StrippedEnds(text[..|text| - 1]);
    }
  }

  /** ... and a text without blanks at its ends is left as it is. */
  lemma StripKeeps(text: string)
    requires NoBlankEnds(text)
    ensures Strip(text) == text
  {
  }

  /** The code carried by the business error: 601 when it is among them, else the first one. */
  function BusinessCode(errors: seq<Entry>): string
    requires errors != []
  {
    if exists i | 0 <= i < |errors| :: Strip(errors[i].code) == ERROR_CUIT_NOT_REPRESENTED
    then errors[FirstWithCode(errors, ERROR_CUIT_NOT_REPRESENTED)].code
    else errors[0].code
  }

  function FirstWithCode(errors: seq<Entry>, code: string): (k: nat)
    requires exists i :: 0 <= i < |errors| && Strip(errors[i].code) == code
    ensures k < |errors| && Strip(errors[k].code) == code
    ensures forall j :: 0 <= j < k ==> Strip(errors[j].code) != code
  {
    if Strip(errors[0].code) == code then 0
    else
      assert exists i :: 0 <= i < |errors[1..]| && Strip(errors[1..][i].code) == code by {
        var i :| 0 <= i < |errors| && Strip(errors[i].code) == code;
        assert errors[1..][i - 1] == errors[i];
      }
      1 + FirstWithCode(errors[1..], code)
  }

  method RaiseBusinessError(errors: seq<Entry>) returns (outcome: Outcome)
    requires errors != []
    ensures outcome == Rejected(BusinessCode(errors))
  {
    for i := 0 to |errors|
      invariant forall j :: 0 <= j < i ==> Strip(errors[j].code) != ERROR_CUIT_NOT_REPRESENTED
    {
      if Strip(errors[i].code) == ERROR_CUIT_NOT_REPRESENTED {
        return Rejected(errors[i].code);
      }
    }
    outcome := Rejected(errors[0].code);
  }

  // ----- transport failures ----------------------------------------------------------------

  const CONNECT_STAGE_MARKERS: seq<string> := [
    "NewConnectionError", "NameResolutionError", "SSLError", "ProxyError", "getaddrinfo",
    "Failed to establish a new connection"]

  predicate OccursAt(text: string, marker: string, k: nat) {
    k + |marker| <= |text| && text[k..k + |marker|] == marker
  }

  predicate Contains(text: string, marker: string) {
    exists k | 0 <= k <= |text| :: OccursAt(text, marker, k)
  }

  predicate HasConnectStageMarker(text: string) {
    exists i | 0 <= i < |CONNECT_STAGE_MARKERS| :: Contains(text, CONNECT_STAGE_MARKERS[i])
  }

  /** `_classify_transport_exception`: anything not provably a connection-stage failure is uncertain. */
  function ClassifyTransport(failure: Failure): Outcome {
    match failure
    case ReadTimeout => Uncertain
    case ConnectTimeout => Aborted
    case ConnectionError(repr) => if HasConnectStageMarker(repr) then Aborted else Uncertain
    case _ => Uncertain
  }

  /** `_call`: a fault is a refusal; everything else goes by where it failed. */
  function FailureOutcome(failure: Failure): Outcome {
    match failure
    case Fault(code) => Rejected(code)
    case TransportError(_) => Uncertain
    case XmlSyntaxError => Uncertain
    case _ => ClassifyTransport(failure)
  }

  // ----- answers ---------------------------------------------------------------------------

  predicate Truthy(text: Option<string>) { text.Some? && text.value != "" }

  function DetailOutcome(detail: Detail, globalErrors: seq<Entry>): Outcome {
    if detail.resultado == Some("R") then
      var reasons := globalErrors + Entries(detail.observations);
      Rejected(if reasons == [] then "" else reasons[0].code)
    else if detail.resultado == Some("A") && !Truthy(detail.cae) then Uncertain
    else if detail.resultado != Some("A") && detail.resultado != Some("P") then Uncertain
    else Authorized(detail.cae)
  }

  function AnswerOutcome(answer: Option<Response>): Outcome {
    match answer
    case None => Uncertain
    case Some(response) =>
      var errors := Entries(response.errors);
      if response.details.None? || response.details.value == [] then
        if errors != [] then Rejected(BusinessCode(errors)) else Uncertain
      else DetailOutcome(response.details.value[0], errors)
  }

  function PreSendOutcome(stage: PreSend): Outcome {
    match stage
    case TicketRefused => Rejected("")
    case _ => Aborted
  }

  function OutcomeOf(result: CallResult): Outcome {
    match result
    case NotSent(stage) => PreSendOutcome(stage)
    case Raised(failure) => FailureOutcome(failure)
    case Answered(answer) => AnswerOutcome(answer)
  }

  method ParseCaeResponse(answer: Option<Response>) returns (outcome: Outcome)
    ensures outcome == AnswerOutcome(answer)
  {
    if answer.None? {
      return Uncertain;
    }
    var response := answer.value;
    var globalErrors := CollectErrors(response.errors);
    if response.details.None? || response.details.value == [] {
      if globalErrors != [] {
        outcome := RaiseBusinessError(globalErrors);
        return;
      }
      return Uncertain;
    }
    var detail := response.details.value[0];
    var observations := CollectErrors(detail.observations);
    if detail.resultado == Some("R") {
      var reasons := globalErrors + observations;
      return Rejected(if reasons == [] then "" else reasons[0].code);
    }
    if detail.resultado == Some("A") && !Truthy(detail.cae) {
      return Uncertain;
    }
    if detail.resultado != Some("A") && detail.resultado != Some("P") {
      return Uncertain;
    }
    outcome := Authorized(detail.cae);
  }

  // ----- what ARCA is trusted for ------------------------------------------------------------

  /** The results after which ARCA is trusted not to hold, nor ever to create, the voucher. */
  predicate NoVoucherResult(result: CallResult) {
    match result
    case NotSent(_) => true
    case Raised(failure) =>
      failure.Fault? || failure.ConnectTimeout?
      || (failure.ConnectionError? && HasConnectStageMarker(failure.repr))
    case Answered(None) => false
    case Answered(Some(r)) =>
      if r.details.None? || r.details.value == []
      then r.errors.Some? && r.errors.value != []
      else r.details.value[0].resultado == Some("R")
  }

  /** The results after which ARCA is trusted to hold the voucher. */
  predicate VoucherResult(result: CallResult) {
    result.Answered? && result.response.Some?
    && var r := result.response.value;
    r.details.Some? && r.details.value != []
    && var d := r.details.value[0];
    (d.resultado == Some("P") || (d.resultado == Some("A") && Truthy(d.cae)))
  }

  predicate Honest(result: CallResult, created: bool) {
    && (NoVoucherResult(result) ==> !created)
    && (VoucherResult(result) ==> created)
  }

  predicate ReleasesNumber(outcome: Outcome) { outcome.Rejected? || outcome.Aborted? }

  /** The verdict agrees with ARCA: the number is given back, or the invoice authorized, only rightly. */
  predicate Sound(outcome: Outcome, created: bool) {
    && (ReleasesNumber(outcome) ==> !created)
    && (outcome.Authorized? ==> created)
  }

  lemma EntriesEmpty(container: Option<seq<RawEntry>>)
    ensures Entries(container) == [] <==> container.None? || container.value == []
  {
    if container.Some? {
      assert |Entries(container)| == |container.value|;
    }
  }

  /** The classification is right for every call result exactly when ARCA is honest about it. */
  lemma OutcomeSoundIffHonest(result: CallResult, created: bool)
    ensures Sound(OutcomeOf(result), created) <==> Honest(result, created)
  {
    if result.Answered? && result.response.Some? {
      EntriesEmpty(result.response.value.errors);
    }
  }

  /** Nothing but a refusal ARCA answered or a failure before sending ever gives a number back. */
  lemma OnlyProvenAbsenceReleases(result: CallResult)
    ensures ReleasesNumber(OutcomeOf(result)) <==> NoVoucherResult(result)
    ensures OutcomeOf(result).Authorized? <==> VoucherResult(result)
  {
    if result.Answered? && result.response.Some? {
      EntriesEmpty(result.response.value.errors);
    }
  }

  /** The text stands somewhere in the other. */
  ghost predicate Within(marker: string, text: string) {
    exists before, after: string :: text == before + marker + after
  }

  lemma ContainsIsWithin(text: string, marker: string)
    ensures Contains(text, marker) <==> Within(marker, text)
  {
    if Contains(text, marker) {
      var k :| 0 <= k <= |text| && OccursAt(text, marker, k);
      assert text == text[..k] + marker + text[k + |marker|..];
    }
    if Within(marker, text) {
      var before, after :| text == before + marker + after;
      assert OccursAt(text, marker, |before|);
    }
  }

  /** A connection error that names a stage before the connection was there. */
  ghost predicate NamesConnectStage(repr: string) {
    || Within("NewConnectionError", repr) || Within("NameResolutionError", repr) || Within("SSLError", repr)
    || Within("ProxyError", repr) || Within("getaddrinfo", repr)
    || Within("Failed to establish a new connection", repr)
  }

  lemma MarkersNameTheStage(repr: string)
    ensures HasConnectStageMarker(repr) <==> NamesConnectStage(repr)
  {
    forall i | 0 <= i < |CONNECT_STAGE_MARKERS| {
      ContainsIsWithin(repr, CONNECT_STAGE_MARKERS[i]);
    }
    assert |CONNECT_STAGE_MARKERS| == 6;
    assert CONNECT_STAGE_MARKERS[0] == "NewConnectionError" && CONNECT_STAGE_MARKERS[1] == "NameResolutionError";
    assert CONNECT_STAGE_MARKERS[2] == "SSLError" && CONNECT_STAGE_MARKERS[3] == "ProxyError";
    assert CONNECT_STAGE_MARKERS[4] == "getaddrinfo";
    assert CONNECT_STAGE_MARKERS[5] == "Failed to establish a new connection";
  }

  /** The first detail of an answer, when there is one. */
  function FirstDetail(result: CallResult): Option<Detail> {
    if result.Answered? && result.response.Some? && result.response.value.details.Some?
       && result.response.value.details.value != []
    then Some(result.response.value.details.value[0])
    else None
  }

  /** ARCA answered with a list of errors. */
  predicate HasErrors(result: CallResult) {
    result.Answered? && result.response.Some? && result.response.value.errors.Some?
    && result.response.value.errors.value != []
  }

  /** Which end of a call has which outcome: aborted when it stopped before sending, other than for a refused
      ticket, or while connecting; rejected when the ticket or the call was refused, the detail is an "R" or
      there are errors and no detail; authorized after a "P", or an "A" with a CAE; uncertain otherwise. */
  lemma OutcomeByResult(result: CallResult)
    ensures var detail, outcome := FirstDetail(result), OutcomeOf(result);
            && (outcome.Aborted? <==>
                  result == NotSent(NoServiceDescription) || result == NotSent(TicketUnavailable)
                  || result == Raised(ConnectTimeout)
                  || (result.Raised? && result.failure.ConnectionError? && NamesConnectStage(result.failure.repr)))
            && (outcome.Rejected? <==>
                  result == NotSent(TicketRefused) || (result.Raised? && result.failure.Fault?)
                  || (detail.Some? && detail.value.resultado == Some("R"))
                  || (detail.None? && HasErrors(result)))
            && (outcome.Authorized? <==>
                  detail.Some? && (detail.value.resultado == Some("P")
                                   || (detail.value.resultado == Some("A") && detail.value.cae != None
                                       && detail.value.cae != Some(""))))
            && (outcome.Authorized? ==> outcome.cae == detail.value.cae)
  {
    if result.Answered? && result.response.Some? {
      EntriesEmpty(result.response.value.errors);
    }
    if result.Raised? && result.failure.ConnectionError? {
      MarkersNameTheStage(result.failure.repr);
    }
  }

  /** An invoice is authorized without a CAE exactly when the first detail is a partial result "P" that
      brings none: it does not happen after "A" ... */
  lemma AuthorizedCarriesCae(result: CallResult)
    ensures OutcomeOf(result).Authorized? && !Truthy(OutcomeOf(result).cae)
            <==> FirstDetail(result).Some?
                 && FirstDetail(result).value.resultado == Some("P") && !Truthy(FirstDetail(result).value.cae)
  {
    if result.Answered? && result.response.Some? {
      EntriesEmpty(result.response.value.errors);
    }
  }

  /** ... and this answer is one that does it. */
  lemma PartialWithoutCaeAuthorizes()
    ensures OutcomeOf(Answered(Some(Response(None, Some([Detail(Some("P"), None, None)]))))) == Authorized(None)
  {
    assert Entries(None) == [];
  }

  // ----- FECompConsultar -------------------------------------------------------------------

  datatype Consultation = NotFound | Found(cae: Option<string>) | Refused(code: string)

  /** `fe_comp_consultar` after the call: code 602 anywhere means absent, other errors are refusals. */
  function ConsultOutcome(errors: Option<seq<RawEntry>>, resultGet: Option<Option<string>>): Consultation {
    var entries := Entries(errors);
    if exists i | 0 <= i < |entries| :: Strip(entries[i].code) == ERROR_NO_DATA_FOUND then NotFound
    else if entries != [] then Refused(BusinessCode(entries))
    else match resultGet
      case None => NotFound
      case Some(cae) => Found(cae)
  }

  /** What a consultation says, from the attributes ARCA sent: absent exactly when one of the codes is 602, or
      when there is neither an error nor a result; found exactly when there is a result and no error. */
  lemma ConsultationByCode(errors: Option<seq<RawEntry>>, resultGet: Option<Option<string>>)
    ensures var none := errors == None || errors == Some([]);
            var answer := ConsultOutcome(errors, resultGet);
            && (answer.NotFound? <==> Mentions(errors, "602") || (none && resultGet == None))
            && (answer.Found? <==> none && resultGet.Some?)
            && (answer.Found? ==> answer.cae == resultGet.value)
  {
    EntriesEmpty(errors);
    CodesAreTheirs(errors, "602");
  }

  /** A single error 602 is enough, wherever it stands and whatever else the answer holds. */
  lemma NoDataIsAbsence(raws: seq<RawEntry>, resultGet: Option<Option<string>>, k: nat)
    requires k < |raws| && raws[k].code == Some("602")
    ensures ConsultOutcome(Some(raws), resultGet).NotFound?
  {
    StripKeeps("602");
    assert Mentions(Some(raws), "602");
    ConsultationByCode(Some(raws), resultGet);
  }

  lemma CodesAreTheirs(container: Option<seq<RawEntry>>, code: string)
    ensures Mentions(container, code)
            <==> exists i :: 0 <= i < |Entries(container)| && Strip(Entries(container)[i].code) == code
  {
    if container.Some? {
      forall k | 0 <= k < |container.value|
        ensures Entries(container)[k].code == OrEmpty(container.value[k].code)
      {
      }
    }
  }

  /** The code a refusal carries, from the attributes ARCA sent: one that reads 601 if there is any, otherwise
      that of the first error. */
  lemma RefusalCode(raws: seq<RawEntry>)
    requires raws != []
    ensures var code := BusinessCode(Entries(Some(raws)));
            if Mentions(Some(raws), "601") then Strip(code) == "601" else code == OrEmpty(raws[0].code)
  {
    CodesAreTheirs(Some(raws), "601");
  }

  /** A rejected detail carries the code of the first error, global ones before its own observations. */
  lemma RejectionCode(errors: Option<seq<RawEntry>>, detail: Detail)
    requires detail.resultado == Some("R")
    ensures var all := (if errors.Some? then errors.value else [])
                       + (if detail.observations.Some? then detail.observations.value else []);
            DetailOutcome(detail, Entries(errors)) == Rejected(if all == [] then "" else OrEmpty(all[0].code))
  {
    EntriesEmpty(errors);
    EntriesEmpty(detail.observations);
    var reasons := Entries(errors) + Entries(detail.observations);
    var all := (if errors.Some? then errors.value else [])
               + (if detail.observations.Some? then detail.observations.value else []);
    assert |reasons| == |all|;
  }

  method FeCompConsultar(errorContainer: Option<seq<RawEntry>>, resultGet: Option<Option<string>>)
    returns (answer: Consultation)
    ensures answer == ConsultOutcome(errorContainer, resultGet)
    ensures answer.NotFound? <==> Mentions(errorContainer, "602")
                                  || ((errorContainer == None || errorContainer == Some([])) && resultGet == None)
    ensures answer.Found? <==> (errorContainer == None || errorContainer == Some([])) && resultGet.Some?
    ensures answer.Found? ==> answer.cae == resultGet.value
  {
    var errors := CollectErrors(errorContainer);
    ConsultationByCode(errorContainer, resultGet);
    var absent := HasCode(errors, ERROR_NO_DATA_FOUND);
    if absent {
      return NotFound;
    }
    if errors != [] {
      var refusal := RaiseBusinessError(errors);
      return Refused(refusal.code);
    }
    if resultGet.None? {
      return NotFound;
    }
    answer := Found(resultGet.value);
  }

  method HasCode(errors: seq<Entry>, code: string) returns (found: bool)
    ensures found <==> exists i :: 0 <= i < |errors| && Strip(errors[i].code) == code
  {
    for i := 0 to |errors|
      invariant forall j :: 0 <= j < i ==> Strip(errors[j].code) != code
    {
      if Strip(errors[i].code) == code {
        return true;
      }
    }
    found := false;
  }

  /** The answers after which ARCA is trusted not to hold the voucher asked about ... */
  predicate AbsentAnswer(errors: seq<Entry>, resultGet: Option<Option<string>>) {
    (exists i | 0 <= i < |errors| :: Strip(errors[i].code) == ERROR_NO_DATA_FOUND) || (errors == [] && resultGet.None?)
  }

  /** ... and those after which it is trusted to hold it, under the CAE it names. */
  predicate PresentAnswer(errors: seq<Entry>, resultGet: Option<Option<string>>) { errors == [] && resultGet.Some? }

  /** `held` is the CAE of the voucher ARCA holds at the coordinate, if it holds one. */
  predicate HonestConsultation(errors: Option<seq<RawEntry>>, resultGet: Option<Option<string>>, held: Option<string>) {
    && (AbsentAnswer(Entries(errors), resultGet) ==> held.None?)
    && (PresentAnswer(Entries(errors), resultGet) ==> held.Some? && resultGet == Some(held))
  }

  predicate TrueOf(answer: Consultation, held: Option<string>) {
    match answer
    case NotFound => held.None?
    case Found(cae) => held.Some? && cae == held
    case Refused(_) => true
  }

  /** "Not found" means there is no voucher, and "found" that it is this one, exactly when ARCA is honest
      about the consultation; any other answer decides nothing. */
  lemma ConsultationTrueIffHonest(errors: Option<seq<RawEntry>>, resultGet: Option<Option<string>>,
                                  held: Option<string>)
    ensures TrueOf(ConsultOutcome(errors, resultGet), held) <==> HonestConsultation(errors, resultGet, held)
    ensures ConsultOutcome(errors, resultGet).Refused?
            <==> !AbsentAnswer(Entries(errors), resultGet) && !PresentAnswer(Entries(errors), resultGet)
  {
  }
}
