/** The consent workflow of the consent-management screen: the canonical
    statement a wallet signs, the status query that follows the filter, and the
    component state that the fetch effect and the create and update handlers
    change step by step. The wallet signer and the consent service are not part
    of the model: each awaited call is an `Outcome` the caller supplies, and each
    handler returns the calls it issued, in order. */
module ConsentFlow {
  import opened Responses
  import opened JsText

  /** A consent record as the service returns it; "" stands for a field that is
      null, undefined or empty. */
  datatype Consent = Consent(
    id: string,
    patientId: string,
    purpose: string,
    walletAddress: string,
    signature: string,
    message: string,
    status: string,
    blockchainTxHash: string)

  /** The two inputs of the create form. */
  datatype ConsentForm = ConsentForm(patientId: string, purpose: string)

  const EmptyForm := ConsentForm("", "")

  /** The body posted to create a consent. */
  datatype ConsentPayload = ConsentPayload(
    patientId: string,
    purpose: string,
    walletAddress: string,
    signature: string,
    message: string)

  /** A call into the wallet signer or the consent service. */
  datatype ConsentCall =
    | SignMessage(message: string)
    | CreateConsent(payload: ConsentPayload)
    | UpdateConsent(consentId: string, newStatus: string)
    | GetConsents(patientId: Option<string>, status: Option<string>)

  /** The purposes the create form offers. */
  const Purposes: set<string> := {
    "Research Study Participation",
    "Data Sharing with Research Institution",
    "Third-Party Analytics Access",
    "Insurance Provider Access"
  }

  const MessagePrefix := "I consent to: "
  const MessageSeparator := " for patient: "

  const FetchFailed := "Failed to fetch consents"
  const WalletRequired := "Please connect your wallet first"
  const CreatedAlert := "Consent created successfully!"

  function CreateFailedAlert(message: string): string
  {
    "Failed to create consent: " + message
  }

  function UpdatedAlert(status: string): string
  {
    "Consent status updated to " + status + "!"
  }

  function UpdateFailedAlert(message: string): string
  {
    "Failed to update consent: " + message
  }

  // ----- the signed statement and its reading back -----

  /** The canonical statement that is signed and posted: the fixed prefix, the
      purpose, the fixed separator and the patient id, in that order. */
  function ConsentMessage(purpose: string, patientId: string): (m: string)
    ensures |m| == |MessagePrefix| + |purpose| + |MessageSeparator| + |patientId|
    ensures m[..|MessagePrefix|] == MessagePrefix
    ensures m[|MessagePrefix|..|MessagePrefix| + |purpose|] == purpose
    ensures m[|MessagePrefix| + |purpose|..|m| - |patientId|] == MessageSeparator
    ensures m[|m| - |patientId|..] == patientId
  {
    MessagePrefix + purpose + MessageSeparator + patientId
  }

  /** What a verifier reads back out of a statement. */
  datatype Statement = Statement(purpose: string, patientId: string)

  predicate SeparatorAt(m: string, j: int)
  {
    0 <= j && j + |MessageSeparator| <= |m| && m[j..j + |MessageSeparator|] == MessageSeparator
  }

  /** The first position at or after `from` where the separator occurs. */
  function FindSeparator(m: string, from: nat): (r: Option<nat>)
    ensures r.Some? ==> from <= r.value && SeparatorAt(m, r.value)
    ensures forall j :: from <= j && (r.None? || j < r.value) ==> !SeparatorAt(m, j)
    decreases |m| - from
  {
    if from + |MessageSeparator| > |m| then None
    else if SeparatorAt(m, from) then Some(from)
    else FindSeparator(m, from + 1)
  }

  /** Reads the purpose and the patient id back out of a statement: the purpose
      runs from the prefix to the first separator, the patient id is the rest. */
  function ParseStatement(m: string): (r: Option<Statement>)
    ensures r.Some? ==> ConsentMessage(r.value.purpose, r.value.patientId) == m
  {
    if |m| < |MessagePrefix| || m[..|MessagePrefix|] != MessagePrefix then None
    else
      match FindSeparator(m, |MessagePrefix|)
      case None => None
      case Some(k) =>
        var s := Statement(m[|MessagePrefix|..k], m[k + |MessageSeparator|..]);
        assert m == m[..|MessagePrefix|] + m[|MessagePrefix|..k] + m[k..k + |MessageSeparator|] + m[k + |MessageSeparator|..];
        Some(s)
  }

  /** Every statement built from a purpose without a colon reads back as that
      purpose and that patient id, whatever the patient id holds. */
  lemma {:induction false} StatementRoundTrip(purpose: string, patientId: string)
    requires ':' !in purpose
    ensures ParseStatement(ConsentMessage(purpose, patientId)) == Some(Statement(purpose, patientId))
  {
    var m := ConsentMessage(purpose, patientId);
    var p := |MessagePrefix|;
    var k := p + |purpose|;
    assert SeparatorAt(m, k);
    assert m[p..k + 12] == purpose + MessageSeparator[..12];
    assert ':' !in MessageSeparator[..12];
    forall j | p <= j < k
      ensures !SeparatorAt(m, j)
    {
      // a separator at j would put its colon at j + 12, inside the purpose or
      // before the colon of the separator that follows it
      assert m[j + 12] == m[p..k + 12][j + 12 - p];
    }
    assert FindSeparator(m, p) == Some(k);
  }

  /** The purposes on offer contain no colon, so their statements read back. */
  lemma PurposeStatementRoundTrip(purpose: string, patientId: string)
    requires purpose in Purposes
    ensures ParseStatement(ConsentMessage(purpose, patientId)) == Some(Statement(purpose, patientId))
  {
    assert ':' !in purpose;
    StatementRoundTrip(purpose, patientId);
  }

  /** Without the colon restriction the template is ambiguous: a purpose that
      itself contains the separator yields the same statement as a different
      purpose and patient id. */
  lemma TemplateAmbiguousForFreeFormPurpose()
    ensures ConsentMessage("A for patient: B", "C") == ConsentMessage("A", "B for patient: C")
  {
  }

  // ----- the status filter and the actions on a record -----

  /** The status query parameter: none for the `all` filter, the filter itself
      otherwise. */
  function StatusParam(filter: string): (r: Option<string>)
    ensures r == None <==> filter == "all"
    ensures r != None ==> r.value == filter
  {
    if filter == "all" then None else Some(filter)
  }

  /** The status changes the consent-state machine allows: pending to active,
      pending to revoked, active to revoked. */
  predicate LegalTransition(from: string, to: string)
  {
    (from == "pending" && (to == "active" || to == "revoked")) || (from == "active" && to == "revoked")
  }

  /** The status update each action button of a card issues. */
  datatype StatusAction = StatusAction(consentId: string, status: string)

  /** The action buttons a consent card shows: Approve and Revoke, only for a
      pending consent and a connected wallet. */
  function ActionsFor(c: Consent, account: string): (r: seq<StatusAction>)
    ensures r != [] <==> c.status == "pending" && account != ""
    ensures r != [] ==> r == [StatusAction(c.id, "active"), StatusAction(c.id, "revoked")]
    ensures forall a :: a in r ==> a.consentId == c.id && LegalTransition(c.status, a.status)
  {
    if c.status == "pending" && account != "" then
      [StatusAction(c.id, "active"), StatusAction(c.id, "revoked")]
    else []
  }

  // ----- display abbreviations -----

  /** A card's anchoring transaction: shown only when set, as its first ten and
      last eight characters. */
  function TxHashLabel(hash: string): (r: Option<string>)
    ensures r == None <==> hash == ""
    ensures |hash| >= 18 ==> r == Some(hash[..10] + "..." + hash[|hash| - 8..])
  {
    if hash == "" then None else Some(Abbreviate(hash, 10, 8))
  }

  // ----- the component state -----

  class ConsentManagement {
    var consents: seq<Consent>
    var loading: bool
    var error: Option<string>
    var filterStatus: string
    var showCreateForm: bool
    var formData: ConsentForm

    /** The state on mount, before the first fetch. */
    constructor ()
      ensures consents == [] && loading && error == None
      ensures filterStatus == "all" && !showCreateForm && formData == EmptyForm
    {
      consents := [];
      loading := true;
      error := None;
      filterStatus := "all";
      showCreateForm := false;
      formData := EmptyForm;
    }

    /** A filter button: sets the filter; the fetch effect runs again only when
        the value changed. */
    method SelectFilter(status: string) returns (refetch: bool)
      modifies this
      ensures filterStatus == status
      ensures refetch <==> status != old(filterStatus)
      ensures consents == old(consents) && loading == old(loading) && error == old(error)
      ensures showCreateForm == old(showCreateForm) && formData == old(formData)
    {
      refetch := status != filterStatus;
      filterStatus := status;
    }

    /** The create button flips the form; it is disabled without a wallet. */
    method ToggleCreateForm(account: string)
      modifies this
      ensures showCreateForm == (if account != "" then !old(showCreateForm) else old(showCreateForm))
      ensures consents == old(consents) && loading == old(loading) && error == old(error)
      ensures filterStatus == old(filterStatus) && formData == old(formData)
    {
      if account != "" {
        showCreateForm := !showCreateForm;
      }
    }

    method EditPatientId(value: string)
      modifies this
      ensures formData == ConsentForm(value, old(formData.purpose))
      ensures consents == old(consents) && loading == old(loading) && error == old(error)
      ensures filterStatus == old(filterStatus) && showCreateForm == old(showCreateForm)
    {
      formData := formData.(patientId := value);
    }

    method EditPurpose(value: string)
      modifies this
      ensures formData == ConsentForm(old(formData.patientId), value)
      ensures consents == old(consents) && loading == old(loading) && error == old(error)
      ensures filterStatus == old(filterStatus) && showCreateForm == old(showCreateForm)
    {
      formData := formData.(purpose := value);
    }

    /** The fetch effect up to its await: loading on, error cleared, and the
        query for the current filter issued. */
    method BeginFetch() returns (call: ConsentCall)
      modifies this
      ensures loading && error == None
      ensures call == GetConsents(None, StatusParam(filterStatus))
      ensures consents == old(consents) && filterStatus == old(filterStatus)
      ensures showCreateForm == old(showCreateForm) && formData == old(formData)
    {
      loading := true;
      error := None;
      call := GetConsents(None, StatusParam(filterStatus));
    }

    /** The fetch effect after its await: the normalised list, or the empty list
        and the error text when the call threw; loading always ends off. */
    method FinishFetch(reply: Outcome<Body<Consent>>)
      modifies this
      ensures !loading
      ensures consents == Loaded(reply)
      ensures error == if reply.Err? then Some(OrElse(reply.message, FetchFailed)) else old(error)
      ensures filterStatus == old(filterStatus)
      ensures showCreateForm == old(showCreateForm) && formData == old(formData)
    {
      if reply.Ok? {
        var found := FieldFirst(reply.value);
        if found.Some? {
          consents := found.value;
        } else {
          consents := [];
        }
      } else {
        error := Some(OrElse(reply.message, FetchFailed));
        consents := [];
      }
      loading := false;
    }

    /** The create handler. Without a wallet it only alerts. Otherwise it signs
        the statement built from the form, posts it with the signature and the
        wallet, and only once both succeeded resets and hides the form and
        refreshes the list; the number of calls issued tells how far it got. */
    method HandleCreateConsent(account: string, signed: Outcome<string>, created: Outcome<()>,
                               refreshed: Outcome<Body<Consent>>)
      returns (calls: seq<ConsentCall>, alert: string)
      modifies this
      ensures account == "" ==> calls == [] && alert == WalletRequired && unchanged(this)
      ensures |calls| == (if account == "" then 0 else if signed.Err? then 1 else if created.Err? then 2 else 3)
      ensures 1 <= |calls| ==>
        calls[0] == SignMessage(ConsentMessage(old(formData.purpose), old(formData.patientId)))
      ensures 2 <= |calls| ==>
        calls[1] == CreateConsent(ConsentPayload(old(formData.patientId), old(formData.purpose),
                                                 account, signed.value, calls[0].message))
      ensures 2 <= |calls| && old(formData.purpose) in Purposes ==>
        ParseStatement(calls[1].payload.message)
          == Some(Statement(calls[1].payload.purpose, calls[1].payload.patientId))
      ensures |calls| == 3 ==> calls[2] == GetConsents(None, StatusParam(filterStatus))
      ensures formData == if |calls| == 3 then EmptyForm else old(formData)
      ensures showCreateForm == (|calls| != 3 && old(showCreateForm))
      ensures consents == if |calls| == 3 then Reloaded(old(consents), refreshed) else old(consents)
      ensures loading == old(loading) && error == old(error) && filterStatus == old(filterStatus)
      ensures account != "" ==>
                alert == if signed.Err? then CreateFailedAlert(signed.message)
                         else if created.Err? then CreateFailedAlert(created.message)
                         else if refreshed.Err? then CreateFailedAlert(refreshed.message)
                         else CreatedAlert
    {
      if account == "" {
        return [], WalletRequired;
      }
      var message := ConsentMessage(formData.purpose, formData.patientId);
      calls := [SignMessage(message)];
      if signed.Err? {
        return calls, CreateFailedAlert(signed.message);
      }
      var payload := ConsentPayload(formData.patientId, formData.purpose, account, signed.value, message);
      if formData.purpose in Purposes {
        PurposeStatementRoundTrip(formData.purpose, formData.patientId);
      }
      calls := calls + [CreateConsent(payload)];
      if created.Err? {
        return calls, CreateFailedAlert(created.message);
      }
      formData := EmptyForm;
      showCreateForm := false;
      calls := calls + [GetConsents(None, StatusParam(filterStatus))];
      if refreshed.Err? {
        return calls, CreateFailedAlert(refreshed.message);
      }
      var found := FieldFirst(refreshed.value);
      if found.Some? {
        consents := found.value;
      }
      alert := CreatedAlert;
    }

    /** The update handler: patches the status, and only after that succeeded
        refreshes the list for the current filter. */
    method HandleUpdateStatus(consentId: string, newStatus: string, patched: Outcome<()>,
                              refreshed: Outcome<Body<Consent>>)
      returns (calls: seq<ConsentCall>, alert: string)
      modifies this
      ensures calls == [UpdateConsent(consentId, newStatus)]
                       + (if patched.Ok? then [GetConsents(None, StatusParam(filterStatus))] else [])
      ensures consents == if patched.Ok? then Reloaded(old(consents), refreshed) else old(consents)
      ensures loading == old(loading) && error == old(error) && filterStatus == old(filterStatus)
      ensures showCreateForm == old(showCreateForm) && formData == old(formData)
      ensures alert ==
        if patched.Err? then UpdateFailedAlert(patched.message)
        else if refreshed.Err? then UpdateFailedAlert(refreshed.message)
        else UpdatedAlert(newStatus)
    {
      calls := [UpdateConsent(consentId, newStatus)];
      if patched.Err? {
        return calls, UpdateFailedAlert(patched.message);
      }
      calls := calls + [GetConsents(None, StatusParam(filterStatus))];
      if refreshed.Err? {
        return calls, UpdateFailedAlert(refreshed.message);
      }
      var found := FieldFirst(refreshed.value);
      if found.Some? {
        consents := found.value;
      }
      alert := UpdatedAlert(newStatus);
    }
  }
}
