/** The patient detail screen: the fetch effect that loads a patient and then
    the patient's medical records, and the rule that decides whether the error
    view is shown. The patient service is not part of the model: the replies of
    its two calls are `Outcome`s the caller supplies. */
module PatientProfile {
  import opened Responses
  import PatientListing

  /** A medical record as the service returns it (the fields the card uses). */
  datatype MedicalRecord = MedicalRecord(id: string, title: string, status: string, kind: string)

  /** A call the detail screen makes. */
  datatype DetailCall = GetPatient(patientId: string) | GetPatientRecords(patientId: string)

  const FetchFailed := "Failed to fetch patient data"
  const NotFound := "Patient not found"

  /** The error view: shown, with the recorded error or else `Patient not
      found`, exactly when a non-empty error is recorded or there is no
      patient. An empty error is falsy, as no error is. */
  function ErrorView(error: Option<string>, patient: Option<PatientListing.Patient>): (r: Option<string>)
    ensures r.Some? <==> (error.Some? && error.value != "") || patient.None?
    ensures error.Some? && error.value != "" ==> r == Some(error.value)
    ensures (error.None? || error.value == "") && patient.None? ==> r == Some(NotFound)
  {
    var shown := error.GetOr("");
    if shown != "" || patient.None? then Some(OrElse(shown, NotFound)) else None
  }

  class PatientDetail {
    var patient: Option<PatientListing.Patient>
    var records: seq<MedicalRecord>
    var loading: bool
    var error: Option<string>

    /** The state on mount, before the first fetch. */
    constructor ()
      ensures patient == None && records == [] && loading && error == None
    {
      patient := None;
      records := [];
      loading := true;
      error := None;
    }

    /** The fetch effect for `patientId`. Without an id nothing happens.
        Otherwise the patient is requested and stored first, and the records
        are requested only once that succeeded; the records are normalised
        array first. A failure at either step records the error and clears
        neither the records nor a patient already stored. Loading ends off. */
    method FetchPatientData(patientId: string, patientReply: Outcome<Option<PatientListing.Patient>>,
                            recordsReply: Outcome<Body<MedicalRecord>>)
      returns (calls: seq<DetailCall>)
      modifies this
      ensures patientId == "" ==> calls == [] && unchanged(this)
      ensures patientId != "" ==>
                calls == [GetPatient(patientId)]
                         + (if patientReply.Ok? then [GetPatientRecords(patientId)] else [])
      ensures patientId != "" ==> !loading
      ensures patientId != "" ==>
                patient == if patientReply.Ok? then patientReply.value else old(patient)
      ensures patientId != "" ==>
                records == if patientReply.Ok? && recordsReply.Ok?
                           then ArrayFirst(recordsReply.value).GetOr([])
                           else old(records)
      ensures patientId != "" ==>
                error == if patientReply.Err? then Some(OrElse(patientReply.message, FetchFailed))
                         else if recordsReply.Err? then Some(OrElse(recordsReply.message, FetchFailed))
                         else None
    {
      if patientId == "" {
        return [];
      }
      loading := true;
      error := None;
      calls := [GetPatient(patientId)];
      if patientReply.Err? {
        error := Some(OrElse(patientReply.message, FetchFailed));
        loading := false;
        return;
      }
      patient := patientReply.value;
      calls := calls + [GetPatientRecords(patientId)];
      if recordsReply.Err? {
        error := Some(OrElse(recordsReply.message, FetchFailed));
        loading := false;
        return;
      }
      var found := ArrayFirst(recordsReply.value);
      if found.Some? {
        records := found.value;
      } else {
        records := [];
      }
      loading := false;
    }
  }
}
