/** The record mapper of `update_postgres_record` (app.py lines 105-146): a
    Salesforce `TR1__Opportunity_Discussed__c` record, as the query API returns
    it, projected onto the parameters of the `UPDATE od_data` statement. */
module RecordMapper {
  import opened Wrappers
  import opened PyValues

  /** A queried record: field name to value, related objects as nested dicts. */
  type Record = JsonObject

  const JobRelation := "TR1__Job__r"
  const CandidateRelation := "TR1__Candidate__r"

  /** The keys the mapper reads the four transcripts from. */
  const TranscriptKeysRead: seq<string> := [
    "screening_transcript_c",
    "internal_interview_transcript_c",
    "x1st_interview_transcript_c",
    "x2nd_interview_transcript_c"
  ]

  /** The names under which the query selects the transcripts; the query
      selects no second-interview transcript at all. */
  const TranscriptKeysQueried: seq<string> := [
    "Screening_Transcript__c",
    "Internal_Interview_Transcript__c",
    "X1st_Interview_Transcript__c"
  ]

  /** The parameter slots of the statement: the SET columns in order, then
      the `od_id` of the WHERE clause. */
  const Columns: seq<string> := [
    "job_id",
    "candidate_id",
    "account_id",
    "resume_txt",
    "firstname",
    "screening_transcript_c",
    "internal_interview_transcript_c",
    "x1st_interview_transcript_c",
    "x2nd_interview_transcript_c",
    "od_id"
  ]

  /** Where a SET column takes its value from: a field of a related object,
      or a field of the record itself. */
  datatype Source = Related(relation: string, field: string) | Own(field: string)

  /** The source of each of the nine SET columns, in column order. */
  const ColumnSources: seq<Source> := [
    Related(JobRelation, "Id"),
    Related(CandidateRelation, "Id"),
    Related(CandidateRelation, "AccountId"),
    Related(CandidateRelation, "Candidate_s_Resume_TXT__c"),
    Related(CandidateRelation, "FirstName"),
    Own(TranscriptKeysRead[0]),
    Own(TranscriptKeysRead[1]),
    Own(TranscriptKeysRead[2]),
    Own(TranscriptKeysRead[3])
  ]

  /** A relation the mapper can read without raising: falsy (absent, None,
      empty) or a dict. */
  predicate Readable(rec: Record, relation: string) {
    var r := Get(rec, relation);
    !Truthy(r) || r.Dict?
  }

  /** `rec.get(relation, {}).get(field) if rec.get(relation) else None`. */
  function RelatedField(rec: Record, relation: string, field: string): (r: Result<Value, Error>)
    ensures r.Ok? <==> Readable(rec, relation)
    ensures r.Ok? && !Truthy(Get(rec, relation)) ==> r.value == Null
    ensures r.Ok? && Truthy(Get(rec, relation)) ==> r.value == Get(Get(rec, relation).entries, field)
    ensures r.Err? ==> r.error == NoGetAttribute(Get(rec, relation))
  {
    var r := Get(rec, relation);
    if !Truthy(r) then Ok(Null)
    else if r.Dict? then Ok(Get(r.entries, field))
    else Err(NoGetAttribute(r))
  }

  /** The value a column takes from its source. */
  function Resolve(rec: Record, src: Source): Result<Value, Error> {
    match src
    case Related(relation, field) => RelatedField(rec, relation, field)
    case Own(field) => Ok(Get(rec, field))
  }

  /** The parameter tuple `values_to_update`, built in the order the source
      evaluates it; the first relation that is truthy but not a dict raises. */
  function MapRecord(odId: Value, rec: Record): (r: Result<seq<Value>, Error>)
    ensures r.Ok? <==> Readable(rec, JobRelation) && Readable(rec, CandidateRelation)
    ensures r.Err? && !Readable(rec, JobRelation) ==> r.error == NoGetAttribute(Get(rec, JobRelation))
    ensures r.Err? && Readable(rec, JobRelation) ==> r.error == NoGetAttribute(Get(rec, CandidateRelation))
    ensures r.Ok? ==> |r.value| == |Columns| && r.value[|Columns| - 1] == odId
    ensures r.Ok? ==> forall k :: 0 <= k < |ColumnSources| ==> Resolve(rec, ColumnSources[k]) == Ok(r.value[k])
  {
    var jobId := RelatedField(rec, JobRelation, "Id");
    if jobId.Err? then Err(jobId.error)
    else
      var candidateId := RelatedField(rec, CandidateRelation, "Id");
      if candidateId.Err? then Err(candidateId.error)
      else
        // The account, resume and first-name lookups test the same relation as the
        // candidate id, so they cannot raise once it did not.
        Ok([
          jobId.value,
          candidateId.value,
          RelatedField(rec, CandidateRelation, "AccountId").value,
          RelatedField(rec, CandidateRelation, "Candidate_s_Resume_TXT__c").value,
          RelatedField(rec, CandidateRelation, "FirstName").value,
          Get(rec, "screening_transcript_c"),
          Get(rec, "internal_interview_transcript_c"),
          Get(rec, "x1st_interview_transcript_c"),
          Get(rec, "x2nd_interview_transcript_c"),
          odId
        ])
  }

  /** A falsy job relation (missing, None or empty) leaves `job_id` None; a
      dict leaves it the dict's 'Id' entry, None when the entry is missing. */
  lemma JobColumnFollowsJobRelation(odId: Value, rec: Record)
    requires MapRecord(odId, rec).Ok?
    ensures var job := Get(rec, JobRelation);
      MapRecord(odId, rec).value[0] == if Truthy(job) then Get(job.entries, "Id") else Null
  {
  }

  /** A falsy candidate relation leaves its four columns None together; a dict
      gives each column its own entry of the dict. */
  lemma CandidateColumnsFollowCandidateRelation(odId: Value, rec: Record)
    requires MapRecord(odId, rec).Ok?
    ensures var params, cand := MapRecord(odId, rec).value, Get(rec, CandidateRelation);
      if Truthy(cand) then
        params[1..5] == [Get(cand.entries, "Id"), Get(cand.entries, "AccountId"),
                         Get(cand.entries, "Candidate_s_Resume_TXT__c"), Get(cand.entries, "FirstName")]
      else
        params[1..5] == [Null, Null, Null, Null]
  {
  }

  /** The transcripts are read only under the lower-case keys: a record that
      carries none of those keys maps all four transcript columns to None,
      whatever it holds under the names the query selects. */
  lemma TranscriptsMissingUnderReadKeysAreNone(odId: Value, rec: Record)
    requires MapRecord(odId, rec).Ok?
    requires forall k :: 0 <= k < |TranscriptKeysRead| ==> TranscriptKeysRead[k] !in rec
    ensures MapRecord(odId, rec).value[5..9] == [Null, Null, Null, Null]
  {
  }

  /** Whatever the record holds under a name the query selects a transcript
      by, the parameters do not change. */
  lemma QueriedTranscriptNamesAreNeverRead(odId: Value, rec: Record, k: nat, v: Value)
    requires k < |TranscriptKeysQueried|
    ensures MapRecord(odId, rec[TranscriptKeysQueried[k] := v]) == MapRecord(odId, rec)
  {
  }

  /** The mapping reads only six keys of the record: two records that agree
      on the two relations and the four lower-case transcript keys give the
      same parameters, or raise the same error. */
  lemma MappingReadsOnlySixKeys(odId: Value, rec1: Record, rec2: Record)
    requires Get(rec1, JobRelation) == Get(rec2, JobRelation)
    requires Get(rec1, CandidateRelation) == Get(rec2, CandidateRelation)
    requires forall k :: 0 <= k < |TranscriptKeysRead| ==> Get(rec1, TranscriptKeysRead[k]) == Get(rec2, TranscriptKeysRead[k])
    ensures MapRecord(odId, rec1) == MapRecord(odId, rec2)
  {
  }

  /** A record with no job relation and a screening transcript under its
      queried name maps to nine Nones and the `od_id`. */
  lemma QueriedScreeningTranscriptMapsToNone()
    ensures MapRecord(Str("a0B1"), map[
      "Id" := Str("a0B1"),
      JobRelation := Null,
      "Screening_Transcript__c" := Str("hello")
    ]) == Ok([Null, Null, Null, Null, Null, Null, Null, Null, Null, Str("a0B1")])
  {
  }
}
