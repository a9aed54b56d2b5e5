# od_dbUpdater sync webhook — a Dafny model

The service answers `POST /sync-record` with a JSON body `{"od_id": ...}`.
It logs in to Salesforce and fetches the `TR1__Opportunity_Discussed__c`
record with that id. It maps the record's job, candidate and transcript
fields onto nine columns of the `od_data` table and runs one `UPDATE ...
WHERE od_id = %s`. It then answers 200, 400, 404 or 500 with a JSON body.

This project models the decision logic of `app.py`:

- `RecordMapper` (mapper.dfy): the projection in `update_postgres_record`.
  A record is a JSON object (`map<string, Value>`), and the result is the
  10-element parameter tuple.
- `SalesforceFetch` (fetch.dfy): how `fetch_salesforce_data` classifies what
  the login and the query did.
- `SyncEndpoint` (endpoint.dfy): the early-return branching of
  `sync_record_endpoint`. It gives the response and the external calls made
  (`stages`), and `update_postgres_record` is modelled as far as its row count
  or the exception it lets escape.
- `PyValues` (values.dfy): the Python semantics these rely on. This covers
  truthiness, `dict.get`, `str()` of a value inside an f-string (with decimal
  rendering of ints proved to round-trip), and the exception kinds.

Logging in, the query and the database are calls the model cannot see. Their
outcomes are inputs: `LoginOutcome`, `QueryOutcome` and `DbOutcome`.

Records are kept as dynamic JSON objects, not as a typed record with optional
relations. That keeps two edge cases of the code that a typed record would
hide:
- A relation value that is truthy but not a dict makes `.get` raise
  AttributeError, which is answered 500.
- An empty record dict is falsy, which is answered 404.

Two behaviours of the code are worth knowing when reading the model:

- A record that carries a transcript only under its queried name
  (`Screening_Transcript__c`, app.py:70) gets None in that column. The code
  reads the lower-case key `screening_transcript_c` (app.py:111).
  `QueriedScreeningTranscriptMapsToNone` states this for one record, and
  `QueriedTranscriptNamesAreNeverRead` for all of them.
- Any falsy relation (absent, None, an empty dict, "", 0, False, []) makes
  its columns None, not only a missing one.

## Model

| member | source | states |
|---|---|---|
| `RecordMapper.MapRecord` | app.py:105-146 | The mapping succeeds exactly when the job and candidate relations are each falsy or a dict, so it never fails on a missing key. Otherwise it raises the AttributeError of the first bad relation, job before candidate. On success there are 10 parameters and the last is the od_id. Each of the nine columns equals the value read from its own source in the column table, in SET-clause order. |
| `RecordMapper.RelatedField` | app.py:105-109 | A falsy relation (missing, None, empty) gives None. A dict gives its entry for the field, or None when the entry is missing. Any other truthy value raises AttributeError naming its type. |
| `RecordMapper.JobColumnFollowsJobRelation` | app.py:105 | `job_id` is None when `TR1__Job__r` is falsy. Otherwise it is the relation's `Id` entry, or None if that entry is missing. |
| `RecordMapper.CandidateColumnsFollowCandidateRelation` | app.py:106-109 | A falsy `TR1__Candidate__r` makes candidate_id, account_id, resume_txt and firstname all None together. Otherwise each comes from its own key of the relation. |
| `RecordMapper.TranscriptsMissingUnderReadKeysAreNone` | app.py:111-115 | A record with none of the four lower-case transcript keys maps all four transcript columns to None. |
| `RecordMapper.QueriedTranscriptNamesAreNeverRead` | app.py:70-72 | Changing the value under any transcript name the query selects leaves the mapping unchanged. |
| `RecordMapper.MappingReadsOnlySixKeys` | app.py:105-115 | Two records that agree on the two relations and the four lower-case transcript keys map identically. |
| `RecordMapper.QueriedScreeningTranscriptMapsToNone` | app.py:111-146 | The record `{Id: "a0B1", TR1__Job__r: null, Screening_Transcript__c: "hello"}` maps to nine Nones followed by "a0B1". |
| `SalesforceFetch.FetchSalesforceData` | app.py:45-95 | The fetch returns `records[0]` exactly when login succeeded and the query reported `totalSize > 0` with a record. It returns None exactly when login succeeded and the size was at most 0, or the query raised resource-not-found. A login error is re-raised as is. Any other query error is re-raised. A positive size with no records raises IndexError. |
| `SyncEndpoint.UpdatePostgresRecord` | app.py:98-166 | The database call (connect, then UPDATE) is made with exactly the mapped parameters, and only when the mapping did not raise. The result is the database's row count, or the mapping's or the database's exception. |
| `SyncEndpoint.ErrorResponse` | app.py:209-215 | Every escaped exception gives a 500 whose only field is `error`. An authentication failure, and only that, gets the fixed message. A database error, and only that, gets the "Database operation failed: " prefix before the unredacted error text. Every other error gets the "An unexpected error occurred: " prefix before its text. |
| `SyncEndpoint.SyncRecordEndpoint` | app.py:176-215 | The status is one of 200/400/404/500. It is 400 exactly for a non-JSON payload or a falsy od_id, and then nothing is called. Otherwise the fetch is called first with the od_id. The database is called second, with the mapped parameters of a non-empty fetched record, and only then. The status is 200 exactly when the count is positive. The body then carries that count, `salesforce_data_retrieved: true`, and the success message with the od_id written as `str()` would write it. A count of 0 or less gives 404 with `salesforce_data_retrieved: true`, 0 rows, and the "no matching record found in PostgreSQL" message naming the od_id. The status is 500 exactly when the fetch, or the mapping and the update, raised, and the body is then only the error field. Of the two 404s, only this one says the record was retrieved. |
| `SyncEndpoint.RejectionIgnoresDownstream` | app.py:176-183 | A rejected request gets the same answer whatever Salesforce and the database would do, with the message for its cause. |
| `SyncEndpoint.NoUpstreamDataSkipsDatabase` | app.py:188-191 | No data, or an empty record, from the fetch gives a 404 whose only field is "No data found in Salesforce for ID " followed by the od_id, and only the fetch was called. |
| `SyncEndpoint.EscapedErrorsAreServerErrors` | app.py:187-215 | An exception from the fetch, or from the mapping or the update, is answered by the `except` clauses for that exception. |
| `SyncEndpoint.ResourceNotFoundDependsOnWhereRaised` | app.py:53-92 | Resource-not-found from the query gives 404. The same exception from the login gives 500 with the "unexpected" prefix. |
| `SyncEndpoint.MalformedRelationIsServerError` | app.py:105-109 | Any fetch that yields a record with a truthy non-dict relation gives a 500 "unexpected error", and the database is not called. |
| `SyncEndpoint.SyncedRowCarriesRecordFields` | app.py:193-200 | A 200 means the UPDATE received 10 parameters: each of the nine columns comes from its source in the fetched record, and the od_id is last. |
| `PyValues.DecimalDigits` | app.py:191 | `str(n)` of a non-negative int is a non-empty run of decimal digits with no leading zero. |
| `PyValues.ParseDigitsInvertsDecimalDigits` | app.py:191 | Reading the decimal text of `n` back gives `n`. |
| `PyValues.Render` | app.py:197 | In the f-string messages a string id is written unchanged. An int id is written as `str(n)`: a minus sign when negative, then its decimal digits with no leading zero, which read back as the id. A `true` id is written "True". |

## Left out

- Flask request parsing and `jsonify`: the request is reduced to "is JSON" plus the decoded JSON object. A body that is valid JSON but not an object makes `data.get` raise outside the handler's `try`. A content-type of JSON with an unparsable body is rejected by Flask itself. Neither case is modelled.
- Salesforce login and `sf.query`, and psycopg2 connect, execute, commit, rollback and close: these are network and database I/O. Their outcomes are the inputs `LoginOutcome`, `QueryOutcome` and `DbOutcome`. The rollback-then-re-raise and the always-close of the connection are not modelled beyond "the exception propagates".
- The SOQL text built around the id, with its injection risk: it is only handed to the remote API.
- The effect of the UPDATE on the `od_data` row, including `updated_at = CURRENT_TIMESTAMP`: the database is not modelled, only the parameters it receives and the row count it reports.
- Environment configuration, `load_dotenv`, logging and the development server: they have no behaviour to verify.
- Concurrency between requests and last-write-wins on the same row: neither is expressed in the code.
- JSON floats are not modelled: `Value` has integers only.
- Render: a list or dict used as the od_id is written as "[...]" or "{...}" rather than Python's repr, because a Dafny map does not keep the dict's insertion order.
