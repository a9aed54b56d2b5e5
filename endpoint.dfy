/** The `POST /sync-record` handler `sync_record_endpoint` (app.py lines
    169-215) and the row-count part of `update_postgres_record` (lines
    98-166): which stages one request reaches and the status and JSON body
    it answers with. The database work is a call the model takes the outcome
    of as input. */
module SyncEndpoint {
  import opened Wrappers
  import opened PyValues
  import opened RecordMapper
  import opened SalesforceFetch

  /** What the handler sees of the request: whether it is JSON, and the JSON object. */
  datatype Request = Request(isJson: bool, body: JsonObject)

  /** What connecting and running the UPDATE did: `cur.rowcount` after a
      commit, or the exception raised (after the rollback). */
  datatype DbOutcome = RowsUpdated(rowcount: int) | DbRaised(error: Error)

  /** An external call the handler made. */
  datatype Stage =
    | SalesforceFetch(odId: Value)         // fetch_salesforce_data(od_id)
    | DatabaseUpdate(params: seq<Value>)   // the database call (connect, then UPDATE) with these parameters

  datatype Response = Response(status: int, body: JsonObject)

  /** The answer to one request and the external calls made on the way, in order. */
  datatype Handled = Handled(response: Response, stages: seq<Stage>)

  /** What `update_postgres_record` did: its result, and the parameters it
      handed to the database when mapping did not raise. */
  datatype UpdateRun = UpdateRun(rows: Result<int, Error>, executed: Option<seq<Value>>)

  const NotJsonText := "Request must be JSON"
  const MissingIdText := "Missing 'od_id' in request body"
  // Written as two literals: the verifier does not look inside a literal this long,
  // and ErrorResponse needs to know its first letter.
  const AuthFailedText := "Salesforce authentication failed." + " Check credentials."
  const DatabaseErrorPrefix := "Database operation failed: "
  const UnexpectedErrorPrefix := "An unexpected error occurred: "

  /** `data.get('od_id')`. */
  function OdId(req: Request): Value {
    Get(req.body, "od_id")
  }

  /** The request is answered 400 before anything else happens. */
  predicate Rejected(req: Request) {
    !req.isJson || !Truthy(OdId(req))
  }

  /** The fetch gave a record the handler goes on with (a non-empty dict). */
  predicate FetchedRecord(login: LoginOutcome, query: QueryOutcome) {
    var f := FetchSalesforceData(login, query);
    f.Ok? && f.value.Some? && Truthy(Dict(f.value.value))
  }

  /** The mapping, then the database: the result is the row count, or the
      first exception raised. */
  function UpdatePostgresRecord(odId: Value, rec: Record, db: DbOutcome): (r: UpdateRun)
    ensures r.executed.Some? <==> MapRecord(odId, rec).Ok?
    ensures r.executed.Some? ==> r.executed.value == MapRecord(odId, rec).value && r.executed.value[|Columns| - 1] == odId
    ensures r.rows.Ok? <==> r.executed.Some? && db.RowsUpdated?
    ensures r.rows.Ok? ==> r.rows.value == db.rowcount
    ensures r.rows.Err? && r.executed.None? ==> r.rows.error == MapRecord(odId, rec).error
    ensures r.rows.Err? && r.executed.Some? ==> db.DbRaised? && r.rows.error == db.error
  {
    match MapRecord(odId, rec)
    case Err(e) => UpdateRun(Err(e), None)
    case Ok(params) =>
      match db
      case RowsUpdated(n) => UpdateRun(Ok(n), Some(params))
      case DbRaised(e) => UpdateRun(Err(e), Some(params))
  }

  /** The three `except` clauses of the handler: every escaped exception is a
      500 whose only field is an error message; the authentication failure
      has a fixed message, the others carry `str(e)` unredacted after a prefix
      that names their kind. */
  function ErrorResponse(e: Error): (r: Response)
    ensures r.status == 500 && r.body.Keys == {"error"} && r.body["error"].Str?
    ensures e.AuthenticationFailed? <==> r.body["error"].s == AuthFailedText
    ensures e.DatabaseError? <==> DatabaseErrorPrefix <= r.body["error"].s
    ensures e.DatabaseError? ==> r.body["error"].s == DatabaseErrorPrefix + e.text
    ensures !e.AuthenticationFailed? && !e.DatabaseError? ==> r.body["error"].s == UnexpectedErrorPrefix + e.text
  {
    // The three messages already differ in their first letter.
    var message :=
      match e
      case AuthenticationFailed(_) =>
        assert AuthFailedText[0] == 'S' != DatabaseErrorPrefix[0];
        AuthFailedText
      case DatabaseError(text) =>
        assert (DatabaseErrorPrefix + text)[0] == DatabaseErrorPrefix[0] == 'D';
        DatabaseErrorPrefix + text
      case _ =>
        assert (UnexpectedErrorPrefix + e.text)[0] == UnexpectedErrorPrefix[0] == 'A' != DatabaseErrorPrefix[0];
        UnexpectedErrorPrefix + e.text;
    Response(500, map["error" := Str(message)])
  }

  function ClientError(message: string): Response {
    Response(400, map["error" := Str(message)])
  }

  function NoDataResponse(odId: Value): Response {
    Response(404, map["message" := Str("No data found in Salesforce for ID " + Render(odId))])
  }

  function SyncedResponse(odId: Value, rows: int): Response {
    Response(200, map[
      "message" := Str("Successfully synchronized data for ID " + Render(odId)),
      "salesforce_data_retrieved" := Bool(true),
      "postgres_rows_updated" := Int(rows)
    ])
  }

  function NoLocalRowResponse(odId: Value): Response {
    Response(404, map[
      "message" := Str("Data retrieved from Salesforce for ID " + Render(odId)
                       + ", but no matching record found in PostgreSQL to update."),
      "salesforce_data_retrieved" := Bool(true),
      "postgres_rows_updated" := Int(0)
    ])
  }

  /** One request, from payload validation to the response. */
  function SyncRecordEndpoint(req: Request, login: LoginOutcome, query: QueryOutcome, db: DbOutcome): (h: Handled)
    ensures h.response.status in {200, 400, 404, 500}
    // 400 exactly for a non-JSON payload or a falsy od_id, and nothing is called.
    ensures h.response.status == 400 <==> Rejected(req)
    ensures Rejected(req) ==> h.stages == []
    // Otherwise the fetch is called first, with the od_id.
    ensures !Rejected(req) ==> 1 <= |h.stages| <= 2 && h.stages[0] == SalesforceFetch(OdId(req))
    // The database is reached only with the mapped parameters of a fetched record.
    ensures |h.stages| == 2 <==> !Rejected(req) && FetchedRecord(login, query)
                                 && MapRecord(OdId(req), FetchSalesforceData(login, query).value.value).Ok?
    ensures |h.stages| == 2 ==>
      h.stages[1] == DatabaseUpdate(MapRecord(OdId(req), FetchSalesforceData(login, query).value.value).value)
    // 200 exactly when the database reports a positive row count, which the body carries.
    ensures h.response.status == 200 <==> |h.stages| == 2 && db.RowsUpdated? && db.rowcount > 0
    ensures h.response.status == 200 ==>
      h.response.body.Keys == {"message", "salesforce_data_retrieved", "postgres_rows_updated"} &&
      h.response.body["salesforce_data_retrieved"] == Bool(true) && h.response.body["postgres_rows_updated"] == Int(db.rowcount) &&
      h.response.body["message"] == Str("Successfully synchronized data for ID " + Render(OdId(req)))
    // A count of zero or less is a 404 that reports zero rows.
    ensures |h.stages| == 2 && db.RowsUpdated? && db.rowcount <= 0 ==>
      h.response.status == 404 && h.response.body.Keys == {"message", "salesforce_data_retrieved", "postgres_rows_updated"} &&
      h.response.body["salesforce_data_retrieved"] == Bool(true) && h.response.body["postgres_rows_updated"] == Int(0) &&
      h.response.body["message"] == Str("Data retrieved from Salesforce for ID " + Render(OdId(req))
                                        + ", but no matching record found in PostgreSQL to update.")
    // The two 404s differ: only the one after the database call says the record was retrieved.
    ensures h.response.status == 404 ==> ("salesforce_data_retrieved" in h.response.body <==> |h.stages| == 2)
    // 500 exactly when the fetch, or the mapping and the update, raised; the
    // body is then the error field alone (EscapedErrorsAreServerErrors gives its text).
    ensures h.response.status == 500 <==>
      !Rejected(req) &&
      (FetchSalesforceData(login, query).Err? ||
       (FetchedRecord(login, query) && UpdatePostgresRecord(OdId(req), FetchSalesforceData(login, query).value.value, db).rows.Err?))
    ensures h.response.status == 500 ==> h.response.body.Keys == {"error"}
  {
    if !req.isJson then Handled(ClientError(NotJsonText), [])
    else
      var odId := OdId(req);
      if !Truthy(odId) then Handled(ClientError(MissingIdText), [])
      else
        var fetched := [SalesforceFetch(odId)];
        match FetchSalesforceData(login, query)
        case Err(e) => Handled(ErrorResponse(e), fetched)
        case Ok(found) =>
          if found.None? || !Truthy(Dict(found.value)) then Handled(NoDataResponse(odId), fetched)
          else
            var run := UpdatePostgresRecord(odId, found.value, db);
            var stages := fetched + if run.executed.Some? then [DatabaseUpdate(run.executed.value)] else [];
            match run.rows
            case Err(e) => Handled(ErrorResponse(e), stages)
            case Ok(rows) =>
              if rows > 0 then Handled(SyncedResponse(odId, rows), stages)
              else Handled(NoLocalRowResponse(odId), stages)
  }

  /** A rejected request is answered without looking at Salesforce or the
      database: its response does not depend on what they would do. */
  lemma RejectionIgnoresDownstream(req: Request, login1: LoginOutcome, query1: QueryOutcome, db1: DbOutcome,
                                   login2: LoginOutcome, query2: QueryOutcome, db2: DbOutcome)
    requires Rejected(req)
    ensures SyncRecordEndpoint(req, login1, query1, db1) == SyncRecordEndpoint(req, login2, query2, db2)
    ensures SyncRecordEndpoint(req, login1, query1, db1).response.body["error"]
         == Str(if req.isJson then MissingIdText else NotJsonText)
  {
  }

  /** No record, or an empty one, from Salesforce is a 404 naming the id,
      and the database is never called. */
  lemma NoUpstreamDataSkipsDatabase(req: Request, login: LoginOutcome, query: QueryOutcome, db: DbOutcome)
    requires !Rejected(req)
    requires NoData(login, query) || (Found(login, query) && query.records[0] == map[])
    ensures SyncRecordEndpoint(req, login, query, db) == Handled(NoDataResponse(OdId(req)), [SalesforceFetch(OdId(req))])
    ensures SyncRecordEndpoint(req, login, query, db).response.body
         == map["message" := Str("No data found in Salesforce for ID " + Render(OdId(req)))]
  {
  }

  /** An exception escaping the fetch, or the mapping and the update, is
      answered by the handler's `except` clauses, after the stages reached. */
  lemma EscapedErrorsAreServerErrors(req: Request, login: LoginOutcome, query: QueryOutcome, db: DbOutcome)
    requires !Rejected(req)
    ensures FetchSalesforceData(login, query).Err? ==>
      SyncRecordEndpoint(req, login, query, db).response == ErrorResponse(FetchSalesforceData(login, query).error)
    ensures FetchedRecord(login, query) ==>
      var run := UpdatePostgresRecord(OdId(req), query.records[0], db);
      run.rows.Err? ==> SyncRecordEndpoint(req, login, query, db).response == ErrorResponse(run.rows.error)
  {
  }

  /** The two places resource-not-found can be raised are answered
      differently: from the query it means no data (404); from the login it
      is not caught until the handler's last clause (500). */
  lemma ResourceNotFoundDependsOnWhereRaised(req: Request, text: string, query: QueryOutcome, db: DbOutcome)
    requires !Rejected(req)
    ensures SyncRecordEndpoint(req, LoggedIn, QueryRaised(ResourceNotFound(text)), db).response.status == 404
    ensures SyncRecordEndpoint(req, LoginRaised(ResourceNotFound(text)), query, db).response
         == Response(500, map["error" := Str(UnexpectedErrorPrefix + text)])
  {
  }

  /** A fetched record whose job or candidate relation is truthy but not a
      dict makes the mapping raise AttributeError: a 500 with no database call. */
  lemma MalformedRelationIsServerError(req: Request, login: LoginOutcome, query: QueryOutcome, db: DbOutcome)
    requires !Rejected(req) && FetchedRecord(login, query)
    requires !Readable(query.records[0], JobRelation) || !Readable(query.records[0], CandidateRelation)
    ensures var h := SyncRecordEndpoint(req, login, query, db);
      h.stages == [SalesforceFetch(OdId(req))] && h.response.status == 500 &&
      h.response.body["error"].s[..|UnexpectedErrorPrefix|] == UnexpectedErrorPrefix
  {
  }

  /** A 200 means the UPDATE received the record's fields: each of the nine
      columns from its own source in the record, and the od_id last. */
  lemma SyncedRowCarriesRecordFields(req: Request, login: LoginOutcome, query: QueryOutcome, db: DbOutcome)
    requires SyncRecordEndpoint(req, login, query, db).response.status == 200
    ensures var h := SyncRecordEndpoint(req, login, query, db);
      |h.stages| == 2 && h.stages[1].DatabaseUpdate? &&
      var params := h.stages[1].params;
      |params| == |Columns| && params[|Columns| - 1] == OdId(req) &&
      forall k :: 0 <= k < |ColumnSources| ==> Resolve(query.records[0], ColumnSources[k]) == Ok(params[k])
  {
  }
}
