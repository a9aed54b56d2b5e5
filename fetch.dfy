/** The outcome classification of `fetch_salesforce_data` (app.py lines 41-95).
    Logging in and running the query are calls into the Salesforce client
    library; the model takes what they returned or raised as inputs. */
module SalesforceFetch {
  import opened Wrappers
  import opened PyValues
  import opened RecordMapper

  /** What constructing the Salesforce session did. */
  datatype LoginOutcome = LoggedIn | LoginRaised(error: Error)

  /** What `sf.query(...)` did: the result's `totalSize` and `records`, or an exception. */
  datatype QueryOutcome = QueryReturned(totalSize: int, records: seq<Record>) | QueryRaised(error: Error)

  /** The fetch found a record: the session opened, and the query reported a
      positive size and returned at least one record. */
  predicate Found(login: LoginOutcome, query: QueryOutcome) {
    login.LoggedIn? && query.QueryReturned? && query.totalSize > 0 && |query.records| > 0
  }

  /** The fetch reports no data: the session opened, and the query reported a
      size of zero or less, or raised resource-not-found. */
  predicate NoData(login: LoginOutcome, query: QueryOutcome) {
    login.LoggedIn? &&
    ((query.QueryReturned? && query.totalSize <= 0) || (query.QueryRaised? && query.error.ResourceNotFound?))
  }

  /** `Some(record)`, `None`, or the exception the function lets escape. */
  function FetchSalesforceData(login: LoginOutcome, query: QueryOutcome): (r: Result<Option<Record>, Error>)
    ensures r.Ok? && r.value.Some? <==> Found(login, query)
    ensures r.Ok? && r.value.Some? ==> r.value.value == query.records[0]
    ensures r == Ok(None) <==> NoData(login, query)
    ensures r.Err? && login.LoginRaised? ==> r.error == login.error
    ensures r.Err? && login.LoggedIn? && query.QueryRaised? ==> r.error == query.error && !r.error.ResourceNotFound?
    ensures r.Err? && login.LoggedIn? && query.QueryReturned? ==> query.totalSize > 0 && query.records == [] && r.error == ListIndexOutOfRange
  {
    match login
    case LoginRaised(e) => Err(e)
    case LoggedIn =>
      match query
      case QueryRaised(e) => if e.ResourceNotFound? then Ok(None) else Err(e)
      case QueryReturned(totalSize, records) =>
        if totalSize > 0 then
          if |records| > 0 then Ok(Some(records[0])) else Err(ListIndexOutOfRange)
        else Ok(None)
  }
}
