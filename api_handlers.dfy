// The parts of the HTTP handlers in api/ that are the same for every kind of
// record: GET and DELETE of one record, and storing what a POST or PUT
// handler has decided to store. Status codes are the HTTP ones the handlers
// answer with; the encoding of the reply is not part of this model.
module ApiHandlers {
  import opened Common
  import opened Protocol
  import opened ApiStorer

  const StatusOk := 200
  const StatusCreated := 201
  const StatusBadRequest := 400
  const StatusNotFound := 404
  const StatusServerError := 500

  /** What a POST or PUT handler decides before it touches the store: reject
      with a status and errors, or store `record` under `id`. */
  datatype Decision<R> = Reject(status: int, errors: seq<RequestError>) | Proceed(id: string, record: R)

  /** The reply to a decoded body that failed to decode. */
  function BadBody<R>(): Response<R> {
    Response(StatusBadRequest, [InvalidFormatError], [])
  }

  /** The reply for an ID with no record. */
  function Missing404<R>(): Response<R> {
    Response(StatusNotFound, [IdNotFound], [])
  }

  /** The reply carrying a rejection. */
  function Rejection<R>(d: Decision<R>): Response<R>
    requires d.Reject?
  {
    Response(d.status, d.errors, [])
  }

  /** The reply to any other store failure. */
  function ServerFailure<R>(): Response<R> {
    Response(StatusServerError, [ServerError], [])
  }

  /** How a Create through the handler ends: a taken ID is a conflict on
      `/id`, an empty ID is refused by the index and answered 500, and
      neither stores anything; otherwise the record is stored and returned
      with 201. */
  ghost predicate CreateOutcome<R>(before: map<string, R>, id: string, rec: R, resp: Response<R>, after: map<string, R>) {
    if Key(id) in before then
      resp == Response(StatusBadRequest, [IdConflict], []) && after == before
    else if id == "" then
      resp == ServerFailure() && after == before
    else
      resp == Response(StatusCreated, [], [rec]) && after == before[Key(id) := rec]
  }

  /** How an Update through the handler ends: an absent ID is not-found and
      stores nothing (an empty ID would be refused by the index and answered
      500, but no row is ever stored under it); otherwise the record replaces the old one and is
      returned with 200. */
  ghost predicate UpdateOutcome<R>(before: map<string, R>, id: string, rec: R, resp: Response<R>, after: map<string, R>) {
    if Key(id) !in before then
      resp == Missing404() && after == before
    else if id == "" then
      resp == ServerFailure() && after == before
    else
      resp == Response(StatusOk, [], [rec]) && after == before[Key(id) := rec]
  }

  /** No row is ever stored under the empty ID: a POST of an empty ID is
      answered 500 and a PUT of one 404, and neither changes the table. */
  lemma EmptyIdNeverStored<R>(before: map<string, R>, rec: R, resp: Response<R>, after: map<string, R>)
    requires "" !in before
    ensures CreateOutcome(before, "", rec, resp, after) ==> resp == ServerFailure() && after == before
    ensures UpdateOutcome(before, "", rec, resp, after) ==> resp == Missing404() && after == before
  {
    assert Key("") == "";
  }

  /** GET of one record (the handleGet* functions). */
  method HandleGet<R>(t: Table<R>, id: string) returns (resp: Response<R>)
    ensures Key(id) in t.rows ==> resp == Response(StatusOk, [], [t.rows[Key(id)]])
    ensures Key(id) !in t.rows ==> resp == Missing404()
  {
    var r := t.Get(id);
    if r.Err? {
      return Missing404();
    }
    resp := Response(StatusOk, [], [r.value]);
  }

  /** DELETE of one record (the handleDelete* functions): the record is read,
      then removed, and the reply carries the record as it was. */
  method HandleDelete<R>(t: Table<R>, id: string) returns (resp: Response<R>)
    modifies t
    ensures Key(id) in old(t.rows) ==> resp == Response(StatusOk, [], [old(t.rows)[Key(id)]]) && t.rows == old(t.rows) - {Key(id)}
    ensures Key(id) !in old(t.rows) ==> resp == Missing404() && t.rows == old(t.rows)
  {
    var r := t.Get(id);
    if r.Err? {
      return Missing404();
    }
    var err := t.Delete(id);
    if err.Some? {
      // The record was just read, so it is still there.
      assert false;
      return Missing404();
    }
    resp := Response(StatusOk, [], [r.value]);
  }

  /** The store step of a POST handler. */
  method StoreCreate<R>(t: Table<R>, id: string, rec: R) returns (resp: Response<R>)
    modifies t
    ensures CreateOutcome(old(t.rows), id, rec, resp, t.rows)
  {
    var err := t.Create(id, rec);
    if err == Some(AlreadyExists(t.kind)) {
      return Response(StatusBadRequest, [IdConflict], []);
    } else if err.Some? {
      return ServerFailure();
    }
    resp := Response(StatusCreated, [], [rec]);
  }

  /** The store step of a PUT handler. */
  method StoreUpdate<R>(t: Table<R>, id: string, rec: R) returns (resp: Response<R>)
    modifies t
    ensures UpdateOutcome(old(t.rows), id, rec, resp, t.rows)
  {
    var err := t.Update(id, rec);
    if err == Some(NotFound(t.kind)) {
      return Missing404();
    } else if err.Some? {
      return ServerFailure();
    }
    resp := Response(StatusOk, [], [rec]);
  }
}
