/** The complaint endpoints and the welcome endpoint of main.py, as pure
    response shaping over the services. The timing component that the
    `measure_time` decorator adds to each service result is discarded by
    these handlers, so it is not modelled. The chatbot endpoint lives in
    `ChatApi`, because the chatbot itself calls these handlers.
 */
module Api {
  import opened Results
  import opened Json
  import opened Tables
  import opened Services

  const Welcome := "Welcome to the Cyfuture AI Bot!"
  const CreatedMessage := "Complaint created successfully"

  /** A complaint record as the complaint endpoints serialise it. */
  function ComplaintJson(c: ComplaintRow): (j: Json)
    ensures j.Obj? && |j.fields| == 6
    ensures forall i :: 0 <= i < |j.fields| ==> j.fields[i].1.Str?
  {
    Obj([("name", Str(c.name)),
         ("phone_number", Str(c.phoneNumber)),
         ("email", Str(c.email)),
         ("complaint_details", Str(c.complaintDetails)),
         ("complaint_id", Str(c.complaintId)),
         ("status", Str(c.status))])
  }

  /** The string bound to `key` in `j`, if `j` is a dict that binds one. */
  function StrField(j: Json, key: string): Option<string>
  {
    match Index(j, key)
    case Ok(Str(s)) => Some(s)
    case _ => None
  }

  /** How a client reads a complaint record back from its JSON body. */
  function ComplaintFromJson(j: Json): Option<ComplaintRow>
  {
    match (StrField(j, "complaint_id"), StrField(j, "name"), StrField(j, "phone_number"),
           StrField(j, "email"), StrField(j, "complaint_details"), StrField(j, "status"))
    case (Some(id), Some(n), Some(p), Some(e), Some(d), Some(s)) => Some(ComplaintRow(id, n, p, e, d, s))
    case _ => None
  }

  /** Each field of a serialised complaint record reads back as its string. */
  lemma ComplaintFieldAt(c: ComplaintRow, n: nat)
    requires n < 6
    ensures var f := ComplaintJson(c).fields;
            f[n].1.Str? && StrField(ComplaintJson(c), f[n].0) == Some(f[n].1.s)
  {
    LookupAt(ComplaintJson(c).fields, n);
  }

  /** Reading a serialised complaint record back yields the record. */
  lemma ComplaintJsonRoundTrip(c: ComplaintRow)
    ensures ComplaintFromJson(ComplaintJson(c)) == Some(c)
  {
    ComplaintFieldAt(c, 0);
    ComplaintFieldAt(c, 1);
    ComplaintFieldAt(c, 2);
    ComplaintFieldAt(c, 3);
    ComplaintFieldAt(c, 4);
    ComplaintFieldAt(c, 5);
  }

  /** `GET /`: the welcome payload. */
  function ReadRoot(): (r: Json)
    ensures r.Obj? && |r.fields| == 1
    ensures Index(r, "Response") == Ok(Str(Welcome))
  {
    Obj([("Response", Str(Welcome))])
  }

  /** `GET /complaints/{id}`: the record `get_complaint_client` returns,
      the not-found sentinel included. */
  function GetComplaint(store: Store, id: string, faults: set<Step>): (r: Result<Json>)
    ensures r.Err? <==> ComplaintFetch in faults
    ensures r.Err? ==> r.error == Upstream(ComplaintFetch)
    ensures r.Ok? ==> ComplaintFromJson(r.value) == Some(GetComplaintClient(store, id, faults).value)
  {
    match GetComplaintClient(store, id, faults)
    case Err(e) => Err(e)
    case Ok(c) =>
      ComplaintJsonRoundTrip(c);
      Ok(ComplaintJson(c))
  }

  /** The body `POST /complaints` answers with. */
  function CreatedJson(id: string): Json
  {
    Obj([("complaint_id", Str(id)), ("message", Str(CreatedMessage))])
  }

  /** `POST /complaints`: raise the ticket and answer with its id and the
      fixed confirmation message. */
  function CreateComplaint(store: Store, req: ComplaintRequest, newId: string, faults: set<Step>)
    : (r: Result<Stored<Json>>)
    ensures r.Ok? <==> ComplaintInsert !in faults
    ensures r.Err? ==> r.error == Upstream(ComplaintInsert)
    ensures r.Ok? ==>
              && Index(r.value.value, "complaint_id") == Ok(Str(newId))
              && Index(r.value.value, "message") == Ok(Str(CreatedMessage))
              && r.value.store == GenerateComplaint(store, req, newId, faults).value.store
  {
    match GenerateComplaint(store, req, newId, faults)
    case Err(e) => Err(e)
    case Ok(created) =>
      LookupAt(CreatedJson(newId).fields, 1);
      Ok(Stored(CreatedJson(created.value.complaintId), created.store))
  }

  /** Round trip through the endpoints: the id `POST /complaints` answers
      with fetches, through `GET /complaints/{id}`, a "Pending" record with
      the request's fields. */
  lemma {:induction false} CreateThenGet(store: Store, req: ComplaintRequest, newId: string, faults: set<Step>)
    requires FreshId(store.complaints, newId)
    requires ComplaintInsert !in faults && ComplaintFetch !in faults
    ensures var posted := CreateComplaint(store, req, newId, faults).value;
            var id := Index(posted.value, "complaint_id").value.s;
            GetComplaint(posted.store, id, faults)
              == Ok(ComplaintJson(ComplaintRow(newId, req.name, req.phoneNumber, req.email,
                                               req.complaintDetails, Pending)))
  {
    GenerateThenGet(store, req, newId, faults);
  }

  /** An id nobody raised fetches the sentinel record: status "Not Found",
      contact fields "Unknown", the id echoed, and no error. */
  lemma UnknownIdAnswersSentinel(store: Store, id: string, faults: set<Step>)
    requires FreshId(store.complaints, id) && ComplaintFetch !in faults
    ensures GetComplaint(store, id, faults) == Ok(ComplaintJson(NotFound(id)))
    ensures Index(GetComplaint(store, id, faults).value, "status") == Ok(Str(NotFoundStatus))
  {
  }
}
