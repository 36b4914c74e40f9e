/** The complaint and user-detail services of src/utils.py: raise a
    complaint, look one up by id, and fetch a user's latest contact details.
    Each performs one store operation and re-raises the store's failure.
    `uuid.uuid4()` is an oracle: the caller passes the id it produced.
 */
module Services {
  import opened Results
  import opened Tables

  const Pending := "Pending"
  const NotFoundStatus := "Not Found"
  const UnknownField := "Unknown"
  const NoDetails := "No details available for this complaint ID."

  /** The four fields a complaint is raised with. */
  datatype ComplaintRequest = ComplaintRequest(
    name: string,
    phoneNumber: string,
    email: string,
    complaintDetails: string)

  /** Distinct complaint rows carry distinct ids. */
  predicate UniqueIds(rows: seq<ComplaintRow>)
  {
    forall i, j :: 0 <= i < j < |rows| ==> rows[i].complaintId != rows[j].complaintId
  }

  /** `generate_complaint`: a new ticket with id `newId`, the request's
      fields copied and status "Pending", appended to the complaints table
      and returned. */
  function GenerateComplaint(store: Store, req: ComplaintRequest, newId: string, faults: set<Step>)
    : (r: Result<Stored<ComplaintRow>>)
    ensures r.Ok? <==> ComplaintInsert !in faults
    ensures r.Err? ==> r.error == Upstream(ComplaintInsert)
    ensures r.Ok? ==>
              var c := r.value.value;
              && c.complaintId == newId && c.status == Pending
              && c.name == req.name && c.phoneNumber == req.phoneNumber
              && c.email == req.email && c.complaintDetails == req.complaintDetails
              && r.value.store.complaints == store.complaints + [c]
              && r.value.store.conversations == store.conversations
              && r.value.store.userDetails == store.userDetails
  {
    var c := ComplaintRow(newId, req.name, req.phoneNumber, req.email, req.complaintDetails, Pending);
    if ComplaintInsert in faults then Err(Upstream(ComplaintInsert))
    else Ok(Stored(c, store.(complaints := store.complaints + [c])))
  }

  /** The record `get_complaint_client` answers for an id it cannot find. */
  function NotFound(id: string): ComplaintRow
  {
    ComplaintRow(id, UnknownField, UnknownField, UnknownField, NoDetails, NotFoundStatus)
  }

  /** `get_complaint_client`: the stored ticket with id `id`, or the "Not
      Found" sentinel echoing `id` when there is none. Only a failing read
      is an error. */
  function GetComplaintClient(store: Store, id: string, faults: set<Step>): (r: Result<ComplaintRow>)
    ensures r.Err? <==> ComplaintFetch in faults
    ensures r.Err? ==> r.error == Upstream(ComplaintFetch)
    ensures r.Ok? && FreshId(store.complaints, id) ==>
              && r.value.complaintId == id
              && r.value.name == UnknownField && r.value.phoneNumber == UnknownField
              && r.value.email == UnknownField
              && r.value.status == NotFoundStatus && r.value.complaintDetails == NoDetails
    ensures r.Ok? && !FreshId(store.complaints, id) ==>
              r.value in store.complaints && r.value.complaintId == id
  {
    if ComplaintFetch in faults then Err(Upstream(ComplaintFetch))
    else match FirstWithId(store.complaints, id)
      case None => Ok(NotFound(id))
      case Some(row) => Ok(row)
  }

  /** `get_user_detail`: the most recently inserted contact details of
      `userId`, or None when the user has none. */
  function GetUserDetail(store: Store, userId: string, faults: set<Step>): (r: Result<Option<UserDetailsRow>>)
    ensures r.Err? <==> UserDetailFetch in faults
    ensures r.Err? ==> r.error == Upstream(UserDetailFetch)
    ensures r.Ok? && r.value.None? ==>
              forall i :: 0 <= i < |store.userDetails| ==> store.userDetails[i].userId != userId
    ensures r.Ok? && r.value.Some? ==>
              exists i :: 0 <= i < |store.userDetails| && store.userDetails[i] == r.value.value
                          && r.value.value.userId == userId
                          && forall j :: i < j < |store.userDetails| ==> store.userDetails[j].userId != userId
  {
    if UserDetailFetch in faults then Err(Upstream(UserDetailFetch))
    else Ok(LatestDetails(store.userDetails, userId))
  }

  /** Round trip: a ticket generated under a fresh id is found again by that
      id with the request's fields and status "Pending". */
  lemma {:induction false} GenerateThenGet(store: Store, req: ComplaintRequest, newId: string, faults: set<Step>)
    requires FreshId(store.complaints, newId)
    requires ComplaintInsert !in faults && ComplaintFetch !in faults
    ensures var created := GenerateComplaint(store, req, newId, faults);
            var found := GetComplaintClient(created.value.store, newId, faults);
            && found.Ok?
            && found.value == created.value.value
            && found.value.name == req.name && found.value.phoneNumber == req.phoneNumber
            && found.value.email == req.email && found.value.complaintDetails == req.complaintDetails
            && found.value.status == Pending
  {
    var created := GenerateComplaint(store, req, newId, faults);
    var rows := created.value.store.complaints;
    var c := created.value.value;
    assert rows[|store.complaints|] == c;
    assert forall k :: 0 <= k < |store.complaints| ==> rows[k] == store.complaints[k];
    assert !FreshId(rows, newId);
    var x := FirstWithId(rows, newId).value;
    var i :| 0 <= i < |rows| && rows[i] == x && x.complaintId == newId;
    assert i == |store.complaints|;
  }

  /** Generating under a fresh id keeps the ticket ids unique. */
  lemma GenerateKeepsIdsUnique(store: Store, req: ComplaintRequest, newId: string, faults: set<Step>)
    requires UniqueIds(store.complaints) && FreshId(store.complaints, newId)
    requires ComplaintInsert !in faults
    ensures UniqueIds(GenerateComplaint(store, req, newId, faults).value.store.complaints)
  {
    var rows := GenerateComplaint(store, req, newId, faults).value.store.complaints;
    forall i, j | 0 <= i < j < |rows|
      ensures rows[i].complaintId != rows[j].complaintId
    {
      assert rows[i] == store.complaints[i];
      if j < |store.complaints| {
        assert rows[j] == store.complaints[j];
      }
    }
  }
}
