/** The three SQLite tables the service keeps, each an append-only sequence
    of rows in insertion order. The `created_at` column is modelled by a
    row's position: a later row has a later timestamp, so "ORDER BY
    created_at DESC" reads the sequence from its end.
 */
module Tables {
  import opened Results

  const ConversationTable := "cyfuture_conversation_analytics"
  const UserDetailsTable := "cyfuture_user_details"
  const ComplaintsTable := "cyfuture_complaints"

  /** The `followup_flag` column: 1 when the turn's reply was a question. */
  type Flag = f: int | 0 <= f <= 1

  /** One chatbot turn as the conversation table stores it. */
  datatype ConversationRow = ConversationRow(
    userId: string,
    userText: string,
    complaintDetails: Option<string>,
    response: string,
    followupFlag: Flag)

  /** One snapshot of the contact details the model had extracted so far. */
  datatype UserDetailsRow = UserDetailsRow(
    userId: string,
    name: string,
    phoneNumber: string,
    email: string)

  /** One raised complaint ticket. */
  datatype ComplaintRow = ComplaintRow(
    complaintId: string,
    name: string,
    phoneNumber: string,
    email: string,
    complaintDetails: string,
    status: string)

  datatype Store = Store(
    conversations: seq<ConversationRow>,
    userDetails: seq<UserDetailsRow>,
    complaints: seq<ComplaintRow>)

  /** A value returned together with the store it left behind. */
  datatype Stored<+T> = Stored(value: T, store: Store)

  /** `after` extends every table of `before` by appending rows only. */
  predicate AppendOnly(before: Store, after: Store)
  {
    && before.conversations <= after.conversations
    && before.userDetails <= after.userDetails
    && before.complaints <= after.complaints
  }

  /** A conversation table's rows for one user, oldest first. */
  function ConversationsOf(rows: seq<ConversationRow>, userId: string): (r: seq<ConversationRow>)
    ensures |r| <= |rows|
    ensures forall i :: 0 <= i < |r| ==> r[i].userId == userId && r[i] in rows
  {
    if |rows| == 0 then []
    else
      var last := rows[|rows| - 1];
      var r := ConversationsOf(rows[..|rows| - 1], userId);
      if last.userId == userId then r + [last] else r
  }

  /** The result of "SELECT ... WHERE user_id = u ORDER BY created_at DESC
      LIMIT k" read back in reverse: the user's `k` most recent rows, oldest
      first. */
  function Recent(rows: seq<ConversationRow>, userId: string, k: nat): (r: seq<ConversationRow>)
    ensures |r| <= k
    ensures forall i :: 0 <= i < |r| ==> r[i].userId == userId
  {
    if k == 0 || |rows| == 0 then []
    else
      var last := rows[|rows| - 1];
      if last.userId == userId then Recent(rows[..|rows| - 1], userId, k - 1) + [last]
      else Recent(rows[..|rows| - 1], userId, k)
  }

  /** The history window is exactly the last `min(k, n)` of the user's `n`
      rows, in insertion order. */
  lemma {:induction false} RecentIsNewestOfUser(rows: seq<ConversationRow>, userId: string, k: nat)
    ensures var mine := ConversationsOf(rows, userId);
            var n := if k < |mine| then k else |mine|;
            Recent(rows, userId, k) == mine[|mine| - n..]
    decreases |rows|
  {
    if k != 0 && |rows| != 0 {
      var front := rows[..|rows| - 1];
      var last := rows[|rows| - 1];
      var before := ConversationsOf(front, userId);
      if last.userId == userId {
        RecentIsNewestOfUser(front, userId, k - 1);
        var n := if k - 1 < |before| then k - 1 else |before|;
        assert before[|before| - n..] + [last] == (before + [last])[|before| + 1 - (n + 1)..];
      } else {
        RecentIsNewestOfUser(front, userId, k);
      }
    }
  }

  /** The most recently inserted user-details row of `userId`, if any. */
  function LatestDetails(rows: seq<UserDetailsRow>, userId: string): (r: Option<UserDetailsRow>)
    ensures r.None? <==> forall i :: 0 <= i < |rows| ==> rows[i].userId != userId
    ensures r.Some? ==> exists i :: 0 <= i < |rows| && rows[i] == r.value && r.value.userId == userId
                                    && forall j :: i < j < |rows| ==> rows[j].userId != userId
  {
    if |rows| == 0 then None
    else if rows[|rows| - 1].userId == userId then Some(rows[|rows| - 1])
    else
      var r := LatestDetails(rows[..|rows| - 1], userId);
      assert forall i :: 0 <= i < |rows| - 1 ==> rows[..|rows| - 1][i] == rows[i];
      r
  }

  /** True when no complaint row has id `id`. */
  predicate FreshId(rows: seq<ComplaintRow>, id: string)
  {
    forall i :: 0 <= i < |rows| ==> rows[i].complaintId != id
  }

  /** The first complaint row with id `id`, as "SELECT * ... WHERE
      complaint_id = id" followed by `iloc[0]` yields it. */
  function FirstWithId(rows: seq<ComplaintRow>, id: string): (r: Option<ComplaintRow>)
    ensures r.None? <==> FreshId(rows, id)
    ensures r.Some? ==> exists i :: 0 <= i < |rows| && rows[i] == r.value && r.value.complaintId == id
                                    && forall j :: 0 <= j < i ==> rows[j].complaintId != id
  {
    if |rows| == 0 then None
    else if rows[0].complaintId == id then Some(rows[0])
    else
      var r := FirstWithId(rows[1..], id);
      assert forall i :: 0 <= i < |rows| - 1 ==> rows[1..][i] == rows[i + 1];
      r
  }

  /** A row appended under an id no earlier row has is the one found. */
  lemma {:induction false} FindsAppended(rows: seq<ComplaintRow>, c: ComplaintRow)
    requires FreshId(rows, c.complaintId)
    ensures FirstWithId(rows + [c], c.complaintId) == Some(c)
  {
    var all := rows + [c];
    assert all[|rows|] == c;
    var x := FirstWithId(all, c.complaintId).value;
    var i :| 0 <= i < |all| && all[i] == x && x.complaintId == c.complaintId;
    if i < |rows| {
      assert all[i] == rows[i];
    }
  }
}
