/** The schema of a friend request's new status. */
module FriendValidation {
  import opened Common
  import opened Store
  import opened Joi

  /** `updateFriendRequestSchema`: `status` is required and must be "approved"
      or "rejected". */
  function StatusIssue(body: Body): (r: Option<Issue>)
    ensures r.None? <==> "status" in body && body["status"] in {JStr(REQUEST_APPROVED), JStr(REQUEST_REJECTED)}
    ensures "status" !in body ==> r == Some(Issue("status", Required))
  {
    if "status" !in body then Some(Issue("status", Required))
    else if body["status"] == JStr(REQUEST_APPROVED) || body["status"] == JStr(REQUEST_REJECTED) then None
    else Some(Issue("status", Only))
  }

  /** A request cannot be put back to "pending", nor to any other text. */
  lemma StatusRefusesOthers(s: string)
    requires s != REQUEST_APPROVED && s != REQUEST_REJECTED
    ensures StatusIssue(map["status" := JStr(s)]) == Some(Issue("status", Only))
  {
  }
}
