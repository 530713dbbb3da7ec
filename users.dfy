/** The user accessor: fetch one user, send a partial profile update, and
    drain the user listings. */
module Users {
  import opened Okta
  import Pagination

  const ListPageSize: nat := 200
  const FilterPageSize: nat := 100

  /** `users/%s` */
  function UserPath(id: string): string {
    "users/" + id
  }

  /** Fetches one user. */
  function GetByID(id: string, reply: Reply<User>): (x: Exchange<Outcome<User>>)
    ensures x.requests == [Req(GET, "users/" + id, NoBody, UsersGetByID)]
    ensures reply.BuildFailed? ==> x.result == Outcome(None, None, Some(reply.err))
    ensures reply.DoFailed? ==> x.result == Outcome(None, reply.errResp, Some(reply.err))
    ensures reply.Done? ==> x.result == Outcome(Some(reply.value), Some(reply.resp), None)
  {
    Send(Req(GET, UserPath(id), NoBody, UsersGetByID), reply)
  }

  /** A partial update: the raw JSON fragment is forwarded byte for byte
      under "profile", with POST rather than the PUT of a group update. */
  function UpdateProfileDelta(id: string, raw: Option<seq<byte>>, reply: Reply<User>): (x: Exchange<Outcome<User>>)
    ensures |x.requests| == 1
    ensures x.requests[0].verb == POST && x.requests[0].path == "users/" + id
    ensures x.requests[0].category == UsersCreateUpdateDeleteByID
    ensures raw.Some? ==> x.requests[0].body == ProfileObject(RawJson(raw.value))
    ensures raw.None? ==> x.requests[0].body == ProfileObject(Null)
    ensures x.result == Complete(reply)
  {
    Send(Req(POST, UserPath(id), ProfileObject(RawPayload(raw)), UsersCreateUpdateDeleteByID), reply)
  }

  /** A user request names its user unambiguously. */
  lemma {:induction false} UserPathsDetermineId(id1: string, id2: string)
    requires UserPath(id1) == UserPath(id2)
    ensures id1 == id2
  {
    InfixDetermined("users/", id1, id2, "");
    assert "users/" + id1 + "" == UserPath(id1);
    assert "users/" + id2 + "" == UserPath(id2);
  }

  /** The user drain. */
  method ListPaginated(category: Category, path: string, acc: seq<User>, replies: seq<Reply<seq<User>>>)
    returns (x: Exchange<Outcome<seq<User>>>)
    requires Pagination.Ends(replies)
    ensures x == Pagination.Collect(category, path, acc, replies)
  {
    x := Pagination.Drain(category, path, acc, replies);
  }

  /** All users, 200 per page, in the core category. */
  method List(replies: seq<Reply<seq<User>>>) returns (x: Exchange<Outcome<seq<User>>>)
    requires Pagination.Ends(replies)
    ensures |x.requests| > 0 && x.requests[0] == Req(GET, "users?limit=200", NoBody, Core)
    ensures x == Pagination.Collect(Core, "users?limit=200", [], replies)
  {
    DecimalPageSizes();
    var path := "users?limit=" + Decimal(ListPageSize);
    x := ListPaginated(Core, path, [], replies);
    Pagination.CollectRequests(Core, path, [], replies);
  }

  /** Users matching an escaped filter, 100 per page. The request is tagged
      with the groups create/list category, as the accessor does. */
  method ListFilter(filter: string, esc: string -> string, replies: seq<Reply<seq<User>>>)
    returns (x: Exchange<Outcome<seq<User>>>)
    requires Pagination.Ends(replies)
    ensures |x.requests| > 0 && x.requests[0] == Req(GET, "users?limit=100&filter=" + esc(filter), NoBody, GroupsCreateList)
    ensures x == Pagination.Collect(GroupsCreateList, "users?limit=100&filter=" + esc(filter), [], replies)
  {
    DecimalPageSizes();
    var path := "users?limit=" + Decimal(FilterPageSize) + "&filter=" + esc(filter);
    x := ListPaginated(GroupsCreateList, path, [], replies);
    Pagination.CollectRequests(GroupsCreateList, path, [], replies);
  }

  /** A user listing whose page m fails after m good pages returns no items
      and no response, whatever was accumulated: unlike `GetByID`, it drops
      the response a failed send handed back. */
  lemma ListFailureDropsResponse(category: Category, path: string, acc: seq<User>,
                                 replies: seq<Reply<seq<User>>>, m: nat)
    requires m < |replies| && !replies[m].Done?
    requires forall j :: 0 <= j < m ==> replies[j].Done? && |replies[j].resp.next| > 0
    ensures Pagination.Ends(replies)
    ensures var o := Pagination.Collect(category, path, acc, replies).result;
      o.value == None && o.resp == None && o.err == Some(replies[m].err)
  {
    Pagination.CollectFailsAtPage(category, path, acc, replies, m);
  }
}
