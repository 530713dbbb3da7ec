/** The group accessor: each operation builds one request descriptor (verb,
    path, body, rate-limit category) and shapes the client's reply into its
    result; the list operations drain every page through Pagination. */
module Groups {
  import opened Okta
  import Pagination

  const ListPageSize: nat := 100
  const MembersPageSize: nat := 200

  /** `groups/%s` */
  function GroupPath(id: string): string {
    "groups/" + id
  }

  /** Fetches one group. */
  function GetByID(id: string, reply: Reply<Group>): (x: Exchange<Outcome<Group>>)
    ensures x.requests == [Req(GET, "groups/" + id, NoBody, GroupsGetUpdateDelete)]
    ensures x.result == Complete(reply)
  {
    Send(Req(GET, GroupPath(id), NoBody, GroupsGetUpdateDelete), reply)
  }

  /** Creates a group from a profile; a nil profile is sent as null. */
  function Add(profile: Option<GroupProfile>, reply: Reply<Group>): (x: Exchange<Outcome<Group>>)
    ensures x.requests == [Req(POST, "groups", ProfileObject(GroupPayload(profile)), GroupsCreateList)]
    ensures x.result == Complete(reply)
  {
    Send(Req(POST, "groups", ProfileObject(GroupPayload(profile)), GroupsCreateList), reply)
  }

  /** Replaces a group's profile wholesale: the body carries the caller's
      profile and nothing else. */
  function Update(id: string, profile: Option<GroupProfile>, reply: Reply<Group>): (x: Exchange<Outcome<Group>>)
    ensures |x.requests| == 1
    ensures x.requests[0].verb == PUT && x.requests[0].path == "groups/" + id
    ensures x.requests[0].category == GroupsGetUpdateDelete
    ensures profile.Some? ==> x.requests[0].body == ProfileObject(GroupProfileValue(profile.value))
    ensures profile.None? ==> x.requests[0].body == ProfileObject(Null)
    ensures x.result == Complete(reply)
  {
    Send(Req(PUT, GroupPath(id), ProfileObject(GroupPayload(profile)), GroupsGetUpdateDelete), reply)
  }

  /** Update with a bare profile: the same PUT of that whole profile. */
  function UpdateWithProfile(id: string, profile: Option<GroupProfile>, reply: Reply<Group>): (x: Exchange<Outcome<Group>>)
    ensures x.requests == [Req(PUT, "groups/" + id, ProfileObject(GroupPayload(profile)), GroupsGetUpdateDelete)]
    ensures x.result == Complete(reply)
  {
    Update(id, profile, reply)
  }

  /** Update with a whole group: a PUT of the group's profile, never null;
      the group's other fields are not sent. */
  function UpdateWithGroup(id: string, group: Group, reply: Reply<Group>): (x: Exchange<Outcome<Group>>)
    ensures x.requests == [Req(PUT, "groups/" + id, ProfileObject(GroupProfileValue(group.profile)), GroupsGetUpdateDelete)]
    ensures x.result == Complete(reply)
  {
    var profile := group.profile;
    Update(id, Some(profile), reply)
  }

  /** The three update entry points converge on one request: a PUT of the
      full profile, taken from the group when a group is given. */
  lemma UpdateEntryPointsAgree(id: string, group: Group, profile: Option<GroupProfile>, reply: Reply<Group>)
    ensures UpdateWithProfile(id, profile, reply) == Update(id, profile, reply)
    ensures UpdateWithGroup(id, group, reply) == UpdateWithProfile(id, Some(group.profile), reply)
    ensures UpdateWithGroup(id, group, reply).requests
      == [Req(PUT, "groups/" + id, ProfileObject(GroupProfileValue(group.profile)), GroupsGetUpdateDelete)]
  {
  }

  /** Deletes a group; the decoded body is discarded and only the response
      and the error are returned. */
  function Remove(id: string, reply: Reply<Group>): (x: Exchange<Status>)
    ensures x.requests == [Req(DELETE, "groups/" + id, NoBody, GroupsGetUpdateDelete)]
    ensures x.result.err.None? <==> reply.Done?
    ensures !reply.Done? ==> x.result.err == Some(reply.err)
    ensures reply.Done? ==> x.result.resp == Some(reply.resp)
    ensures reply.BuildFailed? ==> x.result.resp == None
    ensures reply.DoFailed? ==> x.result.resp == reply.errResp
  {
    var o := Send(Req(DELETE, GroupPath(id), NoBody, GroupsGetUpdateDelete), reply);
    Exchange(o.requests, Status(o.result.resp, o.result.err))
  }

  /** Every operation addressing one group addresses it unambiguously:
      distinct identifiers give distinct requests. */
  lemma {:induction false} GroupPathsDetermineId(id1: string, id2: string)
    requires GroupPath(id1) == GroupPath(id2)
    ensures id1 == id2
  {
    InfixDetermined("groups/", id1, id2, "");
    assert "groups/" + id1 + "" == GroupPath(id1);
    assert "groups/" + id2 + "" == GroupPath(id2);
  }

  /** `groups?limit=%d&q=%s`: the name goes in as given. */
  function SearchPath(partialName: string): string {
    "groups?limit=" + Decimal(ListPageSize) + "&q=" + partialName
  }

  /** `groups?limit=%d&filter=%s` over the escaped filter. */
  function FilterPath(filter: string, esc: string -> string): string {
    "groups?limit=" + Decimal(ListPageSize) + "&filter=" + esc(filter)
  }

  /** Searches for distinct names send distinct paths: the name reaches the
      server unaltered. */
  lemma {:induction false} SearchPathDeterminesName(name1: string, name2: string)
    requires SearchPath(name1) == SearchPath(name2)
    ensures name1 == name2
  {
    var prefix := "groups?limit=" + Decimal(ListPageSize) + "&q=";
    assert SearchPath(name1) == prefix + name1 + "";
    assert SearchPath(name2) == prefix + name2 + "";
    InfixDetermined(prefix, name1, name2, "");
  }

  /** Two filters give the same path exactly when the escaper maps them to
      the same text: what is sent is the escaped filter, not the filter. */
  lemma {:induction false} FilterPathsAgreeIffEscapesAgree(filter1: string, filter2: string, esc: string -> string)
    ensures FilterPath(filter1, esc) == FilterPath(filter2, esc) <==> esc(filter1) == esc(filter2)
  {
    var prefix := "groups?limit=" + Decimal(ListPageSize) + "&filter=";
    assert FilterPath(filter1, esc) == prefix + esc(filter1) + "";
    assert FilterPath(filter2, esc) == prefix + esc(filter2) + "";
    if FilterPath(filter1, esc) == FilterPath(filter2, esc) {
      InfixDetermined(prefix, esc(filter1), esc(filter2), "");
    }
  }

  /** The group drain, instantiated for groups. */
  method ListPaginated(category: Category, path: string, acc: seq<Group>, replies: seq<Reply<seq<Group>>>)
    returns (x: Exchange<Outcome<seq<Group>>>)
    requires Pagination.Ends(replies)
    ensures x == Pagination.Collect(category, path, acc, replies)
  {
    x := Pagination.Drain(category, path, acc, replies);
  }

  /** The member drain, instantiated for users. */
  method ListMembersPaginated(category: Category, path: string, acc: seq<User>, replies: seq<Reply<seq<User>>>)
    returns (x: Exchange<Outcome<seq<User>>>)
    requires Pagination.Ends(replies)
    ensures x == Pagination.Collect(category, path, acc, replies)
  {
    x := Pagination.Drain(category, path, acc, replies);
  }

  /** All groups, 100 per page. */
  method List(replies: seq<Reply<seq<Group>>>) returns (x: Exchange<Outcome<seq<Group>>>)
    requires Pagination.Ends(replies)
    ensures |x.requests| > 0 && x.requests[0] == Req(GET, "groups?limit=100", NoBody, GroupsCreateList)
    ensures x == Pagination.Collect(GroupsCreateList, "groups?limit=100", [], replies)
  {
    DecimalPageSizes();
    var path := "groups?limit=" + Decimal(ListPageSize);
    x := ListPaginated(GroupsCreateList, path, [], replies);
    Pagination.CollectRequests(GroupsCreateList, path, [], replies);
  }

  /** Groups whose name starts with `partialName`; the name is put into the
      query string as given, without escaping. */
  method ListSearchByName(partialName: string, replies: seq<Reply<seq<Group>>>) returns (x: Exchange<Outcome<seq<Group>>>)
    requires Pagination.Ends(replies)
    ensures |x.requests| > 0 && x.requests[0] == Req(GET, "groups?limit=100&q=" + partialName, NoBody, GroupsCreateList)
    ensures x == Pagination.Collect(GroupsCreateList, "groups?limit=100&q=" + partialName, [], replies)
  {
    DecimalPageSizes();
    var path := SearchPath(partialName);
    x := ListPaginated(GroupsCreateList, path, [], replies);
    Pagination.CollectRequests(GroupsCreateList, path, [], replies);
  }

  /** Groups matching a filter expression; the expression goes through the
      query escaper `esc` first. */
  method ListFilter(filter: string, esc: string -> string, replies: seq<Reply<seq<Group>>>)
    returns (x: Exchange<Outcome<seq<Group>>>)
    requires Pagination.Ends(replies)
    ensures |x.requests| > 0 && x.requests[0] == Req(GET, "groups?limit=100&filter=" + esc(filter), NoBody, GroupsCreateList)
    ensures x == Pagination.Collect(GroupsCreateList, "groups?limit=100&filter=" + esc(filter), [], replies)
  {
    DecimalPageSizes();
    var path := FilterPath(filter, esc);
    x := ListPaginated(GroupsCreateList, path, [], replies);
    Pagination.CollectRequests(GroupsCreateList, path, [], replies);
  }

  /** The users in a group, 200 per page, in the core category. */
  method ListMembers(id: string, replies: seq<Reply<seq<User>>>) returns (x: Exchange<Outcome<seq<User>>>)
    requires Pagination.Ends(replies)
    ensures |x.requests| > 0 && x.requests[0] == Req(GET, "groups/" + id + "/users?limit=200", NoBody, Core)
    ensures x == Pagination.Collect(Core, "groups/" + id + "/users?limit=200", [], replies)
  {
    DecimalPageSizes();
    var path := GroupPath(id) + "/users?limit=" + Decimal(MembersPageSize);
    x := ListMembersPaginated(Core, path, [], replies);
    Pagination.CollectRequests(Core, path, [], replies);
  }

  /** A member listing names its group unambiguously. */
  lemma MembersPathDetermineId(id1: string, id2: string)
    requires "groups/" + id1 + "/users?limit=200" == "groups/" + id2 + "/users?limit=200"
    ensures id1 == id2
  {
    InfixDetermined("groups/", id1, id2, "/users?limit=200");
  }

  /** Two pages, "Everyone" then "Admins": the listing returns both groups
      in server order after two requests, the second to the first page's
      cursor. */
  lemma TwoPageListing(everyone: Group, admins: Group, cursor: string)
    requires everyone.profile.name == "Everyone" && admins.profile.name == "Admins"
    requires cursor != ""
    ensures var replies := [Done([everyone], Response(200, cursor)), Done([admins], Response(200, ""))];
      && Pagination.Ends(replies)
      && Pagination.Collect(GroupsCreateList, "groups?limit=100", [], replies)
         == Exchange([Pagination.Get(GroupsCreateList, "groups?limit=100"), Pagination.Get(GroupsCreateList, cursor)],
                     Outcome(Some([everyone, admins]), Some(Response(200, "")), None))
  {
    var c := GroupsCreateList;
    var replies := [Done([everyone], Response(200, cursor)), Done([admins], Response(200, ""))];
    var last := replies[1..];
    assert last == [Done([admins], Response(200, ""))];
    Pagination.CollectSinglePage(c, cursor, [everyone], last);
    assert [everyone] + [admins] == [everyone, admins];
    assert [] + [everyone] == [everyone] && |cursor| != 0;
    assert [Pagination.Get(c, "groups?limit=100")] + [Pagination.Get(c, cursor)]
      == [Pagination.Get(c, "groups?limit=100"), Pagination.Get(c, cursor)];
    assert Pagination.Collect(c, cursor, [everyone], last)
      == Exchange([Pagination.Get(c, cursor)], Outcome(Some([everyone, admins]), Some(Response(200, "")), None));
  }
}
