# go-okta groups and users accessors, modelled in Dafny

This project models the two resource accessors of a Go client library for the
Okta identity API. `GroupsService` handles groups and their members.
`UsersService` handles users. A call to an accessor does two things. It builds
a request descriptor: verb, path, body and rate-limit category. It then turns
the transport client's reply into Go's `(value, *Response, error)` triple or,
for `Remove`, the `(*Response, error)` pair. The
list operations also drain a paginated endpoint. They GET a path, append the
decoded page to an accumulator, and follow the response's `Pagination.Next`
cursor until it is empty. Any failure aborts the drain with `(nil, nil, err)`.

Modules:

- `Okta` (`okta.dfy`) holds the package's data types: `Group`, `GroupProfile`, a
  minimal `User` and `Timestamp`. It also holds the request descriptor `Req`,
  the client's `Reply` (NewRequest failed; Do failed, perhaps with a
  response; or done with a decoded value and a response) and the returned
  `Outcome` triple. `Complete` is how single-item operations shape a reply.
  `Decimal` models the `%d` verb used for page sizes.
- `Pagination` (`pagination.dfy`) holds the drain. `Collect` is the recursive
  specification, following the source's recursion. `Drain` is a
  `while` loop with an accumulator, proved equal to it. The lemmas cover
  request count and paths, completeness and order, fail-fast, the prefix
  property of the accumulator, and well-behaved servers.
- `Groups` (`groups.dfy`) and `Users` (`users.dfy`) are the accessors. The
  straight-line operations are functions. The list operations are methods
  that call the drain. Each of the three Go drain copies (`listPaginated`
  twice, `listMembersPaginated`) is a thin instantiation of the one generic
  `Pagination.Drain`.

The transport client is represented by its replies. A single-item operation
takes the `Reply` the client gives to its one request. A list operation takes
`replies`, where `replies[k]` is the client's answer to the k-th request of
the drain. The only thing asked of them is that some reply stops the drain,
so every proved property holds for every server whose replies eventually stop
the drain. `url.QueryEscape` is a function parameter `esc`
with no stated properties. The `ctx` rate-limit tag is the `category` field of
each request.

The doc comments on `List`, `ListSearchByName` and `ListFilter` say
"pagination is disabled". The code does paginate, and the model follows the
code. `UsersService.ListFilter` tags its requests with the *groups*
create/list category. The model keeps that as written.

## Model

| member | source | states |
|---|---|---|
| `Okta.Complete` | okta/groups.go:44-55 | A single-item result carries a value exactly when it carries no error. A NewRequest failure returns no response. A Do failure returns whatever response the client gave, plus its error. Success returns the decoded value and the response. |
| `Okta.DecimalPageSizes` | okta/groups.go:66 | The `%d` formatting of the page sizes 100 and 200 gives exactly the text `100` and `200`. |
| `Pagination.StopIndex` | okta/groups.go:111-113 | Gives the first reply after which the drain stops: a failure or a page with an empty cursor. Every earlier reply is a page with a non-empty cursor. |
| `Pagination.Drain` | okta/groups.go:98-116 | The loop that accumulates pages and follows cursors returns exactly what the recursive drain specification returns. This covers both the request log and the result. On success the items are the initial accumulator followed by the items of every requested page, in order. |
| `Pagination.CollectRequests` | okta/groups.go:99-115 | One request descriptor is handed to NewRequest per page, up to and including the stopping page, and none after it. If the stopping reply is a NewRequest failure, that last descriptor never reaches Do. The first goes to the given path. Each later one goes to exactly the previous response's cursor. All are bodiless GETs in the caller's category. |
| `Pagination.CollectResult` | okta/groups.go:99-113 | The drain succeeds exactly when the stopping page was fetched. It then returns the accumulator followed by every page's items in server order, with the last response. Otherwise it returns that page's error, with no items and no response. |
| `Pagination.CollectIgnoresLaterReplies` | okta/groups.go:111-113 | Whatever the server would answer after the stopping page never affects the drain, because no further request is made. |
| `Pagination.CollectKeepsAccumulator` | okta/users.go:94 | A successful drain's items start with the initial accumulator. Their count is never smaller than the accumulator's length. |
| `Pagination.CollectSinglePage` | okta/groups.go:111-113 | A first page with an empty cursor takes exactly one request and yields that page's items after the accumulator. |
| `Pagination.CollectAllPages` | okta/groups.go:104-115 | Suppose every one of N pages succeeds and carries a cursor exactly when another page follows. Then the drain makes N requests and returns all items in page order. |
| `Pagination.CollectCountsItems` | okta/groups.go:109 | N such pages of k items each yield N * k items. |
| `Pagination.CollectFailsAtPage` | okta/groups.go:105-108 | If page m fails after m good pages, m + 1 request descriptors are built. Only m of them reach Do when page m failed in NewRequest. The drain returns only page m's error. |
| `Groups.GetByID` | okta/groups.go:40-57 | One GET to `groups/{id}` in the groups get/update/delete category. The result is shaped as in `Complete`. |
| `Groups.Add` | okta/groups.go:121-140 | One POST to `groups` with body `{"profile": p}` (null for a nil profile) in the groups create/list category. |
| `Groups.Update` | okta/groups.go:165-184 | One PUT to `groups/{id}` whose body is exactly the caller's whole profile under "profile", in the groups get/update/delete category. |
| `Groups.UpdateEntryPointsAgree` | okta/groups.go:145-158 | `UpdateWithProfile(id, p)` equals `Update(id, p)`. `UpdateWithGroup(id, g)` equals `UpdateWithProfile(id, g.profile)`. Both send a PUT of the group's full profile. |
| `Groups.UpdateWithProfile` | okta/groups.go:145-148 | Sends the same PUT to `groups/{id}` as `Update`, with the given profile (null for nil) as the whole body. |
| `Groups.UpdateWithGroup` | okta/groups.go:154-158 | Sends a PUT to `groups/{id}` whose body is the group's own profile and none of its other fields. |
| `Groups.Remove` | okta/groups.go:189-205 | One DELETE to `groups/{id}` in the groups get/update/delete category. Only the response and the error are returned. A Do failure keeps the client's response. |
| `Groups.GroupPathsDetermineId` | okta/groups.go:42 | Distinct group identifiers give distinct `groups/{id}` paths. |
| `Groups.ListPaginated` | okta/groups.go:98-116 | The group drain equals the drain specification on group pages. |
| `Groups.ListMembersPaginated` | okta/groups.go:219-237 | The member drain equals the same specification on user pages, so it has the same concatenation and fail-fast properties. |
| `Groups.List` | okta/groups.go:63-70 | Drains from `groups?limit=100` with an empty accumulator, in the groups create/list category. |
| `Groups.ListSearchByName` | okta/groups.go:76-83 | Drains from `groups?limit=100&q=` followed by the raw, unescaped name. |
| `Groups.ListFilter` | okta/groups.go:89-96 | Drains from `groups?limit=100&filter=` followed by `esc(filter)`. |
| `Groups.ListMembers` | okta/groups.go:210-217 | Drains from `groups/{id}/users?limit=200` in the core category. |
| `Groups.MembersPathDetermineId` | okta/groups.go:213 | Distinct group identifiers give distinct member-listing paths. |
| `Groups.SearchPathDeterminesName` | okta/groups.go:79 | The search path carries the name unescaped: distinct names give distinct paths. |
| `Groups.FilterPathsAgreeIffEscapesAgree` | okta/groups.go:92 | Two filters give the same path exactly when the escaper maps them to the same text, so what is sent is the escaped filter. |
| `Groups.TwoPageListing` | okta/groups.go:98-116 | Two pages, one holding "Everyone" with a cursor and one holding "Admins" without, give both groups in that order. This takes two requests, the second to the cursor. |
| `Users.GetByID` | okta/users.go:16-33 | One GET to `users/{id}` in the users get-by-id category. A NewRequest failure gives `(nil, nil, err)`. A Do failure gives `(nil, resp, err)`. Success gives `(user, resp, nil)`. |
| `Users.UpdateProfileDelta` | okta/users.go:38-57 | One POST (not PUT) to `users/{id}` whose body carries the raw JSON fragment unchanged under "profile", in the users create/update/delete-by-id category. |
| `Users.UserPathsDetermineId` | okta/users.go:18 | Distinct user identifiers give distinct `users/{id}` paths. |
| `Users.ListPaginated` | okta/users.go:83-101 | The user drain equals the drain specification on user pages. |
| `Users.List` | okta/users.go:62-69 | Drains from `users?limit=200` in the core category. |
| `Users.ListFilter` | okta/users.go:74-81 | Drains from `users?limit=100&filter=` followed by `esc(filter)`, in the groups create/list category, as written. |
| `Users.ListFailureDropsResponse` | okta/users.go:84-93 | A user drain whose page m fails after m good pages returns no items and no response, only page m's error, whatever the accumulator. Unlike `GetByID`, it drops a response that a failed Do handed back. |

## Left out

- The transport client's `NewRequest` and `Do` are not part of this model. This covers HTTP, authentication, JSON encoding and decoding, and status handling. Their effect is given as the `Reply` values the operations receive.
- `url.QueryEscape` is not part of this model. It is the parameter `esc`. Correct percent-encoding of reserved characters is therefore not stated.
- Context values, rate-limit enforcement and back-off are left out. The category is only a tag on each request.
- Cancellation and concurrent use are properties of the transport, so they are left out.
- `User`, `Response` and `Timestamp` are defined outside the accessor files and are minimal records here. JSON `omitempty` serialisation is not modelled.
- Go's nil slice and empty slice are not distinguished. A successful drain over empty pages returns `Some([])`, where Go returns a nil slice.
- `UpdateWithGroup` with a nil group pointer panics in Go. The model takes a group value, so that case does not arise.
- `Pagination.Drain`: the Go recursion is not bounded, and it runs forever if the server never stops sending cursors. The model requires that some reply stops the drain (`Ends`) and does not model the non-terminating case.
- Pointer identity of the returned `*Group` and `*User` values is not modelled. The model returns values.
- The integration test under test/integration needs a live Okta account and the network. It holds no logic to model.
