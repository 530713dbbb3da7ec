/** The package-level vocabulary shared by the group and user accessors:
    the entities the API returns, the request descriptor an accessor hands to
    the transport client, the reply the client gives back, and the Go-style
    (value, response, error) triple an accessor returns. */
module Okta {

  newtype byte = x: int | 0 <= x < 256

  datatype Option<T> = None | Some(value: T)

  /** An error produced by the transport client; never inspected here. */
  datatype Error = Error(message: string)

  /** The client's response wrapper. Only the pagination cursor is read here;
      `next` is the empty string when no further page exists. */
  datatype Response = Response(status: int, next: string)

  /** A point in time as the API reports it. */
  datatype Timestamp = Timestamp(unixNanos: int)

  /** The mutable, caller-supplied part of a group. */
  datatype GroupProfile = GroupProfile(
    name: string,
    description: string,
    samAccountName: string,
    dn: string,
    windowsDomainQualifiedName: string,
    externalId: string)

  datatype Group = Group(
    id: string,
    created: Timestamp,
    lastUpdated: Timestamp,
    lastMembershipUpdated: Timestamp,
    objectClass: seq<string>,
    groupType: string,
    profile: GroupProfile)

  /** A user is opaque to the accessors; only its identifier is kept. */
  datatype User = User(id: string)

  datatype Method = GET | POST | PUT | DELETE

  /** The rate-limit bucket a request is tagged with before it is sent. */
  datatype Category =
    | GroupsGetUpdateDelete
    | GroupsCreateList
    | UsersGetByID
    | UsersCreateUpdateDeleteByID
    | Core

  /** What is stored under the "profile" key of a request body. A nil
      pointer passed by the caller is serialised as JSON null. */
  datatype Payload =
    | Null
    | GroupProfileValue(groupProfile: GroupProfile)
    | RawJson(bytes: seq<byte>)

  /** A request body: none, or the one-key object {"profile": ...}. */
  datatype Body = NoBody | ProfileObject(profile: Payload)

  /** Everything an accessor decides about one outgoing request. */
  datatype Req = Req(verb: Method, path: string, body: Body, category: Category)

  /** The client's answer to one request: building it failed (NewRequest),
      sending or decoding failed (Do, which may still hand back a response),
      or it succeeded with a decoded value and a response. */
  datatype Reply<T> =
    | BuildFailed(err: Error)
    | DoFailed(err: Error, errResp: Option<Response>)
    | Done(value: T, resp: Response)

  /** The (value, response, error) triple an accessor returns. */
  datatype Outcome<T> = Outcome(value: Option<T>, resp: Option<Response>, err: Option<Error>)

  /** The (response, error) pair returned by an operation without a value. */
  datatype Status = Status(resp: Option<Response>, err: Option<Error>)

  /** The request descriptors an operation handed to the client's
      NewRequest, in order, and what it returned. A descriptor whose reply is
      BuildFailed was never passed to Do, so it did not reach the server. */
  datatype Exchange<R> = Exchange(requests: seq<Req>, result: R)

  /** How a single-item accessor turns the client's reply into its result. */
  function Complete<T>(reply: Reply<T>): (o: Outcome<T>)
    ensures o.value.Some? <==> o.err.None?
    ensures o.err.None? <==> reply.Done?
    ensures reply.Done? ==> o.value == Some(reply.value) && o.resp == Some(reply.resp)
    ensures !reply.Done? ==> o.err == Some(reply.err)
    ensures reply.BuildFailed? ==> o.resp == None
    ensures reply.DoFailed? ==> o.resp == reply.errResp
  {
    match reply
    case BuildFailed(e) => Outcome(None, None, Some(e))
    case DoFailed(e, resp) => Outcome(None, resp, Some(e))
    case Done(v, resp) => Outcome(Some(v), Some(resp), None)
  }

  /** One request, answered by `reply`. */
  function Send<T>(req: Req, reply: Reply<T>): Exchange<Outcome<T>> {
    Exchange([req], Complete(reply))
  }

  /** The JSON value stored under "profile" for an optional group profile. */
  function GroupPayload(profile: Option<GroupProfile>): Payload {
    match profile
    case None => Null
    case Some(g) => GroupProfileValue(g)
  }

  /** The JSON value stored under "profile" for an optional raw fragment. */
  function RawPayload(raw: Option<seq<byte>>): Payload {
    match raw
    case None => Null
    case Some(b) => RawJson(b)
  }

  function Digit(d: nat): (c: char)
    requires d < 10
    ensures '0' <= c <= '9'
  {
    ('0' as int + d) as char
  }

  /** The `%d` verb of Go's formatter on a non-negative integer. */
  function Decimal(n: nat): (s: string)
    ensures |s| > 0
    ensures forall i :: 0 <= i < |s| ==> '0' <= s[i] <= '9'
    decreases n
  {
    if n < 10 then [Digit(n)] else Decimal(n / 10) + [Digit(n % 10)]
  }

  lemma DecimalPageSizes()
    ensures Decimal(100) == "100" && Decimal(200) == "200"
  {
    assert Decimal(1) == "1" && Decimal(2) == "2";
    assert Decimal(10) == "10" && Decimal(20) == "20";
  }

  /** A request path built as prefix + argument + suffix determines the
      argument. */
  lemma {:induction false} InfixDetermined(prefix: string, a: string, b: string, suffix: string)
    requires prefix + a + suffix == prefix + b + suffix
    ensures a == b
  {
    var s := prefix + a + suffix;
    assert |a| == |b|;
    assert a == s[|prefix|..|prefix| + |a|];
    assert b == (prefix + b + suffix)[|prefix|..|prefix| + |b|];
  }
}
