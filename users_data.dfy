/** The inline-fetch data layer (src/features/users/data.ts): the same five operations as
    the API client, each issuing its own `fetch` and turning every failure into an error
    string that starts with the operation's title. */
module UsersData {
  import opened ApiResult
  import opened Text
  import opened QueryParams
  import opened Http
  import Json
  import Schemas
  import Fetch
  import UsersApi

  const AcceptJson: seq<(string, string)> := [("Accept", "application/json")]
  const SendJson: seq<(string, string)> := [("Content-Type", "application/json"), ("Accept", "application/json")]

  /** The error for a non-2xx response: `<title>: <status> <statusText>`. */
  function StatusError(title: string, status: int, statusText: string): string {
    title + ": " + IntToString(status) + " " + statusText
  }

  /** What the `catch` block returns: `<title>: <message>` for an `Error`, the title alone
      for any other thrown value. */
  function CaughtError(title: string, t: Thrown): (e: string)
    ensures t.ThrownError? ==> e == title + ": " + t.error.message
    ensures t.ThrownOther? ==> e == title
  {
    match t
    case ThrownError(error) => title + ": " + error.message
    case ThrownOther => title
  }

  /** The response handling every reading operation shares: a non-2xx status, a body that
      cannot be read, a body the schema rejects and anything thrown each give an error
      starting with `title`; only a 2xx response with a valid body gives data. */
  function Settle<T>(title: string, schema: Json.Value -> Result<T, string>, outcome: Outcome): (r: Result<T, string>)
    ensures r.Ok? <==> outcome.Responded? && IsOk(outcome.status) && outcome.body.Parsed?
                       && schema(outcome.body.value).Ok?
    ensures r.Ok? ==> r.data == schema(outcome.body.value).data
    ensures r.Err? ==> title <= r.error
    ensures outcome.Failed? ==> r == Err(CaughtError(title, outcome.thrown))
    ensures outcome.Responded? && !IsOk(outcome.status) ==>
              r == Err(StatusError(title, outcome.status, outcome.statusText))
    ensures outcome.Responded? && IsOk(outcome.status) && outcome.body.Unreadable? ==>
              r == Err(CaughtError(title, outcome.body.thrown))
    ensures outcome.Responded? && IsOk(outcome.status) && outcome.body.Parsed?
            && schema(outcome.body.value).Err? ==>
              r == Err(title + ": " + schema(outcome.body.value).error)
  {
    match outcome
    case Failed(thrown) => Err(CaughtError(title, thrown))
    case Responded(status, statusText, body) =>
      if !IsOk(status) then Err(StatusError(title, status, statusText))
      else
        match body
        case Unreadable(thrown) => Err(CaughtError(title, thrown))
        case Parsed(data) =>
          var validated := schema(data);
          if validated.Ok? then Ok(validated.data) else Err(title + ": " + validated.error)
  }

  /** The response handling of delete: any 2xx response succeeds and its body is never read. */
  function SettleDelete(title: string, outcome: Outcome): (r: Result<(), string>)
    ensures r.Ok? <==> outcome.Responded? && IsOk(outcome.status)
    ensures r.Err? ==> title <= r.error
    ensures outcome.Failed? ==> r == Err(CaughtError(title, outcome.thrown))
    ensures outcome.Responded? && !IsOk(outcome.status) ==>
              r == Err(StatusError(title, outcome.status, outcome.statusText))
  {
    match outcome
    case Failed(thrown) => Err(CaughtError(title, thrown))
    case Responded(status, statusText, _) =>
      if !IsOk(status) then Err(StatusError(title, status, statusText)) else Ok(())
  }

  /** The response schemas, as `safeParse` read by the callers. */
  function UsersSchema(f: Schemas.Formats): Json.Value -> Result<seq<Schemas.User>, string> {
    v => Schemas.WithMessage(Schemas.ParseUsers(f, v))
  }

  function UserSchema(f: Schemas.Formats): Json.Value -> Result<Schemas.User, string> {
    v => Schemas.WithMessage(Schemas.ParseUser(f, v))
  }

  /** `getUsers(options)`: one GET of the list URL accepting JSON. */
  function GetUsers(f: Schemas.Formats, endpoint: string, options: Option<QueryOptions>, outcome: Outcome)
    : (x: Exchange<Request, seq<Schemas.User>, string>)
    ensures x.sent == [Request(UsersApi.ListUrl(endpoint, options), Some(Init(None, AcceptJson, None)))]
    ensures x.result == Settle(UsersApi.FetchUsersTitle, UsersSchema(f), outcome)
  {
    Exchange([Request(UsersApi.ListUrl(endpoint, options), Some(Init(None, AcceptJson, None)))],
             Settle(UsersApi.FetchUsersTitle, UsersSchema(f), outcome))
  }

  /** `getUserById(id)`: one GET of the user's URL accepting JSON. */
  function GetUserById(f: Schemas.Formats, endpoint: string, id: string, outcome: Outcome)
    : (x: Exchange<Request, Schemas.User, string>)
    ensures x.sent == [Request(UsersApi.UserUrl(endpoint, id), Some(Init(None, AcceptJson, None)))]
    ensures x.result == Settle(UsersApi.FetchUserTitle(id), UserSchema(f), outcome)
  {
    Exchange([Request(UsersApi.UserUrl(endpoint, id), Some(Init(None, AcceptJson, None)))],
             Settle(UsersApi.FetchUserTitle(id), UserSchema(f), outcome))
  }

  /** `createUser(userData)`: rejected input returns `Error creating user: <message>` before
      any request; otherwise one POST of `userData` as given. */
  function CreateUser(f: Schemas.Formats, endpoint: string, userData: Schemas.CreateUser, outcome: Outcome)
    : (x: Exchange<Request, Schemas.User, string>)
    ensures var parsed := Schemas.ParseCreateUser(f, Schemas.CreateUserJson(userData));
      parsed.Err? ==> x.sent == [] && x.result == Err(UsersApi.CreateUserTitle + ": " + Schemas.ErrorMessage(parsed.error))
    ensures Schemas.ParseCreateUser(f, Schemas.CreateUserJson(userData)).Ok? ==>
      && x.sent == [Request(endpoint, Some(Init(Some(POST), SendJson, Some(Schemas.CreateUserJson(userData)))))]
      && x.result == Settle(UsersApi.CreateUserTitle, UserSchema(f), outcome)
  {
    var parsed := Schemas.ParseCreateUser(f, Schemas.CreateUserJson(userData));
    if parsed.Err? then
      Exchange([], Err(UsersApi.CreateUserTitle + ": " + Schemas.ErrorMessage(parsed.error)))
    else
      Exchange([Request(endpoint, Some(Init(Some(POST), SendJson, Some(Schemas.CreateUserJson(userData)))))],
               Settle(UsersApi.CreateUserTitle, UserSchema(f), outcome))
  }

  /** `updateUser(id, userData)`: rejected input returns `Error updating user with ID <id>:
      <message>` before any request; otherwise one PUT of `userData` as given. */
  function UpdateUser(f: Schemas.Formats, endpoint: string, id: string, userData: Schemas.UpdateUser,
                      outcome: Outcome): (x: Exchange<Request, Schemas.User, string>)
    ensures var parsed := Schemas.ParseUpdateUser(f, Schemas.UpdateUserJson(userData));
      parsed.Err? ==> x.sent == [] && x.result == Err(UsersApi.UpdateUserTitle(id) + ": " + Schemas.ErrorMessage(parsed.error))
    ensures Schemas.ParseUpdateUser(f, Schemas.UpdateUserJson(userData)).Ok? ==>
      && x.sent == [Request(UsersApi.UserUrl(endpoint, id),
                            Some(Init(Some(PUT), SendJson, Some(Schemas.UpdateUserJson(userData)))))]
      && x.result == Settle(UsersApi.UpdateUserTitle(id), UserSchema(f), outcome)
  {
    var parsed := Schemas.ParseUpdateUser(f, Schemas.UpdateUserJson(userData));
    if parsed.Err? then
      Exchange([], Err(UsersApi.UpdateUserTitle(id) + ": " + Schemas.ErrorMessage(parsed.error)))
    else
      Exchange([Request(UsersApi.UserUrl(endpoint, id),
                        Some(Init(Some(PUT), SendJson, Some(Schemas.UpdateUserJson(userData)))))],
               Settle(UsersApi.UpdateUserTitle(id), UserSchema(f), outcome))
  }

  /** `deleteUser(id)`: one DELETE of the user's URL accepting JSON; success on any 2xx. */
  function DeleteUser(endpoint: string, id: string, outcome: Outcome): (x: Exchange<Request, (), string>)
    ensures x.sent == [Request(UsersApi.UserUrl(endpoint, id), Some(Init(Some(DELETE), AcceptJson, None)))]
    ensures x.result == SettleDelete(UsersApi.DeleteUserTitle(id), outcome)
  {
    Exchange([Request(UsersApi.UserUrl(endpoint, id), Some(Init(Some(DELETE), AcceptJson, None)))],
             SettleDelete(UsersApi.DeleteUserTitle(id), outcome))
  }

  // ---------------------------------------------------------------- properties

  /** The status error names its status and status text unambiguously. */
  lemma StatusErrorInjective(title: string, s1: int, t1: string, s2: int, t2: string)
    ensures StatusError(title, s1, t1) == StatusError(title, s2, t2) ==> s1 == s2 && t1 == t2
  {
    if StatusError(title, s1, t1) == StatusError(title, s2, t2) {
      NumeralBetween(title + ": ", s1, s2, " ", t1, t2);
    }
  }

  /** The data layer and `fetchData` agree on what succeeds and on its data; when an `Error`
      was thrown or the schema rejected the body, the data layer's error is `fetchData`'s
      message under the title. They differ in wording only for a non-2xx status and for a
      thrown value that is not an `Error`. */
  lemma AgreesWithFetchData<T>(title: string, schema: Json.Value -> Result<T, string>, url: string,
                               init: Option<Init>, outcome: Outcome)
    ensures var d := Settle(title, schema, outcome);
            var e := Fetch.FetchData(schema, url, init, outcome).result;
      && (d.Ok? <==> e.Ok?)
      && (d.Ok? ==> d.data == e.data)
      && (ThrowsError(outcome) || SchemaRejects(schema, outcome) ==> d == Err(title + ": " + e.error.message))
  {
  }

  /** An `Error` was thrown, by `fetch` or by reading the body of a 2xx response. */
  predicate ThrowsError(outcome: Outcome) {
    || (outcome.Failed? && outcome.thrown.ThrownError?)
    || (outcome.Responded? && IsOk(outcome.status) && outcome.body.Unreadable? && outcome.body.thrown.ThrownError?)
  }

  /** A 2xx response arrived whose body the schema rejects. */
  predicate SchemaRejects<T>(schema: Json.Value -> Result<T, string>, outcome: Outcome) {
    outcome.Responded? && IsOk(outcome.status) && outcome.body.Parsed? && schema(outcome.body.value).Err?
  }

  /** A request of the data layer and one of the API client agree on URL, method and body. */
  predicate SameRequest(d: Request, a: UsersApi.ApiRequest) {
    d.url == a.url && MethodOf(d) == a.verb && d.init.Some? && d.init.value.body == a.body
  }

  /** The reading operations send the same request as their API-client counterparts. */
  lemma SameReadsAsApi(f: Schemas.Formats, endpoint: string, id: string, options: Option<QueryOptions>,
                       outcome: Outcome, list: UsersApi.ApiRequest -> Result<seq<Schemas.User>, string>,
                       one: UsersApi.ApiRequest -> Result<Schemas.User, string>,
                       none: UsersApi.ApiRequest -> Result<(), string>)
    ensures SameRequest(GetUsers(f, endpoint, options, outcome).sent[0], UsersApi.GetUsers(list, endpoint, options).sent[0])
    ensures SameRequest(GetUserById(f, endpoint, id, outcome).sent[0], UsersApi.GetUserById(one, endpoint, id).sent[0])
    ensures SameRequest(DeleteUser(endpoint, id, outcome).sent[0], UsersApi.DeleteUser(none, endpoint, id).sent[0])
  {
  }

  /** Create sends a request exactly when the API client's create does, and the same one. */
  lemma SameCreateAsApi(f: Schemas.Formats, endpoint: string, c: Schemas.CreateUser, outcome: Outcome,
                        one: UsersApi.ApiRequest -> Result<Schemas.User, string>)
    ensures var d, a := CreateUser(f, endpoint, c, outcome).sent, UsersApi.CreateUser(one, f, endpoint, c).sent;
      |d| == |a| && (|d| == 1 ==> SameRequest(d[0], a[0]))
  {
    if Schemas.ParseCreateUser(f, Schemas.CreateUserJson(c)).Ok? {
      assert CreateUser(f, endpoint, c, outcome).sent[0].init.value.verb == Some(POST);
    }
  }

  /** Update sends a request exactly when the API client's update does, and the same one. */
  lemma SameUpdateAsApi(f: Schemas.Formats, endpoint: string, id: string, u: Schemas.UpdateUser, outcome: Outcome,
                        one: UsersApi.ApiRequest -> Result<Schemas.User, string>)
    ensures var d, a := UpdateUser(f, endpoint, id, u, outcome).sent, UsersApi.UpdateUser(one, f, endpoint, id, u).sent;
      |d| == |a| && (|d| == 1 ==> SameRequest(d[0], a[0]))
  {
    if Schemas.ParseUpdateUser(f, Schemas.UpdateUserJson(u)).Ok? {
      assert UpdateUser(f, endpoint, id, u, outcome).sent[0].init.value.verb == Some(PUT);
    }
  }

  /** Delete succeeds on a 2xx response whatever its body, while `fetchData` with the null
      schema the API client names for delete rejects a 2xx response whose body is not null. */
  lemma DeleteIgnoresBody(endpoint: string, id: string, status: int, statusText: string, v: Json.Value)
    requires IsOk(status) && v != Json.JNull
    ensures DeleteUser(endpoint, id, Responded(status, statusText, Parsed(v))).result == Ok(())
    ensures Fetch.FetchData(v => Schemas.WithMessage(Schemas.ParseNull(v)), UsersApi.UserUrl(endpoint, id), None,
                            Responded(status, statusText, Parsed(v))).result.Err?
  {
  }
}
