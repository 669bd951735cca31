/** The users API client (src/features/users/api.ts): each operation builds the request
    (URL, method, body, response schema and error context) and hands it to `apiFetch`
    exactly once; create and update first validate their input locally and, on failure,
    return an error without any request. `apiFetch` is not part of this model: it is a
    parameter, and the requests handed to it are recorded. */
module UsersApi {
  import opened ApiResult
  import opened Text
  import opened QueryParams
  import opened Http
  import Json
  import Schemas

  /** The response schema a request validates against: an array of users, one user, or null. */
  datatype SchemaKind = UsersArray | SingleUser | NullValue

  /** The argument of `apiFetch`. */
  datatype ApiRequest = ApiRequest(url: string, verb: Method, body: Option<Json.Value>, schema: SchemaKind,
                                   errorContext: string)

  /** The error titles, which the inline-fetch data layer uses as well. */
  const FetchUsersTitle := "Error fetching users"
  const CreateUserTitle := "Error creating user"

  function FetchUserTitle(id: string): string {
    "Error fetching user with ID " + id
  }

  function UpdateUserTitle(id: string): string {
    "Error updating user with ID " + id
  }

  function DeleteUserTitle(id: string): string {
    "Error deleting user with ID " + id
  }

  /** The entries of `buildQueryParams(options)`. */
  function OptionEntries(options: Option<QueryOptions>): seq<(string, string)> {
    if options.None? then [] else Encoded(options.value)
  }

  /** The list URL: the endpoint alone when the query string is empty, otherwise the
      endpoint, `?` and the query string. */
  function ListUrl(endpoint: string, options: Option<QueryOptions>): string {
    var query := QueryString(OptionEntries(options));
    if query == "" then endpoint else endpoint + "?" + query
  }

  /** The URL of one user. */
  function UserUrl(endpoint: string, id: string): string {
    endpoint + "/" + id
  }

  /** The list URL carries a query exactly when some option has a defined value. */
  lemma ListUrlHasQueryIffDefined(endpoint: string, options: Option<QueryOptions>)
    ensures ListUrl(endpoint, options) == endpoint
        <==> options.None? || forall i :: 0 <= i < |options.value| ==> options.value[i].1.Undefined?
    ensures ListUrl(endpoint, options) != endpoint ==>
              ListUrl(endpoint, options) == endpoint + "?" + QueryString(OptionEntries(options))
  {
    if options.Some? {
      EncodedEmpty(options.value);
    }
    var query := QueryString(OptionEntries(options));
    if query != "" {
      assert |endpoint + "?" + query| > |endpoint|;
    }
  }

  /** Different ids address different users. */
  lemma UserUrlInjective(endpoint: string, a: string, b: string)
    ensures UserUrl(endpoint, a) == UserUrl(endpoint, b) ==> a == b
  {
    if UserUrl(endpoint, a) == UserUrl(endpoint, b) {
      var n := |endpoint| + 1;
      assert a == UserUrl(endpoint, a)[n..] && b == UserUrl(endpoint, b)[n..];
    }
  }

  /** `getUsers(options)`: one GET of the list URL, validated as an array of users. */
  function GetUsers(apiFetch: ApiRequest -> Result<seq<Schemas.User>, string>, endpoint: string,
                    options: Option<QueryOptions>): (x: Exchange<ApiRequest, seq<Schemas.User>, string>)
    ensures |x.sent| == 1
    ensures x.sent[0] == ApiRequest(ListUrl(endpoint, options), GET, None, UsersArray, FetchUsersTitle)
    ensures x.result == apiFetch(x.sent[0])
  {
    var request := ApiRequest(ListUrl(endpoint, options), GET, None, UsersArray, FetchUsersTitle);
    Exchange([request], apiFetch(request))
  }

  /** `getUserById(id)`: one GET of the user's URL, validated as a user. */
  function GetUserById(apiFetch: ApiRequest -> Result<Schemas.User, string>, endpoint: string, id: string)
    : (x: Exchange<ApiRequest, Schemas.User, string>)
    ensures |x.sent| == 1
    ensures x.sent[0] == ApiRequest(UserUrl(endpoint, id), GET, None, SingleUser, FetchUserTitle(id))
    ensures x.result == apiFetch(x.sent[0])
  {
    var request := ApiRequest(UserUrl(endpoint, id), GET, None, SingleUser, FetchUserTitle(id));
    Exchange([request], apiFetch(request))
  }

  /** `createUser(userData)`: input the create schema rejects gives the error
      `Error creating user: <message>` and no request; otherwise one POST to the endpoint
      whose body is `userData` as given (not the trimmed, validated copy). */
  function CreateUser(apiFetch: ApiRequest -> Result<Schemas.User, string>, f: Schemas.Formats,
                      endpoint: string, userData: Schemas.CreateUser)
    : (x: Exchange<ApiRequest, Schemas.User, string>)
    ensures var parsed := Schemas.ParseCreateUser(f, Schemas.CreateUserJson(userData));
      parsed.Err? ==> x.sent == [] && x.result == Err(CreateUserTitle + ": " + Schemas.ErrorMessage(parsed.error))
    ensures Schemas.ParseCreateUser(f, Schemas.CreateUserJson(userData)).Ok? ==>
      && x.sent == [ApiRequest(endpoint, POST, Some(Schemas.CreateUserJson(userData)), SingleUser, CreateUserTitle)]
      && x.result == apiFetch(x.sent[0])
  {
    var parsed := Schemas.ParseCreateUser(f, Schemas.CreateUserJson(userData));
    if parsed.Err? then
      Exchange([], Err(CreateUserTitle + ": " + Schemas.ErrorMessage(parsed.error)))
    else
      var request := ApiRequest(endpoint, POST, Some(Schemas.CreateUserJson(userData)), SingleUser, CreateUserTitle);
      Exchange([request], apiFetch(request))
  }

  /** `updateUser(id, userData)`: input the update schema rejects gives the error
      `Error updating user with ID <id>: <message>` and no request; otherwise one PUT to the
      user's URL whose body is `userData` as given. */
  function UpdateUser(apiFetch: ApiRequest -> Result<Schemas.User, string>, f: Schemas.Formats,
                      endpoint: string, id: string, userData: Schemas.UpdateUser)
    : (x: Exchange<ApiRequest, Schemas.User, string>)
    ensures var parsed := Schemas.ParseUpdateUser(f, Schemas.UpdateUserJson(userData));
      parsed.Err? ==> x.sent == [] && x.result == Err(UpdateUserTitle(id) + ": " + Schemas.ErrorMessage(parsed.error))
    ensures Schemas.ParseUpdateUser(f, Schemas.UpdateUserJson(userData)).Ok? ==>
      && x.sent == [ApiRequest(UserUrl(endpoint, id), PUT, Some(Schemas.UpdateUserJson(userData)), SingleUser,
                               UpdateUserTitle(id))]
      && x.result == apiFetch(x.sent[0])
  {
    var parsed := Schemas.ParseUpdateUser(f, Schemas.UpdateUserJson(userData));
    if parsed.Err? then
      Exchange([], Err(UpdateUserTitle(id) + ": " + Schemas.ErrorMessage(parsed.error)))
    else
      var request := ApiRequest(UserUrl(endpoint, id), PUT, Some(Schemas.UpdateUserJson(userData)), SingleUser,
                                UpdateUserTitle(id));
      Exchange([request], apiFetch(request))
  }

  /** `deleteUser(id)`: one DELETE of the user's URL, validated as null. */
  function DeleteUser(apiFetch: ApiRequest -> Result<(), string>, endpoint: string, id: string)
    : (x: Exchange<ApiRequest, (), string>)
    ensures |x.sent| == 1
    ensures x.sent[0] == ApiRequest(UserUrl(endpoint, id), DELETE, None, NullValue, DeleteUserTitle(id))
    ensures x.result == apiFetch(x.sent[0])
  {
    var request := ApiRequest(UserUrl(endpoint, id), DELETE, None, NullValue, DeleteUserTitle(id));
    Exchange([request], apiFetch(request))
  }

  /** A rejected input never reaches `apiFetch`, and an accepted one always does: local
      validation decides whether a request is made, for create and for update. */
  lemma ValidateBeforeRequest(apiFetch: ApiRequest -> Result<Schemas.User, string>, f: Schemas.Formats,
                              endpoint: string, id: string, c: Schemas.CreateUser, u: Schemas.UpdateUser)
    ensures |CreateUser(apiFetch, f, endpoint, c).sent| == 1 <==> Schemas.ValidCreateUser(f, c)
    ensures |CreateUser(apiFetch, f, endpoint, c).sent| == 0 <==> !Schemas.ValidCreateUser(f, c)
    ensures |UpdateUser(apiFetch, f, endpoint, id, u).sent| == 1
        <==> Schemas.ParseUpdateUser(f, Schemas.UpdateUserJson(u)).Ok?
  {
    Schemas.CreateUserJsonParse(f, c);
  }

  /** The body of a create request is the input as given: when the name has surrounding
      whitespace it differs from the validated (trimmed) data. */
  lemma CreateSendsRawInput(apiFetch: ApiRequest -> Result<Schemas.User, string>, f: Schemas.Formats,
                            endpoint: string, c: Schemas.CreateUser)
    requires Schemas.ValidCreateUser(f, c)
    requires Trim(c.name) != c.name
    ensures CreateUser(apiFetch, f, endpoint, c).sent[0].body
         != Some(Schemas.CreateUserJson(Schemas.ParseCreateUser(f, Schemas.CreateUserJson(c)).data))
  {
    Schemas.CreateUserJsonParse(f, c);
    var d := Schemas.ParseCreateUser(f, Schemas.CreateUserJson(c)).data;
    assert Schemas.CreateUserJson(d).fields["name"] == Json.JString(Trim(c.name));
    assert Schemas.CreateUserJson(c).fields["name"] == Json.JString(c.name);
  }
}
