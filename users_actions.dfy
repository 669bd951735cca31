/** The server actions of the users feature (src/features/users/actions.ts): each calls the
    API client and, only when that succeeds, revalidates the cache tags the change affects.
    The server records every step it takes (API calls and revalidations) in order. */
module UsersActions {
  import opened ApiResult
  import Schemas
  import UsersApi
  import UsersCache

  /** The message a failed create reports. The API client's errors are strings, never
      `Error` instances, so the `instanceof Error` test in the action never holds and this
      is the only message it can return. */
  const FailedToCreate := "Failed to create user"

  /** One side effect of an action, in the order it happened. */
  datatype Step = Called(request: UsersApi.ApiRequest) | Revalidated(tag: string)

  /** The steps for the requests an API call issued. */
  function Calls(sent: seq<UsersApi.ApiRequest>): (steps: seq<Step>)
    ensures |steps| == |sent|
    ensures forall i :: 0 <= i < |sent| ==> steps[i] == Called(sent[i])
  {
    seq(|sent|, i requires 0 <= i < |sent| => Called(sent[i]))
  }

  /** The server that runs the actions against the shared tag store. */
  class Server {
    const store: UsersCache.TagStore
    var steps: seq<Step>

    constructor(store: UsersCache.TagStore)
      ensures this.store == store && steps == []
    {
      this.store := store;
      steps := [];
    }

    /** `createUserAction(userData)`: a failed API call returns `Failed to create user` and
        revalidates nothing; a successful one revalidates the collection and returns the
        API's user unchanged. */
    method CreateUserAction(apiFetch: UsersApi.ApiRequest -> Result<Schemas.User, string>, f: Schemas.Formats,
                            endpoint: string, userData: Schemas.CreateUser)
      returns (r: Result<Schemas.User, string>)
      modifies this, store
      ensures var x := UsersApi.CreateUser(apiFetch, f, endpoint, userData);
        && (x.result.Err? ==> && r == Err(FailedToCreate)
                              && steps == old(steps) + Calls(x.sent)
                              && store.expire == old(store.expire))
        && (x.result.Ok? ==> && r == Ok(x.result.data)
                             && steps == old(steps) + Calls(x.sent) + [Revalidated(UsersCache.UsersTag)]
                             && store.expire == UsersCache.Invalidate(old(store.expire), UsersCache.UsersTag))
      ensures CallsBeforeRevalidations(steps[|old(steps)|..])
    {
      var x := UsersApi.CreateUser(apiFetch, f, endpoint, userData);
      ghost var before := steps;
      steps := steps + Calls(x.sent);
      if x.result.Err? {
        AppendedInOrder(before, x.sent, []);
        return Err(FailedToCreate);
      }
      store.RevalidateUsers();
      steps := steps + [Revalidated(UsersCache.UsersTag)];
      AppendedInOrder(before, x.sent, [Revalidated(UsersCache.UsersTag)]);
      return Ok(x.result.data);
    }

    /** What update and delete record once their API call has answered: the call's requests,
        then, only when it succeeded, the revalidation of the collection and then of the user. */
    method RecordUserChange(sent: seq<UsersApi.ApiRequest>, succeeded: bool, id: string)
      modifies this, store
      ensures !succeeded ==> steps == old(steps) + Calls(sent) && store.expire == old(store.expire)
      ensures succeeded ==>
        && steps == old(steps) + Calls(sent) + [Revalidated(UsersCache.UsersTag), Revalidated(UsersCache.BuildUserTag(id))]
        && store.expire == UsersCache.Invalidate(UsersCache.Invalidate(old(store.expire), UsersCache.UsersTag),
                                                 UsersCache.BuildUserTag(id))
      ensures CallsBeforeRevalidations(steps[|old(steps)|..])
    {
      ghost var before := steps;
      steps := steps + Calls(sent);
      if !succeeded {
        AppendedInOrder(before, sent, []);
        return;
      }
      store.RevalidateUsers();
      store.RevalidateUser(id);
      steps := steps + [Revalidated(UsersCache.UsersTag), Revalidated(UsersCache.BuildUserTag(id))];
      AppendedInOrder(before, sent, [Revalidated(UsersCache.UsersTag), Revalidated(UsersCache.BuildUserTag(id))]);
    }

    /** `updateUserAction(id, userData)`: when the API call fails `unwrapResult` throws its
        error (`Err` here) and nothing is revalidated; otherwise the collection and then the
        user are revalidated and the updated user is returned. */
    method UpdateUserAction(apiFetch: UsersApi.ApiRequest -> Result<Schemas.User, string>, f: Schemas.Formats,
                            endpoint: string, id: string, userData: Schemas.UpdateUser)
      returns (r: Result<Schemas.User, string>)
      modifies this, store
      ensures var x := UsersApi.UpdateUser(apiFetch, f, endpoint, id, userData);
        && r == x.result
        && (x.result.Err? ==> steps == old(steps) + Calls(x.sent) && store.expire == old(store.expire))
        && (x.result.Ok? ==>
              && steps == old(steps) + Calls(x.sent)
                          + [Revalidated(UsersCache.UsersTag), Revalidated(UsersCache.BuildUserTag(id))]
              && store.expire == UsersCache.Invalidate(UsersCache.Invalidate(old(store.expire), UsersCache.UsersTag),
                                                       UsersCache.BuildUserTag(id)))
      ensures CallsBeforeRevalidations(steps[|old(steps)|..])
    {
      var x := UsersApi.UpdateUser(apiFetch, f, endpoint, id, userData);
      RecordUserChange(x.sent, x.result.Ok?, id);
      return x.result;
    }

    /** `deleteUserAction(id)`: as update, with the delete call. */
    method DeleteUserAction(apiFetch: UsersApi.ApiRequest -> Result<(), string>, endpoint: string, id: string)
      returns (r: Result<(), string>)
      modifies this, store
      ensures var x := UsersApi.DeleteUser(apiFetch, endpoint, id);
        && r == x.result
        && (x.result.Err? ==> steps == old(steps) + Calls(x.sent) && store.expire == old(store.expire))
        && (x.result.Ok? ==>
              && steps == old(steps) + Calls(x.sent)
                          + [Revalidated(UsersCache.UsersTag), Revalidated(UsersCache.BuildUserTag(id))]
              && store.expire == UsersCache.Invalidate(UsersCache.Invalidate(old(store.expire), UsersCache.UsersTag),
                                                       UsersCache.BuildUserTag(id)))
      ensures CallsBeforeRevalidations(steps[|old(steps)|..])
    {
      var x := UsersApi.DeleteUser(apiFetch, endpoint, id);
      RecordUserChange(x.sent, x.result.Ok?, id);
      return x.result;
    }
  }

  /** In every action's steps, no revalidation comes before an API call: the calls form a
      prefix and the revalidations the rest. */
  predicate CallsBeforeRevalidations(steps: seq<Step>) {
    forall i, j :: 0 <= i < j < |steps| && steps[j].Called? ==> steps[i].Called?
  }

  /** API calls followed only by revalidations keep every call before every revalidation. */
  lemma ActionStepsOrdered(sent: seq<UsersApi.ApiRequest>, rest: seq<Step>)
    requires forall i :: 0 <= i < |rest| ==> rest[i].Revalidated?
    ensures CallsBeforeRevalidations(Calls(sent) + rest)
  {
    var steps := Calls(sent) + rest;
    forall j | |sent| <= j < |steps|
      ensures steps[j].Revalidated?
    {
      assert steps[j] == rest[j - |sent|];
    }
  }

  /** What an action appends to the log keeps its calls before its revalidations. */
  lemma AppendedInOrder(before: seq<Step>, sent: seq<UsersApi.ApiRequest>, rest: seq<Step>)
    requires forall i :: 0 <= i < |rest| ==> rest[i].Revalidated?
    ensures CallsBeforeRevalidations((before + Calls(sent) + rest)[|before|..])
  {
    assert (before + Calls(sent) + rest)[|before|..] == Calls(sent) + rest;
    ActionStepsOrdered(sent, rest);
  }

  /** The reason the API client gives for a rejected input (`Error creating user: ...`) is
      not what the create action reports: the action replaces it with `Failed to create user`. */
  lemma CreateFailureHidesReason(apiFetch: UsersApi.ApiRequest -> Result<Schemas.User, string>, f: Schemas.Formats,
                             endpoint: string, c: Schemas.CreateUser)
    requires !Schemas.ValidCreateUser(f, c)
    ensures UsersApi.CreateUser(apiFetch, f, endpoint, c).result.Err?
    ensures UsersApi.CreateUser(apiFetch, f, endpoint, c).result.error != FailedToCreate
  {
    Schemas.CreateUserJsonParse(f, c);
    var parsed := Schemas.ParseCreateUser(f, Schemas.CreateUserJson(c));
    var e := UsersApi.CreateUserTitle + ": " + Schemas.ErrorMessage(parsed.error);
    assert UsersApi.CreateUser(apiFetch, f, endpoint, c).result == Err(e);
    assert e[0] == 'E';
    assert FailedToCreate[0] == 'F';
  }
}
