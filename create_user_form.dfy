/** The create-user form (src/features/users/components/create-user/form.tsx): the form's
    values, the submit error, the submitting flag and the undo backup, changed in place by
    reset, undo, the age input and submit. Dirty tracking is the form library's and is
    taken as an input where a rule depends on it. */
module CreateUserForm {
  import opened ApiResult
  import opened Text
  import Schemas
  import UsersApi
  import UsersActions
  import UsersCache

  /** The values the form starts with and resets to. */
  const DefaultValues := Schemas.CreateUser("", "", 30.0)

  /** `e.target.valueAsNumber` of the age input: a number, or NaN when it holds none. */
  datatype NumberInput = NotANumber | Num(value: real)

  /** The age the input's change handler stores: 1 for NaN, any other number as it is. */
  function AgeFromInput(v: NumberInput): (age: real)
    ensures v.NotANumber? ==> age == 1.0
    ensures v.Num? ==> age == v.value
  {
    match v
    case NotANumber => 1.0
    case Num(x) => x
  }

  /** The defaults cannot be submitted: the empty name fails the name rule. */
  lemma DefaultsRejected(f: Schemas.Formats)
    ensures !Schemas.ValidCreateUser(f, DefaultValues)
    ensures Schemas.ValidAge(DefaultValues.age)
  {
    assert Trim("") == "";
  }

  /** What the create rules make of accepted values: the name trimmed, the rest as given. */
  function Validated(c: Schemas.CreateUser): Schemas.CreateUser {
    Schemas.CreateUser(Trim(c.name), c.email, c.age)
  }

  /** Values the form accepts reach the API client as their validated copy, which the
      client's own validation accepts again: exactly one request is sent. */
  lemma ValidatedValuesAreSent(apiFetch: UsersApi.ApiRequest -> Result<Schemas.User, string>, f: Schemas.Formats,
                               endpoint: string, c: Schemas.CreateUser)
    requires Schemas.ValidCreateUser(f, c)
    ensures Schemas.ParseCreateUser(f, Schemas.CreateUserJson(c)) == Ok(Validated(c))
    ensures Schemas.ValidCreateUser(f, Validated(c))
    ensures |UsersApi.CreateUser(apiFetch, f, endpoint, Validated(c)).sent| == 1
  {
    Schemas.CreateUserJsonParse(f, c);
    Schemas.CreateParseIdempotent(f, c);
    Schemas.CreateUserJsonParse(f, Validated(c));
  }

  class Form {
    var values: Schemas.CreateUser
    var submitError: Option<string>
    var isSubmitting: bool
    var undoData: Option<Schemas.CreateUser>

    constructor()
      ensures values == DefaultValues && submitError == None && !isSubmitting && undoData == None
    {
      values := DefaultValues;
      submitError := None;
      isSubmitting := false;
      undoData := None;
    }

    /** The Create button: disabled while submitting or while the values fail the create rules. */
    predicate SubmitDisabled(f: Schemas.Formats)
      reads this
    {
      isSubmitting || !Schemas.ValidCreateUser(f, values)
    }

    /** Undo takes Reset's place when there is a backup and the values are untouched. */
    predicate UndoShown(isDirty: bool)
      reads this
    {
      undoData.Some? && !isDirty
    }

    predicate UndoDisabled()
      reads this
    {
      isSubmitting
    }

    predicate ResetDisabled(isDirty: bool)
      reads this
    {
      isSubmitting || !isDirty
    }

    /** `handleReset`: back up the values, restore the defaults and clear the submit error. */
    method HandleReset()
      modifies this
      ensures undoData == Some(old(values)) && values == DefaultValues && submitError == None
      ensures isSubmitting == old(isSubmitting)
    {
      undoData := Some(values);
      values := DefaultValues;
      submitError := None;
    }

    /** `handleUndo`: without a backup nothing happens; otherwise restore it and drop it. */
    method HandleUndo()
      modifies this
      ensures old(undoData).None? ==> values == old(values) && undoData == None
      ensures old(undoData).Some? ==> values == old(undoData).value && undoData == None
      ensures submitError == old(submitError) && isSubmitting == old(isSubmitting)
    {
      if undoData.None? {
        return;
      }
      values := undoData.value;
      undoData := None;
    }

    /** The age input's change handler. */
    method SetAge(v: NumberInput)
      modifies this
      ensures values == old(values).(age := AgeFromInput(v))
      ensures submitError == old(submitError) && isSubmitting == old(isSubmitting) && undoData == old(undoData)
    {
      values := values.(age := AgeFromInput(v));
    }

    /** The start of `onSubmit`: submitting, with no error shown. */
    method StartSubmit()
      modifies this
      ensures isSubmitting && submitError == None
      ensures values == old(values) && undoData == old(undoData)
    {
      isSubmitting := true;
      submitError := None;
    }

    /** The end of `onSubmit` once the action answered: a failure shows its error and keeps
        the values; a success restores the defaults. Either way submitting is over. */
    method FinishSubmit(result: Result<Schemas.User, string>)
      modifies this
      ensures !isSubmitting && undoData == old(undoData)
      ensures result.Err? ==> submitError == Some(result.error) && values == old(values)
      ensures result.Ok? ==> submitError == old(submitError) && values == DefaultValues
    {
      if result.Err? {
        submitError := Some(result.error);
        isSubmitting := false;
        return;
      }
      values := DefaultValues;
      isSubmitting := false;
    }

    /** `onSubmit(data)`: submitting with no error shown, then the create action; a failure
        shows the action's error and keeps the values, a success restores the defaults.
        The server logs the API call and, only on success, the collection's revalidation. */
    method OnSubmit(server: UsersActions.Server, apiFetch: UsersApi.ApiRequest -> Result<Schemas.User, string>,
                    f: Schemas.Formats, endpoint: string, data: Schemas.CreateUser)
      modifies this, server, server.store
      ensures var x := UsersApi.CreateUser(apiFetch, f, endpoint, data);
        && server.steps == old(server.steps) + UsersActions.Calls(x.sent)
                           + (if x.result.Ok? then [UsersActions.Revalidated(UsersCache.UsersTag)] else [])
        && server.store.expire == (if x.result.Ok? then UsersCache.Invalidate(old(server.store.expire), UsersCache.UsersTag)
                                   else old(server.store.expire))
        && !isSubmitting && undoData == old(undoData)
        && (x.result.Err? ==> submitError == Some(UsersActions.FailedToCreate) && values == old(values))
        && (x.result.Ok? ==> submitError == None && values == DefaultValues)
    {
      StartSubmit();
      var result := server.CreateUserAction(apiFetch, f, endpoint, data);
      FinishSubmit(result);
    }

    /** `form.handleSubmit(onSubmit)`: values the create rules reject are not submitted and
        nothing changes; otherwise the validated (trimmed) values go to `onSubmit`, and the
        create action's API call passes its own validation and is sent. A failure shows
        `Failed to create user` and keeps the values, so the same values can be submitted
        again; a success clears the form. */
    method Submit(server: UsersActions.Server, apiFetch: UsersApi.ApiRequest -> Result<Schemas.User, string>,
                  f: Schemas.Formats, endpoint: string)
      returns (submitted: bool)
      modifies this, server, server.store
      ensures submitted <==> Schemas.ValidCreateUser(f, old(values))
      ensures !submitted ==> && values == old(values) && submitError == old(submitError)
                             && isSubmitting == old(isSubmitting) && undoData == old(undoData)
                             && server.steps == old(server.steps)
                             && server.store.expire == old(server.store.expire)
      ensures submitted ==>
        var x := UsersApi.CreateUser(apiFetch, f, endpoint, Validated(old(values)));
        && |x.sent| == 1
        && server.steps == old(server.steps) + UsersActions.Calls(x.sent)
                           + (if x.result.Ok? then [UsersActions.Revalidated(UsersCache.UsersTag)] else [])
        && server.store.expire == (if x.result.Ok? then UsersCache.Invalidate(old(server.store.expire), UsersCache.UsersTag)
                                   else old(server.store.expire))
        && !isSubmitting && undoData == old(undoData)
        && (x.result.Err? ==> submitError == Some(UsersActions.FailedToCreate) && values == old(values)
                              && !SubmitDisabled(f))
        && (x.result.Ok? ==> submitError == None && values == DefaultValues && SubmitDisabled(f))
    {
      if !Schemas.ValidCreateUser(f, values) {
        return false;
      }
      ValidatedValuesAreSent(apiFetch, f, endpoint, values);
      DefaultsRejected(f);
      OnSubmit(server, apiFetch, f, endpoint, Validated(values));
      return true;
    }
  }

  /** Reset followed by undo gives back the values from before the reset and leaves no backup. */
  method ResetThenUndo(form: Form)
    modifies form
    ensures form.values == old(form.values) && form.undoData == None && form.submitError == None
    ensures form.isSubmitting == old(form.isSubmitting)
  {
    form.HandleReset();
    form.HandleUndo();
  }

  /** While a submit is in flight every button is disabled: Create, and whichever of Undo
      and Reset is shown. */
  lemma ButtonsLockedWhileSubmitting(form: Form, f: Schemas.Formats, isDirty: bool)
    requires form.isSubmitting
    ensures form.SubmitDisabled(f)
    ensures form.UndoShown(isDirty) ==> form.UndoDisabled()
    ensures !form.UndoShown(isDirty) ==> form.ResetDisabled(isDirty)
  {
  }
}
