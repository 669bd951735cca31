# Users data layer of next-fetch-architecture, in Dafny

This project models the data-access layer of a Next.js users application. It also
models the small pieces of state and arithmetic around pagination and the create form.
The parts modelled are:

- the `Result` container;
- the zod schemas for users and for the page's search parameters;
- the query-string encoder;
- `fetchData`;
- the API client and the inline-fetch data layer, each with five operations;
- the cache tags and their revalidation;
- the server actions;
- the pagination controls and the adjacent-page prefetch;
- the users grid;
- the stagger delay of the fade-in animation;
- the create-user form.

Each core source file is modelled in one Dafny module, except that the two pagination components (`components/pagination.tsx` and `components/users-list/pagination.tsx`) share `Pagination`:

| module | file |
|---|---|
| `ApiResult` | `result.dfy` |
| `Schemas` | `schemas.dfy` |
| `QueryParams` | `query_params.dfy` |
| `UsersUtils` | `users_utils.dfy` |
| `Fetch` | `fetch.dfy` |
| `UsersApi` | `users_api.dfy` |
| `UsersData` | `users_data.dfy` |
| `UsersCache` | `users_cache.dfy` |
| `UsersActions` | `users_actions.dfy` |
| `Pagination` | `pagination.dfy` |
| `PaginationPrefetch` | `pagination_prefetch.dfy` |
| `UsersList` | `users_list.dfy` |
| `FadeInUp` | `fade_in_up.dfy` |
| `UsersConfig` | `users_config.dfy` |
| `CreateUserForm` | `create_user_form.dfy` |

Three helper modules hold what the sources take from JavaScript itself:

- `Text` holds `trim`, the whitespace class `\s`, `String(n)` of an integer and `Number(s)`.
- `Json` holds a parsed JSON value.
- `Http` holds a request, how an exchange ended, and the log of requests an operation issued.

The network is never modelled. How a request ended (`fetch` threw, or a response with a
status, status text and readable or unreadable body arrived) is an input. Every operation
returns an `Exchange`: the requests it sent, in order, and its result.

Some parts of the source change state in place. These are modelled as classes with
`modifies` clauses:

- the framework's tag store (`UsersCache.TagStore`);
- the server running the actions (`UsersActions.Server`), which logs its steps;
- the router's prefetch log (`PaginationPrefetch.Router`);
- the create form (`CreateUserForm.Form`).

The query encoder keeps the source's loop as a method proved against a recursive
specification function.

## Model

| member | source | states |
|---|---|---|
| ApiResult.MakeOk | src/lib/api/result.ts:19-21 | `ok(d)` is the success variant, and it carries exactly `d` |
| ApiResult.MakeErr | src/lib/api/result.ts:28-30 | `err(e)` is the failure variant, and it carries exactly `e` |
| ApiResult.ExactlyOneShape | src/lib/api/result.ts:10-12 | every Result is exactly one of the two shapes and is rebuilt by its constructor |
| ApiResult.ConstructorsDistinctAndInjective | src/lib/api/result.ts:10-30 | `ok(x)` never equals `err(y)`; `ok` and `err` are each injective |
| ApiResult.Option.GetOr | src/lib/animations/fade-in-up.ts:33 | a default parameter: the given value if present, otherwise the default |
| Text.Trim | src/features/users/schemas.ts:25 | `trim` never lengthens a string (its other properties are the three lemmas below) |
| Text.TrimEnds | src/features/users/schemas.ts:25 | a non-empty trimmed string neither starts nor ends with whitespace |
| Text.TrimUnchanged | src/features/users/schemas.ts:25 | a string without whitespace at either end is its own trim |
| Text.TrimIsInfix | src/features/users/schemas.ts:25 | trim keeps a contiguous infix, and what it drops on either side is all whitespace |
| Text.TrimIdempotent | src/features/users/schemas.ts:25 | trimming twice equals trimming once |
| Text.NatToString | src/lib/api/utils.ts:24 | `String(n)` of a natural number is a non-empty run of digits without leading zero |
| Text.NatToStringValue | src/lib/api/utils.ts:24 | the decimal numeral of `n` reads back as `n` |
| Text.IntToString | src/lib/api/utils.ts:24 | `String(i)`: digits, preceded by `-` exactly for a negative integer, with no whitespace at the ends |
| Text.ToNumber | src/features/users/schemas.ts:86 | `Number(s)`: a digit string gives its value; a blank string gives 0; a negative result needs a `-` in the input |
| Text.NumberOfIntToString | src/features/users/schemas.ts:86 | `Number(String(i)) === i` for every integer |
| Text.IntToStringInjective | src/lib/api/utils.ts:24 | distinct integers have distinct numerals |
| Text.NumeralThenSeparator | src/lib/api/fetch.ts:28 | a numeral followed by a separator that starts with neither a digit nor `-` splits in only one way |
| Text.NumeralBetween | src/features/users/data.ts:31-33 | the same holds behind a common prefix |
| Schemas.AtKey | src/features/users/schemas.ts:15-39 | the issues of a field are the field's issues, each with the field's key prepended to its path |
| Schemas.IssuesOf | src/features/users/schemas.ts:15-39 | a field that parsed adds no issue, and a field that failed adds at least one |
| Schemas.ParseName | src/features/users/schemas.ts:23-28 | a name is accepted iff its trimmed form has 1 to 100 characters from `[a-zA-Z0-9\s\-'.]`; the output is the trimmed string; a rejection carries issues |
| Schemas.ParseEmail | src/features/users/schemas.ts:31 | an email is accepted iff the email format accepts it; the output is the input; a rejection carries `Invalid email address` |
| Schemas.ParseAge | src/features/users/schemas.ts:34-38 | an age is accepted iff it is a number that is an integer from 1 to 99; the output is the input |
| Schemas.ParseId | src/features/users/schemas.ts:17 | an id is accepted iff it is a string |
| Schemas.ParseCreatedAt | src/features/users/schemas.ts:20 | a creation date is accepted iff it is a string in ISO datetime format |
| Schemas.ParseCreateUser | src/features/users/schemas.ts:61-64 | an object is accepted iff name, email and age pass their rules; the output holds exactly those three fields, with the name trimmed |
| Schemas.ParseUser | src/features/users/schemas.ts:15-39 | an object is accepted iff all five fields pass their rules; the output holds those fields, with the name trimmed |
| Schemas.OptionalField | src/features/users/schemas.ts:75 | an absent optional field is accepted as absent; a present one is accepted iff its rule accepts it |
| Schemas.ParseUpdateUser | src/features/users/schemas.ts:75 | an object is accepted iff every present field passes its create rule; a field is in the output exactly when it is in the input, with the name trimmed and email and age as given |
| Schemas.ParseItems | src/features/users/schemas.ts:49 | an array is accepted iff every element is; the output is the elements' outputs, in order |
| Schemas.ParseUsers | src/features/users/schemas.ts:49 | `UsersSchema` accepts exactly the arrays whose every element passes `UserSchema`, and keeps their order |
| Schemas.ParseNull | src/features/users/api.ts:95 | the delete response schema accepts only `null` |
| Schemas.ParsePage | src/features/users/schemas.ts:86 | an absent page is 1; a present page is accepted iff `Number` of its text is a number of at least 1, which is then the output |
| Schemas.SortFieldNamed | src/features/users/schemas.ts:87 | only `name`, `email` and `age` name a sort field, and each names the field spelled that way |
| Schemas.SortOrderNamed | src/features/users/schemas.ts:88 | only `asc` and `desc` name an order |
| Schemas.ParseSortBy | src/features/users/schemas.ts:87 | `sortBy` may be absent; when present it must be one of the three field names |
| Schemas.ParseOrder | src/features/users/schemas.ts:88 | `order` may be absent; when present it must be `asc` or `desc` |
| Schemas.ParseSearch | src/features/users/schemas.ts:89 | `search` may be absent; when present it must be a single string, which is then the output |
| Schemas.ParseSearchParams | src/features/users/schemas.ts:85-90 | accepted iff all four fields are; the page is at least 1, and 1 when absent; each optional key is in the output iff it is in the input; unknown keys are stripped |
| Schemas.CreateIsUserWithoutServerFields | src/features/users/schemas.ts:61-64 | the entity schema accepts an object iff the create schema accepts it and `id` and `createdAt` pass; both outputs then agree; the create schema ignores `id` and `createdAt` |
| Schemas.UpdateAcceptsEmpty | src/features/users/schemas.ts:75 | the update schema accepts `{}` with every field absent |
| Schemas.CreateInputIsUpdateInput | src/features/users/schemas.ts:75 | whatever the create schema accepts, the update schema accepts with every field present and the same values |
| Schemas.CreateUserJsonParse | src/features/users/schemas.ts:61-64 | on a typed create input the schema accepts iff the three rules hold, and then only trims the name |
| Schemas.CreateParseIdempotent | src/features/users/schemas.ts:61-64 | validating the create schema's output again gives the same output |
| Schemas.SearchParamsFromFields | src/features/users/schemas.ts:85-90 | the search-params schema assembles its output from the outputs of its four fields |
| Schemas.NumberTwo | src/features/users/schemas.ts:86 | `Number('2')` is 2 |
| Schemas.SearchParamsExample | src/features/users/schemas.ts:82-83 | `{ page: '2', sortBy: 'name' }` parses to `{ page: 2, sortBy: 'name' }` |
| QueryParams.Encoded | src/lib/api/utils.ts:21-26 | the encoding of an options object has at most one entry per property |
| QueryParams.BuildQueryParams | src/lib/api/utils.ts:12-29 | absent options give no entries; otherwise the loop's output is the encoding of the properties in key order |
| QueryParams.EncodedAppend | src/lib/api/utils.ts:19-26 | entries follow the order of the keys they come from: encoding two runs of keys is concatenating their encodings |
| QueryParams.EncodedEntries | src/lib/api/utils.ts:24 | the entries are exactly `(key, String(value))` for the properties whose value is defined |
| QueryParams.EncodedEmpty | src/lib/api/utils.ts:21-26 | no entries iff every value is `undefined` |
| QueryParams.KeyPresentIffDefined | src/lib/api/utils.ts:23-24 | a key appears in the output iff its value is not `undefined` |
| QueryParams.EncodedDistinct | src/lib/api/utils.ts:19-26 | the output names each key at most once |
| QueryParams.QueryString | src/lib/api/utils.ts:8-10 | the rendered query string is empty iff there are no entries |
| QueryParams.EncodingExample | src/lib/api/utils.ts:8-10 | `{ page: 1, limit: 10, sortBy: 'name' }` renders as `page=1&limit=10&sortBy=name` |
| QueryParams.EncodedExample | src/lib/api/utils.ts:8-10 | the example's entries are `page=1`, `limit=10` and `sortBy=name`, in that order |
| QueryParams.QueryStringExample | src/lib/api/utils.ts:8-10 | those three entries render as `page=1&limit=10&sortBy=name` |
| UsersUtils.ParseUsersSearchParams | src/features/users/utils.ts:13-17 | exactly the search-params schema's parse; the page is at least 1, and 1 when absent; a failure carries issues |
| UsersUtils.SearchParamsOfKeys | src/features/users/components/users-list/loader.tsx:28 | the names the page receives are exactly the names in the query |
| UsersUtils.LoaderRoundTrip | src/lib/api/utils.ts:21-26 | round trip: a validated query, encoded with the loader's `limit` and read back by the page, is the same query |
| UsersUtils.LoaderRejectsPageBelowOne | src/features/users/schemas.ts:86 | a page below 1 does not survive the round trip: the schema rejects it |
| UsersUtils.ParseExample | src/features/users/utils.ts:10-11 | `{ page: '2', search: 'john' }` gives `{ page: 2, search: 'john' }` |
| Http.MethodOf | src/features/users/data.ts:27-29 | a request's method is the one its init names, and GET otherwise |
| Fetch.AsError | src/lib/api/fetch.ts:37-39 | a thrown `Error` is kept as it is; any other thrown value becomes `Error('Unknown error')` |
| Fetch.FetchData | src/lib/api/fetch.ts:19-40 | exactly one request is made. The call succeeds iff a 2xx response arrives whose body the schema accepts, and returns the validated data. A non-2xx status gives `HTTP <status>: <statusText>`. A rejected body gives the schema's message. A thrown value goes through the `catch`. |
| Fetch.HttpErrorMessageInjective | src/lib/api/fetch.ts:28 | two HTTP failures with the same message had the same status and status text |
| UsersApi.ListUrlHasQueryIffDefined | src/features/users/api.ts:18-19 | the list URL is the endpoint alone iff no option has a defined value; otherwise it is `endpoint?query` |
| UsersApi.UserUrlInjective | src/features/users/api.ts:34 | the single-user URL `endpoint/id` determines the id |
| UsersApi.GetUsers | src/features/users/api.ts:15-27 | one GET of the list URL, validated as an array of users, with title `Error fetching users` |
| UsersApi.GetUserById | src/features/users/api.ts:32-39 | one GET of `endpoint/id`, validated as a user, with the title naming the id |
| UsersApi.CreateUser | src/features/users/api.ts:44-62 | an input the create schema rejects gives `Error creating user: <message>` and no request; otherwise one POST of the input as given |
| UsersApi.UpdateUser | src/features/users/api.ts:67-86 | an input the update schema rejects gives `Error updating user with ID <id>: <message>` and no request; otherwise one PUT of the input as given to `endpoint/id` |
| UsersApi.DeleteUser | src/features/users/api.ts:91-98 | one DELETE of `endpoint/id`, validated as null |
| UsersApi.ValidateBeforeRequest | src/features/users/api.ts:47-53 | create and update send a request iff local validation accepts the input, and never otherwise |
| UsersApi.CreateSendsRawInput | src/features/users/api.ts:58 | the body sent is the raw input: with a padded name it differs from the validated, trimmed data |
| UsersData.CaughtError | src/features/users/data.ts:43-47 | a thrown `Error` gives `<title>: <message>`; any other thrown value gives the title alone |
| UsersData.Settle | src/features/users/data.ts:31-47 | the call succeeds iff a 2xx response arrives whose body validates, and returns that data. A non-2xx status gives `<title>: <status> <statusText>`. A rejected body gives `<title>: <message>`. Every error starts with the title. |
| UsersData.SettleDelete | src/features/users/data.ts:183-192 | delete succeeds iff a 2xx response arrives, whatever its body, and every error starts with the title |
| UsersData.GetUsers | src/features/users/data.ts:14-48 | one GET of the list URL accepting JSON, settled as an array of users |
| UsersData.GetUserById | src/features/users/data.ts:53-79 | one GET of `endpoint/id` accepting JSON, settled as a user |
| UsersData.CreateUser | src/features/users/data.ts:84-123 | a rejected input returns `Error creating user: <message>` before any request; otherwise one POST with JSON headers and the input as given |
| UsersData.UpdateUser | src/features/users/data.ts:128-168 | a rejected input returns `Error updating user with ID <id>: <message>` before any request; otherwise one PUT of the input as given |
| UsersData.DeleteUser | src/features/users/data.ts:173-193 | one DELETE of `endpoint/id`; success on any 2xx status |
| UsersData.StatusErrorInjective | src/features/users/data.ts:31-33 | a status error determines the status and the status text |
| UsersData.AgreesWithFetchData | src/features/users/data.ts:31-47 | the data layer and `fetchData` agree on success and its data. When an `Error` is thrown or the body is rejected, the data layer's error is `fetchData`'s message under the title. |
| UsersData.SameReadsAsApi | src/features/users/data.ts:21-24 | list, get and delete send the URL and method of their API-client counterparts |
| UsersData.SameCreateAsApi | src/features/users/data.ts:89-103 | create sends a request iff the API client's create does, with the same URL, method and body |
| UsersData.SameUpdateAsApi | src/features/users/data.ts:134-138 | update sends a request iff the API client's update does, with the same URL, method and body |
| UsersData.DeleteIgnoresBody | src/features/users/data.ts:183-187 | delete accepts a 2xx response with a non-null body, which `fetchData` with the null schema would reject |
| UsersCache.BuildUserTag | src/features/users/cache.ts:19 | the tag is `user:` followed by the id, and it is never the collection tag `users` |
| UsersCache.BuildUserTagInjective | src/features/users/cache.ts:19 | different ids get different tags |
| UsersCache.UserCacheConfig | src/features/users/cache.ts:31-34 | per-user reads use the user's tag and the minutes profile |
| UsersCache.ProfilesConsistent | src/features/users/cache.ts:12-16 | in every profile, revalidate and stale both come before expire; the collection's revalidate and expire exceed every user's |
| UsersCache.Invalidate | src/features/users/cache.ts:43-44 | the given tag expires now (0); every other tag keeps its entry |
| UsersCache.InvalidateIdempotent | src/features/users/cache.ts:43-44 | invalidating a tag twice is invalidating it once |
| UsersCache.InvalidateCommutes | src/features/users/cache.ts:42-45 | two invalidations give the same store in either order |
| UsersCache.UserRevalidationIsolated | src/features/users/cache.ts:44 | revalidating one user touches neither the collection tag nor another user's tag |
| UsersCache.TagStore.constructor | src/features/users/cache.ts:1 | the store starts with the given entries |
| UsersCache.TagStore.RevalidateUsers | src/features/users/cache.ts:43 | `revalidate.users()` expires the tag `users` and nothing else |
| UsersCache.TagStore.RevalidateUser | src/features/users/cache.ts:44 | `revalidate.user(id)` expires `user:<id>` and nothing else |
| UsersActions.Calls | src/features/users/actions.ts:26 | one logged call step per request the API call sent, in order |
| UsersActions.Server.constructor | src/features/users/actions.ts:10 | the server starts with an empty step log over the given tag store |
| UsersActions.Server.CreateUserAction | src/features/users/actions.ts:23-38 | on API failure it returns `Failed to create user` and revalidates nothing. On success it logs the call, then revalidates `users` only, and returns the API's user unchanged. The logged calls come before the revalidations. |
| UsersActions.Server.UpdateUserAction | src/features/users/actions.ts:44-52 | on API failure it returns the error and revalidates nothing. On success it revalidates `users`, then `user:<id>`, and returns the user. The logged calls come before the revalidations. |
| UsersActions.Server.RecordUserChange | src/features/users/actions.ts:48-50 | the call's requests are logged; only after a success are `users` and then `user:<id>` revalidated and their tags expired; calls precede revalidations |
| UsersActions.Server.DeleteUserAction | src/features/users/actions.ts:58-63 | the same as update, with the delete call |
| UsersActions.ActionStepsOrdered | src/features/users/actions.ts:26-61 | API calls followed only by revalidations form a log in which no revalidation precedes a call; each action's `ensures` applies it to the steps that action appended |
| UsersActions.AppendedInOrder | src/features/users/actions.ts:26-61 | the part of the log an action appends after earlier steps keeps its calls before its revalidations |
| UsersActions.CreateFailureHidesReason | src/features/users/actions.ts:28-34 | for a rejected input, the API client's reason differs from what the action reports |
| FadeInUp.StaggerStep | src/lib/animations/fade-in-up.ts:9-13 | every stagger step is a positive number of milliseconds |
| FadeInUp.GetStaggerDelay | src/lib/animations/fade-in-up.ts:31-34 | the delay string ends in `ms` |
| FadeInUp.DelayReadsBack | src/lib/animations/fade-in-up.ts:31-34 | the number in front of `ms` is `index * staggerSpeeds[speed]` |
| FadeInUp.DefaultIsMedium | src/lib/animations/fade-in-up.ts:33 | omitting the speed is asking for `medium` |
| FadeInUp.FirstElementHasNoDelay | src/lib/animations/fade-in-up.ts:34 | index 0 gives `0ms` at every speed |
| FadeInUp.DelayMonotone | src/lib/animations/fade-in-up.ts:9-13 | for non-negative indices the delay does not decrease with the index; at equal index, fast ≤ medium ≤ slow |
| PaginationPrefetch.PrefetchPages | src/features/users/hooks/usePaginationPrefetch.ts:16-30 | the next page always comes first; the previous page comes second, and only when `currentPage > 1` |
| PaginationPrefetch.Router.constructor | src/features/users/hooks/usePaginationPrefetch.ts:17 | the router starts with nothing prefetched |
| PaginationPrefetch.UsePaginationPrefetch | src/features/users/hooks/usePaginationPrefetch.ts:20-29 | the hook appends exactly those pages to the router's prefetch log, in that order |
| PaginationPrefetch.PrefetchStaysInRange | src/features/users/hooks/usePaginationPrefetch.ts:25-28 | from page 1 or above, no page below 1 is prefetched, and the pages are exactly the existing neighbours |
| PaginationPrefetch.PrefetchExample | src/features/users/hooks/usePaginationPrefetch.ts:14 | page 2 prefetches 3, then 1 |
| Pagination.PaginationControls | src/features/users/components/pagination.tsx:24-58 | `hasNextPage` iff exactly 12 users; `hasPrevPage` iff `currentPage > 1`; the targets are `currentPage ± 1`; each button is disabled iff pending or its page is missing |
| Pagination.ListPaginationControls | src/features/users/components/users-list/pagination.tsx:24-66 | the list's copy behaves the same after its defaults are applied: no users, page 1, not pending |
| Pagination.DefaultsDisableBoth | src/features/users/components/users-list/pagination.tsx:25-28 | with every default, both buttons are disabled |
| Pagination.PendingDisablesBoth | src/features/users/components/users-list/pagination.tsx:40 | while pending, both buttons are disabled |
| Pagination.PreviousNeverBelowOne | src/features/users/components/users-list/pagination.tsx:33-40 | from page 1 or above, an enabled Previous never targets a page below 1 |
| Pagination.NextRequiresExactlyFullPage | src/features/users/components/users-list/pagination.tsx:32 | Next is enabled iff the page holds exactly 12 users: fewer or more disables it |
| Pagination.EnabledTargetsArePrefetched | src/features/users/hooks/usePaginationPrefetch.ts:21-28 | every page an enabled button leads to has been prefetched |
| UsersList.SkeletonsNeeded | src/features/users/components/users-list/list.tsx:35 | `max(0, 12 - n)`: it tops up a short page to exactly 12 and adds nothing to a full page |
| UsersList.Tiles | src/features/users/components/users-list/list.tsx:41-52 | cards hold the users in order, at indices `0..n-1`; placeholders follow at `n..n+k-1` |
| UsersList.RenderUsersList | src/features/users/components/users-list/list.tsx:28-63 | the neighbours are prefetched in every case. An empty page shows the alert. Otherwise the grid is shown with the pagination for the same users and page. |
| UsersList.GridIsFull | src/features/users/components/users-list/list.tsx:35-52 | a page of at most 12 users fills exactly 12 tiles, with the users first |
| UsersList.IndicesDistinct | src/features/users/components/users-list/list.tsx:42-49 | stagger indices are strictly increasing and contiguous from 0 |
| UsersList.CardsInOrder | src/features/users/components/users-list/list.tsx:41-52 | tiles holding the users' cards first and placeholders after show exactly those users |
| UsersList.GridShowsExactlyTheUsers | src/features/users/components/users-list/list.tsx:41-52 | the grid shows every user once, in order; placeholders show none |
| UsersList.EmptyPageStillPrefetches | src/features/users/components/users-list/list.tsx:30-32 | an empty page still prefetches its neighbours and shows no grid |
| CreateUserForm.AgeFromInput | src/features/users/components/create-user/form.tsx:170-173 | the age input stores 1 for NaN and any other number unchanged |
| CreateUserForm.DefaultsRejected | src/features/users/components/create-user/form.tsx:26-30 | the default values (empty name, age 30) fail the create rules, although the age alone passes |
| CreateUserForm.ValidatedValuesAreSent | src/features/users/components/create-user/form.tsx:34 | values the form accepts become their trimmed copy; the API client accepts that copy again and sends exactly one request |
| CreateUserForm.Form.constructor | src/features/users/components/create-user/form.tsx:21-37 | the form starts with the defaults, no error, not submitting and no backup |
| CreateUserForm.Form.HandleReset | src/features/users/components/create-user/form.tsx:39-47 | it backs up the current values, restores the defaults and clears the submit error |
| CreateUserForm.Form.HandleUndo | src/features/users/components/create-user/form.tsx:49-55 | without a backup nothing changes; otherwise the backup is restored and dropped |
| CreateUserForm.Form.SetAge | src/features/users/components/create-user/form.tsx:170-173 | only the age changes, to the coerced input |
| CreateUserForm.Form.StartSubmit | src/features/users/components/create-user/form.tsx:58-59 | the form is submitting and shows no error; nothing else changes |
| CreateUserForm.Form.FinishSubmit | src/features/users/components/create-user/form.tsx:63-71 | a failure shows its error and keeps the values; a success restores the defaults; either way submitting ends |
| CreateUserForm.Form.OnSubmit | src/features/users/components/create-user/form.tsx:57-72 | the server logs the create call and, only on success, revalidates `users`. Submitting ends and the backup is kept. A failure shows `Failed to create user` and keeps the values; a success restores the defaults. |
| CreateUserForm.Form.Submit | src/features/users/components/create-user/form.tsx:57-76 | it submits iff the values pass the create rules. Otherwise nothing changes, on the form or on the server. A submit sends exactly one request, logs it, and revalidates `users` only on success. A failure shows `Failed to create user`, keeps the values and leaves Create enabled. A success clears the form, which disables Create. |
| CreateUserForm.ResetThenUndo | src/features/users/components/create-user/form.tsx:39-55 | reset followed by undo restores the values from before the reset and leaves no backup |
| CreateUserForm.ButtonsLockedWhileSubmitting | src/features/users/components/create-user/form.tsx:203-224 | while submitting, Create is disabled, and so is whichever of Undo and Reset is shown |

## Left out

- Network I/O, `res.json()` and JSON serialisation are not modelled. How each exchange ended is an input (`Http.Outcome`), and a request is a recorded value.
- The email grammar of `z.email()` and the ISO-8601 grammar of `z.iso.datetime()` are parameters (`Schemas.Formats`), not definitions.
- `ZodError.message` is rendered by `Schemas.ErrorMessage` as `path: message` pairs joined by `; `. zod's exact wording and layout are not modelled. Only the messages the schema sets itself are the source's own.
- Text.ToNumber: only `Number` of optionally signed decimal integers, with surrounding whitespace, is modelled. The empty or blank string gives 0. Fractions, exponents, hexadecimal and `Infinity` are read as NaN. The source's page rule has no integer check, so it accepts `1.5`, `1e1` and `0x2`, which this model rejects.
- JavaScript numbers are `real` in the JSON layer and `int` in query options. `String` of a non-integer number is not modelled.
- Characters are Unicode code points rather than UTF-16 code units. The whitespace set is ECMAScript's WhiteSpace and LineTerminator.
- Percent-encoding by `URLSearchParams` is not modelled: the encoder's output is key/value pairs. `QueryParams.QueryString` joins them unescaped.
- `apiFetch` is not part of this model. The API client hands it one `ApiRequest`, and it is a parameter returning the validated result.
- UsersApi.GetUsers: the contract says what is handed to `apiFetch` and that its answer is returned, not how `apiFetch` maps responses (the same holds for `GetUserById`, `CreateUser`, `UpdateUser` and `DeleteUser`).
- `match` and `unwrapResult` are not part of this model. `unwrapResult`'s throw is modelled as the `Err` the update and delete actions return.
- The endpoint is a parameter: `src/lib/api/endpoints.ts` is not part of this model.
- `buildPaginationUrl` is not part of this model. The router logs page numbers, not URLs.
- `revalidateTag`'s clock and stale-while-revalidate behaviour are not modelled. The tag store maps each tag to its expire time only.
- `router.push`, `useTransition`'s pending flag and `useEffect` scheduling are not modelled. `isPending` is an input, and the prefetch effect runs once per render of a page.
- The form library's dirty tracking is an input (`isDirty`). Its validity flag is the create rule on the current values.
- The loader components are not modelled as components. Their composition appears only in `UsersUtils.LoaderOptions`: the validated query, then `limit`.
- Schemas.ParsePage, Pagination.PreviousNeverBelowOne, PaginationPrefetch.PrefetchStaysInRange: non-integer pages such as `1.5` are rejected by the model, so they never reach the controls. In the source they are accepted. From page 1.5, Previous is enabled toward page 0.5 and the prefetch requests page 0.5, so both properties hold only for integer pages.
- UsersApi.CreateUser, UsersApi.UpdateUser, UsersData.CreateUser, UsersData.UpdateUser: the inputs are typed records with only the schema's keys. The source serialises the caller's raw object, so keys outside the schema (such as `id` or `createdAt`) are sent to the API as well. The model cannot represent them.
- `deleteUserAction` is typed as returning a `User` but returns the API's `null`. It is modelled as returning `()`.
- `deleteUserParamsSchema`, the presentational components and the type-only files carry no behaviour modelled here.
- Concurrent or interleaved actions are not modelled. Each action runs to completion before the next.
