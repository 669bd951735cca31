/** The validation rules of the users feature (src/features/users/schemas.ts): the entity
    schema, its array, the create schema (entity minus the server-assigned fields), the
    update schema (create with every field optional) and the search-parameter schema.
    Each schema is a total parse from a JSON value to a Result carrying either the
    validated output or a non-empty list of issues. */
module Schemas {
  import opened ApiResult
  import opened Text
  import opened Json

  /** The format checks zod performs with grammars this model leaves abstract:
      `z.email()` and `z.iso.datetime()`. */
  datatype Formats = Formats(isEmail: string -> bool, isIsoDateTime: string -> bool)

  /** One validation issue: where in the input (keys and array indices) and what. */
  datatype Issue = Issue(path: seq<string>, message: string)

  const MaxNameLength := 100
  const NameRequired := "Name is required"
  const NameTooLong := "Name has too many characters"
  const NameInvalidCharacters := "Name has invalid characters"
  const InvalidEmail := "Invalid email address"
  const AgeTooSmall := "Age must be at least 1"
  const AgeTooLarge := "Age must be at most 99"
  const InvalidDateTime := "Invalid ISO datetime"

  function Expected(kind: string): string {
    "Invalid input: expected " + kind
  }

  /** `ZodError.message`: a rendering of the issues, one `path: message` per issue. */
  function ErrorMessage(issues: seq<Issue>): string
    decreases |issues|
  {
    if issues == [] then ""
    else
      var first := PathText(issues[0].path) + ": " + issues[0].message;
      if |issues| == 1 then first else first + "; " + ErrorMessage(issues[1..])
  }

  function PathText(path: seq<string>): string
    decreases |path|
  {
    if path == [] then "" else if |path| == 1 then path[0] else path[0] + "." + PathText(path[1..])
  }

  /** The issues of a nested value, moved under `key`. */
  function AtKey(key: string, issues: seq<Issue>): (r: seq<Issue>)
    ensures |r| == |issues|
    ensures forall i :: 0 <= i < |r| ==> r[i] == Issue([key] + issues[i].path, issues[i].message)
  {
    seq(|issues|, i requires 0 <= i < |issues| => Issue([key] + issues[i].path, issues[i].message))
  }

  /** The issues a field contributes to its object: none when it parsed. */
  function IssuesOf<T>(key: string, r: Result<T, seq<Issue>>): (issues: seq<Issue>)
    ensures r.Ok? ==> issues == []
    ensures r.Err? && r.error != [] ==> issues != []
  {
    if r.Ok? then [] else AtKey(key, r.error)
  }

  /** `safeParse` as its callers read it: the validated data, or the `ZodError`'s message. */
  function WithMessage<T>(r: Result<T, seq<Issue>>): Result<T, string> {
    match r
    case Ok(d) => Ok(d)
    case Err(issues) => Err(ErrorMessage(issues))
  }

  /** The value of an object property; `None` is `undefined` (the key is absent). */
  function Prop(m: map<string, Value>, key: string): Option<Value> {
    if key in m then Some(m[key]) else None
  }

  // ---------------------------------------------------------------- entity fields

  datatype User = User(id: string, createdAt: string, name: string, email: string, age: real)
  datatype CreateUser = CreateUser(name: string, email: string, age: real)
  datatype UpdateUser = UpdateUser(name: Option<string>, email: Option<string>, age: Option<real>)

  /** One character of the class `[a-zA-Z0-9\s\-'.]`. */
  predicate IsNameCharacter(c: char) {
    ('a' <= c <= 'z') || ('A' <= c <= 'Z') || IsDigit(c) || IsWhitespace(c)
    || c == '-' || c == '\'' || c == '.'
  }

  /** The pattern `/^[a-zA-Z0-9\s\-'.]+$/`. */
  predicate MatchesNamePattern(t: string) {
    |t| >= 1 && forall i :: 0 <= i < |t| ==> IsNameCharacter(t[i])
  }

  /** A name the rules accept: once trimmed, 1 to 100 characters, all from the class. */
  predicate ValidName(s: string) {
    var t := Trim(s);
    |t| <= MaxNameLength && MatchesNamePattern(t)
  }

  /** The checks `.min(1)`, `.max(100)` and `.regex(...)` on the trimmed name, each reported. */
  function NameIssues(t: string): (issues: seq<Issue>)
    ensures issues == [] <==> |t| <= MaxNameLength && MatchesNamePattern(t)
  {
    (if |t| < 1 then [Issue([], NameRequired)] else [])
    + (if |t| > MaxNameLength then [Issue([], NameTooLong)] else [])
    + (if MatchesNamePattern(t) then [] else [Issue([], NameInvalidCharacters)])
  }

  predicate IsInteger(n: real) {
    n.Floor as real == n
  }

  /** An age the rules accept: an integer from 1 to 99. */
  predicate ValidAge(n: real) {
    IsInteger(n) && 1.0 <= n <= 99.0
  }

  /** `z.string().trim().min(1).max(100).regex(...)`: every failing check is reported. */
  function ParseName(v: Option<Value>): (r: Result<string, seq<Issue>>)
    ensures r.Ok? <==> v.Some? && v.value.JString? && ValidName(v.value.s)
    ensures r.Ok? ==> r.data == Trim(v.value.s) && ValidName(r.data)
    ensures r.Err? ==> r.error != []
  {
    if v.Some? && v.value.JString? then
      var t := Trim(v.value.s);
      TrimIdempotent(v.value.s);
      if NameIssues(t) == [] then Ok(t) else Err(NameIssues(t))
    else
      Err([Issue([], Expected("string"))])
  }

  /** `z.email({ message: 'Invalid email address' })`. */
  function ParseEmail(f: Formats, v: Option<Value>): (r: Result<string, seq<Issue>>)
    ensures r.Ok? <==> v.Some? && v.value.JString? && f.isEmail(v.value.s)
    ensures r.Ok? ==> r.data == v.value.s
    ensures r.Err? ==> r.error == [Issue([], InvalidEmail)]
  {
    if v.Some? && v.value.JString? && f.isEmail(v.value.s) then Ok(v.value.s)
    else Err([Issue([], InvalidEmail)])
  }

  /** `z.number().int().min(1).max(99)`: a non-number stops at the type check. */
  function ParseAge(v: Option<Value>): (r: Result<real, seq<Issue>>)
    ensures r.Ok? <==> v.Some? && v.value.JNumber? && ValidAge(v.value.n)
    ensures r.Ok? ==> r.data == v.value.n
    ensures r.Err? ==> r.error != []
  {
    if v.Some? && v.value.JNumber? then
      var n := v.value.n;
      var issues :=
        (if IsInteger(n) then [] else [Issue([], Expected("int"))])
        + (if n < 1.0 then [Issue([], AgeTooSmall)] else [])
        + (if n > 99.0 then [Issue([], AgeTooLarge)] else []);
      if issues == [] then Ok(n) else Err(issues)
    else
      Err([Issue([], Expected("number"))])
  }

  /** `z.string()`, used for the id. */
  function ParseId(v: Option<Value>): (r: Result<string, seq<Issue>>)
    ensures r.Ok? <==> v.Some? && v.value.JString?
    ensures r.Ok? ==> r.data == v.value.s
    ensures r.Err? ==> r.error != []
  {
    if v.Some? && v.value.JString? then Ok(v.value.s) else Err([Issue([], Expected("string"))])
  }

  /** `z.iso.datetime()`, used for the creation timestamp. */
  function ParseCreatedAt(f: Formats, v: Option<Value>): (r: Result<string, seq<Issue>>)
    ensures r.Ok? <==> v.Some? && v.value.JString? && f.isIsoDateTime(v.value.s)
    ensures r.Ok? ==> r.data == v.value.s
    ensures r.Err? ==> r.error != []
  {
    if v.Some? && v.value.JString? && f.isIsoDateTime(v.value.s) then Ok(v.value.s)
    else Err([Issue([], InvalidDateTime)])
  }

  // ---------------------------------------------------------------- object schemas

  /** The per-field rules of the create schema, read off an object's properties. */
  predicate ValidCreateFields(f: Formats, m: map<string, Value>) {
    && "name" in m && m["name"].JString? && ValidName(m["name"].s)
    && "email" in m && m["email"].JString? && f.isEmail(m["email"].s)
    && "age" in m && m["age"].JNumber? && ValidAge(m["age"].n)
  }

  /** The rules of the entity schema: the create rules plus the server-assigned fields. */
  predicate ValidUserFields(f: Formats, m: map<string, Value>) {
    && "id" in m && m["id"].JString?
    && "createdAt" in m && m["createdAt"].JString? && f.isIsoDateTime(m["createdAt"].s)
    && ValidCreateFields(f, m)
  }

  /** `CreateUserSchema.safeParse`: unknown keys are stripped; the name is trimmed. */
  function ParseCreateUser(f: Formats, v: Value): (r: Result<CreateUser, seq<Issue>>)
    ensures r.Ok? <==> v.JObject? && ValidCreateFields(f, v.fields)
    ensures r.Ok? ==> r.data == CreateUser(Trim(v.fields["name"].s), v.fields["email"].s, v.fields["age"].n)
    ensures r.Err? ==> r.error != []
  {
    match v
    case JObject(m) =>
      var name := ParseName(Prop(m, "name"));
      var email := ParseEmail(f, Prop(m, "email"));
      var age := ParseAge(Prop(m, "age"));
      if name.Ok? && email.Ok? && age.Ok? then Ok(CreateUser(name.data, email.data, age.data))
      else Err(IssuesOf("name", name) + IssuesOf("email", email) + IssuesOf("age", age))
    case _ => Err([Issue([], Expected("object"))])
  }

  /** `UserSchema.safeParse`. */
  function ParseUser(f: Formats, v: Value): (r: Result<User, seq<Issue>>)
    ensures r.Ok? <==> v.JObject? && ValidUserFields(f, v.fields)
    ensures r.Ok? ==> r.data == User(v.fields["id"].s, v.fields["createdAt"].s,
                                     Trim(v.fields["name"].s), v.fields["email"].s, v.fields["age"].n)
    ensures r.Err? ==> r.error != []
  {
    match v
    case JObject(m) =>
      var id := ParseId(Prop(m, "id"));
      var createdAt := ParseCreatedAt(f, Prop(m, "createdAt"));
      var name := ParseName(Prop(m, "name"));
      var email := ParseEmail(f, Prop(m, "email"));
      var age := ParseAge(Prop(m, "age"));
      if id.Ok? && createdAt.Ok? && name.Ok? && email.Ok? && age.Ok? then
        Ok(User(id.data, createdAt.data, name.data, email.data, age.data))
      else
        Err(IssuesOf("id", id) + IssuesOf("createdAt", createdAt) + IssuesOf("name", name)
            + IssuesOf("email", email) + IssuesOf("age", age))
    case _ => Err([Issue([], Expected("object"))])
  }

  /** A field of the update schema: absent is accepted, present must pass the create rule. */
  function OptionalField<T>(present: bool, r: Result<T, seq<Issue>>): (o: Result<Option<T>, seq<Issue>>)
    ensures !present ==> o == Ok(None)
    ensures present ==> (o.Ok? <==> r.Ok?)
    ensures present && r.Ok? ==> o.data == Some(r.data)
    ensures present && r.Err? ==> o.error == r.error
  {
    if !present then Ok(None)
    else if r.Ok? then Ok(Some(r.data))
    else Err(r.error)
  }

  /** The per-field rules of the update schema. */
  predicate ValidUpdateFields(f: Formats, m: map<string, Value>) {
    && ("name" in m ==> m["name"].JString? && ValidName(m["name"].s))
    && ("email" in m ==> m["email"].JString? && f.isEmail(m["email"].s))
    && ("age" in m ==> m["age"].JNumber? && ValidAge(m["age"].n))
  }

  /** `UpdateUserSchema.safeParse` (`CreateUserSchema.partial()`). */
  function ParseUpdateUser(f: Formats, v: Value): (r: Result<UpdateUser, seq<Issue>>)
    ensures r.Ok? <==> v.JObject? && ValidUpdateFields(f, v.fields)
    ensures r.Ok? ==> (r.data.name.Some? <==> "name" in v.fields)
    ensures r.Ok? ==> (r.data.email.Some? <==> "email" in v.fields)
    ensures r.Ok? ==> (r.data.age.Some? <==> "age" in v.fields)
    ensures r.Ok? && "name" in v.fields ==> r.data.name.value == Trim(v.fields["name"].s)
    ensures r.Ok? && "email" in v.fields ==> r.data.email.value == v.fields["email"].s
    ensures r.Ok? && "age" in v.fields ==> r.data.age.value == v.fields["age"].n
    ensures r.Err? ==> r.error != []
  {
    match v
    case JObject(m) =>
      var name := OptionalField("name" in m, ParseName(Prop(m, "name")));
      var email := OptionalField("email" in m, ParseEmail(f, Prop(m, "email")));
      var age := OptionalField("age" in m, ParseAge(Prop(m, "age")));
      if name.Ok? && email.Ok? && age.Ok? then Ok(UpdateUser(name.data, email.data, age.data))
      else Err(IssuesOf("name", name) + IssuesOf("email", email) + IssuesOf("age", age))
    case _ => Err([Issue([], Expected("object"))])
  }

  /** `z.array(schema)` on the elements of an array: accepted iff every element is,
      and then the outputs in order; issues carry the element's index. */
  function ParseItems<T>(parse: Value -> Result<T, seq<Issue>>, items: seq<Value>): (r: Result<seq<T>, seq<Issue>>)
    ensures r.Ok? <==> forall i :: 0 <= i < |items| ==> parse(items[i]).Ok?
    ensures r.Ok? ==> |r.data| == |items|
    ensures r.Ok? ==> forall i :: 0 <= i < |items| ==> r.data[i] == parse(items[i]).data
    decreases |items|
  {
    if items == [] then Ok([])
    else
      var n := |items| - 1;
      var init := ParseItems(parse, items[..n]);
      var last := parse(items[n]);
      assert forall i :: 0 <= i < n ==> items[..n][i] == items[i];
      if init.Ok? && last.Ok? then Ok(init.data + [last.data])
      else Err((if init.Ok? then [] else init.error) + IssuesOf(IntToString(n), last))
  }

  /** `UsersSchema.safeParse` (`z.array(UserSchema)`). */
  function ParseUsers(f: Formats, v: Value): (r: Result<seq<User>, seq<Issue>>)
    ensures r.Ok? <==> v.JArray? && forall i :: 0 <= i < |v.items| ==> ParseUser(f, v.items[i]).Ok?
    ensures r.Ok? ==> |r.data| == |v.items|
    ensures r.Ok? ==> forall i :: 0 <= i < |v.items| ==> r.data[i] == ParseUser(f, v.items[i]).data
  {
    match v
    case JArray(items) => ParseItems(x => ParseUser(f, x), items)
    case _ => Err([Issue([], Expected("array"))])
  }

  /** `z.null()`, the schema of the delete response. */
  function ParseNull(v: Value): (r: Result<(), seq<Issue>>)
    ensures r.Ok? <==> v.JNull?
    ensures r.Err? ==> r.error != []
  {
    if v.JNull? then Ok(()) else Err([Issue([], Expected("null"))])
  }

  // ---------------------------------------------------------------- the typed inputs as JSON

  /** The object a `CreateUser` value is, as zod and `JSON.stringify` see it. */
  function CreateUserJson(c: CreateUser): Value {
    JObject(map["name" := JString(c.name), "email" := JString(c.email), "age" := JNumber(c.age)])
  }

  /** The object an `UpdateUser` value is: absent fields are absent keys. */
  function UpdateUserJson(u: UpdateUser): Value {
    JObject((if u.name.Some? then map["name" := JString(u.name.value)] else map[])
            + (if u.email.Some? then map["email" := JString(u.email.value)] else map[])
            + (if u.age.Some? then map["age" := JNumber(u.age.value)] else map[]))
  }

  /** The create rules on a typed `CreateUser`. */
  predicate ValidCreateUser(f: Formats, c: CreateUser) {
    ValidName(c.name) && f.isEmail(c.email) && ValidAge(c.age)
  }

  // ---------------------------------------------------------------- search parameters

  datatype SortField = SortName | SortEmail | SortAge
  datatype SortOrder = Asc | Desc

  /** The options a users query accepts after validation; `page` is always present. */
  datatype SearchParams = SearchParams(page: int, sortBy: Option<SortField>, order: Option<SortOrder>,
                                       search: Option<string>)

  /** A value of the page's search parameters: one string, or all values of a repeated key. */
  datatype ParamValue = Single(s: string) | Repeated(items: seq<string>)

  function SortFieldName(s: SortField): string {
    match s
    case SortName => "name"
    case SortEmail => "email"
    case SortAge => "age"
  }

  function SortOrderName(o: SortOrder): string {
    match o
    case Asc => "asc"
    case Desc => "desc"
  }

  /** `String(value)`: an array of strings joins with commas. */
  function ParamText(p: ParamValue): string {
    match p
    case Single(s) => s
    case Repeated(items) => JoinComma(items)
  }

  function JoinComma(items: seq<string>): string
    decreases |items|
  {
    if items == [] then "" else if |items| == 1 then items[0] else items[0] + "," + JoinComma(items[1..])
  }

  /** `z.coerce.number().min(1).default(1)`: absent is 1; otherwise `Number(String(value))`
      must be a number of at least 1. */
  function ParsePage(v: Option<ParamValue>): (r: Result<int, seq<Issue>>)
    ensures v.None? ==> r == Ok(1)
    ensures v.Some? ==> (r.Ok? <==> ToNumber(ParamText(v.value)).Finite? && ToNumber(ParamText(v.value)).value >= 1)
    ensures v.Some? && r.Ok? ==> r.data == ToNumber(ParamText(v.value)).value
    ensures r.Ok? ==> r.data >= 1
    ensures r.Err? ==> r.error != []
  {
    match v
    case None => Ok(1)
    case Some(p) =>
      match ToNumber(ParamText(p))
      case NaN => Err([Issue([], Expected("number") + ", received NaN")])
      case Finite(n) => if n < 1 then Err([Issue([], "Too small: expected number to be >=1")]) else Ok(n)
  }

  /** The sort field spelled `s`, if any. */
  function SortFieldNamed(s: string): (r: Option<SortField>)
    ensures r.Some? ==> SortFieldName(r.value) == s
    ensures r.None? ==> s != "name" && s != "email" && s != "age"
  {
    if s == "name" then Some(SortName)
    else if s == "email" then Some(SortEmail)
    else if s == "age" then Some(SortAge)
    else None
  }

  /** The sort order spelled `s`, if any. */
  function SortOrderNamed(s: string): (r: Option<SortOrder>)
    ensures r.Some? ==> SortOrderName(r.value) == s
    ensures r.None? ==> s != "asc" && s != "desc"
  {
    if s == "asc" then Some(Asc) else if s == "desc" then Some(Desc) else None
  }

  /** `z.enum(['name', 'email', 'age']).optional()`. */
  function ParseSortBy(v: Option<ParamValue>): (r: Result<Option<SortField>, seq<Issue>>)
    ensures v.None? ==> r == Ok(None)
    ensures v.Some? ==> (r.Ok? <==> v.value.Single? && SortFieldNamed(v.value.s).Some?)
    ensures v.Some? && r.Ok? ==> r.data.Some? && v.value == Single(SortFieldName(r.data.value))
    ensures r.Err? ==> r.error != []
  {
    if v.None? then Ok(None)
    else if v.value.Single? && SortFieldNamed(v.value.s).Some? then Ok(SortFieldNamed(v.value.s))
    else Err([Issue([], "Invalid option: expected one of \"name\"|\"email\"|\"age\"")])
  }

  /** `z.enum(['asc', 'desc']).optional()`. */
  function ParseOrder(v: Option<ParamValue>): (r: Result<Option<SortOrder>, seq<Issue>>)
    ensures v.None? ==> r == Ok(None)
    ensures v.Some? ==> (r.Ok? <==> v.value.Single? && SortOrderNamed(v.value.s).Some?)
    ensures v.Some? && r.Ok? ==> r.data.Some? && v.value == Single(SortOrderName(r.data.value))
    ensures r.Err? ==> r.error != []
  {
    if v.None? then Ok(None)
    else if v.value.Single? && SortOrderNamed(v.value.s).Some? then Ok(SortOrderNamed(v.value.s))
    else Err([Issue([], "Invalid option: expected one of \"asc\"|\"desc\"")])
  }

  /** `z.string().optional()`. */
  function ParseSearch(v: Option<ParamValue>): (r: Result<Option<string>, seq<Issue>>)
    ensures r.Ok? <==> v.None? || v.value.Single?
    ensures r.Ok? ==> (r.data.Some? <==> v.Some?) && (v.Some? ==> r.data.value == v.value.s)
    ensures r.Err? ==> r.error != []
  {
    match v
    case None => Ok(None)
    case Some(Single(s)) => Ok(Some(s))
    case Some(Repeated(_)) => Err([Issue([], Expected("string"))])
  }

  /** `UsersSearchParamsSchema.safeParse`: unknown keys (such as `limit`) are stripped. */
  function ParseSearchParams(raw: map<string, ParamValue>): (r: Result<SearchParams, seq<Issue>>)
    ensures r.Ok? <==> && ParsePage(Prop'(raw, "page")).Ok? && ParseSortBy(Prop'(raw, "sortBy")).Ok?
                       && ParseOrder(Prop'(raw, "order")).Ok? && ParseSearch(Prop'(raw, "search")).Ok?
    ensures r.Ok? ==> r.data.page >= 1
    ensures r.Ok? && "page" !in raw ==> r.data.page == 1
    ensures r.Ok? && "page" in raw ==> ToNumber(ParamText(raw["page"])) == Finite(r.data.page)
    ensures r.Ok? ==> (r.data.sortBy.Some? <==> "sortBy" in raw)
    ensures r.Ok? ==> (r.data.order.Some? <==> "order" in raw)
    ensures r.Ok? ==> (r.data.search.Some? <==> "search" in raw)
    ensures r.Err? ==> r.error != []
  {
    var page := ParsePage(Prop'(raw, "page"));
    var sortBy := ParseSortBy(Prop'(raw, "sortBy"));
    var order := ParseOrder(Prop'(raw, "order"));
    var search := ParseSearch(Prop'(raw, "search"));
    if page.Ok? && sortBy.Ok? && order.Ok? && search.Ok? then
      Ok(SearchParams(page.data, sortBy.data, order.data, search.data))
    else
      Err(IssuesOf("page", page) + IssuesOf("sortBy", sortBy) + IssuesOf("order", order)
          + IssuesOf("search", search))
  }

  /** The value of a search parameter; `None` when the key is absent. */
  function Prop'(raw: map<string, ParamValue>, key: string): Option<ParamValue> {
    if key in raw then Some(raw[key]) else None
  }

  // ---------------------------------------------------------------- properties

  /** The create schema is the entity schema without `id` and `createdAt`: an object passes
      the entity schema iff it passes the create schema and carries the two server fields,
      and the create schema ignores those two keys altogether. */
  lemma CreateIsUserWithoutServerFields(f: Formats, m: map<string, Value>)
    ensures ParseUser(f, JObject(m)).Ok?
        <==> ParseCreateUser(f, JObject(m)).Ok? && ParseId(Prop(m, "id")).Ok?
             && ParseCreatedAt(f, Prop(m, "createdAt")).Ok?
    ensures ParseUser(f, JObject(m)).Ok? ==>
              var c := ParseCreateUser(f, JObject(m)).data;
              ParseUser(f, JObject(m)).data == User(m["id"].s, m["createdAt"].s, c.name, c.email, c.age)
    ensures ParseCreateUser(f, JObject(m)) == ParseCreateUser(f, JObject(m - {"id", "createdAt"}))
  {
    var m' := m - {"id", "createdAt"};
    assert Prop(m', "name") == Prop(m, "name");
    assert Prop(m', "email") == Prop(m, "email");
    assert Prop(m', "age") == Prop(m, "age");
  }

  /** The update schema accepts the empty object. */
  lemma UpdateAcceptsEmpty(f: Formats)
    ensures ParseUpdateUser(f, JObject(map[])) == Ok(UpdateUser(None, None, None))
  {
  }

  /** Every object the create schema accepts, the update schema accepts with every field set. */
  lemma CreateInputIsUpdateInput(f: Formats, v: Value)
    requires ParseCreateUser(f, v).Ok?
    ensures ParseUpdateUser(f, v).Ok?
    ensures var c := ParseCreateUser(f, v).data;
            ParseUpdateUser(f, v).data == UpdateUser(Some(c.name), Some(c.email), Some(c.age))
  {
    var m := v.fields;
    assert ValidCreateFields(f, m);
    assert ValidUpdateFields(f, m);
  }

  /** The create schema on a typed value: accepted iff the three field rules hold, and
      then the output differs from the input only by the trimmed name. */
  lemma CreateUserJsonParse(f: Formats, c: CreateUser)
    ensures ParseCreateUser(f, CreateUserJson(c)).Ok? <==> ValidCreateUser(f, c)
    ensures ValidCreateUser(f, c) ==>
              ParseCreateUser(f, CreateUserJson(c)) == Ok(CreateUser(Trim(c.name), c.email, c.age))
  {
    var m := CreateUserJson(c).fields;
    assert m["name"] == JString(c.name) && m["email"] == JString(c.email) && m["age"] == JNumber(c.age);
    assert ValidCreateFields(f, m) <==> ValidCreateUser(f, c);
  }

  /** Validating the output of the create schema again gives the same output. */
  lemma {:induction false} CreateParseIdempotent(f: Formats, c: CreateUser)
    requires ParseCreateUser(f, CreateUserJson(c)).Ok?
    ensures var d := ParseCreateUser(f, CreateUserJson(c)).data;
            ParseCreateUser(f, CreateUserJson(d)) == Ok(d)
  {
    CreateUserJsonParse(f, c);
    var d := CreateUser(Trim(c.name), c.email, c.age);
    TrimIdempotent(c.name);
    assert ValidCreateUser(f, d);
    CreateUserJsonParse(f, d);
  }

  /** The search-params schema assembles the outputs of its four fields. */
  lemma SearchParamsFromFields(raw: map<string, ParamValue>, p: SearchParams)
    requires ParsePage(Prop'(raw, "page")) == Ok(p.page)
    requires ParseSortBy(Prop'(raw, "sortBy")) == Ok(p.sortBy)
    requires ParseOrder(Prop'(raw, "order")) == Ok(p.order)
    requires ParseSearch(Prop'(raw, "search")) == Ok(p.search)
    ensures ParseSearchParams(raw) == Ok(p)
  {
  }

  /** `Number('2')` is 2. */
  lemma NumberTwo()
    ensures ToNumber("2") == Finite(2)
  {
    assert IntToString(2) == "2";
    NumberOfIntToString(2);
  }

  lemma SortByName()
    ensures ParseSortBy(Some(Single("name"))) == Ok(Some(SortName))
  {
    assert SortFieldNamed("name") == Some(SortName);
  }

  /** `{ page: '2', sortBy: 'name' }` parses to `{ page: 2, sortBy: 'name' }`. */
  lemma SearchParamsExample()
    ensures ParseSearchParams(map["page" := Single("2"), "sortBy" := Single("name")])
         == Ok(SearchParams(2, Some(SortName), None, None))
  {
    var raw := map["page" := Single("2"), "sortBy" := Single("name")];
    NumberTwo();
    assert Prop'(raw, "page") == Some(Single("2"));
    assert ParsePage(Some(Single("2"))) == Ok(2);
    assert Prop'(raw, "sortBy") == Some(Single("name"));
    SortByName();
    assert Prop'(raw, "order") == None && Prop'(raw, "search") == None;
    SearchParamsFromFields(raw, SearchParams(2, Some(SortName), None, None));
  }
}
