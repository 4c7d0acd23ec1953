/** The authorization engine: a closed catalogue of feature strings, the
    decision `Can` and the output redaction `FilterOutput`. */
module Authorization {
  import opened Errors
  import opened JsValues

  // ---------------------------------------------------------------------
  // The feature catalogue
  // ---------------------------------------------------------------------

  /** One permission of the closed catalogue. */
  datatype Feature =
    | CreateUser | ReadUser | ReadUserSelf | UpdateUser | UpdateUserOthers
    | CreateSession | ReadSession | DeleteSession
    | ReadActivationToken
    | CreateMigration | ReadMigration
    | ReadStatus | ReadStatusAll

  /** The string that stands for a feature in stored feature lists. */
  function Name(f: Feature): string
  {
    match f
    case CreateUser => "create:user"
    case ReadUser => "read:user"
    case ReadUserSelf => "read:user:self"
    case UpdateUser => "update:user"
    case UpdateUserOthers => "update:user:others"
    case CreateSession => "create:session"
    case ReadSession => "read:session"
    case DeleteSession => "delete:session"
    case ReadActivationToken => "read:activation_token"
    case CreateMigration => "create:migration"
    case ReadMigration => "read:migration"
    case ReadStatus => "read:status"
    case ReadStatusAll => "read:status:all"
  }

  /** The catalogue as the code lists it, in its order. */
  const AvailableFeatures: seq<string> := [
    "create:user", "read:user", "read:user:self", "update:user", "update:user:others",
    "create:session", "read:session", "delete:session",
    "read:activation_token",
    "create:migration", "read:migration",
    "read:status", "read:status:all"
  ]

  /** The feature a catalogue string names, if it names one. */
  function Parse(s: string): Option<Feature>
  {
    if s == "create:user" then Some(CreateUser)
    else if s == "read:user" then Some(ReadUser)
    else if s == "read:user:self" then Some(ReadUserSelf)
    else if s == "update:user" then Some(UpdateUser)
    else if s == "update:user:others" then Some(UpdateUserOthers)
    else if s == "create:session" then Some(CreateSession)
    else if s == "read:session" then Some(ReadSession)
    else if s == "delete:session" then Some(DeleteSession)
    else if s == "read:activation_token" then Some(ReadActivationToken)
    else if s == "create:migration" then Some(CreateMigration)
    else if s == "read:migration" then Some(ReadMigration)
    else if s == "read:status" then Some(ReadStatus)
    else if s == "read:status:all" then Some(ReadStatusAll)
    else None
  }

  /** Parsing a feature's name gives the feature back. */
  lemma {:induction false} ParseName(f: Feature)
    ensures Parse(Name(f)) == Some(f)
  {
    match f
    case CreateUser =>
    case ReadUser =>
    case ReadUserSelf =>
    case UpdateUser =>
    case UpdateUserOthers =>
    case CreateSession =>
    case ReadSession =>
    case DeleteSession =>
    case ReadActivationToken =>
    case CreateMigration =>
    case ReadMigration =>
    case ReadStatus =>
    case ReadStatusAll =>
  }

  /** A string parses exactly when it is in the catalogue, and then it is
      the name of what it parses to; the catalogue holds every feature's
      name once. */
  lemma CatalogueIsClosed(s: string)
    ensures Parse(s).Some? <==> s in AvailableFeatures
    ensures Parse(s).Some? ==> Name(Parse(s).value) == s
    ensures |AvailableFeatures| == 13
    ensures forall i, j :: 0 <= i < j < |AvailableFeatures| ==> AvailableFeatures[i] != AvailableFeatures[j]
  {
  }

  /** `validateFeature`: a non-empty string of the catalogue, that is, the
      name of a feature. */
  function KnownFeature(feature: string): (known: bool)
    ensures known <==> Parse(feature).Some?
    ensures known ==> Name(Parse(feature).value) == feature
  {
    CatalogueIsClosed(feature);
    feature != "" && feature in AvailableFeatures
  }

  // ---------------------------------------------------------------------
  // Callers and validation
  // ---------------------------------------------------------------------

  /** The `user` argument: its `id` and its `features` list, `None` when the
      list is missing. */
  datatype Caller = Caller(id: Value, features: Option<seq<string>>)

  /** `validateUser`: a user is given and carries a features list. Any
      list passes, an empty one too, since an empty array is truthy. */
  predicate ValidUser(user: Option<Caller>)
  {
    user.Some? && user.value.features.Some?
  }

  /** `validateOutput`: the output is truthy. An empty object or list
      passes; `undefined`, `null`, `false`, `0` and `""` do not. */
  predicate ValidOutput(output: Value)
  {
    Truthy(output)
  }

  const MissingUserError: AppError :=
    InternalServerError("É necessário fornecer user no model authorization")
  const UnknownFeatureError: AppError :=
    InternalServerError("É necessário fornecer uma feature conhecida no model authorization")
  const MissingOutputError: AppError :=
    InternalServerError("É necessário fornecer um output para ser filtrado no filterOuput")

  // ---------------------------------------------------------------------
  // can
  // ---------------------------------------------------------------------

  /** `can(user, feature, resource)`; an omitted resource is `Undefined`.
      The grant is membership in the caller's list, except that
      "update:user" with a resource asks instead whether the caller is that
      resource or holds "update:user:others". */
  function Can(user: Option<Caller>, feature: string, resource: Value): (r: Result<bool>)
    ensures !ValidUser(user) ==> r == Err(MissingUserError)
    ensures ValidUser(user) && !KnownFeature(feature) ==> r == Err(UnknownFeatureError)
    ensures ValidUser(user) && KnownFeature(feature) && (feature != "update:user" || !Truthy(resource))
            ==> r == Ok(feature in user.value.features.value)
    ensures ValidUser(user) && feature == "update:user" && Truthy(resource)
            ==> r == Ok(user.value.id == Prop(resource, "id")
                        || "update:user:others" in user.value.features.value)
    decreases if Truthy(resource) then 1 else 0
  {
    if !ValidUser(user) then Err(MissingUserError)
    else if !KnownFeature(feature) then Err(UnknownFeatureError)
    else if feature == "update:user" && Truthy(resource) then
      if user.value.id == Prop(resource, "id") then Ok(true)
      else Can(user, "update:user:others", Undefined)
    else Ok(feature in user.value.features.value)
  }

  /** The features a stored list grants; strings outside the catalogue
      grant nothing. */
  function Held(features: seq<string>): set<Feature>
  {
    set s | s in features && Parse(s).Some? :: Parse(s).value
  }

  /** The permission rule stated over the catalogue, independently of how
      `Can` reads strings: `target` is the id of the resource acted upon,
      when one is given. */
  ghost predicate Permits(held: set<Feature>, f: Feature, self: Value, target: Option<Value>)
  {
    match f
    case UpdateUser =>
      if target.Some? then self == target.value || UpdateUserOthers in held
      else UpdateUser in held
    case _ => f in held
  }

  lemma HeldMembership(features: seq<string>, f: Feature)
    ensures f in Held(features) <==> Name(f) in features
  {
    ParseName(f);
    if f in Held(features) {
      var s :| s in features && Parse(s).Some? && Parse(s).value == f;
      CatalogueIsClosed(s);
    }
  }

  /** For a valid caller and a catalogue feature, `Can` decides exactly the
      rule `Permits` over the features the caller holds. */
  lemma CanAgreesWithPermits(user: Option<Caller>, f: Feature, resource: Value)
    requires ValidUser(user)
    ensures Can(user, Name(f), resource)
            == Ok(Permits(Held(user.value.features.value), f, user.value.id,
                          if Truthy(resource) then Some(Prop(resource, "id")) else None))
  {
    var features := user.value.features.value;
    CatalogueIsClosed(Name(f));
    ParseName(f);
    HeldMembership(features, f);
    HeldMembership(features, UpdateUserOthers);
  }

  /** Outside the resource-scoped case nothing is granted that the caller
      does not hold: a true answer needs the feature itself, or, for
      "update:user" with a resource, being that resource or holding
      "update:user:others". */
  lemma CanGrantsOnlyHeldOrSelf(user: Option<Caller>, feature: string, resource: Value)
    requires Can(user, feature, resource) == Ok(true)
    ensures ValidUser(user) && KnownFeature(feature)
    ensures feature in user.value.features.value
            || (feature == "update:user" && Truthy(resource)
                && (user.value.id == Prop(resource, "id")
                    || "update:user:others" in user.value.features.value))
  {
  }

  /** The blanket "update:user" grant alone does not let a caller update
      some other identity. */
  lemma BlanketUpdateGrantIsOverridden(id: Value, features: seq<string>, resource: Value)
    requires Truthy(resource) && id != Prop(resource, "id")
    requires "update:user" in features && "update:user:others" !in features
    ensures Can(Some(Caller(id, Some(features))), "update:user", resource) == Ok(false)
  {
  }

  // ---------------------------------------------------------------------
  // filterOutput
  // ---------------------------------------------------------------------

  const UserPublicFields: set<string> := {"id", "username", "features", "created_at", "updated_at"}
  const UserSelfFields: set<string> := {"id", "username", "email", "features", "created_at", "updated_at"}
  const SessionFields: set<string> := {"id", "token", "user_id", "expires_at", "created_at", "updated_at"}
  const ActivationTokenFields: set<string> := {"id", "user_id", "used_at", "expires_at", "created_at", "updated_at"}
  const MigrationFields: set<string> := {"path", "name", "timestamp"}

  /** `output.map(m => ({path, name, timestamp}))` over a migration list:
      a TypeError as soon as an element is `undefined` or `null`. */
  function ProjectMigrations(migrations: seq<Value>): (r: Result<seq<Value>>)
    ensures r.Ok? <==> forall i :: 0 <= i < |migrations| ==> !Nullish(migrations[i])
    ensures r.Ok? ==> |r.value| == |migrations|
    ensures r.Ok? ==> forall i :: 0 <= i < |migrations| ==>
                        r.value[i] == Project(migrations[i], MigrationFields)
    ensures r.Err? ==> r.error == TypeError
  {
    if migrations == [] then Ok([])
    else if Nullish(migrations[0]) then Err(TypeError)
    else
      match ProjectMigrations(migrations[1..])
      case Ok(rest) => Ok([Project(migrations[0], MigrationFields)] + rest)
      case Err(e) => Err(e)
  }

  /** The "read:status" branch: updated_at and the database's connection
      counts, plus its version when the caller may "read:status:all". */
  function StatusView(user: Option<Caller>, output: Value): (r: Result<Value>)
    requires ValidUser(user)
    ensures r.Err? <==> Nullish(Prop(output, "dependencies"))
                        || Nullish(Prop(Prop(output, "dependencies"), "database"))
    ensures r.Err? ==> r.error == TypeError
    ensures r.Ok? ==> r.value.Obj? && r.value.fields.Keys == {"updated_at", "dependencies"}
    ensures r.Ok? ==> var database := Prop(Prop(r.value, "dependencies"), "database");
                      database.Obj?
                      && ("version" in database.fields <==> "read:status:all" in user.value.features.value)
  {
    var dependencies := Prop(output, "dependencies");
    if Nullish(dependencies) then Err(TypeError)
    else
      var database := Prop(dependencies, "database");
      if Nullish(database) then Err(TypeError)
      else
        var base := map["max_connections" := Prop(database, "max_connections"),
                         "opened_connections" := Prop(database, "opened_connections")];
        match Can(user, "read:status:all", Undefined)
        case Err(e) => Err(e)
        case Ok(all) =>
          var db := if all then base["version" := Prop(database, "version")] else base;
          Ok(Obj(map["updated_at" := Prop(output, "updated_at"),
                     "dependencies" := Obj(map["database" := Obj(db)])]))
  }

  /** `filterOutput(user, feature, output)`. A branch whose ownership test
      fails falls through to the end, where the function returns
      `undefined`. */
  function FilterOutput(user: Option<Caller>, feature: string, output: Value): (r: Result<Value>)
    ensures !ValidUser(user) ==> r == Err(MissingUserError)
    ensures ValidUser(user) && !KnownFeature(feature) ==> r == Err(UnknownFeatureError)
    ensures ValidUser(user) && KnownFeature(feature) && !ValidOutput(output) ==> r == Err(MissingOutputError)
  {
    if !ValidUser(user) then Err(MissingUserError)
    else if !KnownFeature(feature) then Err(UnknownFeatureError)
    else if !ValidOutput(output) then Err(MissingOutputError)
    else if feature == "read:user" || feature == "update:user" then
      Ok(Project(output, UserPublicFields))
    else if feature == "read:user:self" && user.value.id == Prop(output, "id") then
      Ok(Project(output, UserSelfFields))
    else if (feature == "read:session" || feature == "delete:session")
            && user.value.id == Prop(output, "user_id") then
      Ok(Project(output, SessionFields))
    else if feature == "read:activation_token" then
      Ok(Project(output, ActivationTokenFields))
    else if feature == "read:migration" || feature == "create:migration" then
      if !output.Arr? then Err(TypeError)
      else
        match ProjectMigrations(output.elems)
        case Ok(projected) => Ok(Arr(projected))
        case Err(e) => Err(e)
    else if feature == "read:status" then
      StatusView(user, output)
    else
      Ok(Undefined)
  }

  /** Preconditions met: the user is valid, the feature known and the output
      truthy. */
  predicate FilterAccepts(user: Option<Caller>, feature: string, output: Value)
  {
    ValidUser(user) && KnownFeature(feature) && ValidOutput(output)
  }

  /** No value `FilterOutput` returns has a `password` field: not the record
      itself, and not any element of a returned list. */
  predicate HidesPassword(v: Value)
  {
    match v
    case Obj(m) => "password" !in m
    case Arr(elems) => forall i :: 0 <= i < |elems| ==> elems[i].Obj? && "password" !in elems[i].fields
    case _ => true
  }

  lemma {:induction false} FilterOutputHidesPassword(user: Option<Caller>, feature: string, output: Value)
    requires FilterOutput(user, feature, output).Ok?
    ensures HidesPassword(FilterOutput(user, feature, output).value)
  {
    if feature == "read:migration" || feature == "create:migration" {
      var r := FilterOutput(user, feature, output);
      if r.value.Arr? {
        var projected := r.value.elems;
        forall i | 0 <= i < |projected|
          ensures projected[i].Obj? && "password" !in projected[i].fields
        {
          assert projected[i] == Project(output.elems[i], MigrationFields);
        }
      }
    }
  }

  /** "read:user" and "update:user" give exactly id, username, features,
      created_at and updated_at, copied from the output: no email, no
      password. */
  lemma FilterUserIsPublicView(user: Option<Caller>, feature: string, output: Value)
    requires FilterAccepts(user, feature, output)
    requires feature == "read:user" || feature == "update:user"
    ensures var r := FilterOutput(user, feature, output);
            r.Ok? && r.value.Obj?
            && r.value.fields.Keys == {"id", "username", "features", "created_at", "updated_at"}
            && forall k :: k in r.value.fields ==> r.value.fields[k] == Prop(output, k)
  {
  }

  /** "read:user:self" gives the record with its email only to its owner;
      anyone else gets `undefined`. */
  lemma FilterUserSelfIsOwnerOnly(user: Option<Caller>, output: Value)
    requires FilterAccepts(user, "read:user:self", output)
    ensures var r := FilterOutput(user, "read:user:self", output);
            if user.value.id == Prop(output, "id") then
              r.Ok? && r.value.Obj?
              && r.value.fields.Keys == {"id", "username", "email", "features", "created_at", "updated_at"}
              && forall k :: k in r.value.fields ==> r.value.fields[k] == Prop(output, k)
            else r == Ok(Undefined)
  {
  }

  /** "read:session" and "delete:session" give the session fields only to
      the session's owner; anyone else gets `undefined`. */
  lemma FilterSessionIsOwnerOnly(user: Option<Caller>, feature: string, output: Value)
    requires FilterAccepts(user, feature, output)
    requires feature == "read:session" || feature == "delete:session"
    ensures var r := FilterOutput(user, feature, output);
            if user.value.id == Prop(output, "user_id") then
              r.Ok? && r.value.Obj?
              && r.value.fields.Keys == {"id", "token", "user_id", "expires_at", "created_at", "updated_at"}
              && forall k :: k in r.value.fields ==> r.value.fields[k] == Prop(output, k)
            else r == Ok(Undefined)
  {
  }

  /** "read:activation_token" gives the token fields to anyone. */
  lemma FilterActivationToken(user: Option<Caller>, output: Value)
    requires FilterAccepts(user, "read:activation_token", output)
    ensures var r := FilterOutput(user, "read:activation_token", output);
            r.Ok? && r.value.Obj?
            && r.value.fields.Keys == {"id", "user_id", "used_at", "expires_at", "created_at", "updated_at"}
            && forall k :: k in r.value.fields ==> r.value.fields[k] == Prop(output, k)
  {
  }

  /** The migration features map every element to its path, name and
      timestamp, keeping length and order; a non-list output, or an
      `undefined`/`null` element, throws a TypeError. */
  lemma FilterMigrationsMapsEachElement(user: Option<Caller>, feature: string, output: Value)
    requires FilterAccepts(user, feature, output)
    requires feature == "read:migration" || feature == "create:migration"
    ensures var r := FilterOutput(user, feature, output);
            if output.Arr? && forall i :: 0 <= i < |output.elems| ==> !Nullish(output.elems[i]) then
              r.Ok? && r.value.Arr? && |r.value.elems| == |output.elems|
              && forall i :: 0 <= i < |output.elems| ==>
                   r.value.elems[i].Obj?
                   && r.value.elems[i].fields.Keys == {"path", "name", "timestamp"}
                   && r.value.elems[i].fields["path"] == Prop(output.elems[i], "path")
                   && r.value.elems[i].fields["name"] == Prop(output.elems[i], "name")
                   && r.value.elems[i].fields["timestamp"] == Prop(output.elems[i], "timestamp")
            else r == Err(TypeError)
  {
  }

  /** "read:status" reports the database version exactly when the caller
      holds "read:status:all"; the connection counts and updated_at always. */
  lemma FilterStatusGatesVersion(user: Option<Caller>, output: Value)
    requires FilterAccepts(user, "read:status", output)
    requires !Nullish(Prop(output, "dependencies"))
    requires !Nullish(Prop(Prop(output, "dependencies"), "database"))
    ensures var r := FilterOutput(user, "read:status", output);
            var source := Prop(Prop(output, "dependencies"), "database");
            r.Ok? && r.value.Obj?
            && r.value.fields.Keys == {"updated_at", "dependencies"}
            && r.value.fields["updated_at"] == Prop(output, "updated_at")
            && r.value.fields["dependencies"].Obj?
            && r.value.fields["dependencies"].fields.Keys == {"database"}
            && var database := Prop(Prop(r.value, "dependencies"), "database");
               database.Obj?
               && ("version" in database.fields <==> "read:status:all" in user.value.features.value)
               && database.fields.Keys - {"version"} == {"max_connections", "opened_connections"}
               && forall k :: k in database.fields ==> database.fields[k] == Prop(source, k)
  {
  }

  /** Reading the database entry of a status whose `dependencies` or
      `dependencies.database` is `undefined` or `null` throws a TypeError. */
  lemma FilterStatusWithoutDatabaseThrows(user: Option<Caller>, output: Value)
    requires FilterAccepts(user, "read:status", output)
    requires Nullish(Prop(output, "dependencies")) || Nullish(Prop(Prop(output, "dependencies"), "database"))
    ensures FilterOutput(user, "read:status", output) == Err(TypeError)
  {
  }

  /** The features without a branch of their own fall off the end of the
      function, whose result is then `undefined`. */
  lemma FilterOtherFeaturesGiveUndefined(user: Option<Caller>, feature: string, output: Value)
    requires FilterAccepts(user, feature, output)
    requires feature in {"create:user", "update:user:others", "create:session", "read:status:all"}
    ensures FilterOutput(user, feature, output) == Ok(Undefined)
  {
  }
}
