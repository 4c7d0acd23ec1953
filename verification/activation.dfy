/** The activation-token manager: single-use, time-limited tokens kept in a
    token table, and the feature upgrade of the user who consumes one. The
    tables are maps held by `ActivationStore`; times are milliseconds and
    the current time is always a parameter. */
module Activation {
  import opened Errors
  import opened JsValues
  import Authorization

  /** Fifteen minutes. */
  const ExpirationInMilliseconds: int := 60 * 15 * 1000

  /** A row of the activation-token table; `used_at` is `None` while the
      token is unused. */
  datatype ActivationToken = ActivationToken(
    id: string,
    user_id: string,
    used_at: Option<int>,
    expires_at: int,
    created_at: int,
    updated_at: int)

  /** Token rows by id. */
  type TokenTable = map<string, ActivationToken>

  /** Feature lists by user id. */
  type FeatureTable = map<string, seq<string>>

  const TokenNotFoundError: AppError := NotFoundError(
    "Token de ativação não encontrado.",
    "Verifique se este token de ativação não está expirado ou não foi utilizado.")

  const CannotActivateError: AppError := ForbiddenError(
    "Você não pode mais utilizar tokens de ativação",
    "Entre em contato com o suporte.")

  /** The NotFoundError that the user model raises for an id with no user
      row. That model is not part of this one, so only the kind is fixed
      here and the wording is left blank. */
  const UnknownUserError: AppError := NotFoundError("", "")

  /** The features an activated user holds, in this order. */
  const ActivatedFeatures: seq<string> := ["create:session", "read:session"]

  /** Every row is stored under its own id. */
  ghost predicate WellKeyed(tokens: TokenTable)
  {
    forall id :: id in tokens ==> tokens[id].id == id
  }

  /** What every row the manager writes satisfies: it expires fifteen
      minutes after it was created, and once used, `used_at` is the time of
      its last update. */
  ghost predicate WellFormed(t: ActivationToken)
  {
    && t.expires_at == t.created_at + ExpirationInMilliseconds
    && (t.used_at.Some? ==> t.used_at.value == t.updated_at)
  }

  /** The invariant of the stored table: every row is stored under its own
      id and is well formed. */
  ghost predicate Consistent(tokens: TokenTable)
  {
    WellKeyed(tokens) && forall id :: id in tokens ==> WellFormed(tokens[id])
  }

  /** The select's WHERE clause: not expired at `now` and never used. */
  predicate IsValid(t: ActivationToken, now: int)
  {
    t.expires_at > now && t.used_at.None?
  }

  /** The row `create(userId)` inserts at `now`, under the id the database
      generates for it. */
  function NewToken(id: string, userId: string, now: int): (t: ActivationToken)
    ensures t.id == id && t.user_id == userId && t.used_at == None
    ensures t.expires_at == now + 900000
    ensures WellFormed(t)
  {
    ActivationToken(id, userId, None, now + ExpirationInMilliseconds, now, now)
  }

  /** The row after the update of `markTokenAsUsed` at `now`. */
  function Stamp(t: ActivationToken, now: int): (u: ActivationToken)
    ensures u.used_at == Some(now) && u.updated_at == now
    ensures u.id == t.id && u.user_id == t.user_id
    ensures u.expires_at == t.expires_at && u.created_at == t.created_at
    ensures WellFormed(t) ==> WellFormed(u)
  {
    t.(used_at := Some(now), updated_at := now)
  }

  /** `findOneValidById(id)` at time `now`: the row with that id when it is
      unexpired and unused; one and the same NotFoundError otherwise, be
      the token missing, expired or used. */
  function FindOneValidById(tokens: TokenTable, id: string, now: int): (r: Result<ActivationToken>)
    ensures r.Ok? <==> id in tokens && tokens[id].expires_at > now && tokens[id].used_at.None?
    ensures r.Ok? ==> r.value == tokens[id]
    ensures r.Err? ==> r.error == TokenNotFoundError
  {
    if id in tokens && IsValid(tokens[id], now) then Ok(tokens[id])
    else Err(TokenNotFoundError)
  }

  /** What `markTokenAsUsed(id)` at `now` does to the table and returns:
      every row with that id is stamped, whether or not it was already used,
      and a missing id is a NotFoundError. */
  function MarkUsed(tokens: TokenTable, id: string, now: int): (r: (TokenTable, Result<ActivationToken>))
    ensures r.0.Keys == tokens.Keys
    ensures id in tokens ==> r.1 == Ok(r.0[id])
    ensures id !in tokens <==> r.1 == Err(TokenNotFoundError)
    ensures forall other :: other in tokens && other != id ==> r.0[other] == tokens[other]
    ensures id in tokens ==> r.0[id] == tokens[id].(used_at := Some(now), updated_at := now)
  {
    if id in tokens then
      var stamped := Stamp(tokens[id], now);
      (tokens[id := stamped], Ok(stamped))
    else (tokens, Err(TokenNotFoundError))
  }

  /** `activateUserByUserId(userId)`: the new features, when the user still
      holds "read:activation_token"; a ForbiddenError otherwise. */
  function ActivationOutcome(users: FeatureTable, userId: string): (r: Result<seq<string>>)
    ensures r.Ok? <==> userId in users && "read:activation_token" in users[userId]
    ensures r.Ok? ==> r.value == ["create:session", "read:session"]
    ensures userId !in users ==> r == Err(UnknownUserError)
    ensures userId in users && "read:activation_token" !in users[userId] ==> r == Err(CannotActivateError)
  {
    if userId !in users then Err(UnknownUserError)
    else
      var user := Authorization.Caller(Str(userId), Some(users[userId]));
      match Authorization.Can(Some(user), "read:activation_token", Undefined)
      case Err(e) => Err(e)
      case Ok(allowed) =>
        if !allowed then Err(CannotActivateError) else Ok(ActivatedFeatures)
  }

  /** The feature table after `activateUserByUserId(userId)`. */
  function ActivatedUsers(users: FeatureTable, userId: string): FeatureTable
  {
    if ActivationOutcome(users, userId).Ok? then users[userId := ActivatedFeatures] else users
  }

  // ---------------------------------------------------------------------
  // Properties of the token life cycle
  // ---------------------------------------------------------------------

  /** A freshly created token is valid until fifteen minutes after its
      creation and not valid from then on, even if never used. */
  lemma NewTokenValidUntilExpiry(tokens: TokenTable, id: string, userId: string, created: int, now: int)
    ensures var r := FindOneValidById(tokens[id := NewToken(id, userId, created)], id, now);
            (r.Ok? <==> now < created + ExpirationInMilliseconds)
            && (r.Ok? ==> r.value.user_id == userId && r.value.used_at == None)
  {
  }

  /** Once marked as used, a token is never found valid again, at any
      time. */
  lemma MarkedTokenNeverValid(tokens: TokenTable, id: string, now: int, later: int)
    requires MarkUsed(tokens, id, now).1.Ok?
    ensures FindOneValidById(MarkUsed(tokens, id, now).0, id, later) == Err(TokenNotFoundError)
  {
  }

  /** The update has no `used_at IS NULL` condition: marking a token that
      is already used succeeds again and overwrites its `used_at`. The code
      therefore does not by itself let a token be consumed at most once. */
  lemma MarkUsedIsNotCompareAndSwap(tokens: TokenTable, id: string, first: int, second: int)
    requires id in tokens
    ensures var once := MarkUsed(tokens, id, first).0;
            once[id].used_at.Some?
            && MarkUsed(once, id, second).1 == Ok(Stamp(tokens[id], second))
  {
  }

  /** Marking keeps the table well keyed and its rows well formed. */
  lemma MarkUsedKeepsInvariant(tokens: TokenTable, id: string, now: int)
    requires Consistent(tokens)
    ensures Consistent(MarkUsed(tokens, id, now).0)
  {
  }

  /** After a successful activation the user no longer holds
      "read:activation_token", so activating again is forbidden. */
  lemma SecondActivationForbidden(users: FeatureTable, userId: string)
    requires ActivationOutcome(users, userId).Ok?
    ensures ActivationOutcome(ActivatedUsers(users, userId), userId) == Err(CannotActivateError)
  {
    assert "read:activation_token" !in ActivatedFeatures;
  }

  /** A forbidden activation leaves every user's features as they were. */
  lemma ForbiddenActivationChangesNothing(users: FeatureTable, userId: string)
    requires userId in users && "read:activation_token" !in users[userId]
    ensures ActivationOutcome(users, userId) == Err(CannotActivateError)
    ensures ActivatedUsers(users, userId) == users
  {
  }

  // ---------------------------------------------------------------------
  // Sequences of calls
  // ---------------------------------------------------------------------

  /** One call into the manager that changes the tables. */
  datatype Call =
    | CreateCall(userId: string, id: string, now: int)
    | MarkCall(id: string, now: int)
    | ActivateCall(userId: string)

  /** Both tables at one moment. */
  datatype Tables = Tables(tokens: TokenTable, users: FeatureTable)

  /** The tables after one call. An insert under an id already in use
      fails on the table's primary key and changes nothing. */
  function Step(s: Tables, c: Call): Tables
  {
    match c
    case CreateCall(userId, id, now) =>
      if id in s.tokens then s else s.(tokens := s.tokens[id := NewToken(id, userId, now)])
    case MarkCall(id, now) => s.(tokens := MarkUsed(s.tokens, id, now).0)
    case ActivateCall(userId) => s.(users := ActivatedUsers(s.users, userId))
  }

  /** The tables after the calls, in order. */
  function Run(s: Tables, calls: seq<Call>): Tables
    decreases |calls|
  {
    if calls == [] then s else Run(Step(s, calls[0]), calls[1..])
  }

  /** How many of the calls activate `userId` successfully. */
  function ActivationsOf(s: Tables, calls: seq<Call>, userId: string): nat
    decreases |calls|
  {
    if calls == [] then 0
    else
      var here := if calls[0] == ActivateCall(userId) && ActivationOutcome(s.users, userId).Ok? then 1 else 0;
      here + ActivationsOf(Step(s, calls[0]), calls[1..], userId)
  }

  /** A token that has been used stays used whatever calls follow, so it is
      never found valid again. */
  lemma {:induction false} UsedTokenStaysUsed(s: Tables, calls: seq<Call>, id: string, later: int)
    requires id in s.tokens && s.tokens[id].used_at.Some?
    ensures id in Run(s, calls).tokens && Run(s, calls).tokens[id].used_at.Some?
    ensures FindOneValidById(Run(s, calls).tokens, id, later) == Err(TokenNotFoundError)
    decreases |calls|
  {
    if calls != [] {
      UsedTokenStaysUsed(Step(s, calls[0]), calls[1..], id, later);
    }
  }

  /** A user without "read:activation_token" never gets it back through
      these calls, and is never activated by any of them. */
  lemma {:induction false} IneligibleUserStaysIneligible(s: Tables, calls: seq<Call>, userId: string)
    requires userId !in s.users || "read:activation_token" !in s.users[userId]
    ensures var users := Run(s, calls).users;
            userId !in users || "read:activation_token" !in users[userId]
    ensures ActivationsOf(s, calls, userId) == 0
    decreases |calls|
  {
    if calls != [] {
      assert ActivationOutcome(s.users, userId).Err?;
      IneligibleUserStaysIneligible(Step(s, calls[0]), calls[1..], userId);
    }
  }

  /** Whatever the calls and their order, a user is activated at most once:
      the feature check, not the token update, is what stops a second
      promotion. */
  lemma {:induction false} AtMostOneActivation(s: Tables, calls: seq<Call>, userId: string)
    ensures ActivationsOf(s, calls, userId) <= 1
    decreases |calls|
  {
    if calls != [] {
      var next := Step(s, calls[0]);
      if calls[0] == ActivateCall(userId) && ActivationOutcome(s.users, userId).Ok? {
        assert next.users[userId] == ActivatedFeatures;
        assert "read:activation_token" !in ActivatedFeatures;
        IneligibleUserStaysIneligible(next, calls[1..], userId);
      } else {
        AtMostOneActivation(next, calls[1..], userId);
      }
    }
  }

  // ---------------------------------------------------------------------
  // The stored tables
  // ---------------------------------------------------------------------

  /** The activation-token table and the user features it upgrades. */
  class ActivationStore {
    var tokens: TokenTable
    var userFeatures: FeatureTable

    ghost predicate Valid()
      reads this
    {
      Consistent(tokens)
    }

    constructor (users: FeatureTable)
      ensures Valid()
      ensures tokens == map[] && userFeatures == users
    {
      tokens := map[];
      userFeatures := users;
    }

    /** `create(userId)` at `now`; `id` is the fresh id the database
        generates for the new row. */
    method Create(userId: string, id: string, now: int) returns (token: ActivationToken)
      requires Valid()
      requires id !in tokens
      modifies this
      ensures Valid()
      ensures token == NewToken(id, userId, now)
      ensures tokens == old(tokens)[id := token]
      ensures userFeatures == old(userFeatures)
      ensures Tables(tokens, userFeatures)
              == Step(Tables(old(tokens), old(userFeatures)), CreateCall(userId, id, now))
    {
      token := NewToken(id, userId, now);
      tokens := tokens[id := token];
    }

    /** `findOneValidById(id)` at `now`. The token it returns is the row
        stored under `id`, and, since every stored row expires fifteen
        minutes after its creation, one created less than fifteen minutes
        before `now`. */
    method FindValidToken(id: string, now: int) returns (r: Result<ActivationToken>)
      requires Valid()
      ensures r == FindOneValidById(tokens, id, now)
      ensures r.Ok? ==> r.value.id == id && now < r.value.created_at + ExpirationInMilliseconds
    {
      r := FindOneValidById(tokens, id, now);
    }

    /** `markTokenAsUsed(id)` at `now`. */
    method MarkTokenAsUsed(id: string, now: int) returns (r: Result<ActivationToken>)
      requires Valid()
      modifies this
      ensures Valid()
      ensures (tokens, r) == MarkUsed(old(tokens), id, now)
      ensures userFeatures == old(userFeatures)
      ensures Tables(tokens, userFeatures)
              == Step(Tables(old(tokens), old(userFeatures)), MarkCall(id, now))
    {
      if id in tokens {
        var stamped := Stamp(tokens[id], now);
        tokens := tokens[id := stamped];
        r := Ok(stamped);
      } else {
        r := Err(TokenNotFoundError);
      }
    }

    /** `activateUserByUserId(userId)`: replaces the user's features with
        `ActivatedFeatures` when the user may still read activation tokens. */
    method ActivateUserByUserId(userId: string) returns (r: Result<seq<string>>)
      requires Valid()
      modifies this
      ensures Valid()
      ensures r == ActivationOutcome(old(userFeatures), userId)
      ensures userFeatures == ActivatedUsers(old(userFeatures), userId)
      ensures tokens == old(tokens)
      ensures Tables(tokens, userFeatures)
              == Step(Tables(old(tokens), old(userFeatures)), ActivateCall(userId))
    {
      r := ActivationOutcome(userFeatures, userId);
      if r.Ok? {
        userFeatures := userFeatures[userId := r.value];
      }
    }
  }

  /** The registration flow: a user created with "read:activation_token"
      gets a token, the token is found valid, marked as used, and the user
      is activated; afterwards the token is no longer valid and a second
      activation is forbidden. */
  method RegistrationFlow(userId: string, tokenId: string, created: int, used: int)
    returns (found: Result<ActivationToken>, activated: Result<seq<string>>,
             refound: Result<ActivationToken>, reactivated: Result<seq<string>>,
             features: seq<string>)
    requires created <= used < created + ExpirationInMilliseconds
    ensures found.Ok? && found.value.user_id == userId && found.value.used_at == None
    ensures activated == Ok(["create:session", "read:session"])
    ensures features == ["create:session", "read:session"]
    ensures refound == Err(TokenNotFoundError)
    ensures reactivated == Err(CannotActivateError)
  {
    var store := new ActivationStore(map[userId := ["read:activation_token"]]);
    var token := store.Create(userId, tokenId, created);
    found := store.FindValidToken(token.id, used);
    var marked := store.MarkTokenAsUsed(token.id, used);
    activated := store.ActivateUserByUserId(userId);
    features := store.userFeatures[userId];
    refound := store.FindValidToken(token.id, used);
    reactivated := store.ActivateUserByUserId(userId);
  }
}
