/** Field-level authorization guards. Each guard maps the current user (and, for the
    token guard, the outcome of decoding the request's token) either to "allow" (None)
    or to a coded error. Only the token guard changes anything: on success it writes
    the token's user into the request context. */
module Directives {
  import opened Users

  /** The wire codes the guards can deny with. */
  datatype ErrorCode =
    | Unauthenticated
    | NotVerified
    | NoSufficientPermissions
    | InvalidToken
    | ExpiredToken

  /** A coded error; `message` is None when the guard gives no text of its own
      (the code's default text is then used, which is not part of this model). */
  datatype AuthError = AuthError(code: ErrorCode, message: Option<string>)

  /** What decoding the request's token yields: the token's user, a JWT library
      error (bad signature, malformed token, ...), or an expired token. */
  datatype DecodeOutcome = Decoded(user: User) | JwtError | Expired

  /** The four guards; a permission guard carries its declared permission list. */
  datatype Directive =
    | TokenRequired
    | IsAuthenticated
    | IsVerified
    | HasPermission(permissions: seq<string>)

  /** The request context; its `user` slot is what later resolvers see as the current user. */
  class RequestContext {
    var user: User

    constructor (u: User)
      ensures user == u
    {
      user := u;
    }
  }

  /** The codes a guard may produce. */
  function CodesOf(d: Directive): set<ErrorCode>
  {
    match d
    case TokenRequired => {InvalidToken, ExpiredToken}
    case IsAuthenticated => {Unauthenticated}
    case IsVerified => {NotVerified}
    case HasPermission(_) => {NoSufficientPermissions}
  }

  // ---------------------------------------------------------------------------
  // Reference: when each guard lets a request through, stated without order.

  ghost predicate Permits(d: Directive, u: User, outcome: DecodeOutcome)
  {
    match d
    case TokenRequired => outcome.Decoded?
    case IsAuthenticated => u.authenticated
    case IsVerified => u.status.Some? && u.status.value.verified
    case HasPermission(ps) => forall p :: p in ps ==> HasPerm(u, p)
  }

  // ---------------------------------------------------------------------------
  // The verdicts.

  /** The token guard's verdict on a decode outcome; the caller's user plays no part. */
  function TokenVerdict(outcome: DecodeOutcome): (r: Option<AuthError>)
    ensures r.None? <==> outcome.Decoded?
    ensures outcome.JwtError? ==> r == Some(AuthError(InvalidToken, None))
    ensures outcome.Expired? ==> r == Some(AuthError(ExpiredToken, None))
  {
    match outcome
    case JwtError => Some(AuthError(InvalidToken, None))
    case Expired => Some(AuthError(ExpiredToken, None))
    case Decoded(_) => None
  }

  /** The authentication guard: deny exactly the unauthenticated. */
  function AuthenticatedVerdict(u: User): (r: Option<AuthError>)
    ensures r.None? <==> u.authenticated
    ensures r.Some? ==> r.value == AuthError(Unauthenticated, None)
  {
    if !u.authenticated then Some(AuthError(Unauthenticated, None)) else None
  }

  /** The verification guard: allow exactly a user whose status exists and is verified. */
  function VerifiedVerdict(u: User): (r: Option<AuthError>)
    ensures r.None? <==> u.status.Some? && u.status.value.verified
    ensures r.Some? ==> r.value == AuthError(NotVerified, None)
  {
    if u.status.Some? && u.status.value.verified then None else Some(AuthError(NotVerified, None))
  }

  /** The index of the first permission in declaration order that the user lacks. */
  function FirstMissing(ps: seq<string>, u: User): (r: Option<nat>)
    ensures r.None? <==> forall i :: 0 <= i < |ps| ==> HasPerm(u, ps[i])
    ensures r.Some? ==> r.value < |ps| && !HasPerm(u, ps[r.value])
    ensures r.Some? ==> forall j :: 0 <= j < r.value ==> HasPerm(u, ps[j])
    decreases |ps|
  {
    if ps == [] then None
    else if !HasPerm(u, ps[0]) then Some(0)
    else
      match FirstMissing(ps[1..], u)
      case None => None
      case Some(k) => Some(k + 1)
  }

  /** The text of a permission denial: the user's display name and the field's path key. */
  function DenialMessage(u: User, pathKey: string): (m: string)
    ensures |m| == 5 + |DisplayName(u)| + 37 + |pathKey|
    ensures m[..5] == "User "
    ensures m[5..5 + |DisplayName(u)|] == DisplayName(u)
    ensures m[5 + |DisplayName(u)|..5 + |DisplayName(u)| + 37] == ", has not sufficient permissions for "
    ensures m[|m| - |pathKey|..] == pathKey
  {
    "User " + DisplayName(u) + ", has not sufficient permissions for " + pathKey
  }

  /** The permission guard's verdict: the denial as soon as some declared permission is missing. */
  function PermissionVerdict(ps: seq<string>, u: User, pathKey: string): (r: Option<AuthError>)
    ensures r.None? <==> forall i :: 0 <= i < |ps| ==> HasPerm(u, ps[i])
    ensures r.Some? ==> r.value == AuthError(NoSufficientPermissions, Some(DenialMessage(u, pathKey)))
  {
    if FirstMissing(ps, u).None? then None
    else Some(AuthError(NoSufficientPermissions, Some(DenialMessage(u, pathKey))))
  }

  /** Dispatch over the guards: every denial carries one of the guard's own codes. */
  function Verdict(d: Directive, u: User, pathKey: string, outcome: DecodeOutcome): (r: Option<AuthError>)
    ensures r.Some? ==> r.value.code in CodesOf(d)
  {
    match d
    case TokenRequired => TokenVerdict(outcome)
    case IsAuthenticated => AuthenticatedVerdict(u)
    case IsVerified => VerifiedVerdict(u)
    case HasPermission(ps) => PermissionVerdict(ps, u, pathKey)
  }

  // ---------------------------------------------------------------------------
  // The guards as the program runs them.

  /** The permission guard's loop: walk the declared permissions in order and stop at the
      first one the user lacks. `examined` counts the permission checks made. */
  method ResolveHasPermission(ps: seq<string>, u: User, pathKey: string)
    returns (err: Option<AuthError>, ghost examined: nat)
    ensures err == PermissionVerdict(ps, u, pathKey)
    ensures err.None? ==> examined == |ps|
    ensures err.Some? ==> FirstMissing(ps, u) == Some(examined - 1)
  {
    examined := 0;
    for i := 0 to |ps|
      invariant examined == i
      invariant forall j :: 0 <= j < i ==> HasPerm(u, ps[j])
    {
      examined := i + 1;
      if !HasPerm(u, ps[i]) {
        err := Some(AuthError(NoSufficientPermissions, Some(DenialMessage(u, pathKey))));
        return;
      }
    }
    err := None;
  }

  /** The token guard: `found` is what the token finder extracts from the request and
      `decode` stands for decoding a token. On a JWT error or an expired token the
      context is left alone; on success the token's user is written into the context.
      The `user` argument does not enter the outcome. */
  method ResolveTokenRequired(ctx: RequestContext, user: User, found: Option<string>,
                              decode: Option<string> -> DecodeOutcome)
    returns (err: Option<AuthError>)
    modifies ctx
    ensures decode(found).JwtError? ==> err == Some(AuthError(InvalidToken, None)) && ctx.user == old(ctx.user)
    ensures decode(found).Expired? ==> err == Some(AuthError(ExpiredToken, None)) && ctx.user == old(ctx.user)
    ensures decode(found).Decoded? ==> err == None && ctx.user == decode(found).user
    ensures err == TokenVerdict(decode(found))
  {
    var outcome := decode(found);
    match outcome
    case JwtError =>
      return Some(AuthError(InvalidToken, None));
    case Expired =>
      return Some(AuthError(ExpiredToken, None));
    case Decoded(tokenUser) =>
      ctx.user := tokenUser;
      return None;
  }

  /** Run one guard. Only the token guard writes the context, and only when it allows. */
  method ResolvePermission(d: Directive, ctx: RequestContext, user: User, pathKey: string,
                           found: Option<string>, decode: Option<string> -> DecodeOutcome)
    returns (err: Option<AuthError>)
    modifies ctx
    ensures err == Verdict(d, user, pathKey, decode(found))
    ensures ctx.user == if d.TokenRequired? && err.None? then decode(found).user else old(ctx.user)
  {
    match d
    case TokenRequired =>
      err := ResolveTokenRequired(ctx, user, found, decode);
    case IsAuthenticated =>
      err := AuthenticatedVerdict(user);
    case IsVerified =>
      err := VerifiedVerdict(user);
    case HasPermission(ps) =>
      ghost var examined;
      err, examined := ResolveHasPermission(ps, user, pathKey);
  }

  // ---------------------------------------------------------------------------
  // Properties.

  /** A guard allows exactly when the order-free reference says it should. */
  lemma VerdictAllowsIffPermits(d: Directive, u: User, pathKey: string, outcome: DecodeOutcome)
    ensures Verdict(d, u, pathKey, outcome).None? <==> Permits(d, u, outcome)
  {
  }

  /** An empty permission list lets every user through. */
  lemma EmptyPermissionListAllows(u: User, pathKey: string)
    ensures PermissionVerdict([], u, pathKey) == None
  {
  }

  /** Once a prefix of the list already holds a missing permission, the permissions
      declared after it are never examined: they cannot change where the walk stops. */
  lemma {:induction false} FirstMissingIgnoresSuffix(ps: seq<string>, rest: seq<string>, u: User)
    requires FirstMissing(ps, u).Some?
    ensures FirstMissing(ps + rest, u) == FirstMissing(ps, u)
  {
    assert ps != [];
    assert (ps + rest)[0] == ps[0];
    if HasPerm(u, ps[0]) {
      assert (ps + rest)[1..] == ps[1..] + rest;
      FirstMissingIgnoresSuffix(ps[1..], rest, u);
    }
  }

  /** The verdict depends only on which permissions are declared, not on their order
      or repetition: the denial does not say which permission was missing. */
  lemma PermissionVerdictIgnoresOrder(ps: seq<string>, qs: seq<string>, u: User, pathKey: string)
    requires forall p :: p in ps <==> p in qs
    ensures PermissionVerdict(ps, u, pathKey) == PermissionVerdict(qs, u, pathKey)
  {
    if PermissionVerdict(ps, u, pathKey).None? {
      forall i | 0 <= i < |qs| ensures HasPerm(u, qs[i]) {
        assert qs[i] in ps;
      }
    } else if PermissionVerdict(qs, u, pathKey).None? {
      forall i | 0 <= i < |ps| ensures HasPerm(u, ps[i]) {
        assert ps[i] in qs;
      }
    }
  }

  /** Granting a user more permissions never turns an allowed field into a denied one. */
  lemma MorePermissionsStillAllowed(ps: seq<string>, u: User, v: User, pathKey: string)
    requires u.granted <= v.granted
    requires PermissionVerdict(ps, u, pathKey).None?
    ensures PermissionVerdict(ps, v, pathKey).None?
  {
  }

  /** The denial text starts with "User ", then names the user by first name, or by the
      username field's value when the first name is empty, or as "None" when that value is
      absent too, and ends with the path key. */
  lemma DenialMessageNamesUserAndPath(u: User, pathKey: string)
    ensures var m := DenialMessage(u, pathKey);
      && m[..5] == "User "
      && (u.firstName != "" ==> m[5..5 + |u.firstName|] == u.firstName)
      && (u.firstName == "" && u.usernameValue.Some? ==>
            m[5..5 + |u.usernameValue.value|] == u.usernameValue.value)
      && (u.firstName == "" && u.usernameValue.None? ==> m[5..9] == "None")
      && m[|m| - |pathKey|..] == pathKey
  {
  }

  /** With permissions [p1, p2] and only p2 missing, the walk stops at index 1 and denies. */
  lemma SecondPermissionMissing(p1: string, p2: string, u: User, pathKey: string)
    requires HasPerm(u, p1) && !HasPerm(u, p2)
    ensures FirstMissing([p1, p2], u) == Some(1)
    ensures PermissionVerdict([p1, p2], u, pathKey).Some?
  {
  }
}
