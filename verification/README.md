# Field-level authorization guards of strawberry-django-auth

This project models the four authorization directives that the library attaches to
GraphQL fields. Each directive's `resolve_permission` looks at the current user and
answers either "allow" (`None`) or a coded `GQLAuthError`:

- `TokenRequired` finds the request's token, decodes it, and denies with
  `INVALID_TOKEN` or `EXPIRED_TOKEN`. On success it writes the token's user into the
  request context and allows.
- `IsAuthenticated` denies unauthenticated users with `UNAUTHENTICATED`.
- `IsVerified` denies with `NOT_VERIFIED` a user who has no status record or whose
  status is not verified.
- `HasPermission` walks its declared permission list in order. It denies with
  `NO_SUFFICIENT_PERMISSIONS` at the first permission the user lacks. The message names
  the user and the field's path key.

Layout:

- `users.dfy` (module `Users`): the user as the guards see it. It has an authenticated
  flag, an optional status record, the set of granted permission strings, a first name
  and an optional username-field value. It also holds the permission check and the
  display name used in denial messages.
- `directives.dfy` (module `Directives`): the error codes and the coded error; the
  three-way decode outcome (`Decoded(user) | JwtError | Expired`); the `Directive`
  variant that replaces the abstract `BaseAuthDirective`; and the `RequestContext`
  class with its mutable `user` slot. The module gives a pure verdict function per
  guard, the dispatch `Verdict`, and the order-free reference `Permits`. The
  permission walk is a method with a loop. The token guard and the dispatcher are
  methods that may write the context. The lemmas follow.

A permission denial's message (gqlauth/core/directives.py:104-106) names the user and
the field's path key, not the missing permission. So the verdict never depends on which
permission was missing (`PermissionVerdictIgnoresOrder`). `FirstMissing` and
`ResolveHasPermission` record where the walk stops.

## Model

| member | source | states |
|---|---|---|
| Directives.TokenVerdict | gqlauth/core/directives.py:51-61 | allows exactly when the token decodes; a JWT library error gives `INVALID_TOKEN`, an expired token gives `EXPIRED_TOKEN`, never the other |
| Directives.ResolveTokenRequired | gqlauth/core/directives.py:42-61 | on a JWT error: `INVALID_TOKEN` and the context user unchanged; on expiry: `EXPIRED_TOKEN` and the context user unchanged; on success: no error and the context user becomes the token's user; the incoming `user` argument enters none of these |
| Directives.AuthenticatedVerdict | gqlauth/core/directives.py:70-74 | `UNAUTHENTICATED` exactly when the user is not authenticated, otherwise allow |
| Directives.VerifiedVerdict | gqlauth/core/directives.py:83-87 | allow exactly when a status record exists and is verified; an absent record and an unverified one both give `NOT_VERIFIED` |
| Directives.FirstMissing | gqlauth/core/directives.py:100-101 | finds the first declared permission the user lacks: every earlier one is held; none is found exactly when all are held |
| Directives.PermissionVerdict | gqlauth/core/directives.py:99-108 | allow if and only if the user holds every declared permission; otherwise `NO_SUFFICIENT_PERMISSIONS` with the message naming user and path key |
| Directives.ResolveHasPermission | gqlauth/core/directives.py:96-108 | the loop returns the permission verdict; when it denies it has made exactly as many checks as the position of the first missing permission plus one, so later permissions are not examined; when it allows it has checked them all |
| Directives.Verdict | gqlauth/core/directives.py:23-33 | dispatch over the four guards; a denial always carries one of the dispatched guard's own codes |
| Directives.ResolvePermission | gqlauth/core/directives.py:23-33 | running a guard returns its verdict; the context user changes only when the token guard allows, and then becomes the token's user |
| Directives.VerdictAllowsIffPermits | gqlauth/core/directives.py:42-108 | every guard allows exactly when the order-free reference condition holds (token decoded, authenticated, verified status, all permissions held) |
| Directives.EmptyPermissionListAllows | gqlauth/core/directives.py:100-108 | a permission guard with an empty list allows every user |
| Directives.FirstMissingIgnoresSuffix | gqlauth/core/directives.py:100-107 | once a prefix of the list holds a missing permission, appending further permissions does not move where the walk stops |
| Directives.PermissionVerdictIgnoresOrder | gqlauth/core/directives.py:99-108 | two permission lists with the same members give the same verdict, whatever their order or repetitions |
| Directives.MorePermissionsStillAllowed | gqlauth/core/directives.py:99-108 | granting a user more permissions never turns an allowed field into a denied one |
| Users.DisplayName | gqlauth/core/directives.py:105 | the user is named by the first name when it is non-empty; otherwise by the username-field value; with no such value, by the text "None" |
| Directives.DenialMessage | gqlauth/core/directives.py:104-106 | the denial text is "User ", then the user's display name, then ", has not sufficient permissions for ", then the path key, and nothing else |
| Directives.DenialMessageNamesUserAndPath | gqlauth/core/directives.py:104-106 | the denial text starts with "User ", then names the user by first name when non-empty, else by the username-field value, else by "None", and ends with the path key |
| Directives.SecondPermissionMissing | gqlauth/core/directives.py:100-107 | with `[p1, p2]` where only `p2` is missing, the walk stops at index 1 and denies |

## Left out

- Token finding and decoding are parameters. `found` is what the configured token finder
  returns, and `decode` maps it to one of the three outcomes. Signature and expiry
  checking, the JWT library and `TokenType.from_token` are not part of this model. This
  includes what decoding does with no token at all.
- The source catches the JWT library's error class before its own `TokenExpired`. If
  `TokenExpired` were a subclass of that error class, expired tokens would be reported
  as `INVALID_TOKEN`. The class relationship is not part of this model, so the two
  outcomes are kept distinct, as the code's intent reads.
- The user lookup behind the token (`get_user_instance`), the status lookup, the
  permission check and the authenticated flag are persistence-layer calls. They are
  fields of the user value. The permission check is set membership, so rules such as
  "superusers hold every permission" are not modelled.
- The model's user always has a first name and a username-field value (possibly
  absent). The anonymous user of the framework has neither attribute, and what formatting
  the message would do for it is not part of this model.
- Message translation (`gettext`) is taken as the identity. Errors raised without a
  message use the code's default text, which is not part of this model (`message ==
  None`).
- The schema-directive decorators, their descriptions and locations, and the unused
  `source`, `args` and `kwargs` parameters are framework glue. Of `info`, only the path
  key and the context's user slot are modelled.
- Whatever pipeline orders and runs several directives on one field is not in the
  modelled file, so no ordering or short-circuit between guards is modelled.
- Token revocation, email swapping and the `me`/`publicUser` queries are exercised by
  the repository's tests but implemented elsewhere. They are not part of this model.
