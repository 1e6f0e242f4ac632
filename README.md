# home-buddy: a verified model of its authentication and inventory core

home-buddy is a household inventory application. It has a NestJS backend with Prisma, Redis and JWT authentication, and a Next.js frontend that keeps an IndexedDB copy of the products. This project models these parts of it in Dafny:

- **Session-backed token lifecycle.**
  - The backend issues a pair of JWTs per user: an access token of 900 s and a refresh token of 604800 s.
  - Both tokens are stored in Redis under `auth:accessToken:<id>` and `auth:refreshToken:<id>`.
  - Logout and refresh delete or rotate both entries.
  - A presented token is accepted only while it equals the stored one.
  - The model covers the auth service, the Redis wrapper, the JWT strategy, the bearer/cookie guard, the Google strategy and the user entity.
- **Frontend gates.**
  - The route middleware is a decision over (token cookie present, path).
  - The axios response interceptor retries a request at most once after a 401.
- **Inventory tables.**
  - Product names are unique per user; category names are unique globally.
  - The product and stock records are created together.
  - `findAll` returns the caller's products, newest first.
  - Each operation of the IndexedDB product store runs in one transaction that commits all its requests or none.
  - Also modelled: the product modal store, the quantity stepper, the zod form schemas and the edit dialog's error messages.
- **Input validation.**
  - The class-validator decorators of every DTO are modelled as a small rule language, plus the class-transformer defaults.
  - `ParseInt10` models JavaScript's `parseInt(value, 10)`, which `@Transform` applies to query strings.

Conventions:

- **Time.** Time is a logical clock `now: int` in seconds, passed as a parameter. A Redis entry records its absolute expiry and is live while `now < expiresAt`.
- **JWT.** Signing and verification are a pair of functions (`Jwt.JwtService`). Their one expected property is the ghost predicate `Jwt.Sound`: a token verifies to the claims it was signed from while unexpired, and never after `exp`. The fact that the two tokens of a pair differ is derived from `Sound` and their different lifetimes.
- **Parameters.** bcrypt's `hash` and `compare`, an e-mail grammar predicate, and `validateToken`/`decodeToken` are function parameters.
- **Database.** Prisma tables are sequences of rows. Auto-increment ids are a counter field.

Two behaviours of the code that a reader might not expect; the model follows the code in both:

- The Google strategy derives `username` from the first e-mail's text before its first `@`, exactly the way `split('@')[0]` does.
- The product `update` locates the row by id alone, without the owner (see Findings).

## Model

| member | source | states |
|---|---|---|
| Redis.StoredKeyInjective | apps/backend/src/redis/redis.service.ts:9-23 | the shared `auth:` prefix maps distinct logical keys to distinct stored keys |
| Redis.Read | apps/backend/src/redis/redis.service.ts:17-19 | a key reads as a value exactly when its stored key is present and not yet expired, and then it is the stored value |
| Redis.Write | apps/backend/src/redis/redis.service.ts:14 | `SET auth:<key> value EX seconds` stores the value under the prefixed key with expiry now + seconds and leaves every other stored key as it was |
| Redis.Delete | apps/backend/src/redis/redis.service.ts:22 | `DEL auth:<key>` removes the prefixed key, whether or not it was present, and leaves every other stored key as it was |
| Redis.ReadAfterWrite | apps/backend/src/redis/redis.service.ts:9-15 | a value set for s > 0 seconds reads back until now + s and reads as null from then on; a second set replaces the first |
| Redis.ReadAfterDelete | apps/backend/src/redis/redis.service.ts:21-23 | after `removeToken(k)`, `getToken(k)` is null at every time |
| Redis.OtherKeysUntouched | apps/backend/src/redis/redis.service.ts:9-23 | writing or deleting one key leaves every other key's reading unchanged |
| Redis.RedisService.constructor | apps/backend/src/redis/redis.service.ts:7 | the store starts empty |
| Redis.RedisService.SetToken | apps/backend/src/redis/redis.service.ts:9-15 | the new store is the old one with `auth:<key>` set to the token, expiring after `expiresIn` seconds |
| Redis.RedisService.GetToken | apps/backend/src/redis/redis.service.ts:17-19 | returns the live value of `auth:<key>`, or None |
| Redis.RedisService.RemoveToken | apps/backend/src/redis/redis.service.ts:21-23 | the new store is the old one without `auth:<key>` |
| Jwt.Payload | apps/backend/src/auth/auth.service.ts:75-84 | the signed claims carry `sub` = id and the username, and `exp - iat` is the configured lifetime |
| Jwt.SignInjective | apps/backend/src/auth/auth.module.ts:11-15 | a sound signer never gives two different claim sets the same token |
| Jwt.PairTokensDistinct | apps/backend/src/auth/auth.service.ts:75-84 | the access and refresh tokens of one pair differ, although one secret signs both |
| Jwt.TokensOfDifferentSecondsDistinct | apps/backend/src/auth/auth.service.ts:75-84 | tokens with the same lifetime signed in different seconds differ |
| Identity.FindBy | apps/backend/src/auth/auth.service.ts:24-28 | `findUnique` returns a row of the table that matches, or null only when no row matches |
| Identity.FindByUsername | apps/backend/src/auth/auth.service.ts:48-50 | null exactly when no row has that username |
| Identity.FindByEmail | apps/backend/src/auth/auth.service.ts:52-54 | null exactly when no row has that e-mail |
| Identity.FindById | apps/backend/src/users/users.service.ts:25-29 | `findUnique({ where: { id } })`: null exactly when no row has the id, otherwise a row of the table with that id |
| Identity.AppendKeepsColumnsUnique | apps/backend/src/auth/auth.service.ts:43-62 | a row whose id, username and e-mail are all new keeps the user table's unique columns unique |
| Identity.FindByIdUnique | apps/backend/src/auth/auth.service.ts:137-140 | with unique ids, lookup by id returns the one row with that id |
| Identity.FindByUsernameUnique | apps/backend/src/auth/auth.service.ts:24 | with unique usernames, lookup by username returns the one row with that username |
| Auth.SessionKeysDistinct | apps/backend/src/auth/auth.service.ts:85-94 | `accessToken:<a>` never equals `refreshToken:<b>`, and different users never share a key |
| Auth.PairFor | apps/backend/src/auth/auth.service.ts:75-84 | the two `sign` calls: under a sound signer the access token verifies now to the 900 s claims, the refresh token to the 604800 s claims, and the two differ |
| Auth.Issue | apps/backend/src/auth/auth.service.ts:85-94 | after `generateTokens` the user's access and refresh keys read as the new tokens, and every other key is unchanged |
| Auth.Revoke | apps/backend/src/auth/auth.service.ts:102-105 | after logout both keys of that user read as null at every time, and every other key is unchanged |
| Auth.ValidateUser | apps/backend/src/auth/auth.service.ts:20-41 | null exactly when the username is unknown or the password fails the stored hash; a match exactly when the row is found, has a hash and `compare` accepts, and then it is the row's {id, username, email}; a rejection from `compare` exactly when the row has no hash |
| Auth.GetProfile | apps/backend/src/auth/auth.service.ts:107-115 | Unauthorized('User not found') exactly when no row has the id; otherwise the row without its password |
| Auth.RefreshCheck | apps/backend/src/auth/auth.service.ts:117-146 | succeeds exactly when the token verifies, has a `sub`, equals the stored refresh token of that `sub`, the `sub` is not 0 and the user exists; every failure is the same Unauthorized message |
| Auth.AuthService.constructor | apps/backend/src/auth/auth.service.ts:13-18 | an empty user table with its invariant, bound to the given store and signer |
| Auth.AuthService.GenerateTokens | apps/backend/src/auth/auth.service.ts:75-100 | returns the pair signed now and stores it as `Issue` says |
| Auth.AuthService.SignIn | apps/backend/src/auth/auth.service.ts:69-73 | issues and stores a fresh pair for the validated user |
| Auth.AuthService.SignUp | apps/backend/src/auth/auth.service.ts:43-66 | Conflict exactly when the username or the e-mail exists, and then nothing changes; otherwise exactly one new row with the hash, the next id and a stored fresh pair; the table's unique columns are kept |
| Auth.AuthService.Logout | apps/backend/src/auth/auth.service.ts:102-105 | the store becomes `Revoke` of the old one |
| Auth.AuthService.RefreshToken | apps/backend/src/auth/auth.service.ts:117-146 | fails exactly when `RefreshCheck` fails, and then the store is unchanged; on success both entries rotate to a pair signed now for the stored user |
| JwtStrategy.ExtractToken | apps/backend/src/auth/strategies/jwt.strategy.ts:12-17 | the bearer header's token when it is truthy, otherwise the `access_token` cookie |
| JwtStrategy.Validate | apps/backend/src/auth/strategies/jwt.strategy.ts:24-42 | authenticated exactly when a token is present, the payload has a `sub` and the token equals the live `accessToken:<sub>`; the principal is exactly {sub, username} |
| JwtStrategy.Authenticate | apps/backend/src/auth/strategies/jwt.strategy.ts:12-42 | with `ignoreExpiration: false`, only a token that verifies at `now` and equals the stored entry authenticates |
| Sessions.IssuedAccessTokenAuthenticates | apps/backend/src/auth/auth.service.ts:75-100 | a freshly issued access token authenticates its user for the 900 seconds of its entry |
| Sessions.LogoutRevokesAccess | apps/backend/src/auth/strategies/jwt.strategy.ts:33-39 | after logout no token whose `sub` is that user authenticates, whatever its signature |
| Sessions.LogoutRevokesRefresh | apps/backend/src/auth/auth.service.ts:102-105 | after logout the user's refresh token no longer refreshes |
| Sessions.ReissueRevokesFirstAccessToken | apps/backend/src/auth/auth.service.ts:85-94 | a second pair issued in another second overwrites the first, whose access token then no longer authenticates |
| Sessions.RefreshTokenIsNotAnAccessToken | apps/backend/src/auth/strategies/jwt.strategy.ts:33-39 | a pair's refresh token is refused as an access token |
| Sessions.AccessTokenDoesNotRefresh | apps/backend/src/auth/auth.service.ts:129-131 | a pair's access token is refused by the refresh endpoint |
| Sessions.UsedRefreshTokenIsRefused | apps/backend/src/auth/auth.service.ts:117-146 | after a successful refresh in a later second, the old refresh token is refused |
| Sessions.SameSecondRefreshKeepsToken | apps/backend/src/auth/auth.service.ts:75-100 | a refresh within the second its pair was issued stores the same tokens again, so the old refresh token stays valid |
| AuthGuard.ExtractTokenFromHeader | apps/backend/src/auth/auth.guard.ts:35-43 | when the header's first space-separated word is exactly `Bearer`, the second word (possibly absent); otherwise the `access_token` cookie |
| AuthGuard.BearerHeaderYieldsToken | apps/backend/src/auth/auth.guard.ts:35-40 | `Bearer <t>` yields t whatever the cookie holds |
| AuthGuard.ExtraFieldsIgnored | apps/backend/src/auth/auth.guard.ts:36 | fields after the second are ignored |
| AuthGuard.BareSchemeYieldsNothing | apps/backend/src/auth/auth.guard.ts:36-40 | a header of exactly `Bearer` yields no token and the cookie is not consulted |
| AuthGuard.DoubleSpaceYieldsEmptyToken | apps/backend/src/auth/auth.guard.ts:36 | `Bearer` followed by two spaces yields the empty token |
| AuthGuard.OtherSchemeFallsBackToCookie | apps/backend/src/auth/auth.guard.ts:36-42 | any other first word falls back to the cookie |
| AuthGuard.LowerCaseSchemeIsNotBearer | apps/backend/src/auth/auth.guard.ts:38 | `bearer` is matched case-sensitively and falls back to the cookie |
| AuthGuard.HttpRequest.constructor | apps/backend/src/auth/auth.guard.ts:15 | a request with the given header and cookies and no user yet |
| AuthGuard.CanActivate | apps/backend/src/auth/auth.guard.ts:14-33 | allowed exactly when the token is present, non-empty and valid; then `request.user` is the decoded payload, otherwise it is unchanged |
| GoogleStrategy.MapProfile | apps/backend/src/auth/strategies/google.strategy.ts:39-46 | e-mail is the first e-mail; username is its text before the first `@`; names default to ''; picture is the first photo or null; googleId is the profile id |
| GoogleStrategy.Validate | apps/backend/src/auth/strategies/google.strategy.ts:24-62 | no e-mail gives done(Error('No email found…'), null); otherwise done(null, user), done(err, null) for a thrown Error, and Error('Unknown error') for any other throw; exactly one of err and user is set |
| GoogleStrategy.NoEmailNeverResolves | apps/backend/src/auth/strategies/google.strategy.ts:34-37 | without an e-mail the outcome does not depend on `validateOrCreateGoogleUser` |
| GoogleStrategy.UsernameIsLocalPart | apps/backend/src/auth/strategies/google.strategy.ts:40-41 | `local@domain` gives the username `local` |
| UserEntities.UserEntity.ToJwtObject | apps/backend/src/users/entities/user.entity.ts:12-17 | the payload carries the entity's id and username and converts back to the same entity |
| UserEntities.UserEntity.FromJwtObject | apps/backend/src/users/entities/user.entity.ts:23-26 | the entity has the payload's id and username |
| UserEntities.UserEntity.ToEntity | apps/backend/src/users/entities/user.entity.ts:19-21 | keeps exactly the row's id and username |
| UserEntities.RoundTrips | apps/backend/src/users/entities/user.entity.ts:7-26 | entity → payload → entity and payload → entity → payload are both the identity |
| Middleware.FindRoute | apps/frontend/src/middleware.ts:16 | the route found has exactly that path; none exactly when no public route has it |
| Middleware.Decide | apps/frontend/src/middleware.ts:12-40 | no token: public paths continue and all others redirect to `/login`; with a token, `/login` and `/register` redirect to `/` and every other path continues; the only redirect targets are `/login` and `/` |
| Middleware.RedirectTargetsSettle | apps/frontend/src/middleware.ts:4-10 | a redirect's target, requested with the same cookie state, continues |
| Middleware.ProceedRouteContinues | apps/frontend/src/middleware.ts:7 | the route marked `next` is declared without a leading slash, so the pathname `/products` redirects to `/login` without a token and continues with one; only the literal `products` matches that route |
| ApiClient.RequestConfig.constructor | apps/frontend/src/api/client.ts:13 | a request config starts without `_retry` |
| ApiClient.Expected | apps/frontend/src/api/client.ts:10-30 | successes pass through; only a first 401 refreshes, at most once; after a successful refresh the request is re-sent exactly once, with no navigation, and settles as the re-sent request does; other errors reject unchanged; a failed refresh navigates to `/login` and rejects with the refresh error, without re-sending |
| ApiClient.OnResponse | apps/frontend/src/api/client.ts:10-11 | the interceptor's behaviour is `Expected`, and `_retry` is set exactly after a 401 |
| ApiClient.OnRejected | apps/frontend/src/api/client.ts:12-29 | the error handler's behaviour is `Expected`, and `_retry` is set exactly after a 401 |
| ApiClient.RetriedAtMostOnce | apps/frontend/src/api/client.ts:15 | a request already marked `_retry` never refreshes, and any request is re-sent at most once |
| Products.UpdateRows | apps/backend/src/products/products.service.ts:106-114 | the row with the id gets the new name, unit, category and description; other rows, ids, owners and creation times are unchanged |
| Products.Updated | apps/backend/src/products/products.service.ts:106-114 | the `data` of the update: name, unit and category are the DTO's, the description is the DTO's when given and kept when undefined, and id, owner and creation time are kept |
| Products.UpdateAsWritten | apps/backend/src/products/products.service.ts:89-121 | the update as the code does it: Conflict exactly when another product of the caller has the name; otherwise RecordNotFound exactly when no row has the id, whoever owns it; a foreign-key error exactly when the row exists and the category does not; success exactly when the name is free, some row has the id and the category exists, and then the rows with that id are rewritten as `UpdateRows` says |
| Products.UpdateAsWrittenBreaksUniqueness | apps/backend/src/products/products.service.ts:94-114 | a user can rename another user's product to a name that other user already has, leaving two products of that name |
| Products.UpdateOwned | apps/backend/src/products/products.service.ts:89-121 | Conflict exactly when another product of the caller has the name; otherwise RecordNotFound exactly when the caller owns no row with the id; a foreign-key error exactly when the caller owns it and the category does not exist; success exactly when none of these happen, and then the table is `UpdateRows` |
| Products.UpdateRowsKeepsIds | apps/backend/src/products/products.service.ts:106-114 | an update keeps ids unique |
| Products.RenameKeepsNamesUnique | apps/backend/src/products/products.service.ts:94-104 | renaming a product to a name no other product of its owner has keeps names unique per user |
| Products.UpdateOwnedKeepsNamesUnique | apps/backend/src/products/products.service.ts:89-121 | a successful owned update keeps names unique per user |
| Products.OwnedUpdateKeepsValid | apps/backend/src/products/products.service.ts:89-121 | a successful owned update keeps the table invariant and returns the row the caller owned |
| Products.InsertByCreatedAt | apps/backend/src/products/products.service.ts:68-70 | inserting into a newest-first list keeps it newest-first and adds exactly that product |
| Products.OwnedBy | apps/backend/src/products/products.service.ts:65-67 | exactly the products whose owner is the user |
| Products.SortNewestFirst | apps/backend/src/products/products.service.ts:68-70 | a newest-first permutation of its input |
| Products.FindAll | apps/backend/src/products/products.service.ts:62-72 | exactly the user's products, each once, newest `createdAt` first |
| Products.ProductsService.constructor | apps/backend/src/products/products.service.ts:15 | empty tables satisfying the invariant |
| Products.ProductsService.Create | apps/backend/src/products/products.service.ts:17-60 | UnprocessableEntity exactly when the caller has a product of that name; with the name free, BadRequest exactly when the category or the user row is missing, with nothing written; success exactly when neither happens, and then one product and one linked stock with the DTO's values, returned together |
| Products.ProductsService.Update | apps/backend/src/products/products.service.ts:89-121 | fails exactly when `UpdateOwned` fails; on success the products become `UpdateRows` and the stocks are untouched |
| Categories.Find | apps/backend/src/categories/categories.service.ts:41-53 | NotFound exactly when no category has the id; otherwise a category with that id |
| Categories.FindIsTheCategory | apps/backend/src/categories/categories.service.ts:41-53 | with unique ids, the category found is the stored one |
| Categories.CategoriesService.constructor | apps/backend/src/categories/categories.service.ts:13 | an empty table |
| Categories.CategoriesService.Create | apps/backend/src/categories/categories.service.ts:15-33 | UnprocessableEntity('Categoria já existe') exactly when any category has the name, whoever created it; otherwise appends and returns the new category |
| Categories.CategoriesService.FindAll | apps/backend/src/categories/categories.service.ts:35-39 | every category, each as often as in the table |
| Categories.CategoriesService.FindOne | apps/backend/src/categories/categories.service.ts:41-53 | the result of `Find` on the table |
| Categories.CreateThenFindOne | apps/backend/src/categories/categories.service.ts:15-53 | a category just created is found by its id |
| ProductIndexedDb.Adjusted | apps/frontend/src/features/products/api/indexed-db.service.ts:43-47 | only `stock.currentQuantity` moves, by exactly delta |
| ProductIndexedDb.ProductStore.constructor | apps/frontend/src/features/products/api/indexed-db.service.ts:11-17 | an empty store |
| ProductIndexedDb.ProductStore.Add | apps/frontend/src/features/products/api/indexed-db.service.ts:26-34 | stores p under `p.id`; a key already present aborts with a ConstraintError and nothing changes |
| ProductIndexedDb.ProductStore.Step | apps/frontend/src/features/products/api/indexed-db.service.ts:36-66 | a missing record aborts and nothing changes; otherwise only that record is replaced by `Adjusted` |
| ProductIndexedDb.ProductStore.AddQuantity | apps/frontend/src/features/products/api/indexed-db.service.ts:36-50 | raises that record's current quantity by exactly 1 |
| ProductIndexedDb.ProductStore.DecreaseQuantity | apps/frontend/src/features/products/api/indexed-db.service.ts:52-66 | lowers it by exactly 1 |
| ProductIndexedDb.ProductStore.GetAll | apps/frontend/src/features/products/api/indexed-db.service.ts:68-83 | every stored record exactly once, in ascending key order |
| ProductIndexedDb.ProductStore.Update | apps/frontend/src/features/products/api/indexed-db.service.ts:85-95 | always commits, and key id then maps to p |
| ProductIndexedDb.ProductStore.Delete | apps/frontend/src/features/products/api/indexed-db.service.ts:97-105 | always commits, and key id is gone |
| ProductIndexedDb.StepTouchesOnlyItsQuantity | apps/frontend/src/features/products/api/indexed-db.service.ts:43-47 | a step leaves the other records and the record's other fields unchanged |
| ProductIndexedDb.IncrementThenDecrementRestores | apps/frontend/src/features/products/api/indexed-db.service.ts:36-66 | `addQuantity` then `decreaseQuantity` restores the store |
| ProductIndexedDb.DecrementHasNoFloor | apps/frontend/src/features/products/api/indexed-db.service.ts:59-63 | a decrement from 0 stores -1 |
| ProductIndexedDb.AddStepBack | apps/frontend/src/features/products/api/indexed-db.service.ts:26-66 | add, increment, decrement leaves the added record in the store |
| ModalStore.ToggleAdd | apps/frontend/src/features/products/stores/modal.store.ts:21-24 | flips `isAddModalOpen` and leaves the rest unchanged |
| ModalStore.ToggleEdit | apps/frontend/src/features/products/stores/modal.store.ts:28-29 | flips `isEditModalOpen` and leaves the rest unchanged |
| ModalStore.ToggleDelete | apps/frontend/src/features/products/stores/modal.store.ts:34-35 | flips `isDeleteModalOpen` and leaves the rest unchanged |
| ModalStore.TogglesAreInvolutions | apps/frontend/src/features/products/stores/modal.store.ts:19-37 | each toggle undoes itself and the toggles commute |
| ModalStore.ProductModalStore.constructor | apps/frontend/src/features/products/stores/modal.store.ts:19-37 | all modals closed, nothing selected |
| ModalStore.ProductModalStore.ToggleAddModal | apps/frontend/src/features/products/stores/modal.store.ts:21-24 | the state becomes `ToggleAdd` of the old one |
| ModalStore.ProductModalStore.ToggleEditModal | apps/frontend/src/features/products/stores/modal.store.ts:28-29 | the state becomes `ToggleEdit` of the old one |
| ModalStore.ProductModalStore.SetEditingProduct | apps/frontend/src/features/products/stores/modal.store.ts:30 | only the editing product changes |
| ModalStore.ProductModalStore.ToggleDeleteModal | apps/frontend/src/features/products/stores/modal.store.ts:34-35 | the state becomes `ToggleDelete` of the old one |
| ModalStore.ProductModalStore.SetDeletingProductId | apps/frontend/src/features/products/stores/modal.store.ts:36 | only the deleting product id changes |
| ModalStore.EditRoundTrip | apps/frontend/src/features/products/stores/modal.store.ts:26-30 | opening and closing the edit modal around a selection leaves only the selection changed |
| QuantityModel.Stepped | apps/frontend/src/features/products/model/quantity.model.ts:74-78 | current + change, clamped to at least 1 |
| QuantityModel.SteppedIsValidQuantity | apps/frontend/src/features/products/model/quantity.model.ts:74-78 | every stepped value passes `quantitySchema` |
| QuantityModel.SubmitPatch | apps/frontend/src/features/products/model/quantity.model.ts:30-36 | patches `products/update-stock/<id>` with the form's quantity and movement type |
| QuantityModel.SelectedPath | apps/frontend/src/features/products/model/quantity.model.ts:32 | the template literal: `products/update-stock/` followed by the id in decimal, or by `null` when no product is selected |
| QuantityModel.SelectedPathInjective | apps/frontend/src/features/products/model/quantity.model.ts:32 | different selections, a missing one included, give different paths |
| QuantityModel.ErrorToast | apps/frontend/src/features/products/model/quantity.model.ts:40-49 | the duplicate-name message exactly for status 422, the generic failure otherwise |
| QuantityModel.SuccessToast | apps/frontend/src/features/products/model/quantity.model.ts:53-61 | the "added" message exactly for IN, the "removed" message exactly for OUT |
| QuantityModel.QuantityForm.constructor | apps/frontend/src/features/products/model/quantity.model.ts:21-26 | the quantity starts at 0 |
| QuantityModel.QuantityForm.HandleQuantityChange | apps/frontend/src/features/products/model/quantity.model.ts:74-78 | the quantity becomes `Stepped` of the old one |
| QuantityModel.QuantityForm.OnOpenChanged | apps/frontend/src/features/products/model/quantity.model.ts:64-68 | opening the modal resets the quantity to 0; closing leaves it |
| QuantityModel.QuantityForm.OnSuccess | apps/frontend/src/features/products/model/quantity.model.ts:53-61 | returns the movement's success message and resets the quantity |
| QuantityModel.OpenThenStep | apps/frontend/src/features/products/model/quantity.model.ts:64-78 | after opening and one step, the quantity is valid |
| ProductSchema.CreateProductIssues | apps/frontend/src/features/products/ui/product.schema.ts:4-15 | no issues exactly when the name is non-empty, the unit is listed, the category is an integer, the current quantity is ≥ 0 and the desired quantity is > 0; each rule's issue appears exactly when it fails |
| ProductSchema.QuantityIssues | apps/frontend/src/features/products/ui/product.schema.ts:17-19 | no issue exactly for a positive quantity |
| ProductSchema.QuantityBoundaries | apps/frontend/src/features/products/ui/product.schema.ts:9-14 | 0 is a valid current quantity, 0 is not a valid desired quantity, the description never matters |
| ProductSchema.FractionalCategoryRefused | apps/frontend/src/features/products/ui/product.schema.ts:8 | a fractional category id is the one issue |
| UpdateProductDialog.EditErrorToast | apps/frontend/src/features/products/ui/update-product-dialog.tsx:42-61 | 400 or 404 → not found; 401 or 403 → not allowed; 409 → name in use; any other axios error → failure; a non-axios error shows nothing |
| UpdateProductDialog.ConflictShowsNameInUse | apps/frontend/src/features/products/ui/update-product-dialog.tsx:42-61 | 409 shows the name-in-use message; 422 or no status shows the generic failure |
| UpdateProductDialog.EditIssues | apps/frontend/src/features/products/ui/update-product-dialog.tsx:63-76 | no issues exactly when the id is an integer and the create schema passes |
| UpdateProductDialog.EditAgreesWithCreate | apps/frontend/src/features/products/ui/update-product-dialog.tsx:63-76 | with an integer id, the edit schema reports what the create schema reports |
| ClassValidator.MeasuredLength | apps/backend/src/users/dto/create-user.dto.ts:8 | length in code points ignoring variation selectors; the plain length when there are none |
| ClassValidator.FailedRules | apps/backend/src/main.ts:12 | a failure is reported exactly for each rule of the property that the value does not pass; rules are listed as written, and the failures come last-written rule first, the order in which the bottom-up decorators register them |
| ClassValidator.Check | apps/backend/src/main.ts:12 | an optional property that is null or undefined passes; otherwise every rule is checked |
| ClassValidator.NoFailuresIffAllPass | apps/backend/src/main.ts:12 | no failures exactly when every rule passes |
| CreateUserDto.TextRules | apps/backend/src/users/dto/create-user.dto.ts:5-9 | non-empty string of at least `min` characters |
| CreateUserDto.EmailRulesMean | apps/backend/src/users/dto/create-user.dto.ts:11-14 | a non-empty string that is an e-mail |
| CreateUserDto.Failures | apps/backend/src/users/dto/create-user.dto.ts:4-21 | valid exactly when the username has ≥ 4 characters, the e-mail is an e-mail and the password has ≥ 8 characters |
| CreateUserDto.MissingUsernameFailsLastRuleFirst | apps/backend/src/users/dto/create-user.dto.ts:6-9 | a body without a username starts its failures with minLength, isString, isNotEmpty, in that order |
| CreateUserDto.Parse | apps/backend/src/users/dto/create-user.dto.ts:4-21 | a valid body becomes the sign-up request with its three strings; an invalid one reports its failures |
| SignInDto.BoundedTextRules | apps/backend/src/users/dto/sign-in.dto.ts:6-17 | a string with between min and max characters |
| SignInDto.Failures | apps/backend/src/users/dto/sign-in.dto.ts:4-18 | valid exactly when the username has 4 to 20 characters and the password 6 to 20 |
| SignInDto.LongPasswordRegistersButCannotSignIn | apps/backend/src/users/dto/sign-in.dto.ts:13-17 | a password over 20 characters is accepted at registration and refused at sign-in |
| SignInDto.SignInWithinRegistration | apps/backend/src/users/dto/create-user.dto.ts:16-20 | a sign-in body with a password of ≥ 8 characters and a valid e-mail also passes registration |
| CreateProductDto.WithDefaults | apps/backend/src/products/dto/create-product.dto.ts:12-26 | an absent unit becomes 'unidade' and an absent current quantity 0; an explicit value, null included, stays |
| CreateProductDto.NonEmptyTextRules | apps/backend/src/products/dto/create-product.dto.ts:4-6 | a non-empty string |
| CreateProductDto.IntegerRules | apps/backend/src/products/dto/create-product.dto.ts:16-22 | a present integer |
| CreateProductDto.OptionalRule | apps/backend/src/products/dto/create-product.dto.ts:8-10 | null or undefined, or passing the rule |
| CreateProductDto.TextFailures | apps/backend/src/products/dto/create-product.dto.ts:4-14 | no failures exactly when the name, description and unit rules hold |
| CreateProductDto.NumberFailures | apps/backend/src/products/dto/create-product.dto.ts:16-26 | no failures exactly when the category, desired and current quantity rules hold |
| CreateProductDto.Failures | apps/backend/src/products/dto/create-product.dto.ts:3-27 | no failures exactly when the body with its defaults is a valid instance |
| CreateProductDto.Parse | apps/backend/src/products/dto/create-product.dto.ts:3-27 | a valid body becomes the DTO: name, unit, category and desired quantity are the body's values after defaults; the description is the body's string, or absent when the body has none; the current quantity is the body's number, or absent when it is null; an invalid body reports its failures |
| CreateProductDto.DefaultsApply | apps/backend/src/products/dto/create-product.dto.ts:12-26 | omitting the unit and current quantity gives 'unidade' and 0 |
| CreateProductDto.NullUnitRefused | apps/backend/src/products/dto/create-product.dto.ts:12-14 | an explicit null unit is not defaulted and fails |
| CreateProductDto.NegativeDesiredQuantityPasses | apps/backend/src/products/dto/create-product.dto.ts:20-22 | a desired quantity of -5 is accepted |
| UpdateProductStockDto.MovementText | apps/backend/src/products/dto/update-product-stock.dto.ts:14-15 | each movement's text is one of the enum values |
| UpdateProductStockDto.PositiveNumberRules | apps/backend/src/products/dto/update-product-stock.dto.ts:10-12 | a number above 0 |
| UpdateProductStockDto.MovementRule | apps/backend/src/products/dto/update-product-stock.dto.ts:14-15 | exactly 'IN' or 'OUT' |
| UpdateProductStockDto.Failures | apps/backend/src/products/dto/update-product-stock.dto.ts:9-16 | valid exactly when the quantity is positive and the type is a movement |
| UpdateProductStockDto.Parse | apps/backend/src/products/dto/update-product-stock.dto.ts:9-16 | a valid body becomes the movement with its quantity and type |
| UpdateProductStockDto.FormMovementAccepted | apps/backend/src/products/dto/update-product-stock.dto.ts:9-16 | every positive quantity with either movement is accepted as sent |
| MostConsumedDto.Transformed | apps/backend/src/products/dto/most-consumed.dto.ts:5-15 | an absent parameter stays undefined; any other value goes through `parseInt(value, 10)` |
| MostConsumedDto.QueryText | apps/backend/src/products/dto/most-consumed.dto.ts:5-11 | `String(value)` of a query value: a text as it is, a repeated parameter as its items joined by commas (the first item first, then a comma), an empty array as `""`, an object as `[object Object]` |
| MostConsumedDto.RangeRules | apps/backend/src/products/dto/most-consumed.dto.ts:5-15 | an integer between the bounds |
| MostConsumedDto.ValueFailures | apps/backend/src/products/dto/most-consumed.dto.ts:4-16 | valid exactly when the month is an integer in 1..12 and the year an integer in 1900..2100 |
| MostConsumedDto.ParseValues | apps/backend/src/products/dto/most-consumed.dto.ts:4-16 | a valid pair becomes the DTO with those integers |
| MostConsumedDto.Parse | apps/backend/src/products/dto/most-consumed.dto.ts:4-16 | valid exactly when the transformed parameters pass the rules; a valid query's month and year are the `parseInt` values of the parameters, in 1..12 and 1900..2100; an invalid one fails with the failures of the transformed parameters |
| MostConsumedDto.InRangeAccepted | apps/backend/src/products/dto/most-consumed.dto.ts:4-16 | every month and year in range is accepted as given |
| MostConsumedDto.DecimalQueryRoundTrip | apps/backend/src/products/dto/most-consumed.dto.ts:5-15 | a query of decimal texts followed by any non-digit tail (so '12abc' too) parses to those numbers |
| MostConsumedDto.RepeatedMonthUsesFirst | apps/backend/src/products/dto/most-consumed.dto.ts:5-9 | a repeated parameter `month=3&month=4` reads as the month 3 |
| MostConsumedDto.UnreadableMonthRefused | apps/backend/src/products/dto/most-consumed.dto.ts:5-9 | a missing or object-valued month is refused |
| UpdateStockDto.ProductIdRules | apps/backend/src/stocks/dto/update-stock.dto.ts:10-13 | a positive integer |
| UpdateStockDto.Failures | apps/backend/src/stocks/dto/update-stock.dto.ts:9-21 | valid exactly when the product id is a positive integer, the quantity a positive number and the type a movement |
| UpdateStockDto.Parse | apps/backend/src/stocks/dto/update-stock.dto.ts:9-21 | a valid body becomes the stock update with its values |
| CreateStockDto.ProductIdRules | apps/backend/src/stocks/dto/create-stock.dto.ts:4-6 | a positive integer |
| CreateStockDto.NumberRule | apps/backend/src/stocks/dto/create-stock.dto.ts:8-13 | any number |
| CreateStockDto.Failures | apps/backend/src/stocks/dto/create-stock.dto.ts:3-14 | valid exactly when the product id is a positive integer, the desired quantity positive and the current quantity a number |
| CreateStockDto.Parse | apps/backend/src/stocks/dto/create-stock.dto.ts:3-14 | a valid body becomes the new stock with the body's product id, desired quantity and current quantity |
| CreateStockDto.NegativeStartAccepted | apps/backend/src/stocks/dto/create-stock.dto.ts:12-13 | a negative initial current quantity is accepted at creation, while the same value is refused by the update DTO |
| EcmaScript.TrimStart | apps/backend/src/products/dto/most-consumed.dto.ts:5 | removes exactly the leading white space and line terminators |
| EcmaScript.DigitRun | apps/backend/src/products/dto/most-consumed.dto.ts:5 | the length of the longest leading run of decimal digits |
| EcmaScript.Unsigned | apps/backend/src/products/dto/most-consumed.dto.ts:5-11 | the text after one optional leading `-` or `+` |
| EcmaScript.ParseTrimmed | apps/backend/src/products/dto/most-consumed.dto.ts:5-11 | on text without leading white space: NaN exactly when no digit follows the optional sign; a negative result only after `-`; the value of the leading digit run, negated after `-` |
| EcmaScript.ParseInt10 | apps/backend/src/products/dto/most-consumed.dto.ts:5-11 | `parseInt(value, 10)`: NaN exactly when no digit follows the leading white space and optional sign; a negative result only when the trimmed text starts with `-`; the value is the leading digit run after the optional sign, negated when the sign is `-` |
| EcmaScript.ParseDecimalText | apps/backend/src/products/dto/most-consumed.dto.ts:5 | `parseInt` of a number's decimal text, followed by a non-digit tail, gives the number back |
| EcmaScript.ParseNegativeDecimalText | apps/backend/src/products/dto/most-consumed.dto.ts:5 | `parseInt` of `-` and a number's decimal text, followed by a non-digit tail, gives the negated number |
| EcmaScript.LeadingWhiteSpaceIgnored | apps/backend/src/products/dto/most-consumed.dto.ts:5 | leading white space does not change the result |
| EcmaScript.HexPrefixReadsAsZero | apps/backend/src/products/dto/most-consumed.dto.ts:5 | with radix 10, '0x1A' reads as 0 |
| EcmaScript.NoDigitsIsNaN | apps/backend/src/products/dto/most-consumed.dto.ts:5 | a text without leading digits is NaN |
| Strings.Split | apps/backend/src/auth/auth.guard.ts:36 | the separator-free pieces that join back to the input |
| Strings.SplitFirstPart | apps/backend/src/auth/strategies/google.strategy.ts:41 | the first piece is the text before the first separator |
| Strings.DecimalTextInjective | apps/backend/src/auth/auth.service.ts:85-94 | `id.toString()` of different ids differ |

## Left out

- bcrypt, the JWT algorithm and its secret are parameters (`compare`, `hashedPassword`, `Jwt.JwtService`). RFC 7519 signing is not modelled; its one property used is `Jwt.Sound`.
- Redis internals are not modelled: TTL rounding, eviction, connection failures, and the asynchronous client. Expiry is an absolute logical second.
- Concurrent requests are left out, for example two refreshes racing on the same refresh token. Every operation is one atomic step.
- Prisma is reduced to sequences of rows. Left out are its transactions, the `include` of category and stock in `findAll`, the wire format of the returned objects, and database errors other than the foreign-key failures of `create` and `update` and the missing row of `update`.
- Products.ProductsService.Create: an insert failure is modelled as a missing category or user (the foreign keys). Other database failures that would also give BadRequest are not distinguished.
- Products.ProductsService.Update: the model uses the owner-scoped update (see Findings). The as-written behaviour is `Products.UpdateAsWritten`.
- Products.UpdateProductDto: apps/backend/src/products/dto/update-product.dto.ts is not part of this model. The model assumes `name`, `unit` and `categoryId` are always present and only `description` may be left out. If the DTO makes every field optional, an omitted `name` drops the name filter of the check at products.service.ts:94-100, and the update would then conflict whenever the user owns any other product; the model does not capture that.
- Products.CreateProductDto: the service's input takes the current quantity as an integer. A validated body may carry an explicit `null` current quantity (`CreateProductDto.CreateProduct` keeps it as absent); what the stock insert does with `null` depends on the database schema, which is not part of this model, so the two DTOs are not connected.
- users.service.ts is not part of this model. `validateOrCreateGoogleUser` is a parameter of `GoogleStrategy.Validate`. passport's own header parsing is represented by its result, an optional bearer string.
- The Google OAuth redirect flow and cookie setting in the controllers are left out, as are the other modules' controllers.
- `validateToken` and `decodeToken` of the guard are parameters. The JWT library's behaviour behind them is not modelled.
- The remaining category service methods (`update`, `remove`) are stubs that return text, and are left out.
- The NotFound checks that follow an insert (the created record is always present) never fire and are left out.
- ClassValidator.Passes: `IsEmail` is a parameter. The e-mail grammar of validator.js is not modelled.
- The `whitelist` option of the validation pipe strips unknown properties. The model ignores them.
- JavaScript numbers are modelled as reals, with NaN as its own value. Left out are floating-point rounding, `parseInt`'s loss of precision and overflow to Infinity on very long digit runs, and zod's `coerce` of form text to numbers.
- ProductIndexedDb.StoredProduct: the frontend type declares the id a string, while the store uses numeric keys. The model uses integer keys. Opening the database and its upgrade handler are left out.
- ProductIndexedDb.ProductStore.GetAll: the ascending key order is the order IndexedDB's specification gives a store cursor.
- ClassValidator.FailedRules: class-validator and the TypeScript decorator runtime are not part of this model; the last-written-first order of one property's failures follows from decorators being applied bottom-up and the validator reporting rules in registration order.
- React rendering, toasts as UI, react-query caching and invalidation are left out, and so are the form libraries. The model keeps the state the hooks hold and the messages they choose.
- quantity.model.ts imports `isQuantityModalOpen`, `toggleQuantityModal`, `movementType`, `selectedProductId` and the `MovementType` enum from apps/frontend/src/features/products/stores/modal.store.ts, which declares none of them. The model follows the store in apps/frontend/src/app/(private)/products/modal.store.ts, which does: a selected id that may be `null` (so `QuantityModel.SelectedPath` spells it `null`) and an IN/OUT movement type. Against the features store the id would read `undefined`. The open flag is a parameter of `QuantityModel.QuantityForm.OnOpenChanged`.
- The parts of update-product-dialog.tsx other than the error mapping and the form schema are left out.

## Findings

| source | as written | input that shows it | evidently intended | confidence | as-written member | corrected member |
|---|---|---|---|---|---|---|
| apps/backend/src/products/products.service.ts:89-121 | the duplicate-name check is scoped to the caller, but the update itself matches the row by `id` alone, so a caller can rename a product they do not own | user 20 owns "milk" (id 2) and "bread" (id 3); user 10 updates id 3 to "milk"; no conflict is found among user 10's products, the row is renamed, and user 20 now has two products named "milk" | update only a row with that id owned by the caller (`where: {id, userId}`), otherwise RecordNotFound, so names stay unique per user | medium, not executed | Products.UpdateAsWritten, Products.UpdateAsWrittenBreaksUniqueness | Products.UpdateOwned, Products.UpdateOwnedKeepsNamesUnique |
