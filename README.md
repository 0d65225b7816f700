# Identity sync and relational store of a content-scheduling backend

This project models two parts of a social-media scheduling backend in Dafny and proves properties of them.

1. **The relational store** declared in `src/db/schema.ts` (module `Schema`, file `schema.dfy`).
   - It has six tables: users, social platforms, user connected accounts, content items, media assets and scheduled posts.
   - It has three closed enums: content type, schedule status and subscription status.
   - A `Store` holds one map per table, keyed by that table's primary key.
   - `Valid` joins every declared constraint, over uuid keys taken in one canonical spelling:
     - each row sits under its own primary key;
     - `users.email` and `social_platforms.name` are unique;
     - the (user, platform, platform user id) triple of a connected account is unique;
     - `integer`, `serial` and `bigint` values fit their widths, and `varchar` values fit their lengths;
     - every foreign key points at an existing row.
   - Every statement is a function from a store to a new store, or to the PostgreSQL error it raises (`Violation`). The statements are:
     - the inserts, and the column defaults of every table with defaults but the platforms (`UserRow`, `ConnectedAccountRow`, `ContentItemRow`, `MediaAssetRow`, `ScheduledPostRow`);
     - the `varchar` coercion of inserted values: a value that is too long is stored truncated when every excess character is a space, and is refused otherwise (`VarcharValue`);
     - `INSERT ... ON CONFLICT DO NOTHING`;
     - the users update;
     - the cascading deletes of users, content items and connected accounts, all one function `DeleteCascading`;
     - the restricted delete of a platform.
2. **The identity-sync webhook** `POST` of `src/app/api/webhooks/clerk/route.ts` (module `ClerkWebhook`, file `clerk_webhook.dfy`).
   - `Dispatch` is the handler as a function of the store. It covers:
     - the three `svix-*` headers;
     - the verifier's verdict;
     - the switch on `user.created`, `user.updated`, `user.deleted` and any other type;
     - the primary-email lookup `PrimaryEmail`;
     - the 200, 400 and 500 replies.
   - `Database` is a class that holds the store as a mutable field. Its `Post` method runs the handler's steps in order: the early returns, then one database statement. It is proved equal to `Dispatch`.
   - The `user.deleted` branch calls `Schema.DeleteUser`, so removing a user also removes everything that references it, through the schema's cascades.

Some behaviour follows from the handler as written:
- An empty header value counts as a missing header, because JavaScript treats `""` as false.
- An empty primary email counts as no primary email, and an empty deletion id as no id.
- The insert on `user.created` has no conflict target, so it skips the row when either the id or the email is already taken. In both cases the reply is 200 with the store unchanged.
- A `user.updated` that would give a user an email held by another user raises a unique violation. The handler answers 500 and the store is unchanged.

A `user.created` without a usable primary email is answered with 400 (route.ts:82), not acknowledged with success, and nothing is written.

## Model

| member | source | states |
|---|---|---|
| `Schema.ParseContentType` | src/db/schema.ts:20-25 | a label names a content type exactly when it is one of the four declared labels, and it names the type whose label it is |
| `Schema.ParseScheduleStatus` | src/db/schema.ts:26-32 | the same for the five schedule statuses |
| `Schema.ParseSubscriptionStatus` | src/db/schema.ts:33-39 | the same for the five subscription statuses |
| `Schema.EnumLabelsRoundTrip` | src/db/schema.ts:20-39 | every enum value parses back from its own label |
| `Schema.UserRow` | src/db/schema.ts:42-49 | an inserted user gets `onboardingCompleted = false` and both timestamps set to now when they are omitted, and the given values when they are given; id, email and subscription status are stored as given |
| `Schema.ConnectedAccountRow` | src/db/schema.ts:71-84 | an inserted connected account gets a random id and both timestamps set to now when they are omitted, and the given values otherwise; every other column is stored as given |
| `Schema.ContentItemRow` | src/db/schema.ts:106-114 | an inserted content item gets a random id and both timestamps set to now when they are omitted, and the given values otherwise; every other column is stored as given |
| `Schema.MediaAssetRow` | src/db/schema.ts:131-141 | an inserted media asset gets a random id, `orderInCarousel = 0` and `uploadedAt = now` when they are omitted, and the given values otherwise; every other column is stored as given |
| `Schema.ScheduledPostRow` | src/db/schema.ts:161-174 | an inserted scheduled post gets a random id, status `pending`, `retryCount = 0` and both timestamps set to now when they are omitted, and the given values otherwise; every other column is stored as given |
| `Schema.UsersTableAdd` | src/db/schema.ts:43-44 | adding a user under a new id keeps the users table's constraints exactly when no other user has that email |
| `Schema.AccountsTableAdd` | src/db/schema.ts:88 | adding a connected account under a new id keeps its table's constraints exactly when its platform id fits 32 bits and no account has the same (user, platform, platform user id) triple |
| `Schema.InsertUserExact` | src/db/schema.ts:42-49 | a user insert succeeds exactly when the id is new and the store with the row added satisfies every constraint; on success that is the new store |
| `Schema.InsertConnectedAccountExact` | src/db/schema.ts:71-91 | the same for connected accounts, whose checks are the column type, the unique triple and the references to user and platform |
| `Schema.VarcharValue` | src/db/schema.ts:109 | a value assigned to a `varchar(n)` column is refused exactly when it is longer than `n` and a non-space lies beyond `n`; otherwise it is stored as it is when it fits, or cut to its first `n` characters |
| `Schema.CoerceContentItem` | src/db/schema.ts:109 | a content item is stored with its title replaced by `VarcharValue(title, 255)` (an absent title stays absent) and nothing else changed; it is refused with `StringTooLong` exactly when the title cannot be coerced |
| `Schema.CoerceMediaAsset` | src/db/schema.ts:137-140 | a media asset is stored with its mime type replaced by `VarcharValue(mimeType, 100)` and nothing else changed; it is stored exactly when the mime type can be coerced and the integers then fit their columns; `StringTooLong` exactly when the mime type cannot be coerced, `NumericOutOfRange` otherwise |
| `Schema.InsertContentItemExact` | src/db/schema.ts:106-119 | a content item insert fails as the title coercion fails; otherwise it succeeds exactly when the id is new and the store with the coerced row added satisfies every constraint, and that is the new store |
| `Schema.InsertMediaAssetExact` | src/db/schema.ts:131-147 | the same for media assets: the mime-type coercion and the integer widths first, then the id and the references to content item and user |
| `Schema.InsertScheduledPostExact` | src/db/schema.ts:161-183 | the same for scheduled posts, whose checks are the retry-count width and the references to user, content item and connected account |
| `Schema.UpdateUserExact` | src/app/api/webhooks/clerk/route.ts:110-129 | updating a missing user changes nothing; updating an existing one succeeds exactly when the result satisfies every constraint (so never when another user holds the new email), and then changes only that row's email and `updatedAt` |
| `Schema.DeleteCascading` | src/db/schema.ts:73-165 | a cascading delete keeps a subset of the rows, each unchanged; it removes exactly the named users and never leaves a named account or content item; platforms are untouched |
| `Schema.DeleteCascadingValid` | src/db/schema.ts:73-165 | a cascading delete of a valid store is valid: no reference is left dangling |
| `Schema.DeleteCascadingIsGreatest` | src/db/schema.ts:73-165 | the cascade removes only what it must: every sub-store that keeps its foreign keys and drops the named rows is contained in the result |
| `Schema.DeleteCascadingNothing` | src/db/schema.ts:73-165 | a delete that matches no row leaves the store unchanged |
| `Schema.DeleteUser` | src/db/schema.ts:73-163 | deleting a user removes exactly that user row, keeps every other row unchanged or gone, and keeps the store valid |
| `Schema.DeleteUserIdempotent` | src/app/api/webhooks/clerk/route.ts:137-144 | deleting the same user twice is the same as deleting it once |
| `Schema.DeleteContentItem` | src/db/schema.ts:133-164 | deleting a content item removes it and keeps the store valid |
| `Schema.DeleteContentItemEffect` | src/db/schema.ts:133-164 | deleting an existing content item removes exactly its media assets and scheduled posts; users, platforms and accounts are unchanged |
| `Schema.DeleteConnectedAccount` | src/db/schema.ts:165 | deleting a connected account removes it and keeps the store valid |
| `Schema.DeleteConnectedAccountEffect` | src/db/schema.ts:165 | deleting an existing connected account removes exactly its scheduled posts; nothing else changes |
| `Schema.DeletePlatformExact` | src/db/schema.ts:74 | deleting a platform is refused with a foreign-key violation exactly when removing it would leave a connected account dangling; otherwise only that platform goes |
| `ClerkWebhook.PrimaryEmail` | src/app/api/webhooks/clerk/route.ts:74-76 | the result is the address of the first entry whose id is the primary id; it is absent exactly when the primary id is null or no entry has it |
| `ClerkWebhook.UpdatedEmail` | src/app/api/webhooks/clerk/route.ts:100-117 | `user.updated` writes an email exactly when the primary email resolved to a non-empty address, and then writes that address |
| `ClerkWebhook.Dispatch` | src/app/api/webhooks/clerk/route.ts:16-161 | the status is 200, 400 or 500; any status but 200 leaves the store unchanged; a missing or empty header, or a failed verification, gives 400 and no write; once both pass, a database failure in a branch that issues a statement gives 500 and no write; a failed database or a branch without a statement never writes |
| `ClerkWebhook.CreatedWithoutEmailRejected` | src/app/api/webhooks/clerk/route.ts:78-83 | `user.created` without a usable primary email gives 400 and no write |
| `ClerkWebhook.CreatedInsertsOnce` | src/app/api/webhooks/clerk/route.ts:85-93 | `user.created` with a primary email gives 200; it adds exactly one row, with status `free` and onboarding not completed, when neither id nor email is taken, and otherwise leaves the store unchanged |
| `ClerkWebhook.UpdatedTouchesOnlyItsRow` | src/app/api/webhooks/clerk/route.ts:95-131 | `user.updated` changes only its own row: it sets `updatedAt`, changes the email only when a primary email resolved, and keeps status and onboarding; a missing row gives 200 and no change; an email held by another user gives 500 and no change |
| `ClerkWebhook.DeletedCascades` | src/app/api/webhooks/clerk/route.ts:133-144 | `user.deleted` gives 200; with an id it applies the user cascade and the user is gone; without an id the store is unchanged |
| `ClerkWebhook.UnhandledAcknowledged` | src/app/api/webhooks/clerk/route.ts:146-150 | an event type other than the three handled ones gives 200 with the store unchanged |
| `ClerkWebhook.OnlyDeleteCascades` | src/app/api/webhooks/clerk/route.ts:66-150 | every event except `user.deleted` changes at most the users table |
| `ClerkWebhook.DispatchKeepsValid` | src/app/api/webhooks/clerk/route.ts:66-160 | the handler never breaks a schema constraint |
| `ClerkWebhook.DispatchRedelivery` | src/app/api/webhooks/clerk/route.ts:85-144 | a redelivery of the same request at any later clock gets the same status; for `user.created`, `user.deleted` and every rejected or unhandled request it leaves the store as the first delivery did; for `user.updated` it changes at most the `updatedAt` of that user's row, to the new clock |
| `ClerkWebhook.Database.InsertUserOnConflictDoNothing` | src/app/api/webhooks/clerk/route.ts:85-91 | the insert either raises and writes nothing, or stores the insert-or-skip result |
| `ClerkWebhook.Database.UpdateUser` | src/app/api/webhooks/clerk/route.ts:127-129 | the update either raises and writes nothing, or stores the updated users table |
| `ClerkWebhook.Database.DeleteUser` | src/app/api/webhooks/clerk/route.ts:139 | the delete either raises and writes nothing, or stores the cascaded delete |
| `ClerkWebhook.Database.Post` | src/app/api/webhooks/clerk/route.ts:16-161 | the returned status and the new store are exactly those of `Dispatch` on the old store |

## Left out

- Svix signature verification (route.ts:38-55) is an external cryptographic library. It is the boolean oracle `verified`, and the event is taken to be the verified payload.
- The request plumbing is left out: `headers()`, `req.json()`, `JSON.stringify`, building the `Response`, and the missing-secret throw at route.ts:10-14. A request is a datatype holding the three optional headers and the event.
- Console logging, including the id logging at route.ts:61-63, is left out. It has no effect on the result.
- Database failures that no schema constraint explains, such as a lost connection, are the oracle `fault`. Each statement is atomic: it applies in full, or it raises and writes nothing.
- Clocks: `defaultNow()` and `new Date()` are the same abstract value `now` for one request. Time zones are not modelled.
- Randomness: `defaultRandom()` uuids are a parameter (`randomId`).
- Uuid keys are plain strings taken to be in one canonical spelling. PostgreSQL's refusal of text that is not a uuid, and its reading of spellings that differ in case or hyphens as one key, are not modelled: two such spellings are two keys here.
- jsonb columns are opaque text. `bigint` in `number` mode is modelled as a 64-bit integer, without JavaScript's precision loss above 2^53.
- A `serial` id's sequence default is not modelled: no shown code inserts platforms, and `Valid` accepts any 32-bit id.
- The order of checks inside one insert is fixed: column types, then unique indexes, then foreign keys. This only decides which error a row with several faults reports.
- The ORM `relations(...)` declarations (schema.ts:51-55, 66-68, 93-103, 121-128, 149-158, 185-198) are query helpers. They add no constraint, so they are not modelled.
- Non-unique indexes (schema.ts:86-87, 89, 116-117, 144-145, 177-181) affect performance only.
- No shown code writes `social_platforms`, so it has no insert. `Valid` still constrains its id, its unique name and its name length.
- Only the statements the handler issues and the declared rules are modelled. Deleting a media asset or a scheduled post directly, and updating tables other than users, are left out.
- Scheduled-post status changes, retries and posting are not modelled: no code performs them.
- src/middleware.ts, src/app/dashboard/page.tsx, src/db/index.ts and drizzle.config.ts are not part of this model. They wrap an external auth library, render a page, or configure the database client.
