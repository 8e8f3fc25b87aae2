# Kusina session store, modelled in Dafny

This project models the `authUser` store of the Kusina restaurant/menu
front end. The store holds one piece of state, the cached user record
`userData`. It is either null or a plain object `{ id, email, ...user_metadata }`
built from the auth provider's user. A watcher mirrors every change of
`userData` into the browser's durable key/value storage under the key
`'userData'`. A record is written there and null removes the key. The
getter `userRole` derives `'Administrator'` or `'User'` from the record's
`is_admin` flag. Five actions change the record: `$reset`,
`getUserInformation`, `updateUserInformation`, `updateUserImage` and `login`.

Files:

- `optional.dfy` (module `Optional`): the `Option` type used for null and
  for missing fields.
- `js_values.dfy` (module `JsValues`): the JavaScript semantics the store
  relies on. It covers values, truthiness and property reads. It also covers
  the object spread `{ ...target, ...entries }`, modelled as defining the
  entries one after the other so that the last entry with a key wins, and
  the string conversion that `'avatars/' + id + '-avatar.png'` applies to the id.
- `auth_user_store.dfy` (module `AuthUserStore`): the record built from a
  provider user, the role getter, and the class `Store`. The class has the
  field `userData` and the field `stored`, which models the durable slot.
  It has one method per action; each receives the provider's response as a
  parameter. The invariant `Valid()` (stored copy equals in-memory copy)
  holds after the constructor and is kept by every action. Module
  `AuthUserClient` is a caller that logs in as an administrator, fails a
  second login and resets twice, using only the contracts.

Every action's outcome is either `Threw` (its promise rejects) or
`Returned(r)`, where `r` is `undefined`, `{ error }` or `{ data }`.

`getUserInformation` (src/stores/authUser.js:29-37) never reads `error`
and never returns `{ error }`. It reads `data.user` and builds the record
from it, so a response whose user object is null throws a TypeError, and a
failed refresh does not clear the cached record: `GetUserInformation`
answers `Threw` and leaves it. `updateUserInformation` reads `data.user`
before it looks at `error` (lines 40-43). It returns `{ error }` only when
the response also carries a user object; otherwise it throws.
`UpdateUserInformation` answers `Threw` with nothing changed whenever the
response carries no user, even when it carries an error. `UpdateUserImage`
throws the same way when there is no cached record, because it reads
`userData.value.id` before uploading.

## Model

| member | source | states |
|---|---|---|
| `AuthUserStore.Store.constructor` | src/stores/authUser.js:7 | The initial record is the value read back from the durable slot, or null when the slot is empty, and the mirror invariant holds from the start. |
| `AuthUserStore.Store.Assign` | src/stores/authUser.js:10-16 | From a mirrored state, after an assignment to `userData` the durable slot holds the same value: a record is written under the key and null removes it. |
| `AuthUserStore.UserRole` | src/stores/authUser.js:19-21 | The role is `Administrator` exactly when a record is present and its `is_admin` property exists and is truthy; otherwise it is `User`, including when there is no record. |
| `AuthUserStore.Store.Reset` | src/stores/authUser.js:24-26 | From any mirrored state, the record becomes null and the durable key is removed, so calling it twice leaves the same state. |
| `AuthUserStore.Store.GetUserInformation` | src/stores/authUser.js:29-37 | A response with a user replaces the record with `{ id, email, ...user_metadata }` of that user and mirrors it, ignoring any error; a response without a user throws and changes nothing. |
| `AuthUserStore.RecordOf` | src/stores/authUser.js:36 | The record's keys are exactly `id`, `email` and the metadata's keys. |
| `AuthUserStore.RecordIdentity` | src/stores/authUser.js:36 | Unless a metadata key overrides it, the record's `id` is the provider's id and its `email` the provider's email (`undefined` when the provider has none). |
| `AuthUserStore.RecordMetadataWins` | src/stores/authUser.js:36 | Every metadata property appears in the record with the value of its last occurrence, so a metadata `id` or `email` overrides the provider's top-level value. |
| `AuthUserStore.RoleFromMetadata` | src/stores/authUser.js:19-36 | The role of a record refreshed from the provider is `Administrator` exactly when the metadata's `is_admin` entry is truthy; id and email cannot grant it. |
| `AuthUserStore.Store.UpdateUserInformation` | src/stores/authUser.js:39-55 | No user object: throws, nothing changed. Error: returns `{ error }`, record unchanged. User with metadata: the record becomes the server's `{ id, email, ...user_metadata }`, not the client's patch, and is returned as `data`. User without metadata: returns `undefined`, record unchanged. The mirror invariant holds in every case. |
| `AuthUserStore.Store.UpdateUserImage` | src/stores/authUser.js:57-72 | No cached record: throws before uploading, nothing changed. Otherwise it uploads to `'avatars/' + id + '-avatar.png'`. An upload error returns `{ error }` with nothing changed, and a response with neither error nor data returns `undefined`. After a successful upload it sends the cached record with `image_url` set to the public URL, and the final state and result are those of `updateUserInformation` on the provider's answer. |
| `AuthUserStore.AvatarPathOfRecord` | src/stores/authUser.js:60 | For a record refreshed from the provider whose metadata does not override `id`, the avatar path is `'avatars/' + <provider id> + '-avatar.png'`. |
| `AuthUserStore.Store.Login` | src/stores/authUser.js:75-87 | Sign-in error: returns `{ error }`, record unchanged. Signed-in user: refreshes through `getUserInformation` and returns the refreshed record, or throws with nothing changed when the refresh has no user. Neither error nor user: returns `undefined`, nothing changed. |
| `JsValues.Truthy` | src/stores/authUser.js:20 | A value is truthy exactly when it is not one of `undefined`, `null`, `false`, `0` and `''`. |
| `JsValues.Spread` | src/stores/authUser.js:36 | The keys after a spread are the target's keys together with every key of the spread entries. |
| `JsValues.SpreadKeeps` | src/stores/authUser.js:36 | A key that no spread entry mentions reads the same after the spread as before. |
| `JsValues.SpreadLastWins` | src/stores/authUser.js:36 | The last spread entry with a given key decides that key's value, overriding the target and earlier entries. |

## Left out

- The auth provider and storage calls (`auth.getUser`, `auth.updateUser`, `auth.signInWithPassword`, `storage.upload`, `getPublicUrl`) are foreign library calls. Their answers are method parameters, and the public URL is a parameter too.
- `AuthUserStore.Store.UpdateUserInformation`: the patch it sends is a parameter that does not influence the response, because the server's merge of the patch into its metadata is not this code's behaviour.
- `AuthUserStore.Store.Login`: the email and password are passed only to the provider's sign-in, so they are not parameters.
- `localStorage` and `JSON.stringify`/`JSON.parse` are modelled as an abstract slot holding an optional record. Slot contents that are not a record (malformed JSON, or JSON for a falsy value) are not modelled. The JSON round trip is assumed exact.
- Vue and Pinia machinery is left out. The watcher is modelled as a synchronous write-through after every assignment. Vue runs it later and skips it when the value did not change (null to null). Under the mirror invariant that leads to the same slot contents, so `Assign` and `Reset` require that invariant. Writes to the slot from outside the store, such as another browser tab, are not modelled.
- `async`/`await` is left out: each action is one sequential step, and there is no concurrency to capture.
- The file bytes, the bucket name and the `cacheControl`/`upsert` upload options are opaque payload and configuration.
- The order of a record's properties is not modelled, because records are maps. It matters only to the JSON text in storage.
- JavaScript numbers are modelled as integers. Fractions, `NaN`, infinities and `-0` are left out, so the falsy `NaN` is not modelled, nor is the formatting of a non-integral id in the avatar path. Integers of magnitude 10^21 or more (which JavaScript prints in exponent form, such as `1e+21`) and integers beyond 2^53 (which are not exact JavaScript numbers) are not modelled either: `JsValues.ToJsString` writes out every decimal digit, so for such an id `AuthUserStore.AvatarPath` differs from the path the code builds.
- `src/router/index.js` is left out. Its route table is static configuration, and its navigation guard is entirely commented out, so it has no live behaviour.
