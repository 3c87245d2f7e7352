# them-tube core, modelled in Dafny

This project models three parts of the them-tube video service:

- the user operations of the MongoDB storage class;
- the authentication guards that FastAPI routes depend on;
- the HLS transcoding step that runs after a video upload.

The `users` collection is a map from document id to user record. The storage
object is a class whose `users` field its methods reassign. The guards are
pure functions of a decoded token and a user lookup. The transcoding step
chooses an ffmpeg argument list by whether the input has audio, then deletes
or publishes the video record according to the run's exit status.

Modules:

- `Wrappers`: `Option`, `Result` and `Outcome`.
- `Schemas`: users, videos, roles and statuses, and the `ObjectId` type (24 lower-case hex digits).
- `Errors`: the HTTP exceptions and other errors the core raises, with their status codes and messages.
- `UserTable`: the rules of every user operation, stated as functions of the table before the operation.
- `MongoStorageModel`: the `MongoStorage` class. `UserCreateRecord` is proved equal to `CreateUser`. The lookups are proved to return matching stored records: one, none, or all of them. Verify, update and delete fail exactly as `VerifyGuard` or `UpdateGuard` say. On success, update and delete leave the collection equal to `UpdateAt` or `DeleteAt` at some key that matches the normalised filter.
- `AuthMiddleware`: `authenticate_user`, the current-user, active-user and admin-user dependencies, and `RoleBasedAccessControl`.
- `VideoProcessing`: the `needle in haystack` audio probe, the two ffmpeg argument lists, and `generate_hls` as a method on a video store.

Some choices are shared across the model:

- **Picked record.** `find_one`, `update_one` and `delete_one` take whichever matching record the database returns first. The model leaves that choice open and proves each method's result for every possible choice.
- **Inputs from outside.** The bcrypt functions, the clock, the id the insert generates, the decoded JWT, the ffmpeg probe's stderr and the ffmpeg exit status are all parameters.
- **Roles.** The schema's role is `user` or `admin`. Because of that, the admin guard's `"super_admin"` entry can never match.
- **Updates.** `user_update_record` stores whatever the update carries, including a `password` value, without hashing it.

## Model

| member | source | states |
|---|---|---|
| UserTable.ParseObjectId | app/core/mongo_storage.py:71-72 | A string `_id` is accepted exactly when it is 24 hex digits. The id it names is the text with each digit in lower case, so a canonical id string parses to itself. |
| UserTable.NormaliseFilter | app/core/mongo_storage.py:71-72 | The filter fails with InvalidId exactly when its `_id` is a string that is not a document id. Otherwise only the `_id` entry changes, and it becomes the document id that `ParseObjectId` gives for the string. |
| UserTable.CreateUser | app/core/mongo_storage.py:29-65 | A taken email is refused first (400), then a password shorter than 8 characters (400). In both cases the table is unchanged. Success happens exactly when the email is free, the password is long enough and the generated id is new. On success exactly one record is added, under the returned id, with the hashed password, `ENABLED` status and both dates equal to now. Validity is preserved. |
| UserTable.VerifyGuard | app/core/mongo_storage.py:94-107 | Normalisation errors pass through. A normalised filter with no match is 404 "User not found". Otherwise the result is the normalised filter. |
| UserTable.UpdateGuard | app/core/mongo_storage.py:109-115 | The verify guard runs first, then a KeyError for `_id`, then one for `email`. Success happens exactly when the record exists and neither key is in the update. |
| UserTable.UpdateAt | app/core/mongo_storage.py:116-118 | `$set` on the chosen record changes only that record. It keeps the record's id and email, stamps `date_modified`, and preserves email uniqueness. |
| UserTable.UpdateChangesOnlySuppliedFields | app/core/mongo_storage.py:113-118 | Each field of the updated record is the supplied value when one is present and the old value otherwise. `date_modified` is the update time. |
| UserTable.DeleteAt | app/core/mongo_storage.py:120-124 | Exactly the chosen key is removed. The other records are unchanged and validity is preserved. |
| UserTable.EmailFilterMatchesAtMostOne | app/core/mongo_storage.py:26 | Under the unique email index, an email filter matches at most one record. |
| UserTable.CreatedIdFindsRecord | app/core/mongo_storage.py:63-74 | The id string that create returns normalises back to the new document id. That id matches only the new record. |
| UserTable.RunKeepsTableValid | app/core/mongo_storage.py:26-124 | Any sequence of creates, updates and deletes keeps every record under its own id and every email unique. |
| MongoStorageModel.MongoStorage.constructor | app/core/mongo_storage.py:18-26 | A new storage holds the existing collection unchanged. The collection must satisfy the unique email index. |
| MongoStorageModel.MongoStorage.FindOne | app/core/mongo_storage.py:74 | Returns none exactly when no record matches. Otherwise it returns a stored record that matches. |
| MongoStorageModel.MongoStorage.UserCreateRecord | app/core/mongo_storage.py:29-65 | The result and the new collection are those given by `CreateUser`, with the source's defaults for role, sign-in type and verified. |
| MongoStorageModel.MongoStorage.UserGetRecord | app/core/mongo_storage.py:67-79 | The caller's filter is rewritten as `NormaliseFilter` says. The result is none exactly when nothing matches, and otherwise a matching stored record. |
| MongoStorageModel.MongoStorage.UserGetAllRecords | app/core/mongo_storage.py:81-92 | After the same rewrite, it returns every matching record exactly once, and nothing else. |
| MongoStorageModel.MongoStorage.UserVerifyRecord | app/core/mongo_storage.py:94-107 | Fails exactly as `VerifyGuard` does. Otherwise it returns a stored record that matches the normalised filter. |
| MongoStorageModel.MongoStorage.UserUpdateRecord | app/core/mongo_storage.py:109-118 | Fails as `UpdateGuard` says and leaves the collection unchanged. Otherwise the collection becomes `UpdateAt` applied to a record that matches the normalised filter. |
| MongoStorageModel.MongoStorage.UserDeleteRecord | app/core/mongo_storage.py:120-124 | Fails as `VerifyGuard` says and leaves the collection unchanged. Otherwise the collection becomes `DeleteAt` applied to a matching record. |
| AuthMiddleware.AuthenticateUser | app/core/authentication/auth_middleware.py:20-26 | An unknown email is 404. A password that bcrypt rejects is 401. Success happens exactly when both checks pass, and returns the stored user. |
| AuthMiddleware.GetCurrentUser | app/core/authentication/auth_middleware.py:29-55 | A decoding error passes through. A token type other than "bearer" is 400. An email with no user is 401. Otherwise the stored user is returned. |
| AuthMiddleware.GetCurrentActiveUser | app/core/authentication/auth_middleware.py:58-76 | "not activated" is checked before "disabled" (both 403). Success happens exactly when the user is verified and not disabled, and returns the user unchanged. |
| AuthMiddleware.GetCurrentAdminUser | app/core/authentication/auth_middleware.py:79-92 | Success happens exactly when the role name is "admin" or "super_admin". Otherwise the error is 403 "Unautorized action". |
| AuthMiddleware.ActiveUserDependency | app/core/authentication/auth_middleware.py:58-76 | An error from the current-user step comes first. Otherwise the result is the active-user check. |
| AuthMiddleware.AdminUserDependency | app/core/authentication/auth_middleware.py:79-92 | Active-user errors come first. After them the result is the admin check on the active user: that user, or 403 "Unautorized action". Success happens exactly when the active user's role is admin. |
| AuthMiddleware.RoleBasedAccessControl.Call | app/core/authentication/auth_middleware.py:95-108 | Passes exactly the configured role names. Otherwise the error is 403 "User role not permitted to perform this action". |
| AuthMiddleware.RoleBasedAccessControl.Guard | app/core/authentication/auth_middleware.py:101-108 | Active-user errors come first. After them the result is the role check on the active user, which fails with 403 "User role not permitted to perform this action". The guard passes exactly when the active user's role is allowed. |
| AuthMiddleware.AdminChainAgreesWithRoleGuard | app/core/authentication/auth_middleware.py:79-108 | The admin dependency admits a request exactly when a role guard configured with ["admin", "super_admin"] admits it. |
| AuthMiddleware.LoginAfterRegister | app/core/authentication/auth_middleware.py:20-26 | After a successful create, logging in with the same email and password returns the new record, provided bcrypt accepts a password against its own digest. |
| AuthMiddleware.CreatedUserActiveIffVerified | app/core/authentication/auth_middleware.py:64-76 | A freshly created user passes the active-user check exactly when it was created verified. |
| VideoProcessing.Contains | app/core/video_processing.py:15 | Holds exactly when the needle occurs at some position of the haystack. |
| VideoProcessing.StreamMapValues | app/core/video_processing.py:72-73 | The `-var_stream_map` value is "v:0 v:1 v:2" without audio and "v:0,a:0 v:1,a:1 v:2,a:2" with audio. |
| VideoProcessing.ScaleFilterValue1 | app/core/video_processing.py:25 | The first scaled branch is 1920x1080. |
| VideoProcessing.ScaleFilterValue2 | app/core/video_processing.py:26 | The second scaled branch is 1280x720. |
| VideoProcessing.ScaleFilterValue3 | app/core/video_processing.py:27 | The third scaled branch is 854x480. |
| VideoProcessing.FilterGraphValue | app/core/video_processing.py:23-27 | The filter graph splits the input video three ways and scales each branch to its rendition. |
| VideoProcessing.VideoArgsValues | app/core/video_processing.py:28-57 | The three video streams are libx264 at 5000k/5350k/7500k, 2800k/2996k/4200k and 1400k/1498k/2100k (bitrate/maxrate/bufsize). |
| VideoProcessing.AudioArgsValues | app/core/video_processing.py:116-139 | The three audio streams are AAC stereo encodings of the first audio track at 192k, 128k and 96k. |
| VideoProcessing.HasAudio | app/core/video_processing.py:15 | Holds exactly when "Audio" occurs somewhere in the probe's stderr. |
| VideoProcessing.ProbeCommand | app/core/video_processing.py:8 | The probe runs the transcode's own binary on the same input, and is the first three arguments of the transcode. |
| VideoProcessing.NoAudioCommand | app/core/video_processing.py:19-75 | The no-audio argument list is the input and filter graph, then the three video streams, then the HLS output options with the video-only stream map. |
| VideoProcessing.AudioCommand | app/core/video_processing.py:77-157 | The audio argument list is the same, with the three audio streams inserted before the HLS output options and audio added to the stream map. |
| VideoProcessing.HlsCommand | app/core/video_processing.py:18-157 | The chosen list carries the audio streams exactly when the probe saw audio. Both lists share the input, the renditions, the HLS options and the output paths. |
| VideoProcessing.MarkAvailable | app/core/video_processing.py:165 | Sets `available` on the record with the id and changes nothing else. A missing id is a no-op. |
| VideoProcessing.Reconcile | app/core/video_processing.py:159-165 | A failed run removes the record. A completed run marks it available. Other records are untouched. The record never remains unavailable. |
| VideoProcessing.VideoStore.constructor | app/core/video_processing.py:3 | A store holds the given video collection unchanged. |
| VideoProcessing.VideoStore.VideoDeleteRecord | app/core/video_processing.py:163 | Removes the record with the id. |
| VideoProcessing.VideoStore.VideoMarkAvailable | app/core/video_processing.py:165 | The store becomes `MarkAvailable` applied to the id. |
| VideoProcessing.VideoStore.GenerateHls | app/core/video_processing.py:6-165 | Runs the command chosen by whether the probe's stderr contains "Audio". The store ends as `Reconcile` gives for that run's exit status. |

## Left out

- **JWT decoding** (`verify_access_token`) is not part of this model. The guards take its outcome as a `Result` parameter.
- **bcrypt.** `hash_bcrypt` and `hash_verify` are function parameters, and salting is folded into them. `LoginAfterRegister` assumes that a password verifies against its own digest.
- **Clock and id generation.** `datetime.now(UTC)` and the id that `insert_one` generates are parameters.
- **ffmpeg.** Both subprocesses are parameters: the probe yields its stderr and the run yields its exit status. Exceptions other than `CalledProcessError` are not modelled. Examples are a missing `ffmpeg` binary and a probe that fails to start, both of which propagate in the source.
- **`print` calls** in `generate_hls` are left out.
- **The `WWW-Authenticate: Bearer` header** on the 401 exception is left out.
- **OAuth2 token extraction** by `OAuth2PasswordBearer` is left out.
- **Pydantic validation of records on read** (`s_user.User(**user)`) is left out. Stored records are assumed to already have the schema's shape.
- **Filter and update keys.** A filter can only test `_id`, `email`, `username`, `role`, `status` and `verified`. It cannot test `password`, `sign_in_type`, `date_created` or `date_modified`. An update can only set the user schema's fields. A key outside these cannot be expressed in the model.
- **Writes into the caller's dictionaries.**
  - `UserGetRecord`, `UserGetAllRecords` and `UserVerifyRecord` return the rewritten filter.
  - `UserUpdateRecord` and `UserDeleteRecord` do not return it. In the source, the caller's filter keeps the `_id` that `user_verify_record` rewrote in place.
  - `UserUpdateRecord` also does not return the update dictionary. In the source, the caller's update gains `date_modified`.
- **`bson.ObjectId(text)`** also accepts 12-byte values, which a `str` filter value never is. The model takes exactly 24 hex digits in either case and gives the lower-case form.
- **Update-after-verify race.** The model treats every operation as atomic. Concurrent requests are not modelled, so a record that changes between the check and `update_one`/`delete_one` is not covered, and neither is a race on the email-taken check.
- **Write errors.** `UserUpdateRecord` returns the id of the updated record instead of pymongo's `UpdateResult`. `UserDeleteRecord` returns nothing beyond success. A duplicate-key refusal by `insert_one` appears as `DuplicateKeyError`.
- **Video storage methods.** `video_update_record` and `video_delete_record` are not part of this model. Their effect is assumed: deleting or updating the record with the given id, and doing nothing when no record has it.
- **Duration.** `duration_in_sec` is kept as a `real` and nothing computes with it.
- **Other code.** The commented-out author, book and review storage methods, GridFS, the routers and the configuration are left out.
