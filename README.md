# Photo album: a Dafny model of the request handlers, reducers and page logic

This project models the decision logic of a small photo-album web application.

On the backend it covers:
- GitHub sign-in through Passport: the verify callback, `serializeUser` and `deserializeUser`.
- `handleGitHubUser` and `fetchCurrentUser`.
- The `/github/callback` and `/status` routes, and the session helpers.
- The photo and album controllers.
- The upload file filter and the Cloudinary upload parameters.

On the client it covers:
- The Redux slices for auth, photos, users and albums. The older `reducers/` variants of auth, users and albums are modelled too.
- The album counts, the error precedence and the username dedup of the home page.
- The create-album form of the albums page.

The model takes the program's own form:
- The user table is a class (`UserTable.Table`) with two maps, one keyed by GitHub id and one by row id, kept consistent by `Valid()`. Its lookup and create methods stand for the Prisma calls. A failing call is a boolean parameter. The id the database would assign is a parameter, required to be fresh.
- Each controller or route handler is a method that returns exactly one `Http.Reply`: a JSON status and body, or a redirect. What a service call answers (a value, `null`, or a throw) is an input, given as `Js.Outcome` or `Js.Try`.
- Each Redux slice is a class with one field per state field. It has one method per reducer case, and each method states the whole new state as `State() == old(State()).(…)`, so anything a reducer leaves alone is shown to be unchanged.
- Pure code is written as functions with lemmas about them. This covers the `Map` dedup, the album counts, the user map, the enrichment, the MIME split and the index filter.
- Loops in the source are methods with loop invariants: `findIndex` and the accumulator `reduce` of the users slice.
- JavaScript `null` and `undefined` are both `Js.None`. A string is truthy when it is present and non-empty. `a || b` is `Js.Or` or `Js.OrElse`.

The model follows the code where the design text disagrees with it:
- A user created by the Passport verify callback gets `""`, not a placeholder, for a missing username or email. `handleGitHubUser` defaults only the email to `""` and passes a missing username through.
- Nothing enforces unique emails.
- There is no session lifetime and no retry.

## Model

| member | source | states |
|---|---|---|
| UserTable.Table.FindByGithubId | backend/src/services/userService.ts:9-15 | yields the row with that GitHub id, `null` when there is none, or throws; the table is not changed |
| UserTable.Table.FindById | backend/src/config/passportConfig.ts:51-53 | yields the row with that id, `null` when there is none, or throws |
| UserTable.Table.Create | backend/src/services/userService.ts:20-34 | inserts exactly the given row under its GitHub id and its new id; a failure or a taken GitHub id throws and leaves both indexes unchanged |
| PassportConfig.Verify | backend/src/config/passportConfig.ts:17-41 | an existing row for `profile.id` is returned and the table is unchanged; otherwise exactly one row is added with githubId = profile.id, username and email defaulted to `""`, and name = displayName or `""`; a lookup or create failure gives `done(error)` with no user and no insert; an error comes exactly when there is no user |
| PassportConfig.VerifyTwice | backend/src/config/passportConfig.ts:22-37 | two verifies of one profile return the same user, and only the key `profile.id` is added to the GitHub-id index |
| PassportConfig.DeserializeUser | backend/src/config/passportConfig.ts:49-58 | yields the row with the stored id if present, else no user; a failing lookup yields an error |
| PassportConfig.SessionRoundTrip | backend/src/config/passportConfig.ts:45-58 | deserializing what `serializeUser` stored for a row of the table gives back that row |
| UserController.FetchCurrentUser | backend/src/controllers/userController.ts:8-17 | an authenticated request gets `req.user` as JSON; otherwise 401 "User is not authenticated" |
| UserController.HandleGitHubUser | backend/src/controllers/userController.ts:18-32 | find-or-create by githubId: an existing row is returned unchanged; otherwise one row is created with the profile's username, the first email or `""`, and displayName or username as name; a throw leaves the table unchanged |
| UserController.HandleGitHubUserTwice | backend/src/controllers/userController.ts:18-32 | handling one profile twice returns the same row and adds at most the key `profile.id` |
| AuthRoutes.GithubCallback | backend/src/routes/authRoutes.ts:40-61 | no principal: 400 "GitHub user profile not found" and no resolver call; otherwise the principal is resolved through `handleGitHubUser` and the reply redirects to `/home` exactly when that succeeds, else 500 "Internal Server Error" with the table unchanged |
| AuthRoutes.CallbackRoute | backend/src/routes/authRoutes.ts:37-61 | OAuth failure redirects to `/login` with no change; a granted sign-in redirects to `/home`; a first sign-in leaves two new rows, the verified user and a stray row keyed by its id; a repeat sign-in whose stray row exists changes nothing, and one whose stray row is missing adds exactly that row |
| AuthRoutes.FirstLoginStrayRow | backend/src/routes/authRoutes.ts:44-48 | a concrete first sign-in of `alice` leaves two rows, the second with the first row's id as its GitHub id |
| AuthRoutes.SecondLoginAddsNothing | backend/src/routes/authRoutes.ts:44-48 | a second sign-in of the same account after the first adds no row: the table keeps the first sign-in's two rows |
| AuthRoutes.GithubCallbackFixed | backend/src/routes/authRoutes.ts:40-61 | when the principal is the database user, the callback redirects to `/home` (500 only when the lookup fails) and never writes the table |
| AuthRoutes.CallbackRouteFixed | backend/src/routes/authRoutes.ts:37-61 | with that correction, a sign-in adds only the key `profile.id`: no row when the user exists, exactly the verified user otherwise |
| AuthRoutes.LoginTwiceFixed | backend/src/routes/authRoutes.ts:37-61 | signing in twice with the correction leaves one row and yields the same user both times |
| AuthRoutes.Status | backend/src/routes/authRoutes.ts:64-70 | `isAuthenticated: true` with the user exactly when authenticated; otherwise `isAuthenticated: false` with no user field |
| SessionUtils.CheckSession | backend/src/utils/sessionUtils.ts:4-6 | true exactly when the request has a user |
| SessionUtils.GetUserFromSession | backend/src/utils/sessionUtils.ts:9-11 | no user exactly when `checkSession` is false; otherwise exactly `req.user` |
| PhotoController.UploadPhoto | backend/src/controllers/photoController.ts:5-36 | one JSON reply with 200, 400 or 500: the upload service is called exactly when imagePath, albumId and title are all truthy, else 400 with the fixed message; a truthy public id gives 200 with it; a throw or a missing public id gives 500 "Failed to upload and save photo" |
| PhotoController.GetImageColors | backend/src/controllers/photoController.ts:39-57 | one JSON reply with 200, 400 or 500: the service is called exactly when the public id is truthy, else 400 "Public ID is required"; 200 with the colors, or 500 "Failed to get image colors" |
| PhotoController.CreateImageTag | backend/src/controllers/photoController.ts:60-86 | one JSON reply with 200, 400 or 500: the service is called exactly when public id, effect color and background color are all truthy, else 400; 200 with the tag, or 500 "Failed to create image tag" |
| AlbumController.GetAlbums | backend/src/controllers/albumController.ts:7-14 | 200 with the albums, or 500 "Failed to fetch albums" |
| AlbumController.GetAlbumById | backend/src/controllers/albumController.ts:19-34 | 404 "Album not found" on `null`, 200 with the album, 500 "Failed to fetch album" on a throw |
| AlbumController.CreateAlbum | backend/src/controllers/albumController.ts:39-50 | 201 with the created album, or 500 "Failed to create album" |
| AlbumController.UpdateAlbum | backend/src/controllers/albumController.ts:55-71 | 404 on `null`, 200 with the updated album, 500 "Failed to update album" |
| AlbumController.DeleteAlbum | backend/src/controllers/albumController.ts:76-91 | 404 on `null`, 200 "Album deleted successfully", 500 "Failed to delete album" |
| Multer.FileFilter | backend/src/utils/multer.ts:28-38 | accepts exactly `image/jpeg` and `image/png`; anything else is rejected with "Invalid file type. Only JPEG and PNG are allowed." |
| Multer.Split | backend/src/utils/multer.ts:16 | `split("/")` yields at least one part and no part contains the separator |
| Multer.JoinSplit | backend/src/utils/multer.ts:16 | joining the parts of a split gives back the string |
| Multer.SplitJoin | backend/src/utils/multer.ts:16 | splitting a join of separator-free parts gives back the parts |
| Multer.Params | backend/src/utils/multer.ts:15-22 | the folder is always `uploads`, and the format, when there is one, contains no `/` |
| Multer.FormatOfMime | backend/src/utils/multer.ts:16-19 | the format of `type/subtype` is `subtype`; a MIME type without `/` has no format |
| Multer.AcceptedFormats | backend/src/utils/multer.ts:15-38 | every file the filter accepts is uploaded with format `jpeg` or `png` |
| AuthSlice.Auth.constructor | client/src/redux/slices/authSlice.ts:15-21 | the initial state: no id or email, not authenticated, not loading, no error |
| AuthSlice.Auth.Logout | client/src/redux/slices/authSlice.ts:66-70 | clears email, isAuthenticated and id; nothing else changes |
| AuthSlice.Auth.FetchAuthUserPending | client/src/redux/slices/authSlice.ts:74-77 | loading on and error cleared; nothing else changes |
| AuthSlice.Auth.FetchAuthUserFulfilled | client/src/redux/slices/authSlice.ts:78-83 | stores the payload's id (a falsy id becomes null) and email and authenticates; the stored id is never `""` |
| AuthSlice.Auth.FetchAuthUserRejected | client/src/redux/slices/authSlice.ts:84-88 | stores the error and de-authenticates, leaving id and email |
| AuthSlice.Auth.LogoutUserPending | client/src/redux/slices/authSlice.ts:89-92 | loading on and error cleared |
| AuthSlice.Auth.LogoutUserFulfilled | client/src/redux/slices/authSlice.ts:93-98 | clears email, isAuthenticated and id and stops loading |
| AuthSlice.Auth.LogoutUserRejected | client/src/redux/slices/authSlice.ts:99-102 | stores the error and stops loading; the session fields stay |
| AuthSlice.LogoutTwice | client/src/redux/slices/authSlice.ts:66-70 | `logout` is idempotent |
| AuthSlice.LogoutAgreesWithLogoutUser | client/src/redux/slices/authSlice.ts:66-70 | a local logout and a completed `logoutUser` reach the same session fields |
| LegacyAuthSlice.LegacyAuth.constructor | client/src/redux/reducers/authSlice.ts:13-19 | the older initial state |
| LegacyAuthSlice.LegacyAuth.Logout | client/src/redux/reducers/authSlice.ts:63-67 | clears email and isAuthenticated and keeps id |
| LegacyAuthSlice.LegacyAuth.FetchAuthUserPending | client/src/redux/reducers/authSlice.ts:71-75 | loading on and error cleared |
| LegacyAuthSlice.LegacyAuth.FetchAuthUserFulfilled | client/src/redux/reducers/authSlice.ts:76-82 | stores the payload's id verbatim, and its email, and authenticates |
| LegacyAuthSlice.LegacyAuth.FetchAuthUserRejected | client/src/redux/reducers/authSlice.ts:83-88 | stores the error and de-authenticates |
| LegacyAuthSlice.LegacyAuth.LogoutUserPending | client/src/redux/reducers/authSlice.ts:89-93 | loading on and error cleared |
| LegacyAuthSlice.LegacyAuth.LogoutUserFulfilled | client/src/redux/reducers/authSlice.ts:94-99 | clears email and isAuthenticated, keeps id, stops loading |
| LegacyAuthSlice.LegacyAuth.LogoutUserRejected | client/src/redux/reducers/authSlice.ts:100-104 | stores the error and stops loading |
| LegacyAuthSlice.LogoutKeepsId | client/src/redux/reducers/authSlice.ts:63-67 | after sign-in and logout, the older reducer still holds the payload's id while the newer slice holds none |
| PhotoSlice.FindIndex | client/src/redux/slices/photoSlice.ts:103-105 | `findIndex`: -1 exactly when no photo has the id, otherwise the first position with it |
| PhotoSlice.WithoutMembers | client/src/redux/slices/photoSlice.ts:120 | a photo survives the filter exactly when it was in the list and has another id |
| PhotoSlice.WithoutAppend | client/src/redux/slices/photoSlice.ts:120 | the filter distributes over concatenation, so the survivors keep their order |
| PhotoSlice.WithoutAbsent | client/src/redux/slices/photoSlice.ts:120 | deleting an id no photo has leaves the list as it was |
| PhotoSlice.WithoutIdempotent | client/src/redux/slices/photoSlice.ts:120 | deleting the same id twice is the same as deleting it once |
| PhotoSlice.Photos.constructor | client/src/redux/slices/photoSlice.ts:68-73 | empty list, no selected photo, not loading, no error |
| PhotoSlice.Photos.SetPhotos | client/src/redux/slices/photoSlice.ts:79-81 | replaces the list and nothing else |
| PhotoSlice.Photos.Pending | client/src/redux/slices/photoSlice.ts:85-87 | loading on, the earlier error kept (all three pending cases) |
| PhotoSlice.Photos.Rejected | client/src/redux/slices/photoSlice.ts:92-95 | loading off and the error stored (all three rejected cases) |
| PhotoSlice.Photos.FetchPhotoByIdFulfilled | client/src/redux/slices/photoSlice.ts:88-91 | sets the selected photo only |
| PhotoSlice.Photos.UpdatePhotoTitleFulfilled | client/src/redux/slices/photoSlice.ts:99-109 | the first photo with the payload's id is replaced in place and the length is unchanged; with no such photo the list is unchanged; the selected photo is untouched |
| PhotoSlice.Photos.DeletePhotoFulfilled | client/src/redux/slices/photoSlice.ts:117-121 | every photo with the payload's id goes and the others stay; the selected photo is untouched |
| UserSlice.PickImageUrl | client/src/redux/slices/userSlice.ts:132-134 | `""` for an album with no photos, else `""` or the image of one of its photos |
| UserSlice.CoverRecord | client/src/redux/slices/userSlice.ts:138-144 | the accumulator loop builds the record of the covers set in order; it has one key per album id, a repeated id keeps its last image, and every value comes from some cover for that album |
| UserSlice.CoverMapKeys | client/src/redux/slices/userSlice.ts:138-144 | the record has a key for every album id among the covers and no other |
| UserSlice.CoverMapLast | client/src/redux/slices/userSlice.ts:138-144 | a repeated album id keeps the image of its last cover |
| UserSlice.CoverMapTraced | client/src/redux/slices/userSlice.ts:138-144 | every value of the record is the image of some cover for that album |
| UserSlice.AlbumCovers | client/src/redux/slices/userSlice.ts:118-144 | the resolved `fetchAlbumPhotos` record has one key per album id, and each value is `""` or an image of some photo of that album; an album with no photos maps to `""` |
| UserSlice.Users.constructor | client/src/redux/slices/userSlice.ts:25-33 | the initial state |
| UserSlice.Users.ResetError | client/src/redux/slices/userSlice.ts:155-157 | clears the error and nothing else |
| UserSlice.Users.FetchUsersPending | client/src/redux/slices/userSlice.ts:161-164 | loading on and error cleared |
| UserSlice.Users.FetchUsersFulfilled | client/src/redux/slices/userSlice.ts:165-168 | stores the users and stops loading |
| UserSlice.Users.FetchUsersRejected | client/src/redux/slices/userSlice.ts:169-172 | stores the payload, or "Failed to fetch users." when it is falsy |
| UserSlice.Users.FetchUserDetailsPending | client/src/redux/slices/userSlice.ts:173-177 | loading on, error cleared, details null |
| UserSlice.Users.FetchUserDetailsFulfilled | client/src/redux/slices/userSlice.ts:178-181 | stores the details |
| UserSlice.Users.FetchUserDetailsRejected | client/src/redux/slices/userSlice.ts:182-186 | details null, and the payload or "Failed to fetch user details." as the error |
| UserSlice.Users.FetchUserAlbumsPending | client/src/redux/slices/userSlice.ts:187-191 | loading on, error cleared, albums empty |
| UserSlice.Users.FetchUserAlbumsFulfilled | client/src/redux/slices/userSlice.ts:192-195 | stores the albums |
| UserSlice.Users.FetchUserAlbumsRejected | client/src/redux/slices/userSlice.ts:196-200 | albums empty, and the payload or "No albums found for this user." as the error |
| UserSlice.Users.FetchAlbumPhotosPending | client/src/redux/slices/userSlice.ts:201-204 | imageLoading on and error cleared; loading untouched |
| UserSlice.Users.FetchAlbumPhotosFulfilled | client/src/redux/slices/userSlice.ts:205-208 | stores the record and clears imageLoading; loading untouched |
| UserSlice.Users.FetchAlbumPhotosRejected | client/src/redux/slices/userSlice.ts:209-213 | record reset to `{}`, imageLoading off, the payload or "Failed to fetch album photos." as the error |
| LegacyUserSlice.LegacyUsers.constructor | client/src/redux/reducers/userSlice.ts:17-21 | empty list, not loading, no error |
| LegacyUserSlice.LegacyUsers.FetchUsersPending | client/src/redux/reducers/userSlice.ts:48-51 | loading on and error cleared |
| LegacyUserSlice.LegacyUsers.FetchUsersFulfilled | client/src/redux/reducers/userSlice.ts:52-55 | stores the users and stops loading; the error is left as it was |
| LegacyUserSlice.LegacyUsers.FetchUsersRejected | client/src/redux/reducers/userSlice.ts:56-59 | stores the payload verbatim as the error; the users stay |
| LegacyUserSlice.RejectWithoutMessage | client/src/redux/reducers/userSlice.ts:56-59 | a rejection without a message leaves the older reducer with no error, while the newer slice shows its default |
| LegacyAlbumSlice.LegacyAlbums.constructor | client/src/redux/reducers/albumSlice.ts:9-13 | empty list, not loading, no error |
| LegacyAlbumSlice.LegacyAlbums.FetchAlbumsPending | client/src/redux/reducers/albumSlice.ts:40-43 | loading on and error cleared |
| LegacyAlbumSlice.LegacyAlbums.FetchAlbumsFulfilled | client/src/redux/reducers/albumSlice.ts:44-47 | stores the albums and stops loading |
| LegacyAlbumSlice.LegacyAlbums.FetchAlbumsRejected | client/src/redux/reducers/albumSlice.ts:48-51 | stores the error and stops loading; the albums stay |
| LegacyAlbumSlice.FailedRefreshKeepsAlbums | client/src/redux/reducers/albumSlice.ts:40-51 | a failed refetch keeps the albums of the last successful fetch |
| AlbumSlice.UserMapKeys | client/src/redux/slices/albumSlice.ts:58-64 | `userMap` has a key for every user id and no other |
| AlbumSlice.UserMapLast | client/src/redux/slices/albumSlice.ts:58-64 | a repeated user id keeps its last row's username |
| AlbumSlice.DisplayName | client/src/redux/slices/albumSlice.ts:84 | the username of the last row for the album's owner when it is truthy, else "Unknown"; an owner with no row is "Unknown" |
| AlbumSlice.Project | client/src/redux/slices/albumSlice.ts:73-79 | the projection keeps photo count and order, and each photo's id, title and imageUrl |
| AlbumSlice.EnrichAll | client/src/redux/slices/albumSlice.ts:67-87 | one album per server album in the same order, with its id, title and owner, its photos projected to id, title and imageUrl in their order, and its owner's display name |
| AlbumSlice.FirstFailure | client/src/redux/slices/albumSlice.ts:67-68 | the awaited photo fetches fail exactly when one of them threw, and the reported message is one they threw |
| AlbumSlice.FetchAlbums | client/src/redux/slices/albumSlice.ts:45-94 | fulfils exactly when all requests succeed, with the enriched albums; otherwise rejects with the message of a request that threw |
| AlbumSlice.CreateAlbum | client/src/redux/slices/albumSlice.ts:97-153 | with a falsy auth id it rejects with "User is not authenticated" before any request; otherwise it posts title, user id and files, reads the owner and then the photos, and fulfils exactly when all three succeed, with the new album, its photos and its username |
| AlbumSlice.Albums.constructor | client/src/redux/slices/albumSlice.ts:31-35 | the initial state |
| AlbumSlice.Albums.FetchAlbumsPending | client/src/redux/slices/albumSlice.ts:161-163 | loading on; the earlier error is kept |
| AlbumSlice.Albums.FetchAlbumsFulfilled | client/src/redux/slices/albumSlice.ts:164-167 | replaces the album list |
| AlbumSlice.Albums.FetchAlbumsRejected | client/src/redux/slices/albumSlice.ts:168-171 | stores the error; the albums stay |
| AlbumSlice.Albums.CreateAlbumPending | client/src/redux/slices/albumSlice.ts:172-174 | loading on; the earlier error is kept |
| AlbumSlice.Albums.CreateAlbumFulfilled | client/src/redux/slices/albumSlice.ts:175-178 | appends the payload at the end: length grows by one and earlier albums are unchanged |
| AlbumSlice.Albums.CreateAlbumRejected | client/src/redux/slices/albumSlice.ts:179-182 | stores the error; the albums stay |
| AlbumSlice.FetchThenCreate | client/src/redux/slices/albumSlice.ts:161-178 | a fetch followed by a create leaves the fetched albums followed by the new one |
| Home.AlbumCount | client/src/components/Home.tsx:23-27 | at most the number of albums; zero exactly when no album has that owner; all of them exactly when every album has it |
| Home.AlbumCountAppend | client/src/components/Home.tsx:23-27 | counting over two album lists adds up |
| Home.IndexOf | client/src/components/Home.tsx:40 | the position of a key in the `Map`, -1 exactly when it is absent |
| Home.FromPairsDistinct | client/src/components/Home.tsx:40 | `new Map(pairs)` never holds a key twice |
| Home.FromPairsKeys | client/src/components/Home.tsx:40 | the `Map` has a key exactly when some pair has it |
| Home.FromPairsLastWins | client/src/components/Home.tsx:40 | every entry is the last pair set with its key |
| Home.FromPairsOrder | client/src/components/Home.tsx:40 | entries stand in the order in which their keys first appeared |
| Home.UniqueUsernamesDistinct | client/src/components/Home.tsx:39-41 | no two unique users share a username |
| Home.EveryUsernameKept | client/src/components/Home.tsx:39-41 | every username of `users` has a unique user |
| Home.LastDuplicateWins | client/src/components/Home.tsx:39-41 | each unique user is the last user listed with its username |
| Home.FirstOccurrenceOrder | client/src/components/Home.tsx:39-41 | unique users stand in the order of their usernames' first occurrences |
| Home.UniqueUsers | client/src/components/Home.tsx:39-41 | there are no more unique users than users |
| Home.HomeView | client/src/components/Home.tsx:30-55 | loading on either side shows the spinner before any error; then the users error has precedence over the albums error; otherwise one card per unique user, in order, with that user's album count |
| Home.DuplicateUsername | client/src/components/Home.tsx:39-55 | two users with one username give a single card, for the later user |
| AlbumsPage.DropIndex | client/src/components/Albums.tsx:170-176 | `filter((_, i) => i !== index)` shortens the list by one exactly when the index is in range |
| AlbumsPage.DropIndexSlices | client/src/components/Albums.tsx:170-176 | dropping an index in range removes exactly that element and keeps the others in order; an index out of range changes nothing |
| AlbumsPage.Form.constructor | client/src/components/Albums.tsx:28-33 | the form's initial state, which keeps one preview per photo |
| AlbumsPage.Form.ToggleModal | client/src/components/Albums.tsx:39-41 | flips `isModalOpen` only |
| AlbumsPage.Form.SetAlbumTitle | client/src/components/Albums.tsx:148 | sets the title only |
| AlbumsPage.Form.HandlePhotoChange | client/src/components/Albums.tsx:43-52 | more than three photos in total alerts and changes neither list; otherwise the files and as many previews are appended, so the two lists stay aligned and hold at most three |
| AlbumsPage.Form.RemovePhoto | client/src/components/Albums.tsx:169-177 | drops the same index from both photos and previews and keeps the rest in order |
| AlbumsPage.Form.HandleAddAlbum | client/src/components/Albums.tsx:54-68 | without a session or an email it alerts, dispatches nothing and stops submitting; otherwise it dispatches the title, the email as user id and the chosen files, and stays submitting; the photo cap holds on both paths |
| AlbumsPage.Form.AddAlbumSucceeded | client/src/components/Albums.tsx:70-84 | a resolved create shows the toast, toggles the modal, empties title, photos and previews and stops submitting |
| AlbumsPage.Form.AddAlbumFailed | client/src/components/Albums.tsx:79-84 | a rejected create only stops submitting, and the form stays within three aligned photos |
| AlbumsPage.Form.ClearToast | client/src/components/Albums.tsx:73 | the toast timer clears the toast only, and the form stays within three aligned photos |
| AlbumsPage.CapThenRemove | client/src/components/Albums.tsx:43-52 | two files and then two more alert the second time; removing the first keeps the second with its own preview |

## Left out

- HTTP in the thunks: `fetch`, `axios`, base-URL selection and the `err.message \|\| "An unknown error occurred."` wrapping. Each is taken as its result, a payload or a rejection value.
- Prisma and Cloudinary are foreign services. The user table keeps only the unique GitHub id; the other schema constraints are not part of this model. The album and photo services are represented only by the outcomes the controllers receive.
- The `Date.now()` public id in the upload parameters (backend/src/utils/multer.ts:20) reads the clock. The model states only `folder` and `format`.
- `Math.random` in the users slice is the parameter `pick`. The model promises only that the image belongs to some photo of the album.
- Passport internals are not modelled: the `/github` redirect, establishing the session (`req.logIn`), and Express's default error reply when the verify callback reports an error. `CallbackRoute` composes a successful verify with the handler.
- `fetchAlbumPhotos` in the users slice is modelled only on its success path. When one album's photo fetch fails, the thunk rejects; that rejection reaches only the reducers.
- Promise.all and concurrency: when several requests fail, which failure's message is reported depends on timing. `AlbumSlice.FetchAlbums` reports the first in request order.
- AlbumSlice.CreateAlbum: does not model a user response without a `username` field; the owner request's answer is taken as a string.
- PhotoSlice.Photos.Rejected: the rejected payload is taken as a string, so a rejection without a payload is not modelled. The same holds for the auth slices' rejected reducers.
- Request fields that are not strings (numbers, arrays) are not modelled. Request fields are optional strings.
- React rendering, effects, `alert`, the three-second `setTimeout` on the toast, browser object URLs, and the purely presentational components. The effects show up only as returned alert texts and as a `ClearToast` method. The object URLs are a parameter.
- AlbumsPage.Form.AddAlbumSucceeded: `toggleModal` runs from the render in which the form was submitted; the model takes that render's `isModalOpen` as the `openAtSubmit` parameter.
- `Albums.tsx` sends the email as `userId` (modelled by `AlbumsPage.Form.HandleAddAlbum`), but nothing uses that field: `createAlbum` reads the user id from `state.auth.id` (client/src/redux/slices/albumSlice.ts:103-113), so the dispatched `userId` is not passed on to `AlbumSlice.CreateAlbum`.
- Broken wiring is not modelled as behaviour:
  - `Albums.tsx` imports `createAlbum` from `reducers/albumSlice.ts`, which does not export it.
  - The photo and album routes name controller functions that do not exist.
  - `AuthWrapper` imports a missing action.
  - The store registers only the older users and albums reducers.
- Tests and build configuration.

## Findings

| source | as written | input that shows it | evidently intended | confidence | as-written member | corrected member |
|---|---|---|---|---|---|---|
| backend/src/routes/authRoutes.ts:44-48 | the callback passes `req.user` to `handleGitHubUser` as if it were a GitHub profile, but after `passport.authenticate` it is the user row that the verify callback returned, so the lookup uses `githubId == row.id` | a first sign-in of GitHub user `42` (`alice`) with an empty table: verify creates row `u1` with githubId `42`; the handler then looks up githubId `u1`, finds none, and creates row `u2` with githubId `u1`, email `""` and name `alice` | the principal is already the database user; the handler should resolve it by its GitHub id (or not be called), so one sign-in adds at most one row | high, not executed | AuthRoutes.GithubCallback, AuthRoutes.FirstLoginStrayRow | AuthRoutes.GithubCallbackFixed, AuthRoutes.CallbackRouteFixed |
