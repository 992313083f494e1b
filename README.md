# SkillNet-PAF: a verified model of the client's session, list and form logic and of the backend's stores

SkillNet-PAF is a social learning platform. Its React client lets users log in through OAuth. They then post skills with media, comment, follow and edit learning plans, search, and read notifications. Its Spring backend keeps posts, comments, learning plans, users and profiles in MongoDB, and it hands out tokens after an OAuth login.

This project models the parts of both sides that decide something. Each member is proved against what the code promises. Rendering, the network and the database are left out.

The Dafny modules follow the source files, one module per file:

- **Session and identity.**
  - `Storage` is `localStorage` over the keys the client uses.
  - `UserUtils` is `utils/userUtils.ts`.
  - `UsersApi` is `services/api/users.ts`.
  - `AuthContext` is the session provider, a class over the store and the current user.
  - `OAuthCallback` is the OAuth redirect page.
  - `ProtectedRoute` is the route guard.
  - `Theme` is the light/dark preference.
- **HTTP.** `HttpClient` holds the axios interceptors: the auth header, the content type, a single retry on 401, the redirect on 403 or on a failed refresh, and the network-error message.
- **Client lists and forms.**
  - `Notifications`, `NotificationsPage`.
  - `PostsApi` (the response mapping and `handleError`), `HomeFeed`.
  - `SkillPostCard`, `MediaFiles`, `CreatePost`, `CreatePostModal`.
  - `CommentSection`, `Search`.
  - `PlanTypes`, `MockData` (the offline plan table), `LearningPlansApi`.
  - `PlanForm` (shared validators and row editors), `CreatePlanPage`, `EditPlanPage`, `CreatePlanModal`.
  - `PlanPage`, `PlanCard`, `ProfilePage`.
- **Backend.**
  - `Documents` is a MongoDB collection as a list of documents: `save` replaces by id or appends, and `delete` removes by id.
  - `PostService`, `CommentService`, `PlanService` and `UserService` are the service implementations.
  - `OAuthController` is the code→token table and the redirect URLs.
  - `PlanEntity` is the plan's completion percentage and a topic's status.
- **Shared helpers.**
  - `Wrappers` holds `Option`.
  - `Text` holds the ASCII `toLowerCase`, `trim`, the e-mail prefix, `includes` and the slug.
  - `Seqs` holds `filter`, `find` and `findIndex`.
  - `Sorting` is a stable newest-first sort.
  - `Arith` holds division facts.

State that the source changes in place is a class whose methods say, in their `ensures`, what the new state is. The properties are lemmas about the functions that those methods are proved against. The following are parameters of the model:

- each remote call's outcome, as a chosen value;
- the clock, UUIDs and `Date.now()` ids;
- `decodeURIComponent`, `URL.createObjectURL` and `toDateString`;
- the Cloudinary upload.

## Model

| member | source | states |
|---|---|---|
| AuthContext.SnapshotOf | Frontend/src/contexts/AuthContext.tsx:76-82 | the `skillnet_user` snapshot of a loaded user: id, name, email and picture copied, the username or else the email's prefix; there is none exactly when neither a username nor an email exists (the source throws then) |
| AuthContext.TempUser | Frontend/src/contexts/AuthContext.tsx:98-103 | the temporary user made from a bare token: the stored id or 'temp-id', name 'User', email 'user@example.com', username the id or 'user' |
| AuthContext.Fallback | Frontend/src/contexts/AuthContext.tsx:84-118 | the user recovered without the server: a parseable snapshot wins; otherwise a truthy token gives the temporary user, and nothing gives nobody |
| AuthContext.Placeholder | Frontend/src/contexts/AuthContext.tsx:200-205 | the OAuth placeholder identity: id and name the user id, username its lower-case dotted slug, email the slug at example.com |
| AuthContext.LoadingUser | Frontend/src/contexts/AuthContext.tsx:208-214 | the user shown while the callback waits: the placeholder for a user id, else the 'Loading...' user |
| AuthContext.LoadSpec | Frontend/src/contexts/AuthContext.tsx:68-159 | `loadUser`: a fetched user with a snapshot is set and stored; every other answer, a rejection included, falls back to the stored session and leaves storage as it was |
| AuthContext.CallbackSpec | Frontend/src/contexts/AuthContext.tsx:190-248 | `handleAuthCallback`: the token is always stored; a user sent by the server becomes the user, its id the stored `userId` and its snapshot `skillnet_user`; with no server user a given user id stores that id and the placeholder snapshot and becomes the user, and a rejection keeps the existing user or else the loading placeholder; theme, auth and refresh tokens and the plan user are untouched |
| AuthContext.LogoutStore | Frontend/src/contexts/AuthContext.tsx:284-286 | logout removes `token`, `userId` and `skillnet_user` and keeps every other key |
| AuthContext.UpdatedUser | Frontend/src/contexts/AuthContext.tsx:299-307 | the updated user keeps id, email and username, takes the new name, bio and skills, and the new picture only when a file was chosen |
| AuthContext.AuthProvider.constructor | Frontend/src/contexts/AuthContext.tsx:64-65 | nobody is logged in and loading is true before the mount effect |
| AuthContext.AuthProvider.LoadUser | Frontend/src/contexts/AuthContext.tsx:68-159 | the new user and storage are `LoadSpec` of the old storage and the server's answer; loading ends false |
| AuthContext.AuthProvider.Startup | Frontend/src/contexts/AuthContext.tsx:250-258 | a truthy token loads the user as `LoadSpec` says; without one nothing changes but loading ends |
| AuthContext.AuthProvider.LoginWithCredentials | Frontend/src/contexts/AuthContext.tsx:162-188 | a successful login with a user sets and stores it and answers success; a failure answers the service's error; a rejection answers "Login failed"; loading ends false |
| AuthContext.AuthProvider.HandleAuthCallback | Frontend/src/contexts/AuthContext.tsx:190-248 | the new user and storage are `CallbackSpec` of the old ones; loading ends false |
| AuthContext.AuthProvider.OnMessage | Frontend/src/contexts/AuthContext.tsx:260-271 | a message is handled exactly when it comes from the window's origin, has type 'oauth_callback' and a truthy token; a handled one runs the callback, any other changes nothing |
| AuthContext.AuthProvider.Logout | Frontend/src/contexts/AuthContext.tsx:281-288 | given the storage the auth service's `authLogout()` leaves, the user becomes nobody and storage is `LogoutStore` of it |
| AuthContext.AuthProvider.UpdateProfile | Frontend/src/contexts/AuthContext.tsx:290-316 | the user becomes `UpdatedUser` and the whole object is stored as the snapshot; loading ends false |
| AuthContext.NoTokenNoSnapshotNobody | Frontend/src/contexts/AuthContext.tsx:116-118 | without a token and a parseable snapshot the fallback is nobody |
| AuthContext.LogoutForgetsEveryone | Frontend/src/contexts/AuthContext.tsx:281-288 | after a logout nobody is recovered from storage and `isUserLoggedIn` is false |
| AuthContext.LoadedUserSurvivesReload | Frontend/src/contexts/AuthContext.tsx:76-93 | a user accepted from the server is recovered from the snapshot on a reload without the server, with the same id and derived username |
| AuthContext.FetchedCallbackSurvivesReload | Frontend/src/contexts/AuthContext.tsx:218-241 | a callback the server answers with a user leaves that user, and an offline reload recovers its snapshot with the same id and derived username, logged in when the token is non-empty |
| AuthContext.CallbackSurvivesReload | Frontend/src/contexts/AuthContext.tsx:195-241 | a callback with a user id and no server answer leaves the placeholder, which a later offline reload recovers with the same id and slug, logged in |
| AuthContext.CallbackLogsIn | Frontend/src/contexts/AuthContext.tsx:195-241 | a callback with a token and a user id always leaves someone logged in, whatever the server answers |
| AuthContext.CallbackKeepsExistingUser | Frontend/src/contexts/AuthContext.tsx:208-215 | the loading placeholder replaces only an absent user; an existing user survives a failed server call |
| UserUtils.ToJson | Frontend/src/utils/userUtils.ts:44 | the stored object carries every field of the record, the optional ones only when present |
| UserUtils.UsernameOf | Frontend/src/utils/userUtils.ts:27 | a truthy username wins, else the part of the email before '@', else '' |
| UserUtils.Normalise | Frontend/src/utils/userUtils.ts:24-31 | a parsed snapshot with every field defaulted to '', picture and bio included |
| UserUtils.GetStoredUserData | Frontend/src/utils/userUtils.ts:14-36 | a record exactly when `skillnet_user` holds parseable JSON, and then its normalised form |
| UserUtils.SaveUserData | Frontend/src/utils/userUtils.ts:42-48 | the snapshot is written and no other key changes |
| UserUtils.ClearUserData | Frontend/src/utils/userUtils.ts:71-73 | only `skillnet_user` is removed |
| UserUtils.IsUserLoggedIn | Frontend/src/utils/userUtils.ts:79-81 | logged in exactly when the token is truthy and the snapshot parses |
| UserUtils.SaveThenGet | Frontend/src/utils/userUtils.ts:24-44 | saving then reading gives the same record back exactly when nothing is defaulted on the way: picture and bio present, and no empty username beside a non-empty email prefix |
| UserUtils.StoredDataIsStable | Frontend/src/utils/userUtils.ts:14-44 | a record read from storage is a fixed point of save-then-read |
| UserUtils.MergeUserWithProfile | Frontend/src/utils/userUtils.ts:54-66 | id from the user; name the profile's full name, else the user's, else ''; username and email from the user; picture and bio only from the profile, defaulting to '' |
| UserUtils.MergedRoundTrip | Frontend/src/utils/userUtils.ts:54-66 | a merged record survives a save and a read unchanged |
| UsersApi.ProfileOf | Frontend/src/services/api/users.ts:30-36 | the profile made from the stored user: its id twice, its name as full name, its bio or '', its picture |
| UsersApi.LocalProfile | Frontend/src/services/api/users.ts:21-36 | there is a local profile exactly when a stored user parses and matches the id asked for, by id or case-insensitively by username or name |
| UsersApi.MinimalProfile | Frontend/src/services/api/users.ts:57-63 | the minimal profile: id, user id and full name all the id asked for, empty bio and picture |
| UsersApi.GetUserProfile | Frontend/src/services/api/users.ts:18-124 | the server is asked exactly when a token is stored; without one the local or minimal profile; the server's data wins; an empty answer gives the local profile or null; a rejection gives the local or minimal profile; null only for an empty answer with no local match |
| UsersApi.GetCurrentUserProfile | Frontend/src/services/api/users.ts:130-143 | null and no request without a stored user id; otherwise a profile for that id, requested exactly when a token is stored: the server's data when it answers with some, the stored user's own profile otherwise |
| UsersApi.Matches | Frontend/src/services/api/users.ts:25-28 | a stored user stands for the requested id when its id, username or name equals it exactly; a match by username or name ignoring case has that field of the same length |
| UsersApi.OrOption | Frontend/src/services/api/users.ts:168-169 | JavaScript `a \|\| b` on optional text: a truthy `a`, else `b` |
| UsersApi.UpdatedStored | Frontend/src/services/api/users.ts:165-170 | the optimistic record keeps id, username and email; each truthy new field replaces the stored one |
| UsersApi.UpdateStore | Frontend/src/services/api/users.ts:160-172 | the optimistic write happens only when the snapshot belongs to the user being updated; token and user id are never touched |
| UsersApi.UpdateUserProfile | Frontend/src/services/api/users.ts:151-229 | storage becomes `UpdateStore`; the server is asked exactly when a token is stored; its data wins, and every other outcome answers the local record, or null when the snapshot is someone else's |
| UsersApi.OwnIdMatches | Frontend/src/services/api/users.ts:25-26 | the stored user's own id always finds the local profile |
| UsersApi.MatchIgnoresCase | Frontend/src/services/api/users.ts:27-28 | a username or name that matches one spelling matches every spelling that differs only in letter case |
| UsersApi.UpdateThenRead | Frontend/src/services/api/users.ts:160-181 | read your writes: after an update of the logged-in user, storage holds the optimistic record and the local profile read back is the one the update returned |
| UsersApi.EmptyFieldsKeepOldValues | Frontend/src/services/api/users.ts:167-169 | empty or absent new fields leave the stored record unchanged |
| HttpClient.HandleError | Frontend/src/services/api/axios.ts:41-89 | the response interceptor's error handler: a 401 always marks the request retried, and only a first 401 can be replayed |
| HttpClient.RequestConfig.constructor | Frontend/src/services/api/axios.ts:42 | a new request carries its body and headers and has not been retried |
| HttpClient.Client.constructor | Frontend/src/services/api/axios.ts:6-13 | a client over the tab's storage that has not redirected |
| HttpClient.Client.InterceptRequest | Frontend/src/services/api/axios.ts:16-36 | the header `Authorization: Bearer <authToken>` is added exactly when `authToken` is truthy, and the content type is multipart for form data and JSON otherwise |
| HttpClient.Client.InterceptError | Frontend/src/services/api/axios.ts:41-89 | the config, storage and redirect change as `HandleError` says; a replay carries the new token in its header, a rejection leaves the headers alone |
| HttpClient.Client.Send | Frontend/src/services/api/axios.ts:39-90 | one or two attempts, a second exactly when the first fails and the interceptor replays it; a success resolves with its reply and leaves storage alone; a failure that is not replayed rejects with the interceptor's reason and leaves its storage and redirect; after a replay, a success resolves with the storage the refresh wrote, and a failure rejects with the reason, storage and redirect of the interceptor run on the retried request |
| HttpClient.RetriedIsNeverReplayed | Frontend/src/services/api/axios.ts:45 | a request already marked retried is never replayed and storage is untouched: at most one retry |
| HttpClient.RefreshReplays | Frontend/src/services/api/axios.ts:50-67 | a first 401 with a refresh token and a successful refresh stores the new token and replays |
| HttpClient.FailedRefreshLogsOut | Frontend/src/services/api/axios.ts:69-75 | a failed refresh removes both tokens, redirects to /login and rejects with the refresh error |
| HttpClient.UnrefreshableRejects | Frontend/src/services/api/axios.ts:45-51 | a 401 without a refresh token is marked retried, rejected with itself and not redirected |
| HttpClient.ForbiddenRedirects | Frontend/src/services/api/axios.ts:79-81 | a 403 redirects to /login and still rejects with the original error |
| HttpClient.NetworkErrorRewritten | Frontend/src/services/api/axios.ts:82-85 | an unanswered request never redirects or touches storage, and gets the fixed network message exactly when its code is `ERR_NETWORK` |
| HttpClient.StorageChangesOnlyOnRefresh | Frontend/src/services/api/axios.ts:45-75 | storage changes only on a first 401 while a refresh token is stored |
| OAuthCallback.DecodedUserId | Frontend/src/pages/OAuthCallbackPage.tsx:18-19 | the decoded `userId` parameter when it is truthy, and none otherwise |
| OAuthCallback.PlaceholderStore | Frontend/src/pages/OAuthCallbackPage.tsx:27-38 | with a user id the page stores it and the placeholder snapshot; without one storage is untouched |
| OAuthCallback.SavedProfileStore | Frontend/src/pages/OAuthCallbackPage.tsx:44-60 | a fetched user's snapshot overwrites `skillnet_user`; an empty answer or a rejection changes nothing |
| OAuthCallback.CallbackPage.constructor | Frontend/src/pages/OAuthCallbackPage.tsx:9-11 | no error, processing, nothing scheduled |
| OAuthCallback.CallbackPage.Effect | Frontend/src/pages/OAuthCallbackPage.tsx:13-82 | with a token: the placeholder writes, the provider's callback, the profile save, then navigation home, still processing; without one: nothing stored, processing ends, with the decoded error or the fixed invalid-response message |
| OAuthCallback.PlaceholderWritesAbsorbed | Frontend/src/pages/OAuthCallbackPage.tsx:27-41 | the page's own placeholder writes change nothing the provider's callback would not write anyway |
| OAuthCallback.TokenAndIdLogIn | Frontend/src/pages/OAuthCallbackPage.tsx:22-62 | a redirect with a token and a user id leaves the user set and logged in, whatever either server call answers |
| ProtectedRoute.HasTokenAtMount | Frontend/src/components/auth/ProtectedRoute.tsx:9-12 | `hasToken` is true exactly when the token is truthy |
| ProtectedRoute.Route | Frontend/src/components/auth/ProtectedRoute.tsx:14-35 | a spinner exactly while loading; then the loading-data view exactly for no user with a token, the redirect to /login exactly for no user and no token, the protected page exactly for a user |
| ProtectedRoute.LogoutRedirects | Frontend/src/components/auth/ProtectedRoute.tsx:31-33 | after a logout a freshly mounted guard redirects to /login |
| ProtectedRoute.CallbackReachesOutlet | Frontend/src/components/auth/ProtectedRoute.tsx:35 | after an OAuth callback has finished, the guard shows the protected page |
| ProtectedRoute.TokenNeverRedirectsAfterLoad | Frontend/src/components/auth/ProtectedRoute.tsx:22-33 | with a stored token a finished `loadUser` never leads to the login redirect |
| Theme.NameOf | Frontend/src/contexts/ThemeContext.tsx:51 | the stored text is 'light' or 'dark' |
| Theme.InitialTheme | Frontend/src/contexts/ThemeContext.tsx:25-38 | a saved 'light' or 'dark' wins; any other saved text or none gives dark exactly when the system prefers dark |
| Theme.Toggle | Frontend/src/contexts/ThemeContext.tsx:54-56 | the toggle always changes the theme |
| Theme.ToggleInvolution | Frontend/src/contexts/ThemeContext.tsx:54-56 | toggling twice restores the theme |
| Theme.PersistedThemeRestored | Frontend/src/contexts/ThemeContext.tsx:26-29 | a persisted theme is what the next load starts with, whatever the system prefers |
| Theme.ThemeProvider.constructor | Frontend/src/contexts/ThemeContext.tsx:40-52 | mounting starts from `InitialTheme`, sets the dark class exactly for dark, and saves the theme without touching other keys |
| Theme.ThemeProvider.ApplyTheme | Frontend/src/contexts/ThemeContext.tsx:42-52 | the dark class is set exactly for the dark theme and the theme's name is saved |
| Theme.ThemeProvider.ToggleTheme | Frontend/src/contexts/ThemeContext.tsx:54-56 | the theme is toggled, then applied and saved |
| Notifications.UnreadCount | Frontend/src/contexts/NotificationContext.tsx:94 | the unread count never exceeds the number of notifications |
| Notifications.MarkAsRead | Frontend/src/contexts/NotificationContext.tsx:111-117 | the entries with that id become read, every other entry stays as it was, and the length is kept |
| Notifications.MarkAllAsRead | Frontend/src/contexts/NotificationContext.tsx:119-123 | every entry becomes read and nothing else about it changes |
| Notifications.MockNotifications | Frontend/src/contexts/NotificationContext.tsx:42-85 | the three mock notifications |
| Notifications.AfterUserChange | Frontend/src/contexts/NotificationContext.tsx:96-109 | once the effect has settled loading is over; a logged-out user has no notifications and a logged-in one has the mock list |
| Notifications.UnreadCountCounts | Frontend/src/contexts/NotificationContext.tsx:94 | the count is the number of entries whose read flag is false |
| Notifications.MarkAsReadCount | Frontend/src/contexts/NotificationContext.tsx:111-117 | marking an id lowers the count by exactly the number of unread entries with that id |
| Notifications.UnknownIdUnchanged | Frontend/src/contexts/NotificationContext.tsx:113-114 | marking an id that no entry carries changes nothing |
| Notifications.MarkedIdIsRead | Frontend/src/contexts/NotificationContext.tsx:111-117 | after marking an id, no entry with that id is unread |
| Notifications.MarkAsReadIdempotent | Frontend/src/contexts/NotificationContext.tsx:111-117 | marking the same id twice is marking it once |
| Notifications.MarkAllAsReadIdempotent | Frontend/src/contexts/NotificationContext.tsx:119-123 | marking everything twice is marking it once |
| Notifications.MarkAsReadCommutes | Frontend/src/contexts/NotificationContext.tsx:111-117 | marking two ids gives the same list in either order |
| Notifications.MarkAllAbsorbs | Frontend/src/contexts/NotificationContext.tsx:111-123 | marking everything absorbs an earlier single mark |
| Notifications.MarkAllClearsCount | Frontend/src/contexts/NotificationContext.tsx:119-123 | after marking everything the count is zero |
| Notifications.LoggedOutCountsZero | Frontend/src/contexts/NotificationContext.tsx:105-108 | a logged-out user has no unread notifications |
| NotificationsPage.GroupSpec | Frontend/src/pages/NotificationsPage.tsx:19-28 | every notification's day is a key of the table, no day's array is empty, and there are never more days than notifications |
| NotificationsPage.Filtered | Frontend/src/pages/NotificationsPage.tsx:14-16 | 'all' shows every notification; 'unread' shows as many as the unread count; nothing else ever appears |
| NotificationsPage.GroupByDay | Frontend/src/pages/NotificationsPage.tsx:19-28 | the loop that pushes each notification into its day's array builds the same groups as the declarative fold |
| NotificationsPage.EmptyStateHint | Frontend/src/pages/NotificationsPage.tsx:100 | the empty view says 'You have read all your notifications' exactly under the unread filter |
| NotificationsPage.Message | Frontend/src/pages/NotificationsPage.tsx:31-54 | every notification gets a non-empty message |
| NotificationsPage.UnreadFilterExact | Frontend/src/pages/NotificationsPage.tsx:14-16 | the unread filter keeps exactly the unread notifications, in their order |
| NotificationsPage.GroupsWellFormed | Frontend/src/pages/NotificationsPage.tsx:19-28 | the reducer keeps its keys distinct and in step with the table, and never leaves a day with an empty array |
| NotificationsPage.GroupsHoldTheirDay | Frontend/src/pages/NotificationsPage.tsx:19-28 | each day's array holds exactly that day's notifications in their original order |
| NotificationsPage.GroupsPartitionByDay | Frontend/src/pages/NotificationsPage.tsx:19-28 | every notification lands in its own day's group, and the groups are the filter of the list by day |
| NotificationsPage.EmptyStateIffNothingFiltered | Frontend/src/pages/NotificationsPage.tsx:93 | the empty state shows exactly when the filtered list is empty |
| NotificationsPage.MarkAllEmptiesUnreadView | Frontend/src/pages/NotificationsPage.tsx:83-100 | after "Mark all read" the unread view shows the empty state |
| NotificationsPage.MessageDeterminesKind | Frontend/src/pages/NotificationsPage.tsx:31-54 | equal messages mean the same kind, and for likes and comments the same content type |
| NotificationsPage.MissingContentTypePrintsUndefined | Frontend/src/pages/NotificationsPage.tsx:36 | a like without a content type reads "liked your undefined" |
| PostsApi.MediaOf | Frontend/src/services/api/posts.ts:68-72 | no media exactly when the url is empty or missing; otherwise one item named after the post, a video exactly when the lower-cased url ends in .mp4, .webm or .ogg |
| PostsApi.IsVideoUrl | Frontend/src/services/api/posts.ts:70 | a video url ends in a dot and three or four characters; urls ending in .mp4, .MP4 or .webm are videos, whatever the case |
| PostsApi.ToPost | Frontend/src/services/api/posts.ts:60-73 | id, description, url and owner copied, the date reformatted, comments and likes kept only when they are arrays, media as `MediaOf` |
| PostsApi.CreatedPost | Frontend/src/services/api/posts.ts:122-136 | a created post is mapped like any other but has no comments and no likes |
| PostsApi.AllPosts | Frontend/src/services/api/posts.ts:56-73 | an answer without data or without posts gives no posts; otherwise the server's posts mapped one by one |
| PostsApi.ErrorMessage | Frontend/src/services/api/posts.ts:37-50 | with a response the server's message or else the caller's; with only a request the fixed no-response message; otherwise the error's own message or else the caller's |
| PostsApi.LikePath | Frontend/src/services/api/posts.ts:165-182 | like and unlike always send the hard-coded user id 'current-user-id' |
| PostsApi.VideoDetectionIgnoresCase | Frontend/src/services/api/posts.ts:70 | a url and its lower-cased form are classified alike |
| PostsApi.AllPostsKeepOrder | Frontend/src/services/api/posts.ts:60-73 | the mapping keeps the server's order, count and ids |
| PostsApi.MediaAtMostOne | Frontend/src/services/api/posts.ts:68-72 | a post has at most one media item, and one exactly when its url is non-empty |
| PostsApi.ServerMessageWins | Frontend/src/services/api/posts.ts:42 | a non-empty server message wins; an empty or missing one gives the caller's message |
| HomeFeed.TypeName | Frontend/src/pages/HomePage.tsx:158-160 | every feed item's type is 'post', 'plan' or 'update' |
| HomeFeed.ToFeedPost | Frontend/src/pages/HomePage.tsx:158-167 | a post dressed for the feed keeps the post and gets the user id, the name 'User ' + id and the username 'user' + id |
| HomeFeed.ToFeedPosts | Frontend/src/pages/HomePage.tsx:158-167 | every post is dressed, in order |
| HomeFeed.Feed | Frontend/src/pages/HomePage.tsx:170-184 | the feed holds every post, plan and update |
| HomeFeed.ShownAsWritten | Frontend/src/pages/HomePage.tsx:226-229 | the filter as written keeps an item exactly when the filter is 'all', or it is 'post' and the item a post, or 'plan' and the item a plan |
| HomeFeed.Shown | Frontend/src/pages/HomePage.tsx:226-229 | the corrected filter keeps the same items and, under 'progress', the progress updates |
| HomeFeed.KeptAfterDelete | Frontend/src/pages/HomePage.tsx:195-200 | an item survives a delete exactly when it is not a post with the deleted id |
| HomeFeed.FilteredFeedAsWritten | Frontend/src/pages/HomePage.tsx:226-229 | the filter as written never adds an item |
| HomeFeed.FilteredFeed | Frontend/src/pages/HomePage.tsx:226-229 | the corrected filter never adds an item |
| HomeFeed.PostDeleted | Frontend/src/pages/HomePage.tsx:195-200 | no post with that id remains, and every other item stays |
| HomeFeed.PostUpdated | Frontend/src/pages/HomePage.tsx:202-219 | the length is kept; the post with the updated id is replaced by the dressed new post and every other item stays |
| HomeFeed.FeedSortedPermutation | Frontend/src/pages/HomePage.tsx:170-184 | the feed is ordered newest first and is a permutation of the posts, plans and updates merged |
| HomeFeed.AllKeepsEverything | Frontend/src/pages/HomePage.tsx:227 | 'all' keeps the whole feed |
| HomeFeed.PostsAndPlansKeepTheirType | Frontend/src/pages/HomePage.tsx:228 | as written, 'posts' keeps only posts and 'plans' only plans |
| HomeFeed.ProgressKeepsNothing | Frontend/src/pages/HomePage.tsx:228 | as written, 'progress' is compared with "progres", which no type equals, so it keeps nothing |
| HomeFeed.ProgressFilterHidesUpdates | Frontend/src/pages/HomePage.tsx:228 | a feed holding a progress update shows nothing under 'progress' as written, and the update under the corrected filter |
| HomeFeed.FilterKeepsExactlyType | Frontend/src/pages/HomePage.tsx:226-229 | with the corrected mapping each filter keeps exactly the items of its type, in their order |
| HomeFeed.IntendedAgreesOnPostsAndPlans | Frontend/src/pages/HomePage.tsx:228 | for 'posts' and 'plans' the corrected filter and the one as written agree |
| HomeFeed.DeleteKeepsOtherTypes | Frontend/src/pages/HomePage.tsx:197-199 | deleting a post keeps every plan and update in order, even one sharing the post's id |
| HomeFeed.UpdateUnknownUnchanged | Frontend/src/pages/HomePage.tsx:204-218 | updating with an id the feed does not carry changes nothing |
| HomeFeed.UpdateIdempotent | Frontend/src/pages/HomePage.tsx:204-218 | updating twice with the same post is updating once |
| SkillPostCard.JsRem | Frontend/src/components/posts/SkillPostCard.tsx:157 | JavaScript's remainder: for a non-negative dividend Dafny's remainder, below the divisor; for a negative one in (-b, 0] |
| SkillPostCard.SlideCount | Frontend/src/components/posts/SkillPostCard.tsx:157 | `post.media?.length \|\| 1`: at least one, and the number of media items when there are any |
| SkillPostCard.FlipLike | Frontend/src/components/posts/SkillPostCard.tsx:117-118 | the optimistic step flips the flag and moves the count down from liked and up from not liked |
| SkillPostCard.PostCard.constructor | Frontend/src/components/posts/SkillPostCard.tsx:33-46 | the first slide, not saved or loading, no error, the edit form closed with the post's description, liked exactly when a like is the viewer's, the count the number of likes |
| SkillPostCard.PostCard.NextSlide | Frontend/src/components/posts/SkillPostCard.tsx:156-158 | the slide moves forward one, wrapping round |
| SkillPostCard.PostCard.PrevSlide | Frontend/src/components/posts/SkillPostCard.tsx:160-162 | the slide moves back one, wrapping round |
| SkillPostCard.PostCard.FileSelect | Frontend/src/components/posts/SkillPostCard.tsx:90-110 | no file changes nothing; an oversized file sets the size error and keeps the old file; an accepted one is kept with its preview and clears the error |
| SkillPostCard.PostCard.Update | Frontend/src/components/posts/SkillPostCard.tsx:66-88 | a blank description gives 'Description is required' and sends nothing; otherwise the trimmed description, the chosen file and the post's owner are sent; success closes the form, failure sets the retry message; loading ends |
| SkillPostCard.PostCard.SendUpdate | Frontend/src/components/posts/SkillPostCard.tsx:72-87 | the request is the checked description, the chosen file and the post's owner; success closes the form with no error, failure keeps the form and sets the retry message; loading ends |
| SkillPostCard.PostCard.LikeClicked | Frontend/src/components/posts/SkillPostCard.tsx:112-134 | nothing while loading or logged out; otherwise the like or the unlike call by the old flag; success keeps the optimistic flip and hands the server's post on, and the flip lasts only until the parent passes that post back (`PostChanged`); failure restores flag and count and sets the like error |
| SkillPostCard.PostCard.PostChanged | Frontend/src/components/posts/SkillPostCard.tsx:48-51 | when the parent passes a post in, the card holds it, the heart is whether one of its likes is the viewer's, and the count is its number of likes |
| SkillPostCard.PostCard.SaveClicked | Frontend/src/components/posts/SkillPostCard.tsx:136-154 | nothing while loading; otherwise the save or unsave call by the old flag, the flag flipped only when the call succeeds, loading ended |
| SkillPostCard.PrevUndoesNext | Frontend/src/components/posts/SkillPostCard.tsx:156-162 | going back undoes going forward, and the other way round |
| SkillPostCard.NextIndex | Frontend/src/components/posts/SkillPostCard.tsx:156-158 | from a valid index, the next slide is one further, wrapping from the last to the first |
| SkillPostCard.PrevIndex | Frontend/src/components/posts/SkillPostCard.tsx:160-162 | from a valid index, the previous slide is one back, wrapping from the first to the last |
| SkillPostCard.InitiallyLiked | Frontend/src/components/posts/SkillPostCard.tsx:41 | the viewer starts out liking the post exactly when their id is among the likes' user ids; without a viewer nobody does |
| SkillPostCard.FlipLikeTwiceRestores | Frontend/src/components/posts/SkillPostCard.tsx:117-118 | flipping twice restores flag and count |
| SkillPostCard.FlipLikeMovesCountWithFlag | Frontend/src/components/posts/SkillPostCard.tsx:117-118 | the count rises by one exactly when the flag becomes liked, and falls by one otherwise |
| SkillPostCard.ServerLikeLeavesHeart | Frontend/src/components/posts/SkillPostCard.tsx:48-51 | a like the server records under the fixed id 'current-user-id' leaves another viewer's heart as it was once the post comes back, while the count grows by one |
| MediaFiles.MaxSize | Frontend/src/components/posts/CreatePost.tsx:23-24 | 100MB for a file whose MIME type starts with 'video/', 5MB for anything else |
| MediaFiles.SizeError | Frontend/src/components/posts/CreatePost.tsx:26-29 | no error exactly when the file is within its limit; otherwise the message naming that limit |
| MediaFiles.SizeBounds | Frontend/src/components/posts/CreatePost.tsx:23-29 | a file of at most 5MB is always accepted and one over 100MB never is |
| CreatePost.PostForm.constructor | Frontend/src/components/posts/CreatePost.tsx:12-17 | empty description, no file or preview, not a video, not loading, no error |
| CreatePost.PostForm.FileSelect | Frontend/src/components/posts/CreatePost.tsx:19-42 | no file changes nothing; an oversized file sets the size error and keeps the rest; an accepted one is kept with its preview and video flag and clears the error |
| CreatePost.PostForm.RemoveMedia | Frontend/src/components/posts/CreatePost.tsx:44-48 | file, preview and video flag cleared |
| CreatePost.PostForm.Submit | Frontend/src/components/posts/CreatePost.tsx:50-81 | a blank description gives 'Description is required', sends nothing and leaves text, file, preview, video flag and loading as they were; otherwise the trimmed description, the file and the fixed user id are sent; success clears the form and notifies, failure keeps it with the retry message; loading ends |
| CreatePost.PostForm.Send | Frontend/src/components/posts/CreatePost.tsx:57-80 | the payload is the trimmed description, the selected file and the fixed user id; success clears text, file, preview and video flag and notifies; failure keeps them with the retry message; loading ends and the video flag still describes the file |
| CreatePost.PayloadIsTrimmed | Frontend/src/components/posts/CreatePost.tsx:52-61 | a description that passes the blank check is sent non-empty and already trimmed |
| CreatePostModal.Previews | Frontend/src/components/modals/CreatePostModal.tsx:34 | one object URL per file, in the files' order |
| CreatePostModal.MediaChange | Frontend/src/components/modals/CreatePostModal.tsx:17-38 | a batch that would pass three files sets 'Maximum 3 files allowed', one holding a type other than JPEG, PNG or MP4 sets the type error, both leaving the lists as they were; otherwise files and previews are appended and the error cleared |
| CreatePostModal.RemoveMedia | Frontend/src/components/modals/CreatePostModal.tsx:40-43 | files and previews both drop that index; the error is untouched |
| CreatePostModal.SubmitError | Frontend/src/components/modals/CreatePostModal.tsx:45-64 | blank first gives 'Description is required', then over 1000 UTF-16 code units gives the length error; none exactly when the description is non-blank and at most 1000 code units long |
| CreatePostModal.AllowedType | Frontend/src/components/modals/CreatePostModal.tsx:25-27 | every accepted type is an image or a video type |
| CreatePostModal.MediaChangeKeepsAligned | Frontend/src/components/modals/CreatePostModal.tsx:17-38 | adding a batch keeps one preview per file and never passes three files |
| CreatePostModal.RemoveKeepsAligned | Frontend/src/components/modals/CreatePostModal.tsx:40-43 | removing an index keeps one preview per file |
| CreatePostModal.AcceptedBatchAllowed | Frontend/src/components/modals/CreatePostModal.tsx:25-31 | an accepted batch holds only JPEG, PNG and MP4 files |
| CreatePostModal.FullRefusesMore | Frontend/src/components/modals/CreatePostModal.tsx:20-23 | at three files, where the upload control is hidden, any further batch is refused with the three-file error |
| CreatePostModal.RemoveCount | Frontend/src/components/modals/CreatePostModal.tsx:40-43 | removing an existing index leaves one file fewer; any other index changes nothing |
| CommentSection.ActingUserId | Frontend/src/components/comments/CommentSection.tsx:27-30 | the signed-in user's id when it is non-empty, else the stored id, else the empty string |
| CommentSection.Edited | Frontend/src/components/comments/CommentSection.tsx:93-97 | same length; the comments with that id get the new content and every other comment is unchanged |
| CommentSection.Deleted | Frontend/src/components/comments/CommentSection.tsx:118 | no comment with that id remains and every other comment does |
| CommentSection.SortedView | Frontend/src/components/comments/CommentSection.tsx:128-131 | a copy of the same length for display |
| CommentSection.CommentPanel.constructor | Frontend/src/components/comments/CommentSection.tsx:14-24 | the post's id, no user, no comments, no count reported, loading, no error, empty inputs, no edit open, not submitting |
| CommentSection.CommentPanel.ResolveUser | Frontend/src/components/comments/CommentSection.tsx:26-30 | the acting user id is the signed-in id, else the stored one, else empty |
| CommentSection.CommentPanel.UpdateCommentCount | Frontend/src/components/comments/CommentSection.tsx:32-35 | the list is replaced and its length is reported |
| CommentSection.CommentPanel.FetchComments | Frontend/src/components/comments/CommentSection.tsx:37-49 | success stores the server's list and reports its size; failure keeps the list and sets the load error; loading ends |
| CommentSection.CommentPanel.SubmitComment | Frontend/src/components/comments/CommentSection.tsx:55-77 | a blank comment, no user or a submit in progress sends nothing; otherwise the trimmed content and the user id are sent; success puts the new comment first, reports the count and clears the input; failure sets the post error |
| CommentSection.CommentPanel.SendComment | Frontend/src/components/comments/CommentSection.tsx:59-76 | the request is the user id with the trimmed content; success puts the created comment first, reports one more than before and clears the input; failure keeps the list and the input and sets the post error; submitting ends |
| CommentSection.CommentPanel.StartEdit | Frontend/src/components/comments/CommentSection.tsx:261-264 | the comment's id and current text open in the editor |
| CommentSection.CommentPanel.EditComment | Frontend/src/components/comments/CommentSection.tsx:79-108 | without text, an open edit, a user, or with a submit in progress nothing is sent; otherwise the trimmed text goes to that id; success applies the edit locally and closes the editor; failure sets the update error |
| CommentSection.CommentPanel.SendEdit | Frontend/src/components/comments/CommentSection.tsx:82-107 | the request is the user id with the trimmed text; success gives only that id's comment the new content and closes the editor; failure keeps the list and the open edit and sets the update error; submitting ends |
| CommentSection.CommentPanel.DeleteComment | Frontend/src/components/comments/CommentSection.tsx:110-126 | sent exactly when there is a user and no submit in progress; success drops the comment locally, failure keeps the list and sets the delete error |
| CommentSection.EditKeepsIdentity | Frontend/src/components/comments/CommentSection.tsx:93-97 | an edit keeps every comment's id, owner and timestamp |
| CommentSection.EditUnknownUnchanged | Frontend/src/components/comments/CommentSection.tsx:93-97 | editing an id no comment carries changes nothing |
| CommentSection.DeleteKeepsOthersInOrder | Frontend/src/components/comments/CommentSection.tsx:118 | deleting keeps the other comments in their order, and deleting twice is deleting once |
| CommentSection.DeleteRemovesExactly | Frontend/src/components/comments/CommentSection.tsx:118 | the list shrinks by exactly the number of comments with that id |
| CommentSection.SortedViewIsOrderedCopy | Frontend/src/components/comments/CommentSection.tsx:128-131 | the display copy is newest first and a permutation of the stored comments |
| CommentSection.OwnerControlsHidden | Frontend/src/components/comments/CommentSection.tsx:258 | Edit and Delete are hidden on another user's comment and on every comment while an edit is open |
| Search.HitIffOccurs | Frontend/src/pages/SearchPage.tsx:140-160 | a text is a hit exactly when the lower-cased query occurs in the lower-cased text |
| Search.UserMatches | Frontend/src/pages/SearchPage.tsx:143-147 | a user matches exactly when the lower-cased query occurs in the lower-cased name or username, or in a non-empty bio |
| Search.PostMatches | Frontend/src/pages/SearchPage.tsx:150-153 | a post matches exactly when the lower-cased query occurs in its lower-cased description or its author's name |
| Search.PlanMatches | Frontend/src/pages/SearchPage.tsx:156-160 | a plan matches exactly when the lower-cased query occurs in its lower-cased title, description or subject |
| Search.SearchResults | Frontend/src/pages/SearchPage.tsx:127-167 | an empty query clears all three lists; otherwise each list keeps the entries whose fields contain the lower-cased query |
| Search.Visible | Frontend/src/pages/SearchPage.tsx:169-174 | users and posts are shown only for 'all' or their own type; plans only for 'all' or plans, and then only those of the chosen subject |
| Search.SubmittedQuery | Frontend/src/pages/SearchPage.tsx:115-120 | a new query parameter exactly when the input is not blank, and then the input as typed |
| Search.EmptyQueryShowsNothing | Frontend/src/pages/SearchPage.tsx:128-133 | an empty query shows no results whatever the filters |
| Search.ResultsAreSubsequences | Frontend/src/pages/SearchPage.tsx:143-160 | every result list is its source list with some entries left out, in order |
| Search.UserFoundIffMatch | Frontend/src/pages/SearchPage.tsx:143-147 | a user is found exactly when the query occurs in the name, the username or a non-empty bio, ignoring case |
| Search.QueryCaseIgnored | Frontend/src/pages/SearchPage.tsx:140 | a query and its lower-cased form find the same entries |
| Search.OneTypeHidesOthers | Frontend/src/pages/SearchPage.tsx:170-174 | choosing one result type hides the other two lists |
| Search.SubjectFilter | Frontend/src/pages/SearchPage.tsx:172-173 | the 'all' subject keeps every plan; a named subject keeps exactly the plans of that subject |
| PlanTypes.Merge | Frontend/src/services/api/learningPlans.ts:165 | each field the patch carries replaces the plan's, every other field is kept |
| PlanTypes.CompletedCount | Frontend/src/services/api/mockData.ts:172 | the number of completed topics, never more than there are topics |
| PlanTypes.SetTopic | Frontend/src/services/api/mockData.ts:167-169 | same length; each topic with the id gets the new flag and every other topic is kept |
| PlanTypes.RoundedPercent | Frontend/src/services/api/mockData.ts:173 | NaN exactly when there are no topics |
| PlanTypes.RoundedPercentIsNearest | Frontend/src/services/api/mockData.ts:173 | the rounded percentage is within half a percent of the exact share, halves rounding up |
| PlanTypes.RoundedPercentBounds | Frontend/src/services/api/mockData.ts:172-173 | with no more completed than topics the percentage lies in [0, 100] |
| PlanTypes.SetTopicKeepsOutline | Frontend/src/services/api/mockData.ts:167-169 | marking keeps every topic's id and title, in order |
| PlanTypes.SetTopicSets | Frontend/src/services/api/mockData.ts:167-169 | after marking, topics with the id carry the new flag and the others their old one |
| PlanTypes.SetTopicIdempotent | Frontend/src/services/api/mockData.ts:167-169 | marking the same way twice is marking once |
| PlanTypes.AllDoneIsHundred | Frontend/src/services/api/mockData.ts:172-173 | a plan whose every topic is completed is at 100 percent |
| MockData.PlanOne | Frontend/src/services/api/mockData.ts:114-128 | plan-1 belongs to the current user, holds the trigonometry topics, is at 50 percent with 87 followers and is not followed |
| MockData.PlanTwo | Frontend/src/services/api/mockData.ts:129-143 | plan-2 belongs to user 2, holds the programming topics, is at 33 percent with 42 followers and is followed |
| MockData.InitialPlans | Frontend/src/services/api/mockData.ts:113-144 | the table starts with two plans of different ids, the first the current user's and the second someone else's |
| MockData.GetByUserId | Frontend/src/services/api/mockData.ts:147-149 | exactly the table's plans of that user |
| MockData.GetById | Frontend/src/services/api/mockData.ts:151-153 | none exactly when no plan has the id; otherwise the first plan with it |
| MockData.Toggled | Frontend/src/services/api/mockData.ts:158-159 | the flag set; following adds one follower, unfollowing takes one away but never below zero |
| MockData.Max0 | Frontend/src/services/api/mockData.ts:159 | `Math.max(0, n)`: at least zero and at least n, and one of the two |
| MockData.WithTopic | Frontend/src/services/api/mockData.ts:167-173 | the topic marked and the percentage recomputed from all the plan's topics |
| MockData.ChangeFirst | Frontend/src/services/api/mockData.ts:156-160 | the table keeps its length whether or not a plan has the id |
| MockData.MockTable.constructor | Frontend/src/services/api/mockData.ts:113-144 | the two sample plans, the current user's first |
| MockData.MockTable.ToggleFollow | Frontend/src/services/api/mockData.ts:155-162 | the first plan with the id toggled in place and returned, as a later lookup would find it; nothing for an unknown id |
| MockData.MockTable.UpdateTopic | Frontend/src/services/api/mockData.ts:164-176 | the first plan with the id gets the topic marked and its percentage recomputed, and is returned; nothing for an unknown id |
| MockData.MockTable.Push | Frontend/src/services/api/learningPlans.ts:144 | the plan appended to the table |
| MockData.MockTable.Put | Frontend/src/services/api/learningPlans.ts:169 | the plan at that index replaced |
| MockData.MockTable.Splice | Frontend/src/services/api/learningPlans.ts:190 | the plan at that index removed |
| MockData.SameIdsSameIndex | Frontend/src/services/api/mockData.ts:152 | tables with the same ids in the same order find the same first plan for every id |
| MockData.FollowThenUnfollow | Frontend/src/services/api/mockData.ts:158-159 | following then unfollowing restores a non-negative count |
| MockData.FollowersStayNonNegative | Frontend/src/services/api/mockData.ts:159 | the follower count never goes negative |
| MockData.UnfollowAtZero | Frontend/src/services/api/mockData.ts:159 | unfollowing a plan at zero followers leaves it at zero |
| MockData.UpdatedPercentage | Frontend/src/services/api/mockData.ts:172-173 | after marking, a plan with topics has a percentage in [0, 100] and one without has NaN |
| MockData.ToggleThenGet | Frontend/src/services/api/mockData.ts:155-162 | the toggled plan is what a later lookup finds |
| MockData.CurrentUserOwnsPlanOne | Frontend/src/services/api/mockData.ts:113-144 | the sample table holds exactly one plan of the current user, plan-1 |
| LearningPlansApi.GetCurrentUserId | Frontend/src/services/api/learningPlans.ts:53-64 | the id of the stored user object; "1" when nothing usable is stored |
| LearningPlansApi.GetAllLearningPlans | Frontend/src/services/api/learningPlans.ts:66-80 | the server's list, or the whole mock table when the request fails |
| LearningPlansApi.GetLearningPlanById | Frontend/src/services/api/learningPlans.ts:83-99 | the server's plan; offline the mock plan with the id, or the not-found error |
| LearningPlansApi.GetUserLearningPlans | Frontend/src/services/api/learningPlans.ts:101-115 | the server's list, or the user's mock plans when the request fails |
| LearningPlansApi.NewPlan | Frontend/src/services/api/learningPlans.ts:128-142 | the offline plan: id from the clock, the request's fields, no progress, no followers, not followed, the given owner |
| LearningPlansApi.CreateLearningPlan | Frontend/src/services/api/learningPlans.ts:118-149 | the server's plan with the table untouched; offline the new plan appended and returned, and an empty table fails on its missing first plan |
| LearningPlansApi.UpdateLearningPlan | Frontend/src/services/api/learningPlans.ts:152-176 | the server's plan with the table untouched; offline the patch spread over the stored plan, which it replaces, or the not-found error |
| LearningPlansApi.DeleteLearningPlan | Frontend/src/services/api/learningPlans.ts:179-196 | online the table is untouched; offline the first plan with the id is removed, if any |
| LearningPlansApi.SetFollowing | Frontend/src/services/api/learningPlans.ts:198-232 | the server's plan; offline the plan toggled in the table and returned, or the not-found error |
| LearningPlansApi.TopicPatch | Frontend/src/services/api/learningPlans.ts:245-261 | the request carries the plan's fields with the topic marked, without percentage or user, so spreading it over the plan changes only the topics |
| LearningPlansApi.MarkTopicAsCompleted | Frontend/src/services/api/learningPlans.ts:235-274 | the lookup then the update; a failed lookup falls back on the table and fails there too; an offline update spreads the request over the stored plan |
| LearningPlansApi.EmptyPatchChangesNothing | Frontend/src/services/api/learningPlans.ts:165 | an empty patch leaves the plan as it was |
| LearningPlansApi.CreatedPlanIsFound | Frontend/src/services/api/learningPlans.ts:144-145 | offline a created plan is found by its id, unless an older plan has that id |
| LearningPlansApi.CreatedPlanIsListed | Frontend/src/services/api/learningPlans.ts:144 | offline a created plan is listed among its owner's plans |
| LearningPlansApi.DeleteSize | Frontend/src/services/api/learningPlans.ts:188-191 | offline, deleting an unknown plan changes nothing and deleting a known one removes one plan |
| LearningPlansApi.OfflineMarkKeepsPercentage | Frontend/src/services/api/learningPlans.ts:249-263 | offline, marking a topic changes the topics and leaves the stored percentage as it was |
| LearningPlansApi.OfflineMarkVersusUpdate | Frontend/src/services/api/learningPlans.ts:249-263 | for a plan at 50 percent whose marked topics are three of four done, the offline fallback sends those topics with 50 percent where the table's own update gives 75 |
| LearningPlansApi.SentTopics | Frontend/src/services/api/learningPlans.ts:249-263 | the plan the offline fallback sends carries the changed topics and the old completion percentage |
| LearningPlansApi.PercentOfMarked | Frontend/src/services/api/mockData.ts:167-173 | `updateTopic` sets the percentage to the rounded share of done topics after the change |
| LearningPlansApi.MarkedMathCount | Frontend/src/services/api/mockData.ts:66-87 | marking topic-3 of the trigonometry topics done leaves three of the four done |
| LearningPlansApi.MarkedPlanCount | Frontend/src/services/api/learningPlans.ts:249-263 | in a plan with the trigonometry topics, the topics sent after marking topic-3 are four with three done |
| LearningPlansApi.MarkedMathTopics | Frontend/src/services/api/mockData.ts:66-87 | marking topic-3 of the sample trigonometry topics changes that topic alone |
| LearningPlansApi.ThreeOfFourDone | Frontend/src/services/api/mockData.ts:172 | four topics of which three are completed count three |
| LearningPlansApi.OfflineMarkOfPlanOne | Frontend/src/services/api/learningPlans.ts:249-263 | on sample plan-1, marking topic-3 offline leaves 50 percent where the table's own update gives 75 |
| PlanForm.FormError | Frontend/src/pages/CreateLearningPlanPage.tsx:73-92 | a blank title is reported first, then a blank description; a topic or resource error only once both are filled; the result is one of the four messages or none |
| PlanForm.RowId | Frontend/src/pages/CreateLearningPlanPage.tsx:100-108 | every row id starts with its prefix and a dash |
| PlanForm.RowErrorHasCause | Frontend/src/pages/CreateLearningPlanPage.tsx:84-91 | a topic error names a topic really without a title; a resource error comes only when every topic has one, and names a resource really missing its title or URL |
| PlanForm.ApplyEdit | Frontend/src/pages/CreateLearningPlanPage.tsx:59-63 | the edited field takes the value and the row keeps its id |
| PlanForm.FormErrorNoneIff | Frontend/src/pages/CreateLearningPlanPage.tsx:73-92 | the checks pass exactly when title, description, every topic title and every resource title and URL hold more than whitespace |
| PlanForm.BlankTitleFirst | Frontend/src/pages/CreateLearningPlanPage.tsx:74-77 | the title error is reported exactly when the title is blank, whatever else is missing |
| PlanForm.UntitledTopicReported | Frontend/src/pages/CreateLearningPlanPage.tsx:84-87 | with title and description filled in, a topic without a title is reported |
| PlanForm.EditTouchesOneField | Frontend/src/pages/CreateLearningPlanPage.tsx:61 | editing one field of a resource row leaves its other fields alone |
| PlanForm.RowIdsDistinct | Frontend/src/pages/CreateLearningPlanPage.tsx:100-108 | rows at different positions get different ids |
| CreatePlanPage.PlanCreator.constructor | Frontend/src/pages/CreateLearningPlanPage.tsx:21-35 | empty title and description, the first subject, seven days, one blank topic and one blank resource row, nothing pending |
| CreatePlanPage.WithRowIds | Frontend/src/pages/CreateLearningPlanPage.tsx:100-108 | the rows keep their number and order, each given the id built from the prefix, the clock and its position |
| CreatePlanPage.PlanCreator.AddTopic | Frontend/src/pages/CreateLearningPlanPage.tsx:37-39 | a blank topic row appended |
| CreatePlanPage.PlanCreator.RemoveTopic | Frontend/src/pages/CreateLearningPlanPage.tsx:41-43 | the topic row at that index removed, while at least two rows exist, as the button is shown |
| CreatePlanPage.PlanCreator.ChangeTopic | Frontend/src/pages/CreateLearningPlanPage.tsx:45-49 | that row's title replaced, every other row unchanged |
| CreatePlanPage.PlanCreator.AddResource | Frontend/src/pages/CreateLearningPlanPage.tsx:51-53 | a blank link row appended |
| CreatePlanPage.PlanCreator.RemoveResource | Frontend/src/pages/CreateLearningPlanPage.tsx:55-57 | the resource row at that index removed, while at least two rows exist |
| CreatePlanPage.PlanCreator.ChangeResource | Frontend/src/pages/CreateLearningPlanPage.tsx:59-63 | that row's field replaced, every other row unchanged |
| CreatePlanPage.PlanCreator.Submit | Frontend/src/pages/CreateLearningPlanPage.tsx:65-135 | logged out gives the login error; a failing check gives its error; both send nothing; otherwise the request is `Sent` of the form, its rows given ids by `WithRowIds`; success shows the message and redirects to the new plan, failure shows the server's message or the fallback |
| CreatePlanPage.PlanCreator.Send | Frontend/src/pages/CreateLearningPlanPage.tsx:94-134 | the request sent is `Sent` of the form (the typed fields, rows renumbered by `WithRowIds`), loading ends, and success or failure is shown |
| CreatePlanPage.TopicIdsDistinct | Frontend/src/pages/CreateLearningPlanPage.tsx:100-103 | every topic sent has an id of its own |
| CreatePlanPage.IdsAreTheOnlyChange | Frontend/src/pages/CreateLearningPlanPage.tsx:100-108 | sending changes only the rows' ids, never what was typed |
| EditPlanPage.ParsedDays | Frontend/src/pages/EditLearningPlanPage.tsx:289 | never zero: the parsed number when it is a non-zero whole number, seven for NaN or zero |
| EditPlanPage.EditPatch | Frontend/src/pages/EditLearningPlanPage.tsx:149-162 | the update carries the loaded plan's owner, followers, following flag and creation time, and no percentage or user |
| EditPlanPage.PlanEditor.constructor | Frontend/src/pages/EditLearningPlanPage.tsx:19-38 | the route id, loading, no error or plan, empty fields, the first subject, seven days, one blank row of each kind |
| EditPlanPage.PlanEditor.Load | Frontend/src/pages/EditLearningPlanPage.tsx:40-73 | without a route id nothing changes; a failed fetch shows the load error and keeps every form field; a loaded plan fills the form (subject defaulting to Maths), and one owned by someone else shows the permission error and redirects to /my-plans |
| EditPlanPage.PlanEditor.Fill | Frontend/src/pages/EditLearningPlanPage.tsx:47-59 | the form takes the fetched plan's fields, the first subject when it has none; a plan of another logged-in user sets the permission error and redirects to /my-plans, and any other plan leaves error and redirect as they were |
| EditPlanPage.PlanEditor.AddTopic | Frontend/src/pages/EditLearningPlanPage.tsx:75-82 | a blank topic row with the id topic-<now>-<row count> appended |
| EditPlanPage.PlanEditor.RemoveTopic | Frontend/src/pages/EditLearningPlanPage.tsx:84-86 | the topic row at that index removed, at least one row kept |
| EditPlanPage.PlanEditor.ChangeTopic | Frontend/src/pages/EditLearningPlanPage.tsx:88-92 | that row's title replaced, every other row unchanged |
| EditPlanPage.PlanEditor.AddResource | Frontend/src/pages/EditLearningPlanPage.tsx:94-102 | a blank link row with the id resource-<now>-<row count> appended |
| EditPlanPage.PlanEditor.RemoveResource | Frontend/src/pages/EditLearningPlanPage.tsx:104-106 | the resource row at that index removed, at least one row kept |
| EditPlanPage.PlanEditor.ChangeResource | Frontend/src/pages/EditLearningPlanPage.tsx:108-112 | that row's field replaced, every other row unchanged |
| EditPlanPage.PlanEditor.SetEstimatedDays | Frontend/src/pages/EditLearningPlanPage.tsx:289 | the days field takes the parsed value, or seven |
| EditPlanPage.PlanEditor.Submit | Frontend/src/pages/EditLearningPlanPage.tsx:114-180 | no user, route id or loaded plan gives the missing-information error; a failing check gives its error; both send nothing; otherwise the update goes to the route's plan; success redirects to it, failure shows the server's message or the fallback |
| EditPlanPage.PlanEditor.Send | Frontend/src/pages/EditLearningPlanPage.tsx:143-179 | the update sent is the form plus the preserved fields, loading ends, and success or failure is shown |
| EditPlanPage.UpdateKeepsOwnerFields | Frontend/src/pages/EditLearningPlanPage.tsx:157-161 | whatever the form says, the stored plan keeps its owner, followers, following flag, creation time, percentage and user |
| EditPlanPage.UntouchedFormRoundTrips | Frontend/src/pages/EditLearningPlanPage.tsx:51-56 | sending a loaded plan back untouched stores it as it was, when its subject is not empty |
| CreatePlanModal.Retitled | Frontend/src/components/modals/CreateLearningPlanModal.tsx:50-54 | same length; the topics with the id get the new title and every other topic is kept |
| CreatePlanModal.Edited | Frontend/src/components/modals/CreateLearningPlanModal.tsx:71-75 | same length; the resources with the id get the field edit and every other resource is kept |
| CreatePlanModal.PlanModal.constructor | Frontend/src/components/modals/CreateLearningPlanModal.tsx:26-41 | empty title and description, Maths, fourteen days, one blank topic and one blank link resource with ids ending in -1, no error, open |
| CreatePlanModal.PlanModal.AddTopic | Frontend/src/components/modals/CreateLearningPlanModal.tsx:43-48 | a blank topic with the id topic-<now>-<row count + 1> appended |
| CreatePlanModal.PlanModal.UpdateTopic | Frontend/src/components/modals/CreateLearningPlanModal.tsx:50-54 | the topics retitled by id |
| CreatePlanModal.PlanModal.RemoveTopic | Frontend/src/components/modals/CreateLearningPlanModal.tsx:56-62 | with more than one topic, the topics with the id removed; with one, nothing removed and the last-topic error shown |
| CreatePlanModal.PlanModal.AddResource | Frontend/src/components/modals/CreateLearningPlanModal.tsx:64-69 | a blank link resource with the id resource-<now>-<row count + 1> appended |
| CreatePlanModal.PlanModal.UpdateResource | Frontend/src/components/modals/CreateLearningPlanModal.tsx:71-75 | the resources edited by id |
| CreatePlanModal.PlanModal.RemoveResource | Frontend/src/components/modals/CreateLearningPlanModal.tsx:77-83 | with more than one resource, the resources with the id removed; with one, nothing removed and the last-resource error shown |
| CreatePlanModal.PlanModal.Submit | Frontend/src/components/modals/CreateLearningPlanModal.tsx:85-139 | a failing check shows its error and keeps the modal open; otherwise the plan is built with no progress, no followers, the instant and the placeholder user, and the modal closes |
| CreatePlanModal.RetitleKeepsIds | Frontend/src/components/modals/CreateLearningPlanModal.tsx:50-54 | retitling keeps every id, and an id no row has changes nothing |
| CreatePlanModal.RemoveByIdRemovesOne | Frontend/src/components/modals/CreateLearningPlanModal.tsx:56-62 | with distinct ids, removing a listed row removes exactly that row |
| CreatePlanModal.RemoveUnknownId | Frontend/src/components/modals/CreateLearningPlanModal.tsx:58 | removing an id no row has changes nothing |
| PlanCard.ProgressColor | Frontend/src/components/learning/LearningPlanCard.tsx:51-55 | red below 33, yellow from 33 below 67, green from 67, and green for NaN |
| PlanCard.SubjectColor | Frontend/src/components/learning/LearningPlanCard.tsx:71-82 | each of English, Maths and Science has its own badge, and exactly the other subjects get gray |
| PlanCard.FollowStep | Frontend/src/components/learning/LearningPlanCard.tsx:57-64 | the flag flips and the count moves with it, so the count less the card's own follow stays the same |
| PlanCard.PlanCardView.constructor | Frontend/src/components/learning/LearningPlanCard.tsx:44-48 | flag and count from the plan, collapsed |
| PlanCard.PlanCardView.HandleFollow | Frontend/src/components/learning/LearningPlanCard.tsx:57-64 | one follow step, keeping the count in step with the plan's |
| PlanCard.PlanCardView.ToggleExpand | Frontend/src/components/learning/LearningPlanCard.tsx:66-68 | the expanded flag flipped |
| PlanCard.ProgressColorMonotone | Frontend/src/components/learning/LearningPlanCard.tsx:51-55 | a higher percentage never moves the bar back to an earlier colour |
| PlanCard.FollowTwiceRestores | Frontend/src/components/learning/LearningPlanCard.tsx:57-64 | following and unfollowing, in either order, restores flag and count |
| PlanCard.CountStaysNear | Frontend/src/components/learning/LearningPlanCard.tsx:46-47 | the count shown is the plan's, one more or one less, and the plan's own while the flag is unchanged |
| PlanPage.SamplePlan | Frontend/src/pages/LearningPlanPage.tsx:10-85 | the page's sample plan: plan-1, 33 percent, 14 days, 87 followers, not followed, its six topics |
| PlanPage.PageProgressColor | Frontend/src/pages/LearningPlanPage.tsx:117-122 | gray before the plan is there, then the card's thresholds on its percentage |
| PlanPage.CompletedLog | Frontend/src/pages/LearningPlanPage.tsx:434 | the log holds only completed topics of the plan, and every completed topic |
| PlanPage.UpNext | Frontend/src/pages/LearningPlanPage.tsx:456 | at most one topic, and that one an open topic of the plan |
| PlanPage.TopicsDone | Frontend/src/pages/LearningPlanPage.tsx:417 | completed topics over all topics, the first never above the second |
| PlanPage.DaysLeft | Frontend/src/pages/LearningPlanPage.tsx:423 | never negative, and NaN exactly for a NaN percentage |
| PlanPage.PlanView.constructor | Frontend/src/pages/LearningPlanPage.tsx:89-92 | no plan, loading, not followed, no followers |
| PlanPage.PlanView.Fetch | Frontend/src/pages/LearningPlanPage.tsx:95-97 | the spinner shows again when the route's id changes |
| PlanPage.PlanView.Loaded | Frontend/src/pages/LearningPlanPage.tsx:99-104 | the sample plan shown with its own flag and count, loading over |
| PlanPage.PlanView.HandleFollow | Frontend/src/pages/LearningPlanPage.tsx:107-114 | one follow step, keeping the count in step with the plan's |
| PlanPage.TopicsDoneFull | Frontend/src/pages/LearningPlanPage.tsx:417 | all topics are done exactly when the two figures are equal |
| PlanPage.DaysLeftBounds | Frontend/src/pages/LearningPlanPage.tsx:423 | for a percentage in [0, 100], the days left lie between none and the estimate: all of them at 0 percent, none at 100 |
| PlanPage.DaysLeftMonotone | Frontend/src/pages/LearningPlanPage.tsx:423 | more progress never leaves more days |
| PlanPage.CompletedLogFaithful | Frontend/src/pages/LearningPlanPage.tsx:434 | the log holds every completed topic and nothing else, in plan order, as many as Topics Done counts |
| PlanPage.UpNextIsFirstOpen | Frontend/src/pages/LearningPlanPage.tsx:456 | Up Next is empty exactly when every topic is done, and otherwise holds the first open topic |
| PlanPage.FirstOpenLeads | Frontend/src/pages/LearningPlanPage.tsx:456 | when some topic is open, the open topics are non-empty and begin with the first open one |
| ProfilePage.LowerOpt | Frontend/src/pages/ProfilePage.tsx:43 | an absent name stays absent, a present one is lower-cased |
| ProfilePage.IsCurrentUserProfile | Frontend/src/pages/ProfilePage.tsx:39-50 | never the viewer's own profile without a session user |
| ProfilePage.SourceOf | Frontend/src/pages/ProfilePage.tsx:123-217 | the stored snapshot is the source exactly when a route name is given and it answers to it, ignoring case; there is nothing to show exactly when there is no route name, no session and no snapshot |
| ProfilePage.Placeholder | Frontend/src/pages/ProfilePage.tsx:157-162 | another user's profile without a token shows the route's name as id, name and username, and nothing else |
| ProfilePage.WithField | Frontend/src/pages/ProfilePage.tsx:52-58 | the named field of the form takes the value and the others are kept |
| ProfilePage.ApiView | Frontend/src/pages/ProfilePage.tsx:230-244 | the service's user id is the id; its full name, else the stored name, is the name; the stored username, else the service's user id, is the username; a missing picture is blank |
| ProfilePage.LocalStep | Frontend/src/pages/ProfilePage.tsx:123-217 | the stored user is shown as stored; another user's profile keeps the form and shows the placeholder without a token; the session user is shown when it has a name; and the id asked for is the one shown |
| ProfilePage.Fetched | Frontend/src/pages/ProfilePage.tsx:113-266 | the service is asked only with a token and a non-empty id; with nothing to show, nothing changes; without an answer the local step stands; with one, the service's view and form |
| ProfilePage.Optimistic | Frontend/src/pages/ProfilePage.tsx:69-74 | each filled-in field replaces the shown one, an empty field keeps it, and id and username never change |
| ProfilePage.ProfileScreen.constructor | Frontend/src/pages/ProfilePage.tsx:26-35 | loading, the default view, not editing, an empty form, no success and no error |
| ProfilePage.ProfileScreen.EditChange | Frontend/src/pages/ProfilePage.tsx:52-58 | the form with the named field replaced |
| ProfilePage.ProfileScreen.FetchUserProfile | Frontend/src/pages/ProfilePage.tsx:112-266 | the view, form and the id asked for are those of the whole fetch over the route, session, storage and the service's answer; the spinner always stops |
| ProfilePage.ProfileScreen.HandleProfileUpdate | Frontend/src/pages/ProfilePage.tsx:60-93 | without a logged-in id the login error and nothing sent; otherwise the filled-in fields are shown at once and the form sent for that id; a saved profile closes the form, an unsaved one shows the saved-locally message |
| ProfilePage.CurrentUserProfileIff | Frontend/src/pages/ProfilePage.tsx:39-50 | with a route name, the profile is the viewer's own exactly when the snapshot or the session's user answers to it, ignoring case |
| ProfilePage.NoTokenNoCall | Frontend/src/pages/ProfilePage.tsx:219-223 | without a token the service is never asked |
| ProfilePage.OtherUserWithoutToken | Frontend/src/pages/ProfilePage.tsx:150-163 | another user's page without a token shows the placeholder and asks nothing |
| ProfilePage.ServiceFields | Frontend/src/pages/ProfilePage.tsx:229-251 | with an answer, the name is the service's full name, else the stored name, else the route's; the username the stored one, else the service's user id |
| ProfilePage.NoAnswerKeepsLocal | Frontend/src/pages/ProfilePage.tsx:225-259 | a service that fails or answers nothing leaves the local data in place |
| ProfilePage.NoSourceKeepsView | Frontend/src/pages/ProfilePage.tsx:215-217 | with nothing to show, view and form stay and nothing is asked |
| ProfilePage.OptimisticKeepsEmptyFields | Frontend/src/pages/ProfilePage.tsx:69-74 | the optimistic update replaces exactly the filled-in fields, keeps id and username, and applying it twice is applying it once |
| ProfilePage.IntendedApiView | Frontend/src/pages/ProfilePage.tsx:233 | as intended, another user's profile gets the service's user id as its username; one's own is shown as written |
| ProfilePage.OtherProfileShowsViewersUsername | Frontend/src/pages/ProfilePage.tsx:233 | as written, a logged-in viewer of another user's profile sees their own stored username on it, which the intended view does not show |
| Sorting.InsertByTimeKeeps | Backend/src/main/java/com/skillshare/skill_platform/service/Impl/PostServiceImpl.java:79 | inserting one element adds exactly that element to the list's contents |
| Sorting.InsertByTimeSorted | Backend/src/main/java/com/skillshare/skill_platform/service/Impl/PostServiceImpl.java:79 | inserting into a newest-first list keeps it newest first |
| Sorting.SortedIsNewestFirst | Backend/src/main/java/com/skillshare/skill_platform/service/Impl/PostServiceImpl.java:79 | the sorted list is ordered newest first |
| Sorting.SortedIsPermutation | Backend/src/main/java/com/skillshare/skill_platform/service/Impl/PostServiceImpl.java:79 | the sorted list holds exactly the input's elements, each as often |
| Sorting.SortOfSorted | Backend/src/main/java/com/skillshare/skill_platform/service/Impl/PostServiceImpl.java:79 | a list already newest first, ties included, is left as it is |
| Sorting.InsertByTimeAtTime | Backend/src/main/java/com/skillshare/skill_platform/service/Impl/PostServiceImpl.java:79 | an inserted element lands ahead of every element of its own time, and the elements of each time keep their order |
| Sorting.SortIsStable | Backend/src/main/java/com/skillshare/skill_platform/service/Impl/PostServiceImpl.java:79 | the sort is stable: the elements of each time come out in the order they went in |
| PostService.Liked | Backend/src/main/java/com/skillshare/skill_platform/service/Impl/PostServiceImpl.java:155-162 | after a like the user has liked, exactly that one like is added, and the other users' likes are as they were |
| PostService.Unliked | Backend/src/main/java/com/skillshare/skill_platform/service/Impl/PostServiceImpl.java:186 | none of the user's likes remain, every other like does, and nothing new appears |
| PostService.Updated | Backend/src/main/java/com/skillshare/skill_platform/service/Impl/PostServiceImpl.java:95-109 | id, owner, likes and date are kept; a non-empty description replaces the old one; an uploaded file's url replaces the old url |
| PostService.PostStore.constructor | Backend/src/main/java/com/skillshare/skill_platform/entity/Post.java:15-30 | an empty collection |
| PostService.PostStore.CreatePost | Backend/src/main/java/com/skillshare/skill_platform/service/Impl/PostServiceImpl.java:29-56 | a null or empty description, or an upload that gives no url, is a 400 and saves nothing; otherwise a 200 and the new post, with no likes and the clock's date, appended |
| PostService.PostStore.GetAllPosts | Backend/src/main/java/com/skillshare/skill_platform/service/Impl/PostServiceImpl.java:75-85 | every post, newest first and a permutation of the stored ones |
| PostService.PostStore.UpdatePost | Backend/src/main/java/com/skillshare/skill_platform/service/Impl/PostServiceImpl.java:88-117 | an unknown id is a 404, a failed upload a 400, both saving nothing; otherwise a 200 and the updated post saved over the old one |
| PostService.PostStore.DeletePost | Backend/src/main/java/com/skillshare/skill_platform/service/Impl/PostServiceImpl.java:120-133 | an unknown id is a 404; otherwise a 200 and that post removed |
| PostService.PostStore.LikePost | Backend/src/main/java/com/skillshare/skill_platform/service/Impl/PostServiceImpl.java:136-173 | an unknown id is a 404; a user who has already liked gets a 400 and nothing changes; otherwise a 200 and one like appended |
| PostService.PostStore.UnlikePost | Backend/src/main/java/com/skillshare/skill_platform/service/Impl/PostServiceImpl.java:176-204 | an unknown id is a 404; a user without a like gets a 400; otherwise a 200 and the user's likes removed |
| PostService.SavedLikes | Backend/src/main/java/com/skillshare/skill_platform/service/Impl/PostServiceImpl.java:162 | saving a post whose likes are one per user keeps that true of every post |
| PostService.LikeKeepsOnePerUser | Backend/src/main/java/com/skillshare/skill_platform/service/Impl/PostServiceImpl.java:146-161 | a like by a user who has none keeps the likes one per user |
| PostService.UnlikeKeepsOnePerUser | Backend/src/main/java/com/skillshare/skill_platform/service/Impl/PostServiceImpl.java:186 | removing a user's likes keeps the rest one per user |
| PostService.LikeThenUnlike | Backend/src/main/java/com/skillshare/skill_platform/service/Impl/PostServiceImpl.java:161-186 | a like then an unlike by a user with no like gives back the likes as they were |
| PostService.LikeCounts | Backend/src/main/java/com/skillshare/skill_platform/service/Impl/PostServiceImpl.java:155-161 | after a like the user has liked the post and the count grew by exactly one |
| PostService.UnlikeRemovesOne | Backend/src/main/java/com/skillshare/skill_platform/service/Impl/PostServiceImpl.java:186 | with one like per user, an unlike removes exactly one like |
| Documents.Lookup | Backend/src/main/java/com/skillshare/skill_platform/service/Impl/CommentServiceImpl.java:47 | `findById`: none exactly when no document has the id; otherwise a stored document with it |
| Documents.Saved | Backend/src/main/java/com/skillshare/skill_platform/service/Impl/CommentServiceImpl.java:53 | `save`: afterwards the id finds the saved document; the collection either keeps its size or gains it at the end |
| Documents.Deleted | Backend/src/main/java/com/skillshare/skill_platform/service/Impl/PostServiceImpl.java:124 | `deleteById`: afterwards the id finds nothing, and the collection never grows |
| Documents.SavedKeepsKeysDistinct | Backend/src/main/java/com/skillshare/skill_platform/service/Impl/CommentServiceImpl.java:53 | saving keeps the ids distinct |
| Documents.SavedKeepsOthers | Backend/src/main/java/com/skillshare/skill_platform/service/Impl/CommentServiceImpl.java:53 | saving leaves what every other id finds as it was |
| Documents.SavedNewAppends | Backend/src/main/java/com/skillshare/skill_platform/service/Impl/CommentServiceImpl.java:53 | saving a document whose id is not stored appends it at the end |
| Documents.DeletedKeepsKeysDistinct | Backend/src/main/java/com/skillshare/skill_platform/service/Impl/CommentServiceImpl.java:67 | deleting keeps the ids distinct |
| Documents.DeletedKeepsOthers | Backend/src/main/java/com/skillshare/skill_platform/service/Impl/CommentServiceImpl.java:67 | deleting leaves what every other id finds as it was |
| Documents.DeletedRemovesOne | Backend/src/main/java/com/skillshare/skill_platform/service/Impl/CommentServiceImpl.java:67 | with distinct ids, deleting a stored id removes exactly that document |
| CommentService.CommentStore.constructor | Backend/src/main/java/com/skillshare/skill_platform/service/Impl/CommentServiceImpl.java:15-19 | an empty collection |
| CommentService.CommentStore.CreateComment | Backend/src/main/java/com/skillshare/skill_platform/service/Impl/CommentServiceImpl.java:22-29 | the new comment with the post, content, owner and clock reading is appended |
| CommentService.CommentStore.GetAllCommentsByPostId | Backend/src/main/java/com/skillshare/skill_platform/service/Impl/CommentServiceImpl.java:32-43 | the loop keeps exactly the stored comments on the post, in storage order |
| CommentService.CommentStore.UpdateComment | Backend/src/main/java/com/skillshare/skill_platform/service/Impl/CommentServiceImpl.java:46-58 | true exactly when the comment exists and belongs to the user; then its content is replaced, otherwise nothing changes |
| CommentService.CommentStore.DeleteComment | Backend/src/main/java/com/skillshare/skill_platform/service/Impl/CommentServiceImpl.java:61-72 | true exactly when the comment exists and belongs to the user; then it is removed, otherwise nothing changes |
| CommentService.PostCommentsExact | Backend/src/main/java/com/skillshare/skill_platform/service/Impl/CommentServiceImpl.java:36-40 | a post's comments are exactly the stored comments on it, in storage order |
| CommentService.UnknownCommentRefused | Backend/src/main/java/com/skillshare/skill_platform/service/Impl/CommentServiceImpl.java:47-57 | an unknown comment belongs to nobody, so no update or delete happens |
| CommentService.UpdateKeepsTheRest | Backend/src/main/java/com/skillshare/skill_platform/service/Impl/CommentServiceImpl.java:51-53 | an update keeps the comment's id, post, owner and time, and every other comment |
| CommentService.DeleteRemovesOne | Backend/src/main/java/com/skillshare/skill_platform/service/Impl/CommentServiceImpl.java:66-68 | an owner's delete removes exactly that comment |
| PlanEntity.SetCompleted | Backend/src/main/java/com/skillshare/skill_platform/entity/Topic.java:16-18 | the topic keeps its id and title and gets a status of completed or in progress, never another |
| PlanEntity.CompletedTopics | Backend/src/main/java/com/skillshare/skill_platform/entity/LearningPlan.java:32-34 | the number of completed topics, never more than there are topics |
| PlanEntity.CompletionPercentage | Backend/src/main/java/com/skillshare/skill_platform/entity/LearningPlan.java:27-37 | between 0 and 100, and 0 for a missing or empty topic list |
| PlanEntity.PercentBounds | Backend/src/main/java/com/skillshare/skill_platform/entity/LearningPlan.java:36 | a share rounded down by integer division lies in [0, 100] |
| PlanEntity.SetThenRead | Backend/src/main/java/com/skillshare/skill_platform/entity/Topic.java:12-18 | reading a status just set gives what was set, and setting it again changes nothing |
| PlanEntity.HundredIffAllCompleted | Backend/src/main/java/com/skillshare/skill_platform/entity/LearningPlan.java:27-37 | the percentage is 100 exactly when every topic of a non-empty list is completed |
| PlanEntity.AllCompletedIffFull | Backend/src/main/java/com/skillshare/skill_platform/entity/LearningPlan.java:32-34 | the count equals the number of topics exactly when every topic is completed |
| PlanEntity.NoneCompletedIsZero | Backend/src/main/java/com/skillshare/skill_platform/entity/LearningPlan.java:32-36 | a plan with topics none of which is completed has percentage 0 |
| PlanEntity.NoneCompletedCounts | Backend/src/main/java/com/skillshare/skill_platform/entity/LearningPlan.java:32-34 | with no completed topic the completed count is 0 |
| PlanEntity.CompletingRaisesPercentage | Backend/src/main/java/com/skillshare/skill_platform/entity/LearningPlan.java:27-37 | marking one topic completed never lowers the percentage |
| PlanEntity.CompletingCounts | Backend/src/main/java/com/skillshare/skill_platform/entity/LearningPlan.java:32-34 | marking one topic completed never lowers the count |
| PlanService.Copied | Backend/src/main/java/com/skillshare/skill_platform/service/Impl/LearningPlanServiceImpl.java:27 | `copyProperties` carries every request property onto the plan, id, owner, topics and followers included |
| PlanService.Matches | Backend/src/main/java/com/skillshare/skill_platform/service/Impl/LearningPlanServiceImpl.java:103-106 | a plan is matched only when it has the owner and the id, and every plan with both is matched |
| PlanService.FindOwned | Backend/src/main/java/com/skillshare/skill_platform/service/Impl/LearningPlanServiceImpl.java:103-106 | nothing exactly when no stored plan has both the owner and the id; otherwise a stored plan with both |
| PlanService.UpdatedAsWritten | Backend/src/main/java/com/skillshare/skill_platform/service/Impl/LearningPlanServiceImpl.java:108-110 | the plan saved on update carries the request's id and owner and the clock's time |
| PlanService.SavedPlan | Backend/src/main/java/com/skillshare/skill_platform/service/Impl/LearningPlanServiceImpl.java:38 | a saved plan with an id is found under it; one without is found under the fresh id; the collection grows by at most one |
| PlanService.UpdatedIntended | Backend/src/main/java/com/skillshare/skill_platform/service/Impl/LearningPlanServiceImpl.java:108-110 | the evidently intended update keeps the found plan's id, with the request's owner and the clock's time |
| PlanService.PlanStore.constructor | Backend/src/main/java/com/skillshare/skill_platform/entity/LearningPlan.java:10-12 | an empty collection |
| PlanService.PlanStore.Create | Backend/src/main/java/com/skillshare/skill_platform/service/Impl/LearningPlanServiceImpl.java:25-39 | a request without topics fails on them and saves nothing; otherwise the copied plan with the clock's time and the request's owner is saved, under a fresh id when it has none |
| PlanService.PlanStore.GetById | Backend/src/main/java/com/skillshare/skill_platform/service/Impl/LearningPlanServiceImpl.java:70-76 | a user without plans is the not-found error; otherwise that user's plans in storage order |
| PlanService.PlanStore.UpdateById | Backend/src/main/java/com/skillshare/skill_platform/service/Impl/LearningPlanServiceImpl.java:102-112 | a plan not found for the owner and id is the not-found error and nothing changes; otherwise the request-built plan is saved under the request's id |
| PlanService.PlanStore.Delete | Backend/src/main/java/com/skillshare/skill_platform/service/Impl/LearningPlanServiceImpl.java:115-121 | a plan not found for the owner and id is the not-found error and nothing changes; otherwise that plan is removed |
| PlanService.OthersPlansNotFound | Backend/src/main/java/com/skillshare/skill_platform/service/Impl/LearningPlanServiceImpl.java:103-106 | another user's plan is never found for update or delete, whatever its id |
| PlanService.DeleteRemovesOne | Backend/src/main/java/com/skillshare/skill_platform/service/Impl/LearningPlanServiceImpl.java:116-120 | deleting removes exactly the owner's plan, and every other id finds what it found before |
| PlanService.UpdateWithoutIdAddsPlan | Backend/src/main/java/com/skillshare/skill_platform/service/Impl/LearningPlanServiceImpl.java:108-111 | as written, an update whose request has no id leaves the found plan as it was and adds a new one |
| PlanService.IntendedUpdateInPlace | Backend/src/main/java/com/skillshare/skill_platform/service/Impl/LearningPlanServiceImpl.java:102-112 | the intended update replaces the found plan in place: same count, the new plan under its id, every other id unchanged |
| UserService.DtoOf | Backend/src/main/java/com/skillshare/skill_platform/service/Impl/UserServiceImpl.java:45-49 | the login's DTO carries the user's id, email and name |
| UserService.ProfileDtoOf | Backend/src/main/java/com/skillshare/skill_platform/service/Impl/UserServiceImpl.java:64-69 | the profile DTO carries the profile's id, owner, bio and picture URL |
| UserService.Login | Backend/src/main/java/com/skillshare/skill_platform/service/Impl/UserServiceImpl.java:28-50 | a known email answers that user and stores nothing; an unknown one appends a new user under the fresh id with the login's details and answers it |
| UserService.Upserted | Backend/src/main/java/com/skillshare/skill_platform/service/Impl/UserServiceImpl.java:53-61 | the saved profile belongs to the user and has the new bio and picture; an existing profile keeps its id and full name, a new one takes the fresh id |
| UserService.ProfileOf | Backend/src/main/java/com/skillshare/skill_platform/service/Impl/UserServiceImpl.java:73-84 | "Profile not found" exactly when the user has no profile; otherwise the DTO of one of the user's stored profiles |
| UserService.UserStore.constructor | Backend/src/main/java/com/skillshare/skill_platform/service/Impl/UserServiceImpl.java:21-25 | both collections start empty and valid |
| UserService.UserStore.HandleOAuthLogin | Backend/src/main/java/com/skillshare/skill_platform/service/Impl/UserServiceImpl.java:28-50 | the users and the answer are those of Login; profiles are untouched and emails stay distinct |
| UserService.UserStore.CreateOrUpdateProfile | Backend/src/main/java/com/skillshare/skill_platform/service/Impl/UserServiceImpl.java:53-70 | the upserted profile is saved by id and the answer is its DTO; users are untouched and a user keeps at most one profile |
| UserService.UserStore.GetProfile | Backend/src/main/java/com/skillshare/skill_platform/service/Impl/UserServiceImpl.java:73-84 | the answer is ProfileOf the stored profiles |
| UserService.LoginIdempotent | Backend/src/main/java/com/skillshare/skill_platform/service/Impl/UserServiceImpl.java:34-43 | logging in again with the same email creates nothing and answers the same user, whatever the other login details |
| UserService.LoginKeepsUsers | Backend/src/main/java/com/skillshare/skill_platform/service/Impl/UserServiceImpl.java:34-43 | a login never removes or alters a stored user and adds at most one |
| UserService.UpsertKeepsOwnersDistinct | Backend/src/main/java/com/skillshare/skill_platform/service/Impl/UserServiceImpl.java:54-62 | after the upsert no two profiles share an owner |
| UserService.UpsertThenGet | Backend/src/main/java/com/skillshare/skill_platform/service/Impl/UserServiceImpl.java:53-84 | after the upsert getProfile answers the new bio and picture under the profile's id |
| UserService.UpsertIdempotent | Backend/src/main/java/com/skillshare/skill_platform/service/Impl/UserServiceImpl.java:53-62 | upserting the same bio and picture twice stores the same as once |
| UserService.OthersUpsertLeavesNoProfile | Backend/src/main/java/com/skillshare/skill_platform/service/Impl/UserServiceImpl.java:54-59 | another user's upsert leaves a user without a profile still "Profile not found" |
| OAuthController.Exchanged | Backend/src/main/java/com/skillshare/skill_platform/controller/OAuth2Controller.java:78-94 | the answer is the code's entry in the new table; a known code keeps table and token, a new one records the minted token; no earlier entry changes |
| OAuthController.SuccessUrl | Backend/src/main/java/com/skillshare/skill_platform/controller/OAuth2Controller.java:32-58 | no redirect exactly when no URI is configured; otherwise the first URI followed by "?token=" and the token |
| OAuthController.ErrorUrl | Backend/src/main/java/com/skillshare/skill_platform/controller/OAuth2Controller.java:60-66 | no redirect exactly when no URI is configured; otherwise the first URI followed by "?error=" and the error, or "Authentication failed" |
| OAuthController.Controller.constructor | Backend/src/main/java/com/skillshare/skill_platform/controller/OAuth2Controller.java:26-30 | the configured URIs and an empty code table |
| OAuthController.Controller.Success | Backend/src/main/java/com/skillshare/skill_platform/controller/OAuth2Controller.java:32-58 | the redirect is SuccessUrl of the configured URIs and the minted token |
| OAuthController.Controller.Error | Backend/src/main/java/com/skillshare/skill_platform/controller/OAuth2Controller.java:60-66 | the redirect is ErrorUrl of the configured URIs and the given error |
| OAuthController.Controller.ExchangeToken | Backend/src/main/java/com/skillshare/skill_platform/controller/OAuth2Controller.java:85-89 | the new table and the answer are those of Exchanged |
| OAuthController.Controller.Debug | Backend/src/main/java/com/skillshare/skill_platform/controller/OAuth2Controller.java:96-103 | the configured URIs, "running" and the number of codes in the table |
| OAuthController.ExchangeMemoised | Backend/src/main/java/com/skillshare/skill_platform/controller/OAuth2Controller.java:85-89 | exchanging the same code again answers the same token and changes nothing |
| OAuthController.ExchangeCount | Backend/src/main/java/com/skillshare/skill_platform/controller/OAuth2Controller.java:85-101 | a new code adds exactly one entry and a known code none, so the debug count is the number of codes exchanged |
| OAuthController.SuccessTokenReadsBack | Backend/src/main/java/com/skillshare/skill_platform/controller/OAuth2Controller.java:46-49 | the token reads back from the success redirect after the URI and "?token=" |
| OAuthController.ErrorReadsBack | Backend/src/main/java/com/skillshare/skill_platform/controller/OAuth2Controller.java:62-63 | the error, or the default, reads back from the error redirect after the URI and "?error=" |
| Text.SlugShape | Frontend/src/contexts/AuthContext.tsx:203-204 | the placeholder user name holds no whitespace and no upper-case letter |
| Text.Slug | Frontend/src/contexts/AuthContext.tsx:203-204 | the placeholder user name is never longer than the id, and a non-empty id gives a non-empty name |
| Text.SlugIdempotent | Frontend/src/contexts/AuthContext.tsx:203-204 | slugging a slug changes nothing |

## Left out

- Rendering: JSX, CSS classes, icons and router wiring are view code. The model keeps only the values the views are computed from, such as colours, the guard's decision, owner-only controls and the empty state.
- View-only state is not modelled. This covers the `activeTab` selectors, the subject select of the post modal, hover and menu flags, and the profile's fixed stats fields.
- Timers are not modelled: the `setTimeout` redirects, the success-message resets, the mock delays and the loading spinners' timing. A scheduled navigation is recorded as the target it will go to.
- Console logging, `System.out.println` and `printStackTrace` have no effect on state and are left out.
- Concurrency: each async handler is one atomic step. Races between `loadUser` and `handleAuthCallback`, stale closures and the shared static `HashMap` of the OAuth controller under concurrent requests are not modelled.
- The network, MongoDB and Cloudinary are not modelled. Each remote call's outcome, the upload's URL and the repositories' answers are parameters or lists of documents.
- UUIDs, `Date.now()`, `new Date()`, `toISOString()`, `toDateString()` and `formatDistanceToNow` are parameters. A date is the number of milliseconds the source compares. Parsing an invalid date (NaN or a `RangeError`) is not modelled.
- `toLowerCase` is modelled for ASCII letters only, so Unicode case mapping is not modelled. The `\s` class follows JavaScript's list of whitespace characters.
- `decodeURIComponent` is a parameter, so its `URIError` on a malformed escape is not modelled.
- `JSON.parse` of text that is valid JSON but not an object (a number, an array) is treated like unparsable text.
- Floating point: the only rounding that matters, `Math.round` in the mock table, is modelled exactly on rationals; 0 topics gives NaN. Other `Number` arithmetic is on integers.
- The estimated-days inputs of the create page and the create modal are not modelled. They store `parseInt` of the text with no fallback, so NaN could be stored; the model's days field is an integer. The edit page's `parseInt(value) || 7` is modelled, with what `parseInt` yields as a parameter.
- Aliasing: the mock table's plan objects and the forms' topic objects are changed in place in the source (`toggleFollow`, `updateTopic`, `newTopics[index].title = value`). The model updates values, so a caller holding the same object does not observe the change.
- The OAuth controller's `getUser` endpoint only echoes the principal's attributes and is not modelled.
- The catch branch of `success` in the OAuth controller is never taken, because `generateToken` cannot throw. Its error URL with the exception message is not modelled.
- The catch branch of `handleProfileUpdate` in the profile page is not modelled. `updateUserProfile` never throws, so that branch is unreachable.
- `PostServiceImpl.getPost` is not modelled.
- `PostService`: the 500 answer of each method's `catch (Exception e)` (PostServiceImpl.java lines 52-54, 68-70, 81-83, 113-115, 129-131, 169-171 and 200-202) is not modelled. Those branches are reached only by a repository or upload failure, which the model does not have.
- `authLogout` from `services/api/auth` is not part of this model. `AuthContext.AuthProvider.Logout` takes the storage it leaves behind as a parameter, and the contract says only what the provider removes from that storage.
- The failure branch of the home page's `fetchFeed` (HomePage.tsx:187-189) is not modelled. That branch sets the 'Failed to load feed' error.
- The edit page's `planData.topics || []` and `planData.resources || []` (EditLearningPlanPage.tsx:55-56) cannot arise in the model, because a plan's topics and resources are sequences and never null.
- `LearningPlanServiceImpl.getAll` is not modelled, and neither is the DTO mapping in `getById`. Both call getters that `LearningPlan` does not declare (`getLearningPlanName`, `getStream`), so the code cannot compile as given. `PlanService.PlanStore.GetById` answers the user's stored plans themselves, together with the rule that an empty list is `ResourceNotFoundException`.
- A plan's resources are not modelled: `entity/Resource.java` is not part of this model. `entity/TopicStatus.java` is not part of this model either. Its constants are taken as `COMPLETED`, `IN_PROGRESS` and any others.
- Null request fields in the backend services: a null value where the code calls a method on it would make Java throw on the null dereference. Only the null topic list of `create` is modelled (as `NullDeref`). Every other comparison is on `Option` values.
- Users without an e-mail are not modelled: `UserService.User` has a non-null email. Duplicate answers of `findByEmail`/`findByUserId` are excluded by the store's `Valid()`, since the repositories would throw on them.
- `LearningPlanPage` shows its own sample plan whatever the route's `:id`. The model does the same and does not model a lookup.
- The post modal's submit does not call the server in the source, and the model does not either.
- `SkillPostCard.PostCard`: the viewer is fixed for a card's lifetime, so the `[post, user]` effect rerunning on a change of user is not modelled; `PostChanged` models it for a new post.
- The comment service's `createdAt` and the post service's timestamps are clock readings given as parameters.
- LoginPage, the layout components, the notification dropdown and the other list pages are presentation glue and are left out.
- The security configuration and the OAuth success/failure handlers are servlet plumbing and are left out.
- `PlanService.PlanStore.UpdateById`: the contract says the update succeeds and what is stored, but not the exact plan it answers, which is the stored plan.

## Findings

| source | as written | input that shows it | evidently intended | confidence | as-written member | corrected member |
|---|---|---|---|---|---|---|
| Frontend/src/pages/HomePage.tsx:228 | every filter but 'all' compares the item type with the filter name minus its last letter, so 'progress' becomes 'progres' | the 'progress' filter over a feed holding progress updates shows nothing | the 'progress' filter keeps exactly the progress updates | high (not executed) | HomeFeed.ProgressKeepsNothing | HomeFeed.FilterKeepsExactlyType |
| Frontend/src/services/api/learningPlans.ts:245-263 | offline, marking a topic sends an update with the new topics but the old completion percentage, which the update fallback stores unchanged | plan-1 of the mock table with topic-3 marked done: three of four topics done, stored percentage 50 | the percentage is recomputed from the topics, as the mock table's `updateTopic` does (75) | high (not executed) | LearningPlansApi.OfflineMarkOfPlanOne | MockData.UpdatedPercentage |
| Frontend/src/pages/ProfilePage.tsx:233 | with API data, the shown username is the stored user's username first, even on another user's profile | a logged-in viewer with username "alice" opens /profile/bob: the page shows "alice" | another user's page shows that user's id from the API | medium (not executed) | ProfilePage.OtherProfileShowsViewersUsername | ProfilePage.IntendedApiView |
| Backend/src/main/java/com/skillshare/skill_platform/service/Impl/LearningPlanServiceImpl.java:108 | `copyProperties` copies the request's `id` onto the found plan, so `save` is keyed by the request's id | an update of an existing plan whose request has no id: a second plan is added and the old one stays as it was | the found plan is replaced in place under its own id | high (not executed) | PlanService.UpdateWithoutIdAddsPlan | PlanService.IntendedUpdateInPlace |
