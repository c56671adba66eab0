# Parenting community client — verified model of its view and session logic

This project models the deterministic logic of an Angular client for a parenting community. In that app, parents:

- join communities and groups;
- post photos and videos to a feed;
- apply to become verified experts;
- create and attend events;
- report content.

The client's services are thin REST wrappers, so the model covers what the client itself decides:

- **Media paths.** The helpers turn a stored media path into a URL the page can load. There are several hand-written variants, and they differ. Each is modelled on its own.
  - `MediaUrls`: the component `getFullImageUrl`, copied into seven components, and the absolute and relative `getFullMediaUrl` variants.
  - `Utils`: `resolveImageUrl` and the helpers that use it.
  - Utils also covers the initials and the avatar colour.
- **Validators.**
  - the expert-application validator, with its hand-coded phone pattern (`ExpertApplicationsService`);
  - the upload whitelist and size cap (`GroupPostService`);
  - the 5 MB image check of the community and group forms (`ImageCheck`);
  - the photo and video checks of the post form (`PostCreation`);
  - the event form checks (`CreateEvent`, `EditEvent`).
- **Roles.**
  - the scope-matched role predicates, the highest-priority role and the role display text (`UserRoleService`);
  - the role tags sorted by priority with a stable sort (`RoleTag`, `StableSort`).
- **Session.** `AuthService` keeps a token, a user and an authenticated flag. It mirrors the token and the user in two browser-storage keys. It restores the session at construction, and has login, logout and profile refresh.
- **Lists, pages and queues.**
  - the feed and group-post paging;
  - the community "load more";
  - the media-upload queue with its file limit;
  - the five-comment window;
  - the expertise-area toggles;
  - the rule, social-link, child and interest lists.
- **Forms and dialogs.** Each page is a class whose fields the page's methods update:
  - the report dialog;
  - the approve and reject dialogs;
  - every "ignored while a request is in flight" guard.

How the client's environment is modelled:

- **Requests.** An HTTP request is recorded in a `requests` (or similar) sequence. The answer is a separate `On…` method that takes the response as an argument.
- **Navigations and alerts.** Router navigations and alerts are also recorded as sequences.
- **Timers.** A timer becomes an explicit `OnRedirectTimer` method.
- **JavaScript truthiness.** `a || b` on text is `JsText.Or`. Absent and empty are told apart with `Option` wherever the code tells them apart (`=== undefined`, `in`).

The session service (src/app/auth.service.ts) has none of the following:

- JWT decoding or token-expiry check;
- profile-cache timestamp or freshness window;
- `authLoading$` observable. The guards in src/app/login.guard.ts:10 and src/app/app-init.guard.ts:9 wait on it, but the service never declares it.

Other behaviours of the session service:

- **Login.** Login takes the token and the user from the login response itself. It does not fetch the profile.
- **Restoring.** A stored token with a missing or unparsable stored user ends in logout. Nothing is kept optimistically.
- **Refresh.** `refreshUserData` throws when no token is stored. A successful refresh changes neither the token nor the flag.

The model states exactly these behaviours.

Module layout: one module per source file, named after it. A few modules hold things that several files share:

- `Wrappers`: the `Option` datatype.
- `JsText`: the JavaScript string operations used: `startsWith`, `trim`, `split`/`join`, ASCII `toUpperCase`/`toLowerCase`, `splice` and `indexOf`.
- `Models`: the shared entity shapes.
- `StableSort`: a stable insertion sort by integer key, standing for `Array.prototype.sort`, which is stable.

## Model

| member | source | states |
|---|---|---|
| MediaUrls.FullImageUrl | src/app/groups/group-detail.component.ts:952-959 | `getFullImageUrl`: "" exactly for an empty path; any other result starts with "http" and ends with the path (an `http` URL kept, `localhost:3000…` given `http://`, `/uploads…` given the API origin, anything else placed under `/uploads/` on it); the same code is copied at src/app/groups/create-group.component.ts:435-441, src/app/groups/edit-group.component.ts:146-152, src/app/communities/create-community.component.ts:336-343, src/app/communities/edit-community.component.ts:317-323, src/app/communities/community-list.componenet.ts:255-261, src/app/communities/community-details.component.ts:500-506 |
| MediaUrls.AbsoluteMediaUrl | src/app/feed/feed.component.ts:124-133 | `getFullMediaUrl` (absolute): "" exactly for an empty path; otherwise a URL starting with "http" that ends with the path; the same code is copied at src/app/feed-details/feed-details.component.ts:256-265 |
| MediaUrls.RelativeMediaUrl | src/app/post-creation/postCreation.service.ts:15-20 | `getFullMediaUrl` (relative): "" exactly for an empty path; otherwise starts with "http" or "/uploads" and ends with the path; the same code is copied at src/app/event-details/event-details.component.ts:164-169 |
| MediaUrls.AvatarUploadUrl | src/app/post-creation/post-creation.component.ts:195-208 | the avatar mapping: a URL exactly for `/uploads/avatar…`, `uploads/avatar…` and `http…` avatars, and that URL starts with "http" and ends with the avatar; the same code is copied at src/app/register/register.component.ts:167-180 |
| MediaUrls.FullImageUrlIdempotent | src/app/groups/group-detail.component.ts:952-959 | resolving an already resolved image path changes nothing |
| MediaUrls.AbsoluteMediaUrlIdempotent | src/app/feed/feed.component.ts:124-133 | resolving an already resolved media path changes nothing |
| MediaUrls.RelativeMediaUrlIdempotent | src/app/post-creation/postCreation.service.ts:15-20 | applying the relative mapping twice equals applying it once |
| MediaUrls.AbsoluteIsOriginPlusRelative | src/app/feed/feed.component.ts:124-133 | for a non-empty path that is not a URL, the absolute mapping is the API origin followed by the relative mapping (postCreation.service.ts:15-20) |
| MediaUrls.FullImageUrlAgreesWithAbsolute | src/app/groups/group-detail.component.ts:952-959 | the image and media resolvers agree exactly on paths that do not start with `localhost:3000` |
| MediaUrls.AvatarUploadUrlAgreesWithAbsolute | src/app/post-creation/post-creation.component.ts:195-208 | where the avatar mapping gives a URL, it is the absolute media URL of the avatar |
| Utils.ResolveImageUrl | src/app/utils.ts:6-12 | `resolveImageUrl`: the fallback for an empty URL; otherwise a non-empty result ending with the URL, on the API origin for `/uploads…` and `uploads…` paths, and the URL itself for any other path |
| Utils.ResolveImageUrlIdempotent | src/app/utils.ts:6-12 | with a settled fallback, resolving a resolved URL changes nothing |
| Utils.AssetPathIsSettled | src/app/utils.ts:6-12 | an `/assets…` path is left alone by the resolver |
| Utils.DefaultsAreSettled | src/app/utils.ts:18-50 | every default asset the wrappers fall back to is left alone by the resolver |
| Utils.ResolveAgreesWithAbsoluteMediaUrl | src/app/utils.ts:8-10 | on `http`, `/uploads` and `uploads` paths the resolver agrees with the absolute media mapping |
| Utils.GetAvatarUrl | src/app/utils.ts:17-20 | `getAvatarUrl`: the default avatar without a user; else the resolved avatar, or the resolved profile picture when the avatar is empty; never "" |
| Utils.GetOwnedImageUrl | src/app/utils.ts:25-44 | the shared shape of the three wrappers: the default for a missing object or an empty image, else the resolved image |
| Utils.GetCommunityImageUrl | src/app/utils.ts:25-28 | `getCommunityImageUrl`: the wrapper with the community default; never "" |
| Utils.GetGroupImageUrl | src/app/utils.ts:33-36 | `getGroupImageUrl`: the wrapper with the group default; never "" |
| Utils.GetEventImageUrl | src/app/utils.ts:41-44 | `getEventImageUrl`: the wrapper with the event default; never "" |
| Utils.GetPostMediaUrl | src/app/utils.ts:49-51 | `getPostMediaUrl`: the media placeholder for an empty URL, else a URL ending with it |
| Utils.FirstCharsOfSplit | src/app/utils.ts:58-61 | the first characters of the space-separated words are the characters that start a word |
| Utils.GetInitials | src/app/utils.ts:56-64 | `getInitials`: "?" for an empty name, and never more than two characters |
| Utils.GetInitialsAreWordStarts | src/app/utils.ts:56-64 | for a non-empty name, the upper-cased first two word-start characters |
| Utils.ToInt32 | src/app/utils.ts:81 | the 32-bit wrap of `hash << 5` and of the sum: a value in the signed 32-bit range congruent to the input modulo 2^32 |
| Utils.AvatarHashBound | src/app/utils.ts:79-82 | the hash grows by at most one 32-bit value plus a character code per character |
| Utils.HashExactInDouble | src/app/utils.ts:79-82 | for names shorter than 2^21 characters the hash stays within 2^53, so the floating-point sum is exact |
| Utils.AvatarColor | src/app/utils.ts:69-85 | `getAvatarColor`: the neutral grey exactly for an empty name, otherwise one of the 16 palette colours (a function of the name alone) |
| Utils.GetAvatarColor | src/app/utils.ts:69-85 | the hashing loop computes `AvatarColor(name)` |
| StableSort.SortByKey | src/app/shared/role-tag.component.ts:106-109 | `Array.prototype.sort` with a numeric comparator: the result is a permutation of the input |
| StableSort.SortByKeySorted | src/app/shared/role-tag.component.ts:106-109 | the sorted result is in non-decreasing key order |
| StableSort.SortByKeyStable | src/app/shared/role-tag.component.ts:106-109 | elements with equal keys keep their input order (the sort is stable) |
| StableSort.SortByKeyOfSorted | src/app/events-feed/events-feed.component.ts:45-53 | sorting an already sorted list leaves it unchanged |
| ExpertApplicationsService.StatusColor | src/app/expert-applications.service.ts:140-147 | `getStatusColor`: the fixed class pair for pending, approved and rejected, and the grey default exactly for any other status |
| ExpertApplicationsService.StatusIcon | src/app/expert-applications.service.ts:149-156 | `getStatusIcon`: the fixed icon for pending, approved and rejected, and the question mark exactly for any other status |
| ExpertApplicationsService.StatusLookupsInjective | src/app/expert-applications.service.ts:140-156 | the three known statuses get pairwise different colours and icons |
| ExpertApplicationsService.SocialMediaIcon | src/app/expert-applications.service.ts:158-167 | `getSocialMediaIcon`: one fixed icon per known platform, and the link icon exactly for any other platform |
| ExpertApplicationsService.StripPhoneSeparators | src/app/expert-applications.service.ts:194 | `phone.replace(/[\s\-\(\)]/g, '')`: no longer than the input and free of white space, '-', '(' and ')' |
| ExpertApplicationsService.SeparatorsOnlyStripToEmpty | src/app/expert-applications.service.ts:194 | a phone made only of separators strips to "" |
| ExpertApplicationsService.StripPhoneSeparatorsAppend | src/app/expert-applications.service.ts:194 | stripping distributes over concatenation |
| ExpertApplicationsService.ValidPhoneLength | src/app/expert-applications.service.ts:194 | a phone the pattern accepts strips to 1 to 17 characters (optional '+', a digit 1-9, at most 15 more digits) |
| ExpertApplicationsService.ValidateApplicationData | src/app/expert-applications.service.ts:169-199 | the step-by-step pushes build exactly the message list `ApplicationErrors` (required fields in order, experience range, one message per bad link, phone format) |
| ExpertApplicationsService.PushLinkErrors | src/app/expert-applications.service.ts:183-191 | the `forEach` over the links appends exactly the links' messages, with 1-based indexes |
| ExpertApplicationsService.LinkErrorsEmptyIff | src/app/expert-applications.service.ts:183-191 | the links add no message exactly when every link is acceptable, and at most one message per link |
| ExpertApplicationsService.ApplicationErrorsEmptyIff | src/app/expert-applications.service.ts:169-199 | the message list is empty exactly when all six fields are non-blank, experience is within 0..50, every link is acceptable and the phone matches the pattern |
| ExpertApplicationsService.WhiteSpacePhoneGetsBothMessages | src/app/expert-applications.service.ts:176-196 | a non-empty white-space phone yields both 'Phone is required' and the invalid-phone message |
| ExpertApplicationsService.LinkErrorsAreLinkMessages | src/app/expert-applications.service.ts:186-188 | every link message starts with "Social media link ", so none is the phone-format message |
| ExpertApplicationsService.EmptyPhoneOnlyRequired | src/app/expert-applications.service.ts:176-196 | an empty phone yields 'Phone is required' but not the invalid-phone message |
| GroupPostService.ValidateFile | src/app/group-post.service.ts:92-110 | `validateFile`: valid exactly when within 50 MB and of an allowed type, with no error exactly when valid; the size error wins over the type error |
| GroupPostService.FileTypeCategory | src/app/group-post.service.ts:113-118 | `getFileTypeCategory`: "image", "video" and "audio" exactly for those prefixes (checked in that order), "document" otherwise |
| GroupPostService.AllowedDocumentTypes | src/app/group-post.service.ts:94-98 | among the allowed types, only PDF and plain text are documents |
| GroupPostService.GetPostTypes | src/app/group-post.service.ts:199-201 | exactly the post types "general", "help", "question", "event" and "poll", in that order, each once |
| GroupPostService.GetUrgencyLevels | src/app/group-post.service.ts:203-205 | exactly the levels "low", "medium", "high", "urgent" in that order, each once |
| UserRoleService.ConvertToUserRole | src/app/user-role.service.ts:131-139 | `convertToUserRole`: 'group-admin' becomes 'groupAdmin', any other name is kept, and the ids, expertise areas and verification status are copied unchanged |
| UserRoleService.ConvertedRoleNames | src/app/user-role.service.ts:133 | a converted role is never named 'group-admin', and its name is unchanged exactly when it was not 'group-admin' |
| UserRoleService.HasRole | src/app/user-role.service.ts:142-149 | `hasRole` holds exactly when some role has the target name and matches each scope filter that is supplied |
| UserRoleService.IsPlatformAdmin | src/app/user-role.service.ts:151-155 | `isPlatformAdmin` holds exactly when some 'admin' role has neither a community nor a group |
| UserRoleService.IsCommunityExpert | src/app/user-role.service.ts:157-163 | `isCommunityExpert` holds exactly when some verified 'expert' role belongs to that community |
| UserRoleService.IsCommunityModerator | src/app/user-role.service.ts:165-170 | `isCommunityModerator` holds exactly when some 'moderator' role belongs to that community |
| UserRoleService.IsGroupAdmin | src/app/user-role.service.ts:172-177 | `isGroupAdmin` holds exactly when some role named 'admin' (not 'groupAdmin') belongs to that group |
| UserRoleService.ScopedChecksAreHasRole | src/app/user-role.service.ts:142-177 | the moderator and group-admin checks are `hasRole` with the matching scope filter |
| UserRoleService.ServiceExpertImpliesBadge | src/app/user-role.service.ts:157-163 | a verified expert by the service is shown as a community expert by the role tag (shared/role-tag.component.ts:159-165) |
| UserRoleService.PendingExpertShowsBadgeOnly | src/app/user-role.service.ts:157-163 | a pending expert is not an expert for the service, yet the role tag shows the expert badge: the two checks differ on verification |
| UserRoleService.RelevantRoles | src/app/user-role.service.ts:181-185 | the roles kept are exactly those whose set community and group ids agree with the supplied filters, each kept as often as it occurs in the input |
| UserRoleService.RelevantRolesInOrder | src/app/user-role.service.ts:181-185 | the filter keeps the input order: the relevant roles of two lists in a row are those of the first followed by those of the second, and a single role is kept exactly when relevant |
| UserRoleService.UnscopedRolesAlwaysRelevant | src/app/user-role.service.ts:181-185 | a role with neither a community nor a group is always kept |
| UserRoleService.RolePriority | src/app/user-role.service.ts:188-193 | priorities admin 5 to user 1, and 0 exactly for any other role name |
| UserRoleService.ReduceHighestIsAtHighestIndex | src/app/user-role.service.ts:190-195 | the `reduce` gives null exactly for no roles, otherwise the role at the first position of maximal priority |
| UserRoleService.HighestIndexIsFirstMaximum | src/app/user-role.service.ts:190-195 | no role outranks the chosen one, and every earlier role ranks strictly lower (earliest wins ties) |
| UserRoleService.GetHighestRoleSpec | src/app/user-role.service.ts:180-196 | `getHighestRole`: null exactly when no role remains after filtering; otherwise a remaining role of maximal priority, the first such in the filtered order, and it sits at an input position before which every relevant role ranks strictly lower (earliest in the input wins ties) |
| UserRoleService.FirstOfRankInInput | src/app/user-role.service.ts:181-195 | a filtered role that outranks every filtered role before it also outranks every relevant input role before its input position |
| UserRoleService.RoleDisplayText | src/app/user-role.service.ts:199-214 | `getRoleDisplayText`: Platform, Group or Community Admin by scope; 'Expert' with ' (Pending)' unless verified and ' (n)' for n areas; 'Moderator'; and "" exactly for other roles |
| RoleTag.DefaultInputs | src/app/shared/role-tag.component.ts:97-103 | the inputs' defaults: no roles, no current ids, all three switches on |
| RoleTag.NormalisedId | src/app/shared/role-tag.component.ts:162 | `role.communityId ? …toString() : undefined`: absent exactly for a missing or empty id, else the id |
| RoleTag.SortedBackendRoles | src/app/shared/role-tag.component.ts:106-109 | `sortedBackendRoles`: [] without backend roles; else a permutation of them in non-decreasing priority |
| RoleTag.SortedBackendRolesStable | src/app/shared/role-tag.component.ts:106-109 | roles of equal priority keep their input order |
| RoleTag.BackendRoleText | src/app/shared/role-tag.component.ts:129-142 | `getBackendRoleText`: Admin, Group Admin, Moderator, Expert or Expert (Pending) by type and verification, "" exactly for other types |
| RoleTag.SourceLabel | src/app/shared/role-tag.component.ts:145-146 | 'Platform', 'Community', or 'Group' for any other source |
| RoleTag.BackendRoleTitle | src/app/shared/role-tag.component.ts:144-149 | `getBackendRoleTitle`: the source label, a space, then the role text, and nothing else |
| RoleTag.BackendRoleTitleDecodes | src/app/shared/role-tag.component.ts:144-149 | equal titles come from equal source labels and equal role texts |
| RoleTag.IsPlatformAdmin | src/app/shared/role-tag.component.ts:151-156 | `isPlatformAdmin`: false when platform roles are hidden; otherwise true exactly when some 'admin' role has neither a community nor a group id |
| RoleTag.IsCommunityExpert | src/app/shared/role-tag.component.ts:158-164 | `isCommunityExpert`: false when community roles are hidden or no community is set; otherwise true exactly when some 'expert' role's normalised community id is the current one, verified or not |
| RoleTag.IsCommunityModerator | src/app/shared/role-tag.component.ts:166-172 | `isCommunityModerator`: the same scope switch, and true exactly when some 'moderator' role's normalised community id is the current one |
| RoleTag.IsGroupAdmin | src/app/shared/role-tag.component.ts:174-180 | `isGroupAdmin`: false when the group badge is hidden or no group is set; otherwise true exactly when some 'groupAdmin' or 'admin' role's normalised group id is the current one |
| RoleTag.CommunityGettersNeedScope | src/app/shared/role-tag.component.ts:159-173 | with community roles switched off or no current community, neither the expert nor the moderator badge shows |
| RoleTag.FindExpertRole | src/app/shared/role-tag.component.ts:184-187 | the `find`: absent exactly when no role is an expert role of the current community, else the first such position |
| RoleTag.ExpertiseAreas | src/app/shared/role-tag.component.ts:183-189 | `expertiseAreas`: the found expert role's areas, [] when none is found or it has none |
| RoleTag.ExpertStatus | src/app/shared/role-tag.component.ts:191-196 | `expertRole?.verificationStatus`: absent when no role is an expert role of the current community; otherwise the status of the first such role |
| RoleTag.IsVerified | src/app/shared/role-tag.component.ts:191-197 | `isVerified`: true exactly when the first expert role of the current community has status 'verified' |
| RoleTag.IsPending | src/app/shared/role-tag.component.ts:199-205 | `isPending`: true exactly when the first expert role of the current community has status 'pending' |
| RoleTag.VerifiedAndPendingExclusive | src/app/shared/role-tag.component.ts:191-205 | `isVerified` and `isPending` are never both true, and both are false without an expert role here |
| RoleTag.ExpertiseAreasText | src/app/shared/role-tag.component.ts:207-211 | `getExpertiseAreasText`: 'Expert' with no areas, else 'Expert in ' and the areas |
| RoleTag.ExpertiseAreasTextIsJoin | src/app/shared/role-tag.component.ts:207-211 | with areas, the text is always 'Expert in ' and the areas joined by ', ' (the one-area case agrees) |
| RoleTag.SimpleRoleText | src/app/shared/role-tag.component.ts:261-271 | `SimpleRoleTagComponent.getRoleText`: the fixed texts, ' (n)' after the expert text only for a positive count, and "" exactly for other roles |
| AuthService.StorageGet | src/app/auth.service.ts:48 | `localStorage.getItem`: a value exactly for a stored key |
| AuthService.LoggedOut | src/app/auth.service.ts:100-108 | `logout`: token and user cleared and not authenticated; in a browser both keys removed and every other key untouched; outside a browser storage untouched |
| AuthService.LogoutIdempotent | src/app/auth.service.ts:100-108 | logging out twice equals logging out once |
| AuthService.RestoreWithoutTokenChangesNothing | src/app/auth.service.ts:47-53 | in a browser with no stored token, restoring returns early and changes nothing |
| AuthService.RestoreWithParsedUser | src/app/auth.service.ts:55-62 | a stored token and a user that parses restore token, user and authenticated |
| AuthService.RestoreWithoutUserLogsOut | src/app/auth.service.ts:57-68 | a stored token with no user, or a user that fails to parse, ends in `logout` |
| AuthService.RestoreOutsideBrowser | src/app/auth.service.ts:69-74 | outside a browser, token and user are null, not authenticated, storage untouched |
| AuthService.LoggedIn | src/app/auth.service.ts:84-92 | `login`'s tap: with a non-empty token, a user and a browser, the session is authenticated with that token and user, storage maps `auth_token` to the token and `current_user` to the stringified user, and every other key is unchanged; without any of the three the state is unchanged |
| AuthService.OperationsKeepConsistent | src/app/auth.service.ts:41-145 | restore, logout, login and refresh all keep the state consistent: authenticated exactly when a token is held, and a held token is the non-empty one in storage (the user is not constrained: a stored `null` user restores an authenticated session with no user) |
| AuthService.ReloadAfterLoginRestoresSession | src/app/auth.service.ts:84-92 | after a login, a page reload (a fresh service over the same storage) restores the very same session |
| AuthService.ReloadAfterLogoutStaysOut | src/app/auth.service.ts:100-108 | after a logout, a page reload restores nothing |
| AuthService.UserRefreshed | src/app/auth.service.ts:141-144 | a refreshed user replaces the stored and current user, and changes neither the token nor authenticated |
| AuthService.AuthService.constructor | src/app/auth.service.ts:41-43 | the service starts from the stored state restored by `checkAuthStatus`, which is consistent |
| AuthService.AuthService.CheckAuthStatus | src/app/auth.service.ts:46-75 | the new state is the restored one |
| AuthService.AuthService.OnLoginResponse | src/app/auth.service.ts:84-92 | the new state is `LoggedIn` of the old one: on a response with a non-empty token and a user in a browser, token, user, flag and both storage keys are set and nothing else changes; otherwise nothing changes |
| AuthService.AuthService.Logout | src/app/auth.service.ts:100-108 | the new state is `LoggedOut` of the old one |
| AuthService.AuthService.GetAuthToken | src/app/auth.service.ts:126-128 | `getAuthToken` reads storage without the browser check: outside a browser it throws; in a browser it gives the stored token, which in a consistent authenticated state is the held token |
| AuthService.AuthService.RefreshUserData | src/app/auth.service.ts:131-139 | outside a browser it fails with the `localStorage` error thrown by `getAuthToken`; in a browser it fails with 'No auth token found' exactly when no non-empty token is stored and otherwise sends the request, which a consistent authenticated session always does |
| AuthService.AuthService.OnUserRefreshed | src/app/auth.service.ts:141-144 | the new state is `UserRefreshed` of the old one |
| MediaUpload.NewEntry | src/app/shared/media-upload.component.ts:344-350 | a new entry is not uploading, at progress 0, not uploaded, with no error or URL, and has the file's type category |
| MediaUpload.AcceptedEntries | src/app/shared/media-upload.component.ts:337-362 | a batch adds at most one entry per file |
| MediaUpload.AcceptedEntriesAreValidFiles | src/app/shared/media-upload.component.ts:337-362 | every added entry is a fresh entry for a batch file that passed `validateFile`, and every such file is added |
| MediaUpload.AddKeepsLimit | src/app/shared/media-upload.component.ts:331-362 | a queue within the limit stays within it after `addFiles`, and its existing entries stay in front |
| MediaUpload.CountUploaded | src/app/shared/media-upload.component.ts:297-299 | `uploadedCount` never exceeds the queue length |
| MediaUpload.CountUploadedFull | src/app/shared/media-upload.component.ts:297-299 | the count equals the queue length exactly when every entry is uploaded |
| MediaUpload.AllUploadedIffCount | src/app/shared/media-upload.component.ts:301-303 | `allFilesUploaded` holds exactly for a non-empty queue whose uploaded count is its length |
| MediaUpload.Started | src/app/shared/media-upload.component.ts:366-368 | starting an upload sets uploading, progress 0 and no error, and keeps everything else |
| MediaUpload.StartPendingAt | src/app/shared/media-upload.component.ts:389-396 | `uploadAllFiles` keeps the queue length and starts exactly the entries that are neither uploaded nor uploading, leaving every other entry as it was |
| MediaUpload.PendingPositionsExact | src/app/shared/media-upload.component.ts:389-396 | the positions sent are exactly the pending ones, in increasing order |
| MediaUpload.StartPendingLeavesNothingPending | src/app/shared/media-upload.component.ts:389-396 | after `uploadAllFiles` no entry is pending and the uploaded count is unchanged |
| MediaUpload.StartPendingKeepsCount | src/app/shared/media-upload.component.ts:389-396 | starting uploads never changes the uploaded count |
| MediaUpload.UploadedUrls | src/app/shared/media-upload.component.ts:413-420 | an item is emitted exactly for each uploaded entry with a non-empty URL, as its URL, media type, file name and size; at most one item per entry |
| MediaUpload.UploadedUrlsInOrder | src/app/shared/media-upload.component.ts:413-420 | the items keep the queue order: the items of two queues in a row are those of the first followed by those of the second, and one entry gives its item exactly when it is uploaded with a URL |
| MediaUpload.DocumentTypesAreNotMedia | src/app/shared/media-upload.component.ts:429-435 | PDF and plain text are neither image nor video types, so their labels are reachable |
| MediaUpload.FileTypeLabel | src/app/shared/media-upload.component.ts:429-435 | `getFileTypeLabel`: Image, Video, PDF, Text or Document, each exactly for its case in that order |
| MediaUpload.PrefixStep | src/app/shared/media-upload.component.ts:337-362 | one more file of the batch adds one entry when valid and one alert when not |
| MediaUpload.MediaUploadComponent.constructor | src/app/shared/media-upload.component.ts:282-291 | an empty queue, not uploading, limit 10 |
| MediaUpload.ScreenFiles | src/app/shared/media-upload.component.ts:337-362 | the validation loop queues exactly the accepted entries and raises exactly the rejection alerts of the batch, in order |
| MediaUpload.MediaUploadComponent.AddFiles | src/app/shared/media-upload.component.ts:331-363 | over the limit: the batch is refused with the 'Maximum n files allowed' alert; otherwise the valid files are appended in order and each invalid file raises its own alert |
| MediaUpload.MediaUploadComponent.UploadSingleFile | src/app/shared/media-upload.component.ts:365-370 | the entry is started and one request is sent for it |
| MediaUpload.MediaUploadComponent.OnUploadResponse | src/app/shared/media-upload.component.ts:375-380 | the entry becomes uploaded with the answer's URL; once all are uploaded, uploading stops and the uploaded URLs are emitted once |
| MediaUpload.MediaUploadComponent.OnUploadError | src/app/shared/media-upload.component.ts:382-385 | the entry stops uploading and carries the server message or 'Upload failed' |
| MediaUpload.MediaUploadComponent.UploadAllFiles | src/app/shared/media-upload.component.ts:389-396 | uploading is set, and exactly the pending entries are started and sent, in queue order |
| MediaUpload.MediaUploadComponent.RemoveFile | src/app/shared/media-upload.component.ts:398-403 | removes exactly the given entry, or nothing when it is not queued |
| MediaUpload.MediaUploadComponent.ClearAllFiles | src/app/shared/media-upload.component.ts:405-408 | empties the queue and clears uploading |
| MediaUpload.MediaUploadComponent.CheckAllUploadsComplete | src/app/shared/media-upload.component.ts:410-423 | emits the uploaded URLs and clears uploading exactly when every entry is uploaded |
| Feed.NormaliseAuthor | src/app/feed/feed.component.ts:41-64 | a populated author keeps its fields, with `_id` preferred to `id` and a missing name turned into 'Unknown User'; a bare id becomes an author with that id, 'Unknown User' and nothing else; the name is never empty |
| Feed.NormalisePost | src/app/feed/feed.component.ts:65-80 | a post gets an image URL exactly when its media type is 'photo' and a video URL exactly when it is 'video' (never both), each the absolute media URL; `_id` is preferred to `id`; the other fields are copied |
| Feed.NormalisePosts | src/app/feed/feed.component.ts:39-81 | a page keeps its length and order, each post normalised in place |
| Feed.NormalisePostsAppend | src/app/feed/feed.component.ts:82 | normalising two pages one after the other gives the same list as normalising them together |
| Feed.GetDisplayName | src/app/feed/feed.component.ts:116-118 | `getDisplayName`: the author's name, or 'Unknown User'; never empty |
| Feed.DisplayNameOfNormalisedPost | src/app/feed/feed.component.ts:45 | a rendered post always shows its author's own name |
| Feed.FeedComponent.constructor | src/app/feed/feed.component.ts:16-20 | no posts, not loading, page 1, limit 5, a next page expected |
| Feed.FeedComponent.LoadPosts | src/app/feed/feed.component.ts:33-36 | nothing happens while loading or without a next page; otherwise loading is set and the current page is requested; posts, page and hasNextPage are untouched |
| Feed.FeedComponent.OnPageResponse | src/app/feed/feed.component.ts:37-89 | a non-empty page appends its normalised posts in order, advances the page by one and takes hasNextPage from the answer (false when absent); an empty page only clears hasNextPage; loading is cleared |
| Feed.FeedComponent.OnPageError | src/app/feed/feed.component.ts:90-92 | loading is cleared and posts, page and hasNextPage are kept |
| Feed.FeedComponent.RefreshFeed | src/app/feed/feed.component.ts:135-140 | posts are emptied, page is 1, a next page is expected and page 1 is requested unless a load is already in flight |
| FeedDetails.DisplayedComments | src/app/feed-details/feed-details.component.ts:226-232 | the comment window is all comments when all are shown or there are at most 5, else exactly the first 5; always a prefix of the comments |
| FeedDetails.ButtonsExclusive | src/app/feed-details/feed-details.component.ts:239-245 | 'view more' and 'show less' are never both shown, neither is shown with 5 comments or fewer, and one of them is shown with more |
| FeedDetails.ViewMoreIffHidden | src/app/feed-details/feed-details.component.ts:239-241 | 'view more' is shown exactly when the window hides some comment |
| FeedDetails.NewCommentShownFirst | src/app/feed-details/feed-details.component.ts:208-209 | a comment put at the front is the first one shown, and the window never shrinks |
| FeedDetails.FeedDetailsComponent.constructor | src/app/feed-details/feed-details.component.ts:18-78 | an empty component whose login state is a signed-in user with an id |
| FeedDetails.FeedDetailsComponent.UpdateDisplayedComments | src/app/feed-details/feed-details.component.ts:226-232 | the window is recomputed from the comments and the toggle |
| FeedDetails.FeedDetailsComponent.ToggleComments | src/app/feed-details/feed-details.component.ts:234-237 | the toggle flips and the window follows it |
| FeedDetails.FeedDetailsComponent.OnCommentsLoaded | src/app/feed-details/feed-details.component.ts:181-183 | the loaded comments replace the list and the window follows them |
| FeedDetails.FeedDetailsComponent.OnCommentsFailed | src/app/feed-details/feed-details.component.ts:184-191 | a failed or refused load empties the comments |
| FeedDetails.FeedDetailsComponent.AddComment | src/app/feed-details/feed-details.component.ts:197-204 | a comment is sent (trimmed) exactly when the text is not blank, the user is logged in with an id, the post has an id and no comment is in flight; otherwise nothing changes |
| FeedDetails.FeedDetailsComponent.OnCommentAdded | src/app/feed-details/feed-details.component.ts:205-217 | a successful answer puts the comment first, recomputes the window, clears the input and takes a non-zero comment count; any answer clears the in-flight flag |
| FeedDetails.FeedDetailsComponent.OnCommentError | src/app/feed-details/feed-details.component.ts:218-221 | the in-flight flag is cleared |
| FeedDetails.FeedDetailsComponent.LikePost | src/app/feed-details/feed-details.component.ts:125-138 | a signed-out reader gets the snackbar and no request; a like is sent exactly when signed in with a post id and user id and no like is in flight |
| FeedDetails.FeedDetailsComponent.OnLikeResponse | src/app/feed-details/feed-details.component.ts:139-149 | a successful answer sets hasLiked and replaces the post's likes (empty when absent); the in-flight flag is cleared either way |
| FeedDetails.FeedDetailsComponent.OnLikeError | src/app/feed-details/feed-details.component.ts:150-152 | the in-flight flag is cleared |
| FeedDetails.FeedDetailsComponent.LikeCount | src/app/feed-details/feed-details.component.ts:308-310 | the number of likes on the post, 0 without a post |
| FeedDetails.FeedDetailsComponent.CommentCount | src/app/feed-details/feed-details.component.ts:313-315 | the number of loaded comments, never fewer than the window shows |
| GroupDetail.Fresh | src/app/groups/group-detail.component.ts:669-673 | a loaded post is shown with its comments closed and an empty comment box, its own fields kept |
| GroupDetail.FreshPosts | src/app/groups/group-detail.component.ts:669-673 | a page keeps its length and order, each post made fresh |
| GroupDetail.WithComment | src/app/groups/group-detail.component.ts:851-855 | an added comment goes last, the count grows by one (a missing count read as 0) and the box is cleared |
| GroupDetail.CanModeratePost | src/app/groups/group-detail.component.ts:862-873 | true exactly when the membership role is admin or moderator, or the signed-in user is a platform admin; the post plays no part |
| GroupDetail.IsGroupMember | src/app/groups/group-detail.component.ts:621-623 | `isGroupMember`: true exactly for a loaded group whose membership status is 'active'; false with no group loaded or no membership |
| GroupDetail.ModerationWithoutMembership | src/app/groups/group-detail.component.ts:621-623 | a moderator whose membership is still pending may moderate posts (lines 862-873) yet is not a member |
| GroupDetail.GroupTypeClass | src/app/groups/group-detail.component.ts:875-886 | the grey badge exactly for types other than Public, Private and Secret |
| GroupDetail.UrgencyClass | src/app/groups/group-detail.component.ts:888-899 | the grey badge exactly for urgencies other than urgent, high and medium |
| GroupDetail.GroupDetailComponent.constructor | src/app/groups/group-detail.component.ts:552-580 | no group or posts, neither loading flag, page 1 of 1 with more expected, no filter, sorted by 'recent' |
| GroupDetail.GroupDetailComponent.LoadPosts | src/app/groups/group-detail.component.ts:644-667 | refused without a group, while either flag is set, or for a later page when no more posts are expected or the page is past the last; otherwise exactly one flag is set and the page is requested with limit 10, the filter only when set, and the sort; the two flags are never both set |
| GroupDetail.GroupDetailComponent.OnPostsResponse | src/app/groups/group-detail.component.ts:668-689 | an initial load or page 1 replaces the posts and returns to page 1; any other page appends and becomes the current page; the page count and 'has more' come from the answer; both flags are cleared |
| GroupDetail.GroupDetailComponent.OnPostsError | src/app/groups/group-detail.component.ts:698-702 | both flags are cleared and the posts are kept |
| GroupDetail.GroupDetailComponent.OnFilterChange | src/app/groups/group-detail.component.ts:734-739 | back to page 1 with more expected, then an initial load of page 1 under the rules of `loadPosts` |
| GroupDetail.GroupDetailComponent.ToggleComments | src/app/groups/group-detail.component.ts:843-845 | only that post's comment panel flips |
| GroupDetail.GroupDetailComponent.AddComment | src/app/groups/group-detail.component.ts:847-850 | a blank comment is ignored; otherwise the post's text is sent for that post |
| GroupDetail.GroupDetailComponent.OnCommentAdded | src/app/groups/group-detail.component.ts:851-855 | only that post changes: the comment is appended, its count grows by one and its box is cleared |
| CommunityList.QueryFor | src/app/communities/community-list.componenet.ts:206-211 | the request asks for the current page with limit 12, carrying the category and the search term exactly when each is non-empty |
| CommunityList.Collapsed | src/app/communities/community-list.componenet.ts:216-218 | every received community is kept, in order, with its description collapsed |
| CommunityList.CollapsedHasNothingExpanded | src/app/communities/community-list.componenet.ts:216-218 | after a load no community shows its full description |
| CommunityList.CommunityListComponent.constructor | src/app/communities/community-list.componenet.ts:170-176 | no communities, not loading, no search or category, page 1, more expected |
| CommunityList.CommunityListComponent.LoadCommunities | src/app/communities/community-list.componenet.ts:197-213 | a reset returns to page 1 with an empty list and more expected; loading is set and the current page is requested with the current filters |
| CommunityList.CommunityListComponent.OnCommunitiesResponse | src/app/communities/community-list.componenet.ts:214-222 | a reset replaces the list and a 'load more' appends to it, each item collapsed; more are expected exactly when 12 came back; loading is cleared |
| CommunityList.CommunityListComponent.OnCommunitiesError | src/app/communities/community-list.componenet.ts:223-226 | loading is cleared and the list kept |
| CommunityList.CommunityListComponent.OnSearch | src/app/communities/community-list.componenet.ts:230-236 | a search or category change reloads page 1 from an empty list |
| CommunityList.CommunityListComponent.LoadMore | src/app/communities/community-list.componenet.ts:238-241 | the next page is requested and the list is kept for appending |
| CommunityList.CommunityListComponent.ToggleDescription | src/app/communities/community-list.componenet.ts:243-246 | only that community's description flips |
| CommunityDetails.ApprovedExperts | src/app/communities/community-details.component.ts:427-429 | exactly the experts whose status is 'approved', each as often as it occurs in the list; none when the list is missing |
| CommunityDetails.ApprovedExpertsInOrder | src/app/communities/community-details.component.ts:427-429 | the approved experts keep the list's order: those of two lists in a row are those of the first followed by those of the second, and a single expert is kept exactly when approved |
| CommunityDetails.GetUserName | src/app/communities/community-details.component.ts:431-434 | a bare name as it is; else the first non-empty of the populated user's name, the name and the username, or 'Unknown User' |
| CommunityDetails.GetUserAvatar | src/app/communities/community-details.component.ts:436-439 | the first non-empty of the populated user's avatar, the avatar and the profile picture, else the default avatar; never empty |
| CommunityDetails.GetGroupInitial | src/app/communities/community-details.component.ts:404-407 | one upper-cased letter: of the title, else of the name, else 'G' |
| CommunityDetails.GroupTypeClass | src/app/communities/community-details.component.ts:409-416 | the grey badge exactly for types that are not public, private or secret in any case |
| CommunityDetails.MembershipStatusClass | src/app/communities/community-details.component.ts:418-425 | the grey badge exactly for statuses that are not active, pending or banned in any case |
| CommunityDetails.GroupTypeClassIgnoresCase | src/app/communities/community-details.component.ts:409-416 | the group type badge depends only on the lower-cased type |
| CommunityDetails.MembershipStatusClassIgnoresCase | src/app/communities/community-details.component.ts:418-425 | the membership badge depends only on the lower-cased status |
| CommunityDetails.GroupTypeClassAgreesWithGroupPage | src/app/communities/community-details.component.ts:409-416 | on Public, Private and Secret the community page shows the same badge as the group page (group-detail.component.ts:875-886) |
| CommunityDetails.GroupsOf | src/app/communities/community-details.component.ts:370 | an array answer as it is; else its `groups` when present (even empty), else its `data`, else none |
| CommunityDetails.GroupsQueryFor | src/app/communities/community-details.component.ts:362-365 | limit 20, with the type exactly when a type other than 'All' is chosen |
| CommunityDetails.CommunityDetailsComponent.constructor | src/app/communities/community-details.component.ts:304-313 | no community or groups, no flags set, type 'All' |
| CommunityDetails.CommunityDetailsComponent.CheckUserStatus | src/app/communities/community-details.component.ts:334-340 | logged in exactly with a user, admin exactly for the admin role, never an expert |
| CommunityDetails.CommunityDetailsComponent.OnCommunityLoaded | src/app/communities/community-details.component.ts:345-347 | the loaded community's id is kept for later group reloads |
| CommunityDetails.CommunityDetailsComponent.LoadGroups | src/app/communities/community-details.component.ts:360-367 | loading is set and the groups are requested for that community and type |
| CommunityDetails.CommunityDetailsComponent.OnGroupsResponse | src/app/communities/community-details.component.ts:368-372 | the groups are read from either answer shape and loading is cleared |
| CommunityDetails.CommunityDetailsComponent.OnGroupsError | src/app/communities/community-details.component.ts:374-378 | the groups are emptied and loading is cleared |
| CommunityDetails.CommunityDetailsComponent.FilterByType | src/app/communities/community-details.component.ts:393-398 | the type is chosen, and the groups are reloaded only once the community is loaded |
| ExpertApplicationsManagement.CountStatus | src/app/expert-applications/expert-applications-managment.component.ts:397-401 | the number of applications with a status never exceeds the list length |
| ExpertApplicationsManagement.StatusCountsBounded | src/app/expert-applications/expert-applications-managment.component.ts:397-401 | the pending, approved and rejected counts together never exceed the number of applications |
| ExpertApplicationsManagement.CountStatusPositive | src/app/expert-applications/expert-applications-managment.component.ts:397-401 | a status count is positive exactly when some application has that status |
| ExpertApplicationsManagement.SameStatusesSameCounts | src/app/expert-applications/expert-applications-managment.component.ts:410-412 | lists that agree on every status give the same counts, so opening details never changes the stats |
| ExpertApplicationsManagement.ToggledAreas | src/app/expert-applications/expert-applications-managment.component.ts:426-435 | checking appends the area; unchecking removes its first occurrence only, or nothing when it is absent, taking exactly one copy out of the multiset |
| ExpertApplicationsManagement.CheckThenUncheckNew | src/app/expert-applications/expert-applications-managment.component.ts:426-435 | checking and then unchecking a new area gives back the selection |
| ExpertApplicationsManagement.CheckThenUncheckPresent | src/app/expert-applications/expert-applications-managment.component.ts:426-435 | for an area already selected, check-then-uncheck removes the earlier copy and keeps the new one last |
| ExpertApplicationsManagement.CheckThenUncheckSameAreas | src/app/expert-applications/expert-applications-managment.component.ts:426-435 | check-then-uncheck always keeps the same areas with the same multiplicities |
| ExpertApplicationsManagement.ExpertApplicationsManagementComponent.constructor | src/app/expert-applications/expert-applications-managment.component.ts:304-323 | empty lists, page 1 of 1, no modal, no selection, counts shown |
| ExpertApplicationsManagement.ExpertApplicationsManagementComponent.Init | src/app/expert-applications/expert-applications-managment.component.ts:347-362 | anyone but an admin is sent to '/'; an admin on a route with a community requests the community and its first list page |
| ExpertApplicationsManagement.ExpertApplicationsManagementComponent.OnCommunityLoadError | src/app/expert-applications/expert-applications-managment.component.ts:369-372 | a failed community load goes back to '/communities' |
| ExpertApplicationsManagement.ExpertApplicationsManagementComponent.LoadApplications | src/app/expert-applications/expert-applications-managment.component.ts:376-383 | loading is set and the current page is requested with the status filter and limit 10 |
| ExpertApplicationsManagement.ExpertApplicationsManagementComponent.OnApplicationsResponse | src/app/expert-applications/expert-applications-managment.component.ts:384-389 | the list is replaced, the page count is the answer's or 1 when missing, the counts are recomputed and loading cleared |
| ExpertApplicationsManagement.ExpertApplicationsManagementComponent.OnApplicationsError | src/app/expert-applications/expert-applications-managment.component.ts:390-393 | loading is cleared |
| ExpertApplicationsManagement.ExpertApplicationsManagementComponent.UpdateStats | src/app/expert-applications/expert-applications-managment.component.ts:397-401 | the three counts match the list and together never exceed it |
| ExpertApplicationsManagement.ExpertApplicationsManagementComponent.ChangePage | src/app/expert-applications/expert-applications-managment.component.ts:403-408 | a page between 1 and the page count is loaded; any other page is ignored |
| ExpertApplicationsManagement.ExpertApplicationsManagementComponent.ToggleApplicationDetails | src/app/expert-applications/expert-applications-managment.component.ts:410-412 | only that application's details flip, and the counts stay right |
| ExpertApplicationsManagement.ExpertApplicationsManagementComponent.OpenApproveModal | src/app/expert-applications/expert-applications-managment.component.ts:414-418 | the application is selected with no areas and the approve modal opens |
| ExpertApplicationsManagement.ExpertApplicationsManagementComponent.CloseApproveModal | src/app/expert-applications/expert-applications-managment.component.ts:420-424 | the modal closes and the selection and areas are cleared |
| ExpertApplicationsManagement.ExpertApplicationsManagementComponent.ToggleExpertiseArea | src/app/expert-applications/expert-applications-managment.component.ts:426-435 | the selected areas become their toggled list |
| ExpertApplicationsManagement.ExpertApplicationsManagementComponent.ApproveApplication | src/app/expert-applications/expert-applications-managment.component.ts:437-444 | nothing without a selection; otherwise approving is set and the selected application is approved with the chosen areas |
| ExpertApplicationsManagement.ExpertApplicationsManagementComponent.OnApproved | src/app/expert-applications/expert-applications-managment.component.ts:445-450 | the modal closes, the list reloads, approving is cleared and the success alert is shown |
| ExpertApplicationsManagement.ExpertApplicationsManagementComponent.OnApproveError | src/app/expert-applications/expert-applications-managment.component.ts:451-455 | the failure alert is shown and approving cleared |
| ExpertApplicationsManagement.ExpertApplicationsManagementComponent.OpenRejectModal | src/app/expert-applications/expert-applications-managment.component.ts:459-463 | the application is selected with an empty reason and the reject modal opens |
| ExpertApplicationsManagement.ExpertApplicationsManagementComponent.CloseRejectModal | src/app/expert-applications/expert-applications-managment.component.ts:465-469 | the modal closes and the selection and reason are cleared |
| ExpertApplicationsManagement.ExpertApplicationsManagementComponent.RejectApplication | src/app/expert-applications/expert-applications-managment.component.ts:471-478 | nothing without a selection or with a blank reason; otherwise rejecting is set and the reason (untrimmed) is sent |
| ExpertApplicationsManagement.ExpertApplicationsManagementComponent.OnRejected | src/app/expert-applications/expert-applications-managment.component.ts:479-484 | the modal closes, the list reloads, rejecting is cleared and 'Application rejected' is shown |
| ExpertApplicationsManagement.ExpertApplicationsManagementComponent.OnRejectError | src/app/expert-applications/expert-applications-managment.component.ts:485-489 | the failure alert is shown and rejecting cleared |
| ExpertApplicationForm.Prefilled | src/app/expert-applications/expert-application-form.component.ts:338-352 | a pending application is copied into the form; any other status leaves the form as it was |
| ExpertApplicationForm.FailureMessage | src/app/expert-applications/expert-application-form.component.ts:390-403 | the server's error text, else 'Failed to update application' for an update and 'Failed to submit application' for a new one |
| ExpertApplicationForm.ExpertApplicationFormComponent.constructor | src/app/expert-applications/expert-application-form.component.ts:307-321 | an empty form for the route's community, nothing sent |
| ExpertApplicationForm.ExpertApplicationFormComponent.Init | src/app/expert-applications/expert-application-form.component.ts:307-321 | a signed-out visitor goes to '/login'; otherwise the community and the earlier application are requested when the route names a community |
| ExpertApplicationForm.ExpertApplicationFormComponent.OnCommunityLoadError | src/app/expert-applications/expert-application-form.component.ts:329-332 | a failed community load goes back to '/communities' |
| ExpertApplicationForm.ExpertApplicationFormComponent.OnExistingApplication | src/app/expert-applications/expert-application-form.component.ts:338-352 | the earlier application is kept and pre-fills the form only when pending |
| ExpertApplicationForm.ExpertApplicationFormComponent.AddSocialLink | src/app/expert-applications/expert-application-form.component.ts:361-366 | a LinkedIn link with an empty URL is appended |
| ExpertApplicationForm.ExpertApplicationFormComponent.RemoveSocialLink | src/app/expert-applications/expert-application-form.component.ts:368-370 | the link at the index goes and the others keep their order |
| ExpertApplicationForm.ExpertApplicationFormComponent.OnSubmit | src/app/expert-applications/expert-application-form.component.ts:372-407 | the validator's messages are stored; with any, nothing is sent; otherwise a pending application is updated and anything else is submitted as new |
| ExpertApplicationForm.ExpertApplicationFormComponent.OnSubmitSuccess | src/app/expert-applications/expert-application-form.component.ts:384-400 | the success modal opens and submitting is cleared |
| ExpertApplicationForm.ExpertApplicationFormComponent.OnSubmitError | src/app/expert-applications/expert-application-form.component.ts:388-405 | exactly one message is shown and submitting is cleared |
| ExpertApplicationForm.ExpertApplicationFormComponent.GoBack | src/app/expert-applications/expert-application-form.component.ts:410-412 | opens the community's page |
| ExpertApplicationForm.ExpertApplicationFormComponent.GoToCommunity | src/app/expert-applications/expert-application-form.component.ts:414-417 | closes the success modal and opens the community's page |
| ImageCheck.ImageRejection | src/app/groups/create-group.component.ts:366-380 | a picked image is refused exactly when it is over 5 MB or its type does not start with 'image/'; the size alert comes first; the same code is copied at src/app/groups/edit-group.component.ts:154-164, src/app/communities/create-community.component.ts:275-289, src/app/communities/edit-community.component.ts:258-268 |
| ImageCheck.FiveMegabytesAccepted | src/app/groups/create-group.component.ts:371 | exactly 5242880 bytes pass and one byte more is refused with the size alert |
| ImageCheck.AcceptedImageWithinUploadCap | src/app/group-post.service.ts:93-101 | every image these forms accept is also under the general 50 MB upload cap |
| ImageCheck.ImageAfterUpload | src/app/groups/create-group.component.ts:384-389 | a successful upload puts its URL in the image field; a refused one keeps the old image |
| ImageCheck.UploadAlerts | src/app/groups/create-group.component.ts:385-389 | no alert exactly on success; otherwise 'Failed to upload image: ' and the server's message |
| ImageCheck.SaveFailureMessage | src/app/groups/create-group.component.ts:416 | the server's `error` text, else the form's own default; never empty |
| CreateGroup.FindCommunity | src/app/groups/create-group.component.ts:341-358 | `find` by id: absent exactly when no community has that id, else the first one that has it |
| CreateGroup.WithCommunityCategory | src/app/groups/create-group.component.ts:342-363 | a found community gives the group its category; otherwise the group is unchanged |
| CreateGroup.BackRoute | src/app/groups/create-group.component.ts:427-433 | back to the preselected community when there is one, else to the community list |
| CreateGroup.CreateGroupComponent.constructor | src/app/groups/create-group.component.ts:265-302 | an empty public group, no communities, nothing in flight |
| CreateGroup.CreateGroupComponent.Init | src/app/groups/create-group.component.ts:312-331 | a signed-out visitor goes to '/login'; otherwise a `communityId` query parameter preselects the community and 100 communities are requested |
| CreateGroup.CreateGroupComponent.OnCommunitiesLoaded | src/app/groups/create-group.component.ts:336-349 | the list is kept; a preselected community is looked up and, when found, gives its category; loading is cleared |
| CreateGroup.CreateGroupComponent.OnCommunitiesError | src/app/groups/create-group.component.ts:350-353 | loading is cleared |
| CreateGroup.CreateGroupComponent.OnCommunityChange | src/app/groups/create-group.component.ts:357-364 | the chosen community is looked up and, when found, gives its category |
| CreateGroup.CreateGroupComponent.OnImageSelected | src/app/groups/create-group.component.ts:366-383 | no file: nothing; a refused file: its alert and no upload; otherwise uploading is set and the file sent |
| CreateGroup.CreateGroupComponent.OnImageUploaded | src/app/groups/create-group.component.ts:384-391 | the image follows the answer, a refusal raises its alert, uploading is cleared |
| CreateGroup.CreateGroupComponent.OnImageUploadError | src/app/groups/create-group.component.ts:392-396 | 'Failed to upload image' and uploading cleared |
| CreateGroup.CreateGroupComponent.RemoveImage | src/app/groups/create-group.component.ts:400-402 | the image is cleared and nothing else changes |
| CreateGroup.CreateGroupComponent.OnSubmit | src/app/groups/create-group.component.ts:404-408 | ignored while a create is in flight; otherwise the error is cleared and the group sent |
| CreateGroup.CreateGroupComponent.OnCreated | src/app/groups/create-group.component.ts:409-413 | the new group is kept and the success modal opens |
| CreateGroup.CreateGroupComponent.OnCreateError | src/app/groups/create-group.component.ts:414-418 | the server's error or the default text, and creating cleared |
| CreateGroup.CreateGroupComponent.GoToCommunityDetails | src/app/groups/create-group.component.ts:422-425 | the modal closes and the group's community opens |
| CreateGroup.CreateGroupComponent.GoBack | src/app/groups/create-group.component.ts:427-433 | navigates to the back route |
| EditGroup.CommunityIdOf | src/app/groups/edit-group.component.ts:127 | a populated community gives its `id`, else its `_id`; a bare id is kept |
| EditGroup.RulesOf | src/app/groups/edit-group.component.ts:128 | every rule is kept, in order, with only its title and description |
| EditGroup.EditableData | src/app/groups/edit-group.component.ts:121-129 | the editable copy keeps the group's fields and always has a rules list, empty when the group had none |
| EditGroup.WithBlankRule | src/app/groups/edit-group.component.ts:137-140 | a missing list is started and a blank rule goes last after the old rules |
| EditGroup.WithoutRule | src/app/groups/edit-group.component.ts:142-144 | nothing without a list; otherwise the rule at the index is removed |
| EditGroup.RemoveAddedRule | src/app/groups/edit-group.component.ts:137-144 | removing the rule just added gives back the rules the group had |
| EditGroup.EditGroupComponent.constructor | src/app/groups/edit-group.component.ts:91-118 | the editor for the route's group, nothing loaded or sent |
| EditGroup.EditGroupComponent.OnGroupLoaded | src/app/groups/edit-group.component.ts:120-130 | the form holds the editable copy of the loaded group |
| EditGroup.EditGroupComponent.OnGroupLoadError | src/app/groups/edit-group.component.ts:131-133 | 'Failed to load group details.' |
| EditGroup.EditGroupComponent.AddRule | src/app/groups/edit-group.component.ts:137-140 | the rules become the list with a blank rule added |
| EditGroup.EditGroupComponent.RemoveRule | src/app/groups/edit-group.component.ts:142-144 | the rules lose the rule at the index |
| EditGroup.EditGroupComponent.OnImageSelected | src/app/groups/edit-group.component.ts:154-166 | no file: nothing; a refused file: its alert; otherwise uploading is set and the file sent |
| EditGroup.EditGroupComponent.OnImageUploaded | src/app/groups/edit-group.component.ts:167-174 | the image follows the answer, a refusal raises its alert, uploading is cleared |
| EditGroup.EditGroupComponent.OnImageUploadError | src/app/groups/edit-group.component.ts:175-179 | 'Failed to upload image' and uploading cleared |
| EditGroup.EditGroupComponent.RemoveImage | src/app/groups/edit-group.component.ts:183-185 | the image is cleared |
| EditGroup.EditGroupComponent.OnSubmit | src/app/groups/edit-group.component.ts:187-191 | ignored while saving; otherwise the error is cleared and the data sent |
| EditGroup.EditGroupComponent.OnSaved | src/app/groups/edit-group.component.ts:192-195 | saving is cleared and the group's page opens |
| EditGroup.EditGroupComponent.OnSaveError | src/app/groups/edit-group.component.ts:196-199 | the server's error or 'Failed to update group.', and saving cleared |
| CreateCommunity.GateRoute | src/app/communities/create-community.component.ts:264-270 | everyone but an admin is sent to '/communities' |
| CreateCommunity.CreateCommunityComponent.constructor | src/app/communities/create-community.component.ts:243-256 | an empty community, no categories, nothing in flight |
| CreateCommunity.CreateCommunityComponent.Init | src/app/communities/create-community.component.ts:264-273 | a non-admin is sent away; an admin gets the service's categories |
| CreateCommunity.CreateCommunityComponent.OnImageSelected | src/app/communities/create-community.component.ts:275-292 | no file: nothing; a refused file: its alert; otherwise uploading is set and the file sent |
| CreateCommunity.CreateCommunityComponent.OnImageUploaded | src/app/communities/create-community.component.ts:293-300 | the image follows the answer, a refusal raises its alert, uploading is cleared |
| CreateCommunity.CreateCommunityComponent.OnImageUploadError | src/app/communities/create-community.component.ts:301-305 | 'Failed to upload image' and uploading cleared |
| CreateCommunity.CreateCommunityComponent.RemoveImage | src/app/communities/create-community.component.ts:309-311 | the image is cleared |
| CreateCommunity.CreateCommunityComponent.OnSubmit | src/app/communities/create-community.component.ts:313-319 | ignored while creating; otherwise the error is cleared and the community sent |
| CreateCommunity.CreateCommunityComponent.OnCreated | src/app/communities/create-community.component.ts:320-323 | creating is cleared and the new community's page opens |
| CreateCommunity.CreateCommunityComponent.OnCreateError | src/app/communities/create-community.component.ts:324-328 | the server's error or the default text, and creating cleared |
| CreateCommunity.CreateCommunityComponent.GoBack | src/app/communities/create-community.component.ts:332-334 | opens the community list |
| EditCommunity.EditCommunityComponent.constructor | src/app/communities/edit-community.component.ts:216-221 | an empty community, no id, nothing in flight |
| EditCommunity.EditCommunityComponent.Init | src/app/communities/edit-community.component.ts:230-244 | a non-admin is sent to '/communities'; an admin gets the categories and, for a route with an id, that community is loaded |
| EditCommunity.EditCommunityComponent.OnCommunityLoaded | src/app/communities/edit-community.component.ts:248-250 | the form holds the loaded community |
| EditCommunity.EditCommunityComponent.OnCommunityLoadError | src/app/communities/edit-community.component.ts:251-254 | 'Failed to load community data.' |
| EditCommunity.EditCommunityComponent.OnImageSelected | src/app/communities/edit-community.component.ts:258-270 | no file: nothing; a refused file: its alert; otherwise uploading is set and the file sent |
| EditCommunity.EditCommunityComponent.OnImageUploaded | src/app/communities/edit-community.component.ts:271-278 | the image follows the answer, a refusal raises its alert, uploading is cleared |
| EditCommunity.EditCommunityComponent.OnImageUploadError | src/app/communities/edit-community.component.ts:279-283 | 'Failed to upload image' and uploading cleared |
| EditCommunity.EditCommunityComponent.RemoveImage | src/app/communities/edit-community.component.ts:287-289 | the image is cleared |
| EditCommunity.EditCommunityComponent.OnSubmit | src/app/communities/edit-community.component.ts:291-295 | ignored while updating; otherwise the error is cleared and the community sent under its id |
| EditCommunity.EditCommunityComponent.OnUpdated | src/app/communities/edit-community.component.ts:296-299 | updating is cleared and the success modal opens |
| EditCommunity.EditCommunityComponent.OnUpdateError | src/app/communities/edit-community.component.ts:300-304 | the server's error or the default text, and updating cleared |
| EditCommunity.EditCommunityComponent.GoToDetails | src/app/communities/edit-community.component.ts:308-311 | the modal closes and the community's page opens |
| EditCommunity.EditCommunityComponent.GoBack | src/app/communities/edit-community.component.ts:313-315 | opens the community's page |
| PostCreation.MediaRejection | src/app/post-creation/post-creation.component.ts:61-80 | a photo is accepted exactly when it is JPEG, PNG or WEBP and at most 2 MB, a video exactly when it is MP4 and at most 20 MB; the type message comes before the size message |
| PostCreation.AttachedMediaPassesUploadWhitelist | src/app/post-creation/post-creation.component.ts:61-80 | every photo or video the composer accepts also passes the upload whitelist of group-post.service.ts:91-117 |
| PostCreation.PostValidityCases | src/app/post-creation/post-creation.component.ts:125-131 | no category: never valid; with a category, valid with a file, and without one exactly when the text has a non-space character |
| PostCreation.UserAvatarUrl | src/app/post-creation/post-creation.component.ts:195-208 | none without a user; otherwise the avatar mapping, which when present is the absolute media URL of the avatar |
| PostCreation.HeadOrUndefined | src/app/post-creation/post-creation.component.ts:214 | `s[0]` in a concatenation: the first character, or the text 'undefined' for an empty piece |
| PostCreation.AvatarInitialsAsWritten | src/app/post-creation/post-creation.component.ts:210-215 | `getAvatarInitials` as written: "" for an empty name; at most 18 characters; more than two characters only when the trimmed name splits into two or more pieces and the second piece is empty (two adjacent spaces) |
| PostCreation.SplitDoubleSpaced | src/app/post-creation/post-creation.component.ts:212 | 'A  B' trims to itself and splits into 'A', '' and 'B' |
| PostCreation.DoubleSpaceInitialsAsWritten | src/app/post-creation/post-creation.component.ts:210-215 | as written, the initials of 'A  B' are the upper-cased 'Aundefined', ten letters rather than two |
| PostCreation.DoubleSpaceInitials | src/app/post-creation/post-creation.component.ts:210-215 | the corrected initials of 'A  B' are 'AB' |
| PostCreation.NonEmptyPieces | src/app/post-creation/post-creation.component.ts:212 | the words of a split name: never more than the pieces, none empty |
| PostCreation.NonEmptyPiecesKeepsNonEmpty | src/app/post-creation/post-creation.component.ts:212 | pieces with none empty are all kept |
| PostCreation.AvatarInitials | src/app/post-creation/post-creation.component.ts:210-215 | the corrected initials are never longer than two letters |
| PostCreation.FirstPieceOfTrimmed | src/app/post-creation/post-creation.component.ts:212-214 | the first piece of a trimmed name with several pieces is never empty, so only the second piece can go wrong |
| PostCreation.InitialsAgreeWithoutDoubleSpaces | src/app/post-creation/post-creation.component.ts:210-215 | with no empty piece, the code as written and the corrected initials agree |
| PostCreation.PostCreationComponent.constructor | src/app/post-creation/post-creation.component.ts:24-30 | no user, text, category, file or preview; not submitting |
| PostCreation.PostCreationComponent.LoadUserData | src/app/post-creation/post-creation.component.ts:44-53 | the signed-in user is kept; without one the browser goes to '/login' and the server render does nothing |
| PostCreation.PostCreationComponent.OnFileSelect | src/app/post-creation/post-creation.component.ts:55-85 | no file: nothing; a refused file: its message and no change; otherwise the file and its kind are kept |
| PostCreation.PostCreationComponent.OnPreviewReady | src/app/post-creation/post-creation.component.ts:89-91 | the preview shows the read data URL |
| PostCreation.PostCreationComponent.RemoveMedia | src/app/post-creation/post-creation.component.ts:95-99 | the file, preview and kind are cleared |
| PostCreation.PostCreationComponent.OnArticleClick | src/app/post-creation/post-creation.component.ts:121-123 | shows 'Article creation feature coming soon!' |
| PostCreation.PostCreationComponent.IsPostValid | src/app/post-creation/post-creation.component.ts:125-131 | the composer's state is valid exactly when the validity rule holds for it |
| PostCreation.PostCreationComponent.Payload | src/app/post-creation/post-creation.component.ts:154-162 | the post carries the user's id, the trimmed text, the category, the kind, and the media URL, size and post type given |
| PostCreation.PostCreationComponent.OnSubmit | src/app/post-creation/post-creation.component.ts:133-164 | nothing for an invalid post or without a user; otherwise submitting is set and the file is uploaded first, or without a file a 'thought' post with no media is sent |
| PostCreation.PostCreationComponent.OnUploadResult | src/app/post-creation/post-creation.component.ts:144-174 | an upload without a URL fails the post with the failure message and clears submitting; otherwise the post is sent with the URL, the file's size and the media kind |
| PostCreation.PostCreationComponent.OnPostCreated | src/app/post-creation/post-creation.component.ts:166-173 | the success message is shown, the home page opens and submitting is cleared |
| PostCreation.PostCreationComponent.OnSubmitError | src/app/post-creation/post-creation.component.ts:169-174 | the failure message is shown and submitting cleared |
| PostCreation.PostCreationComponent.OnCancel | src/app/post-creation/post-creation.component.ts:177-179 | opens the home page |
| PostCreationService.WithFullMediaUrls | src/app/post-creation/postCreation.service.ts:30-34 | every post of a page keeps its place and its fields, with its media URL passed through the relative mapping |
| PostCreationService.PaginatedPosts | src/app/post-creation/postCreation.service.ts:26-37 | the page keeps its other fields and its posts in order, each post's id and fields kept and its media URL mapped |
| PostCreationService.PaginatedPostsIdempotent | src/app/post-creation/postCreation.service.ts:26-37 | mapping an already mapped page changes nothing |
| PostCreationService.PaginatedMediaUrlsLoadable | src/app/post-creation/postCreation.service.ts:15-32 | every media URL of a mapped page is empty, a full URL or a path under '/uploads' |
| Register.ErrorsOf | src/app/register/register.component.ts:32-41 | the name is required and needs 2 UTF-16 code units, the email is required and must pass the email check, the password is required and needs 6 code units; other fields carry no error |
| Register.OneCharacterNames | src/app/register/register.component.ts:33 | a one-character name passes `minLength(2)` exactly when it lies outside the Basic Multilingual Plane (an emoji, two code units) |
| Register.FormValidMeans | src/app/register/register.component.ts:32-86 | the form is valid exactly when the name has 2 code units, the email is non-empty and well-formed, the password has 6 code units and every child has a name and an age that is given (not a cleared input) and 0 or more |
| Register.FieldError | src/app/register/register.component.ts:132-140 | nothing for an untouched or valid field; otherwise 'is required' first, then the email message, then 'is too short' |
| Register.ChildFieldError | src/app/register/register.component.ts:142-149 | nothing for an untouched child; for a touched child, 'name is required' for an empty name, 'age is required' for a cleared age and 'Age must be 0 or greater' for a negative one, and nothing exactly when the control is valid |
| Register.AddedInterest | src/app/register/register.component.ts:67-76 | a blank or already listed interest changes nothing; otherwise the trimmed interest goes last |
| Register.AddedInterestKeepsInterestsDistinct | src/app/register/register.component.ts:71 | adding keeps the interests free of duplicates, and adding the same interest twice is the same as once |
| Register.AddedInterestIsTrimmed | src/app/register/register.component.ts:68-72 | every interest added is non-empty and already trimmed |
| Register.TrimIsTrimmed | src/app/register/register.component.ts:72 | trimming twice is trimming once |
| Register.RemoveAddedInterest | src/app/register/register.component.ts:67-83 | removing the interest just added gives back the list |
| Register.ChildValues | src/app/register/register.component.ts:90 | the children sent are the children's values, in order |
| Register.AllTouched | src/app/register/register.component.ts:119-125 | every child is marked touched and nothing else changes |
| Register.RefusedSubmitShowsErrors | src/app/register/register.component.ts:109-140 | after a refused submit every field with an error shows a message |
| Register.RegisterComponent.constructor | src/app/register/register.component.ts:19-41 | an empty account with role 'parent', no children, nothing touched or in flight |
| Register.RegisterComponent.AddChild | src/app/register/register.component.ts:54-61 | a child with no name, age 0 and no interests goes last |
| Register.RegisterComponent.RemoveChild | src/app/register/register.component.ts:63-65 | the child at the index goes |
| Register.RegisterComponent.AddInterest | src/app/register/register.component.ts:67-76 | only that child's interests change, to the list with the interest added |
| Register.RegisterComponent.RemoveInterest | src/app/register/register.component.ts:78-83 | only that child's interests change, losing the one at the index |
| Register.RegisterComponent.OnSubmit | src/app/register/register.component.ts:85-111 | a valid form with nothing in flight is sent with its children and the error cleared; otherwise every field and child is marked touched and nothing is sent |
| Register.RegisterComponent.OnRegistered | src/app/register/register.component.ts:93-95 | loading is cleared and the success modal opens |
| Register.RegisterComponent.OnRedirectTimer | src/app/register/register.component.ts:98-101 | the modal closes and the login page opens |
| Register.RegisterComponent.OnRegisterError | src/app/register/register.component.ts:103-106 | loading is cleared and the server's message or 'Registration failed. Please try again.' is shown |
| Register.RegisterComponent.OnAvatarFileSelected | src/app/register/register.component.ts:151-155 | a picked file is uploaded once; no file sends nothing |
| Register.RegisterComponent.OnAvatarUploaded | src/app/register/register.component.ts:156-159 | the account's avatar and the preview become the uploaded URL |
| Register.RegisterComponent.OnAvatarUploadError | src/app/register/register.component.ts:160-162 | 'Failed to upload avatar. Please try again.' |
| Register.RegisterComponent.GoBack | src/app/register/register.component.ts:128-130 | opens the profile page |
| Register.RegisterComponent.GetFieldError | src/app/register/register.component.ts:132-140 | the field's message from its current errors; nothing while untouched |
| Register.RegisterComponent.GetAvatarPreviewUrl | src/app/register/register.component.ts:167-180 | '' unless the preview is an uploaded avatar path or a URL, and then its absolute URL |
| Events.GoingCountBounded | src/app/event-details/event-details.component.ts:65-67 | the RSVP count never exceeds the attendees, and equals them exactly when all are going |
| Events.GoingCountAppend | src/app/event-details/event-details.component.ts:65-67 | the count of two lists together is the sum of their counts |
| Events.RsvpCount | src/app/event-details/event-details.component.ts:65-67 | `getRSVPCount`: the number of 'Going' attendees, 0 without a list; the same code is copied at src/app/my-events/my-events.component.ts:74-78, src/app/events-feed/events-feed.component.ts:60-62 |
| Events.IsEventFull | src/app/event-details/event-details.component.ts:60-63 | `isEventFull`: full exactly when there is a limit and an attendee list and the going count reaches the limit; the same code is copied at src/app/my-events/my-events.component.ts:80-86, src/app/events-feed/events-feed.component.ts:55-58 |
| Events.RoomLeftMeansNotFull | src/app/event-details/event-details.component.ts:60-63 | an event with fewer attendees than its limit is not full |
| Events.AnotherAnswer | src/app/event-details/event-details.component.ts:60-67 | one more answer adds one to the count exactly when it is 'Going'; a full event stays full, and any other answer leaves fullness unchanged |
| EventDetails.EmojiIconIn | src/app/event-details/event-details.component.ts:159-162 | the icon of the first emoji with that rating, '' when none has it |
| EventDetails.WrittenEmojisConfuseThreeAndFive | src/app/event-details/event-details.component.ts:29-35 | with the icons as written, ratings 3 and 5 show the same non-empty icon |
| EventDetails.EmojiIcon | src/app/event-details/event-details.component.ts:159-162 | with the intended icons: ratings 1 to 5 each get their own non-empty face, any other rating '' |
| EventDetails.EmojiIconsDistinct | src/app/event-details/event-details.component.ts:29-35 | two different ratings never show the same intended icon |
| EventDetails.HostAvatar | src/app/event-details/event-details.component.ts:171-174 | '' without an event or host avatar; otherwise the relative media URL of the avatar, non-empty and ending with it |
| EventDetails.EventDetailsComponent.constructor | src/app/event-details/event-details.component.ts:16-39 | no event, loading, no RSVP, no comments, feedback rating 0 |
| EventDetails.EventDetailsComponent.OnEventLoaded | src/app/event-details/event-details.component.ts:46-153 | the event is kept, loading cleared, and its comments and feedback requested |
| EventDetails.EventDetailsComponent.OnEventLoadError | src/app/event-details/event-details.component.ts:53-56 | the server's message or 'Event not found.', and loading cleared |
| EventDetails.EventDetailsComponent.Rsvp | src/app/event-details/event-details.component.ts:76-81 | nothing without an event; otherwise the RSVP is sent with its flags reset |
| EventDetails.EventDetailsComponent.OnRsvpDone | src/app/event-details/event-details.component.ts:82-87 | the status is kept and success shown |
| EventDetails.EventDetailsComponent.OnRsvpError | src/app/event-details/event-details.component.ts:88-91 | the server's message or 'Failed to RSVP.' |
| EventDetails.EventDetailsComponent.OnCommentsLoaded | src/app/event-details/event-details.component.ts:98 | the comments are replaced |
| EventDetails.EventDetailsComponent.OnCommentsError | src/app/event-details/event-details.component.ts:99 | the comments are emptied |
| EventDetails.EventDetailsComponent.AddComment | src/app/event-details/event-details.component.ts:103-107 | nothing without an event or with a blank comment; otherwise the comment is sent as typed |
| EventDetails.EventDetailsComponent.OnCommentAdded | src/app/event-details/event-details.component.ts:108-112 | the comment goes last and the input is cleared |
| EventDetails.EventDetailsComponent.OnCommentError | src/app/event-details/event-details.component.ts:113-116 | the server's message or 'Failed to post comment.' |
| EventDetails.EventDetailsComponent.SubmitFeedback | src/app/event-details/event-details.component.ts:132-137 | nothing without an event or with rating 0; otherwise the rating and comment are sent |
| EventDetails.EventDetailsComponent.OnFeedbackSubmitted | src/app/event-details/event-details.component.ts:138-143 | success shown, the feedback list requested again and the form reset to rating 0 and no comment |
| EventDetails.EventDetailsComponent.OnFeedbackError | src/app/event-details/event-details.component.ts:144-147 | the server's message or 'Failed to submit feedback.' |
| EventDetails.EventDetailsComponent.OnFeedbackListLoaded | src/app/event-details/event-details.component.ts:154 | the feedback list is replaced |
| EventDetails.EventDetailsComponent.OnFeedbackListError | src/app/event-details/event-details.component.ts:155 | the feedback list is emptied |
| EventDetails.EventDetailsComponent.GetHostAvatar | src/app/event-details/event-details.component.ts:171-174 | the page shows the host avatar of its event |
| MyEvents.TabStatus | src/app/my-events/my-events.component.ts:61 | the going tab looks for 'Going' and the other tabs for 'Interested' |
| MyEvents.AttendedBy | src/app/my-events/my-events.component.ts:57-62 | an event is kept exactly when some attendee is the user with that status, as often as it occurs in the list |
| MyEvents.AttendedByInOrder | src/app/my-events/my-events.component.ts:57-62 | the filter keeps the list order: the events of two lists in a row are those of the first followed by those of the second, and one event is kept exactly when it passes |
| MyEvents.AttendedByIdempotent | src/app/my-events/my-events.component.ts:57-62 | filtering an already filtered list changes nothing |
| MyEvents.AttendedByAll | src/app/my-events/my-events.component.ts:57-62 | the filter keeps the whole list exactly when the user attends every event with that status |
| MyEvents.CoverImageUrl | src/app/my-events/my-events.component.ts:122-124 | the resolved cover, '/assets/parentimg.png' without one; never empty |
| MyEvents.HostAvatarUrl | src/app/my-events/my-events.component.ts:125-129 | the resolved avatar, the default avatar without one; never empty |
| MyEvents.MyEventsComponent.constructor | src/app/my-events/my-events.component.ts:18-22 | the created tab, no events, no user |
| MyEvents.MyEventsComponent.Init | src/app/my-events/my-events.component.ts:30-33 | the signed-in user's id ('' when none) is kept and the events fetched |
| MyEvents.MyEventsComponent.FetchEvents | src/app/my-events/my-events.component.ts:35-56 | without a user the list is emptied and nothing is sent; the created tab asks for the user's events, the other tabs for all events |
| MyEvents.MyEventsComponent.OnUserEventsLoaded | src/app/my-events/my-events.component.ts:45-48 | the user's events are shown |
| MyEvents.MyEventsComponent.OnAllEventsLoaded | src/app/my-events/my-events.component.ts:56-64 | only the events the user attends with the tab's status are shown |
| MyEvents.MyEventsComponent.OnEventsError | src/app/my-events/my-events.component.ts:49-69 | the server's message or 'Failed to load events.' |
| MyEvents.MyEventsComponent.EditEvent | src/app/my-events/my-events.component.ts:88-91 | the browser goes to '/edit-event/' and the event's id |
| MyEvents.MyEventsComponent.CancelEvent | src/app/my-events/my-events.component.ts:93-95 | a cancel is sent only when confirmed |
| MyEvents.MyEventsComponent.OnEventCancelled | src/app/my-events/my-events.component.ts:96-98 | only that event is marked cancelled |
| MyEvents.MyEventsComponent.OnCancelError | src/app/my-events/my-events.component.ts:99-101 | the server's message or 'Failed to cancel event.' |
| MyEvents.MyEventsComponent.ReportEvent | src/app/my-events/my-events.component.ts:105-110 | a report is sent only with a non-empty reason |
| MyEvents.MyEventsComponent.OnReported | src/app/my-events/my-events.component.ts:111 | 'Event reported. Thank you!' |
| MyEvents.MyEventsComponent.OnReportError | src/app/my-events/my-events.component.ts:112 | the server's message or 'Failed to report event.' |
| MyEvents.MyEventsComponent.GoBack | src/app/my-events/my-events.component.ts:116-120 | back in history when there is one, else to '/profile' |
| EventsFeed.AttendeeCount | src/app/events-feed/events-feed.component.ts:49 | `attendees?.length \|\| 0`: 0 without a list, else every answer counted whatever its status, never fewer than the going count |
| EventsFeed.SortedEvents | src/app/events-feed/events-feed.component.ts:45-53 | the sorted events are a permutation of the events; an order name other than date, popularity or recent leaves them unchanged |
| EventsFeed.SortedEventsOrdered | src/app/events-feed/events-feed.component.ts:46-52 | by date: earliest first; by popularity: most answers first; by recent: newest creation first |
| EventsFeed.SortedEventsStable | src/app/events-feed/events-feed.component.ts:45-53 | events with equal keys keep their relative order (the browser's sort is stable) |
| EventsFeed.SortedEventsIdempotent | src/app/events-feed/events-feed.component.ts:45-53 | sorting again by the same order changes nothing |
| EventsFeed.FeedCoverImageUrl | src/app/events-feed/events-feed.component.ts:68-74 | '' exactly for an empty cover; otherwise a URL ending with the cover path |
| EventsFeed.FeedHostAvatarUrl | src/app/events-feed/events-feed.component.ts:76-82 | never empty; the default image for an empty avatar, otherwise a URL ending with the avatar path |
| EventsFeed.FeedUrlsAgreeWithResolver | src/app/events-feed/events-feed.component.ts:68-82 | both page helpers give the shared media-URL resolver's answer (with '' and the default avatar as fallbacks) |
| EventsFeed.QueryOf | src/app/events-feed/events-feed.component.ts:28-30 | the request carries a category or a type exactly when that filter is non-empty, with its value |
| EventsFeed.EventsFeedComponent.constructor | src/app/events-feed/events-feed.component.ts:15-18 | no events, not loading, empty filters, ordered by date, nothing requested or navigated |
| EventsFeed.EventsFeedComponent.FetchEvents | src/app/events-feed/events-feed.component.ts:26-31 | loading, and one more request built from the current filters |
| EventsFeed.EventsFeedComponent.OnEventsLoaded | src/app/events-feed/events-feed.component.ts:32-36 | the events are the loaded ones sorted by the current order; loading ends |
| EventsFeed.EventsFeedComponent.OnEventsError | src/app/events-feed/events-feed.component.ts:38-41 | no events; loading ends |
| EventsFeed.EventsFeedComponent.SortEvents | src/app/events-feed/events-feed.component.ts:45-53 | the events re-sorted by the given order, or by the current one when none is given |
| EventsFeed.EventsFeedComponent.GoBack | src/app/events-feed/events-feed.component.ts:64-66 | the page moves to /home |
| CreateEvent.PlaceError | src/app/create-event/create-event.component.ts:70-77 | no error exactly when an online event has a meeting link and an offline event has a location; otherwise the matching message |
| CreateEvent.CreateValidationError | src/app/create-event/create-event.component.ts:57-77 | accepted exactly when every required field is filled and the place check passes; a missing field gives the "fill all required fields" message first |
| CreateEvent.EmptyFormRefused | src/app/create-event/create-event.component.ts:16-29 | the initial form is refused for its missing fields, and once those are filled the default online type still needs a meeting link |
| CreateEvent.SubmittedData | src/app/create-event/create-event.component.ts:98-107 | the form with only two changes: the uploaded cover URL when there is one, and date and time combined when both are given |
| CreateEvent.CreateEventComponent.constructor | src/app/create-event/create-event.component.ts:16-35 | the default form, not loading, no error or success, no file or preview, nothing requested |
| CreateEvent.CreateEventComponent.OnFileChange | src/app/create-event/create-event.component.ts:44-47 | a picked file becomes the cover file; no file leaves it |
| CreateEvent.CreateEventComponent.OnPreviewReady | src/app/create-event/create-event.component.ts:48-50 | the preview is the file's data URL |
| CreateEvent.CreateEventComponent.OnSubmit | src/app/create-event/create-event.component.ts:54-96 | a refused form shows its message and sends nothing; an accepted one clears the error, starts loading and sends the cover upload, or the event itself when there is no cover file |
| CreateEvent.CreateEventComponent.OnCoverUploaded | src/app/create-event/create-event.component.ts:85-87 | the event is sent with the uploaded cover URL |
| CreateEvent.CreateEventComponent.OnCoverUploadError | src/app/create-event/create-event.component.ts:88-91 | loading ends with "Image upload failed." |
| CreateEvent.CreateEventComponent.OnCreated | src/app/create-event/create-event.component.ts:111-131 | success, no error, loading ends, and the form, file and preview are reset to their defaults |
| CreateEvent.CreateEventComponent.OnCreateError | src/app/create-event/create-event.component.ts:132-135 | loading ends with the server's message, or the generic one when it sends none |
| CreateEvent.CreateEventComponent.GoBack | src/app/create-event/create-event.component.ts:139-141 | the page navigates to /events |
| EditEvent.EditValidationError | src/app/edit-event/edit-event.component.ts:49-63 | accepted exactly when the title and date are given and the place check passes; a missing title or date gives "Title and date are required." first |
| EditEvent.EditAcceptsWhatCreateAccepts | src/app/edit-event/edit-event.component.ts:52-63 | every form the create page accepts is accepted here, but not the other way round: a titled, dated hybrid event without a description passes here and is refused there |
| EditEvent.UpdateData | src/app/edit-event/edit-event.component.ts:83 | the loaded event with only the cover changed: the uploaded URL when there is one, the event unchanged otherwise |
| EditEvent.EditEventComponent.constructor | src/app/edit-event/edit-event.component.ts:16-34 | no event yet, loading, no error or success, no file, and the event of the route's id requested |
| EditEvent.EditEventComponent.OnEventLoaded | src/app/edit-event/edit-event.component.ts:31-34 | the loaded event becomes the editable copy; loading ends |
| EditEvent.EditEventComponent.OnEventLoadError | src/app/edit-event/edit-event.component.ts:35-38 | the server's message, or "Event not found."; loading ends |
| EditEvent.EditEventComponent.OnFileChange | src/app/edit-event/edit-event.component.ts:42-47 | a picked file becomes the cover file; no file leaves it |
| EditEvent.EditEventComponent.OnSubmit | src/app/edit-event/edit-event.component.ts:49-80 | a refused form shows its message and sends nothing; an accepted one clears the error, starts loading and sends the cover upload, or the update itself when there is no cover file |
| EditEvent.EditEventComponent.OnCoverUploaded | src/app/edit-event/edit-event.component.ts:69-71 | the update is sent with the uploaded cover URL |
| EditEvent.EditEventComponent.OnCoverUploadError | src/app/edit-event/edit-event.component.ts:72-75 | loading ends with "Image upload failed." |
| EditEvent.EditEventComponent.OnSaved | src/app/edit-event/edit-event.component.ts:85-87 | loading ends with success |
| EditEvent.EditEventComponent.OnRedirectTimer | src/app/edit-event/edit-event.component.ts:88 | when the timer fires the page moves to /my-events |
| EditEvent.EditEventComponent.OnSaveError | src/app/edit-event/edit-event.component.ts:90-93 | loading ends with the server's message, or "Failed to update event." |
| ReportContent.ReportContentComponent.constructor | src/app/report-content.component.ts:135-150 | the inputs as given; an empty form, not submitting, no thank-you notice, nothing reported or closed |
| ReportContent.ReportContentComponent.ResetForm | src/app/report-content.component.ts:175-182 | no reason, no details, not anonymous, not submitting |
| ReportContent.ReportContentComponent.Close | src/app/report-content.component.ts:164-168 | the dialog closes with its form reset, and its page is told once more |
| ReportContent.ReportContentComponent.CloseSuccess | src/app/report-content.component.ts:170-173 | the thank-you notice goes away, then the dialog closes as Close does |
| ReportContent.ReportContentComponent.SubmitReport | src/app/report-content.component.ts:184-204 | ignored while a report is being submitted; otherwise the page receives the content and the form's reason, details and anonymity, the dialog closes, the thank-you notice shows and the form is reset |
| ReportContent.ReportContentComponent.PressSubmit | src/app/report-content.component.ts:106 | the submit button: nothing happens without a reason, with details over 500 UTF-16 code units, or while submitting; otherwise as SubmitReport |
| ReportContent.DetailsLimitInCharacters | src/app/report-content.component.ts:57 | `maxlength` counts code units: details made only of emoji fit 250 characters, details without any 500 |

## Left out

- HTTP and Observable plumbing:
  - every REST method of every service, including `register` and `updateProfile` of the session service;
  - `getUserRoles`/`getMyRoles` and the role cache of the user-role service;
  - `createPost`, `toggleLike`, `toggleBookmark`, `togglePin`, `addReply` and `markBestAnswer` of the group-post service;
  - the requests of `postCreation.service.ts` other than its per-post mapping.
  
  Requests are recorded as values, and their answers are method arguments.
- Console logging, snackbars and the `showSuccess`/`showError` helpers of the post form: these only display text.
- The clock: `isLive` and `canGiveFeedback` on the event page, the `today` field of the event form, `getTimeAgo` and every `formatDate`. They read the current date and a locale.
- Dates:
  - `CreateEvent.SubmittedData`: the date-and-time combination depends on the time zone, so it is the parameter `combine`;
  - `EventsFeed.SortedEvents`: event dates and creation instants are abstract integers, so an unparsable date (`NaN` in the comparator) is not modelled.
- Floating point: `formatFileSize` and the upload progress percentage.
- Browser APIs:
  - FileReader previews: the preview's content is an argument of `OnPreviewReady`;
  - the IntersectionObserver and `setTimeout` infinite scroll of the group page, and `scrollToCreatePost`;
  - `share`/`window.open`;
  - the drag-and-drop handlers of the upload area, which only call `addFiles`;
  - `autoResize` and the image `onerror` fallbacks;
  - the photo and video buttons, which open the file picker.
- Outside the model:
  - `confirm` and `prompt` answers are method arguments;
  - the redirect timers become explicit `OnRedirectTimer` calls.
- Avatar helpers built with `encodeURIComponent`:
  - `getUserAvatar` of the feed and post pages;
  - `getUserBio` of the feed and post pages, which is display text only.
- Parameters standing for code outside the model:
  - the WHATWG URL parser behind `isValidUrl`;
  - Angular's email validator;
  - `JSON.parse`/`JSON.stringify` of the stored user.
- JsText.Upper and JsText.Lower: case mapping covers ASCII letters only, where `toUpperCase`/`toLowerCase` map all of Unicode.
- `Utils.CharCode`: `charCodeAt` is modelled as the Dafny character's code. The two differ above U+FFFF, where JavaScript sees UTF-16 halves.
- Utils.GetInitials: `n[0]` and `substring(0, 2)` take UTF-16 code units, the model takes whole characters. For a word starting with a character above U+FFFF (an emoji) the source keeps a lone surrogate half, the model the whole character.
- PostCreation.HeadOrUndefined: `s[0]` is the first UTF-16 code unit, the model the first character; they differ when a piece starts with a character above U+FFFF.
- PostCreation.AvatarInitialsAsWritten and PostCreation.AvatarInitials: they take their letters through `HeadOrUndefined`, with the same gap.
- CommunityDetails.GetGroupInitial: `charAt(0)` has the same gap for a title starting with a character above U+FFFF.
- Colour-class and icon helpers that map a role to CSS classes or a symbol: `getRoleColorClass`/`getRoleIcon` of the user-role service, and `getBackendRoleClass`/`getRoleClass`/`getRoleIcon` of the role tag. They are presentation only.
- Literal option lists not used by the modelled logic: `getSortOptions` and `getReportReasons` of the group-post service.
- Group page operations outside the modelled paging, comment and moderation logic: `loadGroup`, `checkUserStatus`, `joinGroup`, `leaveGroup`, `createPost`, `toggleLike`, `toggleBookmark`, `togglePin`.
- Community list: `checkAdminStatus` and the two navigation helpers. Community page: `loadStats`, `createGroup`, `editCommunity`, `deleteCommunity`, `navigateToGroup`. These are requests and navigations with no local logic.
- Post details page: `fetchPost`, `checkLoginStatus`, `checkUserLikeStatus`, `showErrorMessage`, `goBack`.
- Group forms: `EditGroup.EditGroupComponent.constructor` and `CreateGroup.CreateGroupComponent.Init` do not record the loading request.
- Event page: the load request for the route's id is not recorded.
- Event forms: deleting a `host` field before sending is not modelled, because the form record has no such field.
- `EditGroup.CommunityIdOf`: a populated community object with both ids empty keeps the object itself in the source; the model gives "".
- `EditGroup.EditGroupComponent` methods require a loaded group, because the form is shown only once the group has loaded.
- `EditEvent.EditEventComponent.OnSubmit` and `EditEvent.EditEventComponent.OnCoverUploaded` require a loaded event. A submit before loading would throw in the source.
- `EventsFeed.EventsFeedComponent.SortEvents` sorts the page's event sequence and assigns it. In-place sorting of the shared array, which other references would observe, is not modelled.
- `MyEvents.MyEventsComponent.CancelEvent`: the source keeps the event object; the model identifies the event by its position. The source also marks an event that other references share; the model does not capture this aliasing.
- `MediaUpload.MediaUploadComponent.RemoveFile`: the entry is identified by its position rather than by object identity.
- `MediaUpload.MediaUploadComponent.OnUploadResponse`, `MediaUpload.MediaUploadComponent.OnUploadError` and `GroupDetail.GroupDetailComponent.OnCommentAdded` find their entry by its position at the time the answer arrives. In the source the callback updates the object it captured. The model does not capture an answer for an entry that is no longer in the list (removed, or replaced by a reload), nor an entry whose position moved after the request; the source then updates a detached object, while the model would update whichever entry holds that position.
- `PostCreation.AvatarInitials` states only that it gives at most two characters. Its partner lemmas (`PostCreation.InitialsAgreeWithoutDoubleSpaces`, `PostCreation.DoubleSpaceInitials`) relate it to the source's formula.
- `CommunityDetails.CommunityDetailsComponent.CheckUserStatus` takes the signed-in user's role (None when signed out) in place of the user object.

## Findings

| source | as written | input that shows it | evidently intended | confidence | as-written member | corrected member |
|---|---|---|---|---|---|---|
| src/app/post-creation/post-creation.component.ts:210-215 | the name is split on single spaces, so two spaces in a row leave an empty middle piece, whose first character is `undefined` | "A  B" gives the upper-cased "Aundefined", ten letters | "AB", the initials of the first two words | not executed | PostCreation.DoubleSpaceInitialsAsWritten | PostCreation.DoubleSpaceInitials |
| src/app/event-details/event-details.component.ts:29-35 | the emoji icons are UTF-8 bytes read back as Windows-1252 text; ratings 3 and 5 get the same garbled icon | ratings 3 and 5 both show "ðŸ˜" | five distinct faces (U+1F621, U+1F615, U+1F610, U+1F642, U+1F60D) | not executed | EventDetails.WrittenEmojisConfuseThreeAndFive | EventDetails.EmojiIconsDistinct |
