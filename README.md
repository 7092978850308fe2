# rabf-frontend, modelled in Dafny

rabf-frontend is the single-page React client of a companion-booking marketplace:
- Customers browse and swipe through companion ("boyfriend") profiles, read and write reviews, book dates and chat.
- Companions create and edit their profile and prove who they are by face verification, optionally handing the session over to a phone through a QR code.
- A session store gates the protected pages.

This project models the decision rules and state updates of that client. Each stateful component becomes a class:
- Its fields are the component's `useState` variables.
- Each event handler becomes a method.
- Server replies, camera and face-detection outcomes, geolocation fixes and file-picker results are parameters of those methods.
- The pure parts (filters, payload builders, fallbacks, URL builders) are functions, with lemmas relating them.

Modules, one per source file plus four shared ones (`Common`, `Url`, `Domain` and `ProfileForm`):
- `Common`: `Option`, the server `Reply` (`Ok(data)` or `Err(status, serverMessage, errorMessage)`), and JavaScript string helpers.
  - The helpers are `trim`, `split`, `join`, `toLowerCase`, `includes`, `Number` on form text, and `filter`.
  - The empty string stands for a missing or falsy field; `OrElse` is `||` on strings.
- `Url`: how `URLSearchParams.get` reads the query of the page URL (`location.search`). The query runs from the first '?' before the fragment up to the fragment; a '?' inside the fragment starts no query.
- `Domain`: the user, location and companion records the server returns.
- `Api`: the base URL, requests and endpoint paths of `api.js`.
- `AuthStore`, `ProtectedRoute`, `ProfileCta`, `Verification`, `MobileHandover`, `ChatWindow`, `ChatList`, `Notifications`, `BookingList`, `BookingModal`: the session, verification, chat, notification and booking components.
- `ProfileForm` holds the form and payload shared by the two profile editors. `CreateProfile` and `MyProfile` model those editors.
- `BoyfriendProfile`, `BoyfriendList`, `SwipeView`, `BoyfriendCard`, `UserAvatar`: the browsing components.
- `Signup`, `ResetPassword`, `VerifyEmail`, `ProfilePage`: the account pages.

## Model

| member | source | states |
|---|---|---|
| Api.BaseUrl | src/api/api.js:6 | the base URL is the backend variable, or `http://localhost:3000` when it is empty, followed by `/api` |
| Api.GetQueryString | src/api/api.js:62 | a query string written as `name=value&…` reads back, for every name, the first value written for it |
| Api.ChatDetailsQuery | src/api/api.js:62 | the chat-details request (`ChatDetails`) has path `/chats/{userId}` for an id without '?' or '#'; its `page` parameter is the given page, or 1 by default, and its `limit` is 20 |
| Api.PagedQuery | src/api/api.js:62 | `prefix?page=n&limit=20` reads back as path `prefix`, `page` = n and `limit` = 20 |
| Api.ReviewsQuery | src/api/api.js:68 | the reviews request (`Reviews`) has path `/reviews/{boyfriendId}` for an id without '?' or '#'; its `page` is the given page, or 1 by default, and it has no `limit` |
| Api.PageOnlyQuery | src/api/api.js:68 | `prefix?page=n` reads back as path `prefix`, with `page` = n and no `limit` |
| Api.MobileHandoverToken | src/api/api.js:19 | the desktop asks for a handover token with a GET of `/auth/mobile-handover` that carries no body |
| Api.VerifyEmailQuery | src/api/api.js:21 | in `VerifyEmail`, the e-mail token travels, unchanged, as the `token` query parameter of `/auth/verify-email`, with no body |
| Api.MobileLogin | src/api/api.js:20 | mobile login is a POST whose body carries the token; the URL has no query |
| Api.UploadImage | src/api/api.js:27-36 | a successful upload yields the response body, not the whole response; a failure is passed through unchanged |
| AuthStore.Settled | src/store/authStore.js:11-20 | after `checkAuth` the check has ended; there is a user exactly when the check succeeded, and that user is the response data |
| AuthStore.Partialize | src/store/authStore.js:38 | only `user` is persisted |
| AuthStore.Rehydrate | src/store/authStore.js:8-9 | a reload starts from the persisted user, with `isCheckingAuth` back at its initial true |
| AuthStore.ReloadRechecks | src/store/authStore.js:8-9 | persisting and then reloading keeps the user and sets the check in flight again; persisting again changes nothing |
| AuthStore.CheckingNotPersisted | src/store/authStore.js:38 | two states with the same user persist identically, whatever their `isCheckingAuth` |
| AuthStore.Store.constructor | src/store/authStore.js:8-9 | the store starts with no user and the check in flight |
| AuthStore.Store.BeginCheckAuth | src/store/authStore.js:12 | starting the check sets `isCheckingAuth` and keeps the user |
| AuthStore.Store.FinishCheckAuth | src/store/authStore.js:13-19 | the store ends in the settled state for the reply |
| AuthStore.Store.Login | src/store/authStore.js:22-24 | `login` replaces the user with the data given and leaves `isCheckingAuth` alone |
| AuthStore.Store.Logout | src/store/authStore.js:26-34 | `logout` clears the user whether or not the server call succeeded |
| AuthStore.Store.Stored | src/store/authStore.js:38 | what is written to storage is the persisted part of the current state |
| ProtectedRoute.Decide | src/components/templates/ProtectedRoute.jsx:11-28 | the spinner shows while the check runs. Otherwise a missing user is redirected to /login, remembering the page asked for. An unconfirmed user gets the e-mail page. The children render exactly when a confirmed user is signed in |
| ProtectedRoute.AfterCheck | src/components/templates/ProtectedRoute.jsx:19-28 | after a check, the children render exactly when it returned a confirmed user; a failed check redirects to /login |
| ProtectedRoute.ReloadShowsSpinner | src/components/templates/ProtectedRoute.jsx:11-17 | a reloaded page shows the spinner, whatever user was persisted |
| ProfileCta.NextPrompt | src/components/molecules/BoyfriendProfileCTA.jsx:14-43 | non-companions keep the prompt they had; an unconfirmed companion gets "activate". A confirmed companion with a profile gets "verify", or no prompt once verified. A 404 gives "create"; any other error keeps the prompt |
| ProfileCta.NoPromptForOthers | src/components/molecules/BoyfriendProfileCTA.jsx:16 | a visitor or a non-companion never gets a prompt |
| ProfileCta.PromptCauses | src/components/molecules/BoyfriendProfileCTA.jsx:25-36 | "create" only follows a 404, and "verify" only a found profile that is not verified |
| ProfileCta.LinkFor | src/components/molecules/BoyfriendProfileCTA.jsx:58 | the banner links to /profile for activate, /verify for verify and /boyfriends/me for create |
| ProfileCta.BannerFor | src/components/molecules/BoyfriendProfileCTA.jsx:45-97 | a banner shows exactly when loading has finished and there is a prompt, and it carries the prompt's link |
| ProfileCta.LinksDistinct | src/components/molecules/BoyfriendProfileCTA.jsx:50-97 | different prompts link to different pages |
| ProfileCta.Cta.constructor | src/components/molecules/BoyfriendProfileCTA.jsx:11-12 | the banner starts with no prompt, loading |
| ProfileCta.Cta.CheckProfile | src/components/molecules/BoyfriendProfileCTA.jsx:14-43 | the profile endpoint is called only for a confirmed companion; the prompt becomes `NextPrompt` and loading ends |
| Verification.VerifyStep | src/pages/Verification.jsx:158-190 | `verifyUser` is called exactly when a live face is within distance < 0.6 (`Accepts`). No face, a mismatch or a thrown error each set their message and clear `verifying`. "Verified!" is shown exactly on an accepted face and a successful call |
| Verification.ThresholdIsStrict | src/pages/Verification.jsx:177 | a distance of exactly 0.6 is rejected, with the mismatch message |
| Verification.ReferencePhoto | src/pages/Verification.jsx:104-115 | the reference is the account photo. A companion's non-empty profile photo overrides it; a failed companion fetch keeps the account photo |
| Verification.Prepare | src/pages/Verification.jsx:91-145 | a descriptor is set exactly when the account loads, has a reference URL and a face is found in it. No URL fails before any fetch. A photo without a face fails without a descriptor. A failed account fetch shows the error |
| Verification.FailedCompanionFetchKeepsAccountPhoto | src/pages/Verification.jsx:108-113 | whatever the companion-fetch error, the account photo is the reference |
| Verification.FirstVerified | src/pages/Verification.jsx:46-63 | the index of the first poll that observed `isVerified`, or none when no poll did |
| Verification.FirstVerifiedAt | src/pages/Verification.jsx:46-63 | a poll that is the first to observe `isVerified` is the one found |
| Verification.NoneVerified | src/pages/Verification.jsx:46-63 | with no poll observing `isVerified`, none is found |
| Verification.QrValue | src/pages/Verification.jsx:211-213 | there is a QR value exactly when both the public URL and the token are non-empty |
| Verification.StripTrailingSlash | src/pages/Verification.jsx:212 | one trailing '/' is removed, and nothing else |
| Verification.HandoverRoundTrip | src/pages/Verification.jsx:211-213 | the QR URL points at `/handover` under the public URL, and its `t` parameter is the token |
| Verification.AlreadyVerified | src/pages/Verification.jsx:36-40 | the page leaves at once exactly when the loaded account is already verified |
| Verification.Page.constructor | src/pages/Verification.jsx:14-22 | the page starts loading, not verifying, without a descriptor or token |
| Verification.Page.LoadModels | src/pages/Verification.jsx:66-84 | loaded models end loading, so the Verify button (`ButtonDisabled`: verifying or loading) is then disabled only while verifying. A load failure leaves `loading` and the button as they were |
| Verification.Page.PrepareVerification | src/pages/Verification.jsx:88-145 | preparation runs only with a user and loaded models; it then sets the message, photo and descriptor that `Prepare` gives |
| Verification.Page.VerifyFace | src/pages/Verification.jsx:147-191 | without a webcam or a descriptor nothing changes and no call is made; otherwise the outcome is `VerifyStep` |
| Verification.Page.PollStatus | src/pages/Verification.jsx:46-63 | on a desktop, polling makes requests up to and including the first verified poll, then stops with the redirect message. A failed poll only logs. A phone never polls |
| Verification.Page.FetchHandoverToken | src/pages/Verification.jsx:196-209 | only a desktop fetches a token; a failure records the server message, the error message or a fallback |
| Verification.Page.Qr | src/pages/Verification.jsx:211-213 | the page shows a QR code exactly when it has a public URL and a token |
| MobileHandover.HandoverToken | src/pages/MobileHandover.jsx:13-14 | the token is the `t` parameter of the page's query (`location.search`, which ends at the fragment), when it is present and non-empty; a `t` inside the fragment is not read (`Url.QueryInFragmentIgnored`) |
| MobileHandover.QrCodeCarriesToken | src/pages/MobileHandover.jsx:13-14 | the phone reads back exactly the token the desktop put in its QR code |
| MobileHandover.Handover.constructor | src/pages/MobileHandover.jsx:9 | the page starts with the message "Authenticating..." |
| MobileHandover.FragmentHidesToken | src/pages/MobileHandover.jsx:13-19 | the link `h/handover#x?t=abc` carries no token, so the page shows the missing-token error instead of calling `mobileLogin` |
| MobileHandover.Handover.Redeem | src/pages/MobileHandover.jsx:12-44 | a missing token (`HandoverToken` is none, which includes a `t` written inside the fragment) shows the error, goes to /login and never calls `mobileLogin`. A success logs in with exactly the returned data and goes to /verify. A failure shows the server message or the fallback, goes to /login and never logs in |
| ChatWindow.IsMe | src/pages/ChatWindow.jsx:301 | a message is mine when its sender id, or its populated sender's id, is my id |
| ChatWindow.FirstOther | src/pages/ChatWindow.jsx:250-259 | the index of the first participant who is not me, or none when all are me |
| ChatWindow.OtherParticipant | src/pages/ChatWindow.jsx:250-259 | the partner is the first participant who is not me, else the first participant, else a stand-in named "User" |
| ChatWindow.StandInShowsPartner | src/pages/ChatWindow.jsx:73-83 | the fallback participants [partner, me] show the partner |
| ChatWindow.MergePage | src/pages/ChatWindow.jsx:55-61 | page 1 replaces the list. A later page puts the fetched older messages in front of the shown ones, which keep their order |
| ChatWindow.PagesStack | src/pages/ChatWindow.jsx:55-61 | after loading older pages one by one, the list is those pages, oldest first, followed by page 1 |
| ChatWindow.ConcatAppend | src/pages/ChatWindow.jsx:55-61 | concatenating pages distributes over appending one more |
| ChatWindow.SendDecision | src/pages/ChatWindow.jsx:145-183 | a message sent over the socket carries the chat id, the text and the receiver; a new chat is created over REST with the receiver and the text |
| ChatWindow.SendDecisionCases | src/pages/ChatWindow.jsx:145-183 | blank input or a reached limit is ignored, and a companion cannot open a chat. An existing chat sends over the socket; otherwise the chat is created over REST; each case holds exactly under its condition |
| ChatWindow.BlankNeverSent | src/pages/ChatWindow.jsx:147 | whitespace-only input is never sent |
| ChatWindow.EndOfHistorySticks | src/pages/ChatWindow.jsx:64-66 | once the end-of-history flag is false, no run of later replies sets it again |
| ChatWindow.NextHasMore | src/pages/ChatWindow.jsx:64-66 | after one reply the flag holds exactly when it held before and the reply was not a page of fewer than 20 messages |
| ChatWindow.HasMoreAfterNoShortPage | src/pages/ChatWindow.jsx:64-66 | after a run of replies the flag holds exactly when it held at the start and no reply was a short page |
| ChatWindow.Window.constructor | src/pages/ChatWindow.jsx:18-28 | the window starts on page 1 with more messages assumed, nothing loading and no error |
| ChatWindow.Window.StartFetch | src/pages/ChatWindow.jsx:42-45 | a fetch runs only with a partner and a signed-in user; page 1 sets `loading`, later pages `fetchingMore` |
| ChatWindow.Window.FinishFetch | src/pages/ChatWindow.jsx:46-87 | a reply merges its messages by `MergePage`. The end flag becomes `NextHasMore` of the reply. Page 1 joins the chat room when there is a chat id. A failed page 1 falls back to [partner, me] with no messages. Both loading flags end false |
| ChatWindow.Window.ChangeConversation | src/pages/ChatWindow.jsx:90-95 | a new conversation resets page 1, the end flag and the messages, then requests page 1 and sets `loading` exactly when a partner and a user are set; otherwise `loading` stays as it was |
| ChatWindow.Window.SentinelSeen | src/pages/ChatWindow.jsx:115-120 | the page advances exactly when the sentinel is visible, more messages exist and nothing is loading; the next page is then requested, with `fetchingMore` set, exactly when a partner and a user are set as well. Without a request neither busy flag changes |
| ChatWindow.Window.SocketError | src/pages/ChatWindow.jsx:132-143 | a LIMIT_REACHED error sets the limit message; other errors change nothing |
| ChatWindow.Window.Type | src/pages/ChatWindow.jsx:334 | typing sets the composer text only |
| ChatWindow.Window.HandleSend | src/pages/ChatWindow.jsx:145-183 | the action is `SendDecision`. A socket send clears the input. A REST creation replaces the chat and its messages and joins it. Ignored, refused or failed sends change nothing |
| ChatList.NameFilter | src/components/organisms/ChatList.jsx:79-86 | a blank search keeps every chat. Otherwise the result is the chats whose partner name contains the term (`Matches`), ignoring case and counting a missing name as "" |
| ChatList.NameFilterIgnoresCase | src/components/organisms/ChatList.jsx:83 | searching a lower-cased term gives the same chats |
| ChatList.NamelessMatchesOnlyEmpty | src/components/organisms/ChatList.jsx:83 | a chat without a partner name matches only the empty term |
| ChatList.NameFilterKeepsOrder | src/components/organisms/ChatList.jsx:82-84 | filtering commutes with concatenation, so matches keep their order |
| ChatList.RowVerified | src/components/organisms/ChatList.jsx:192 | the verified badge is `user.isVerified || bf.isVerified` |
| ChatList.DirectoryRows | src/components/organisms/ChatList.jsx:189-191 | the directory shows exactly the profiles whose row id is not the current user's |
| ChatList.RowId | src/components/organisms/ChatList.jsx:190 | a row's id is the populated account's id; a bare account reference has none; a profile without an account uses its own id |
| ChatList.DirectoryRowsAppend | src/components/organisms/ChatList.jsx:189-191 | excluding the current user commutes with appending a page |
| ChatList.MergeDirectory | src/components/organisms/ChatList.jsx:60 | directory page 1 replaces the list; later pages append in order |
| ChatList.ResetRequestAsWritten | src/components/organisms/ChatList.jsx:72-76 | the reset as written requests the page of the snapshot, and only when the snapshot had more pages or was on page 1 |
| ChatList.ResetAfterLastPageFetchesNothing | src/components/organisms/ChatList.jsx:72-76 | the reset as written requests nothing after the last page was reached |
| ChatList.ResetMidListFetchesWrongPage | src/components/organisms/ChatList.jsx:72-76 | the reset as written requests the old page number, whose results fill the emptied list |
| ChatList.ResetRequest | src/components/organisms/ChatList.jsx:72-76 | the corrected reset always requests page 1 |
| ChatList.Sidebar.constructor | src/components/organisms/ChatList.jsx:18-25 | the sidebar starts loading on the chats tab, on page 1, with more pages assumed |
| ChatList.Sidebar.FetchChats | src/components/organisms/ChatList.jsx:43-53 | loaded chats are shown unfiltered; loading ends either way |
| ChatList.Sidebar.StartFetchBoyfriends | src/components/organisms/ChatList.jsx:55-59 | a fetch is skipped when no more pages exist and the page is not 1; otherwise it asks for page, limit 10 and the search |
| ChatList.Sidebar.FinishFetchBoyfriends | src/components/organisms/ChatList.jsx:59-66 | the page is merged by `MergeDirectory` and `hasMore` is `currentPage < totalPages`; a failure keeps both |
| ChatList.Sidebar.Search | src/components/organisms/ChatList.jsx:147 | typing sets the search term only |
| ChatList.Sidebar.SelectTab | src/components/organisms/ChatList.jsx:128 | switching to the directory tab while it is empty, and when a fetch is allowed, requests page `page` of 10 with the search term and sets `loading`; otherwise `loading` stays as it was. Chats, list, page, more-flag and term are unchanged |
| ChatList.Sidebar.DebounceFired | src/components/organisms/ChatList.jsx:70-91 | in the directory the search resets page 1, an empty list and more pages, then fetches by the corrected `ResetRequest`, which is page 1 (the source's snapshot fetch is `ResetRequestAsWritten`); in the chats tab it applies the name filter |
| ChatList.Sidebar.LastRowSeen | src/components/organisms/ChatList.jsx:31-40 | a visible last row with more pages advances the page, which fetches it in the directory |
| Notifications.Receive | src/context/NotificationContext.jsx:34-63 | "connected" and unparseable events change nothing; every other event is prepended and adds exactly 1 to the unread count |
| Notifications.MarkAllRead | src/context/NotificationContext.jsx:79-81 | marking all read zeroes the count and keeps the list |
| Notifications.ReceiveAllBalanced | src/context/NotificationContext.jsx:44-45 | over any run of events the list grows by exactly the unread increase, the count never exceeds the list, and older items stay at the end |
| Notifications.SuffixTransitive | src/context/NotificationContext.jsx:44 | keeping older items at the end composes over successive runs |
| Notifications.MarkThenReceive | src/context/NotificationContext.jsx:79-81 | after marking read, the count is exactly the number of notifications received since |
| Notifications.ToastLink | src/context/NotificationContext.jsx:56 | a toast links to the notification's link, else to /bookings |
| Notifications.StreamUrlAsWritten | src/context/NotificationContext.jsx:23 | the stream URL as written: the backend variable, or the text "undefined" when it is unset, followed by `/api/notifications/stream` |
| Notifications.StreamMissesBackendWhenUnset | src/context/NotificationContext.jsx:23 | with the backend variable unset, the stream URL as written differs from the corrected one |
| Notifications.StreamUrl | src/context/NotificationContext.jsx:23-32 | the stream lives under the API client's base URL, and agrees with the source whenever the variable is set |
| Notifications.Provider.constructor | src/context/NotificationContext.jsx:12-13 | the feed starts empty with no unread notifications |
| Notifications.Provider.Connect | src/context/NotificationContext.jsx:18-32 | a stream is opened exactly when a user is signed in, at the corrected `StreamUrl` (the source's URL is `StreamUrlAsWritten`, and the two agree when the backend variable is set and non-empty) |
| Notifications.Provider.OnMessage | src/context/NotificationContext.jsx:34-63 | the feed becomes `Receive` of the event, the count stays within the list, and a toast shows exactly for counted events |
| Notifications.Provider.MarkAllReadNow | src/context/NotificationContext.jsx:79-81 | the feed becomes `MarkAllRead` |
| BookingList.MyBookings | src/pages/BookingList.jsx:56 | exactly the bookings made by me |
| BookingList.ReceivedRequests | src/pages/BookingList.jsx:57 | exactly the bookings of my profile, or with a profile id and a client other than me |
| BookingList.SegregationKeepsOrder | src/pages/BookingList.jsx:56-57 | both filters keep the bookings' original order |
| BookingList.SegregationCovers | src/pages/BookingList.jsx:56-57 | every booking with a profile id is in one list at least, and in both only if it is of my own profile |
| BookingList.ChatTarget | src/pages/BookingList.jsx:69 | received cards chat with the client, others with the profile's account, falling back to the profile id |
| BookingList.BadgeFor | src/pages/BookingList.jsx:89-91 | accepted is success, rejected or cancelled destructive, anything else secondary |
| BookingList.Actions | src/pages/BookingList.jsx:112-135 | pending received: reject and accept. Pending sent: cancel. Accepted sent: chat. Otherwise no actions |
| BookingList.ActionsOnlyOnPending | src/pages/BookingList.jsx:112-135 | a status change is offered only on pending bookings, and cancellation only to the client |
| BookingList.Page.constructor | src/pages/BookingList.jsx:17-18 | the page starts loading with no bookings |
| BookingList.Page.FetchBookings | src/pages/BookingList.jsx:21-30 | loaded bookings replace the list; a failure keeps it; loading ends |
| BookingList.Page.HandleStatusUpdate | src/pages/BookingList.jsx:36-45 | the update carries the id and status. Success refetches; a failure leaves the list untouched |
| BookingModal.TotalPrice | src/components/molecules/BookingModal.jsx:27 | the total is the duration times the hourly price; no price costs 0, and any offered duration costs between 1 and 8 times the hourly price |
| BookingModal.ButtonMatchesGuard | src/components/molecules/BookingModal.jsx:164 | the button is enabled only for a complete form, and when not loading it is disabled exactly for an incomplete one |
| BookingModal.RequestFor | src/components/molecules/BookingModal.jsx:34-45 | the end time is exactly duration × 3,600,000 ms after the start, with the total price |
| BookingModal.Modal.constructor | src/components/molecules/BookingModal.jsx:10-16 | the modal starts at step 1 with a 2-hour duration |
| BookingModal.Modal.Open | src/components/molecules/BookingModal.jsx:19-25 | opening resets only step, success and loading |
| BookingModal.Modal.SelectDuration | src/components/molecules/BookingModal.jsx:136-139 | the duration is one of 1, 2, 4 or 8 |
| BookingModal.Modal.Edit | src/components/molecules/BookingModal.jsx:11-14 | editing sets date, time and location only |
| BookingModal.Modal.HandleBooking | src/components/molecules/BookingModal.jsx:29-57 | nothing happens unless date, time and location are set. Otherwise the request is `RequestFor`, success is set on a successful reply, and loading ends false either way |
| ProfileForm.InitialForm | src/pages/CreateBoyfriendProfile.jsx:19-31 | the form starts with the account's first name and everything else empty |
| ProfileForm.ApplyEdit | src/pages/CreateBoyfriendProfile.jsx:33-35 | an edit changes its own field only |
| ProfileForm.WithPosition | src/pages/CreateBoyfriendProfile.jsx:42-47 | a fix sets both coordinates, keeps a non-empty address, or sets "Current Location (Detected)" |
| ProfileForm.UploadedUrl | src/pages/CreateBoyfriendProfile.jsx:66 | an upload result is used as-is when it is text, else its `url`, else its `imageUrl` |
| ProfileForm.UploadedUrls | src/pages/CreateBoyfriendProfile.jsx:86-89 | the URLs of a gallery upload correspond one to one, in order, with the upload responses |
| ProfileForm.AppendUploads | src/pages/CreateBoyfriendProfile.jsx:86-91 | new gallery URLs follow the existing ones, in upload order |
| ProfileForm.RemoveAt | src/pages/CreateBoyfriendProfile.jsx:100-105 | removing index i drops exactly that image and keeps the rest in order |
| ProfileForm.RemoveUndoesAppend | src/pages/CreateBoyfriendProfile.jsx:86-105 | removing a just-appended image gives the gallery back |
| ProfileForm.ParseTraits | src/pages/CreateBoyfriendProfile.jsx:125 | the traits are the pieces of the field split on ',', in order, each trimmed; so there is at least one, and none contains a comma or edge whitespace |
| ProfileForm.TrimIsInfix | src/pages/CreateBoyfriendProfile.jsx:125 | trimming adds no characters |
| ProfileForm.EmptyTraitsText | src/pages/CreateBoyfriendProfile.jsx:125 | an empty traits field is sent as one empty trait |
| ProfileForm.SplitShown | src/pages/MyBoyfriendProfile.jsx:57 | splitting joined traits on ',' gives one piece per trait, each after a space except the first |
| ProfileForm.ShowThenParse | src/pages/MyBoyfriendProfile.jsx:57-158 | traits shown with `join(", ")` and parsed back come back unchanged when none contains a comma or edge whitespace |
| ProfileForm.PayloadOf | src/pages/CreateBoyfriendProfile.jsx:122-129 | the payload's location is the address, its traits the parsed field, its age and price the converted numbers; name, bio, instagram, coordinates and images are passed on unchanged |
| ProfileForm.AgeOptions | src/pages/CreateBoyfriendProfile.jsx:186 | the age options are 18, 19, …, 70 in order |
| ProfileForm.AgeOffered | src/pages/CreateBoyfriendProfile.jsx:186 | an age is offered exactly when it is between 18 and 70 |
| Common.Trim | src/pages/CreateBoyfriendProfile.jsx:125 | `trim` removes exactly the edge whitespace: the result is an infix with only whitespace before and after it, and it neither starts nor ends with whitespace |
| Common.TrimOfTrimmed | src/pages/CreateBoyfriendProfile.jsx:125 | `trim` leaves a string without edge whitespace unchanged |
| Common.TrimLeadingSpace | src/pages/MyBoyfriendProfile.jsx:57 | a trait shown after ", " trims back to itself |
| Common.BlankIffAllSpace | src/components/organisms/ChatList.jsx:79 | a string trims to "" exactly when it is all whitespace |
| Common.Split | src/pages/CreateBoyfriendProfile.jsx:125 | `split` gives at least one piece, none containing the separator |
| Common.SplitNoSep | src/pages/CreateBoyfriendProfile.jsx:125 | text without the separator splits into itself alone |
| Common.SplitAtFirst | src/pages/CreateBoyfriendProfile.jsx:125 | the first piece is the text before the first separator, and the rest is the split of what follows |
| Common.SplitJoin | src/pages/MyBoyfriendProfile.jsx:57 | splitting a join on its separator gives the parts back |
| Common.Lower | src/components/organisms/ChatList.jsx:83 | lower-casing maps every character and keeps the length |
| Common.LowerIdempotent | src/components/organisms/ChatList.jsx:83 | lower-casing twice is lower-casing once |
| Common.LowerKeepsBlank | src/components/organisms/ChatList.jsx:79-83 | lower-casing keeps a term blank or non-blank |
| Common.Includes | src/components/organisms/ChatList.jsx:83 | `includes` holds exactly when the term occurs at some position |
| Common.ToNumber | src/pages/CreateBoyfriendProfile.jsx:126-127 | `Number` of a blank field is 0, and of a padded numeral its value |
| Common.ToNumberOfNat | src/pages/MyBoyfriendProfile.jsx:52-53 | a number rendered into a field converts back to itself |
| Common.NatToStringValue | src/api/api.js:62 | a rendered page number reads back as that number |
| Common.NatToStringInjective | src/api/api.js:62 | different page numbers render as different text |
| Common.FilterConcat | src/pages/BookingList.jsx:56-57 | filtering distributes over concatenation |
| Common.FilterSame | src/components/organisms/ChatList.jsx:83 | filters that agree on every element keep the same elements |
| CreateProfile.SubmitRefusal | src/pages/CreateBoyfriendProfile.jsx:110-117 | submission is refused first without a main photo, then with fewer than 3 gallery photos, and otherwise allowed |
| CreateProfile.Preview | src/pages/CreateBoyfriendProfile.jsx:143-155 | the preview falls back to "Your Name", "25", "Your City", "500", the account photo or a stock photo, and ["Charming","Fun"]; an empty bio to "Your amazing bio will appear here..."; the Instagram handle is the form's own |
| CreateProfile.PreviewShowsPayload | src/pages/CreateBoyfriendProfile.jsx:122-155 | for filled fields the preview shows what will be sent |
| CreateProfile.BlankTraitsPreviewDiffers | src/pages/CreateBoyfriendProfile.jsx:125-152 | with empty traits the preview shows placeholders while [""] is sent |
| CreateProfile.Creator.constructor | src/pages/CreateBoyfriendProfile.jsx:17-31 | the creator starts with the initial form and no flag set |
| CreateProfile.Creator.HandleChange | src/pages/CreateBoyfriendProfile.jsx:33-35 | an edit applies to the form only |
| CreateProfile.Creator.HandleLocation | src/pages/CreateBoyfriendProfile.jsx:37-57 | a fix applies `WithPosition`; without geolocation nothing changes; loading ends when it ran |
| CreateProfile.Creator.UploadProfileImage | src/pages/CreateBoyfriendProfile.jsx:59-75 | the upload's URL becomes the main photo; a failure keeps the form |
| CreateProfile.Creator.UploadGallery | src/pages/CreateBoyfriendProfile.jsx:77-98 | the uploads are appended by `AppendUploads`; a failure keeps the form |
| CreateProfile.Creator.RemoveGalleryImage | src/pages/CreateBoyfriendProfile.jsx:100-105 | the gallery loses exactly the chosen index |
| CreateProfile.Creator.HandleSubmit | src/pages/CreateBoyfriendProfile.jsx:107-140 | a refused form is not sent. Otherwise the payload is sent; success goes to /verify and a failure shows the server message or "Failed to create profile". Loading ends false |
| MyProfile.AddressOf | src/pages/MyBoyfriendProfile.jsx:54 | the address is the location object's address, a string location itself, or "" |
| MyProfile.Coordinate | src/pages/MyBoyfriendProfile.jsx:55-56 | a coordinate is taken only when it exists and is non-zero |
| MyProfile.NumberText | src/pages/MyBoyfriendProfile.jsx:52-53 | a zero number shows as an empty field |
| MyProfile.NumberTextReadsBack | src/pages/MyBoyfriendProfile.jsx:52-53 | the shown number converts back to itself |
| MyProfile.FormFromProfile | src/pages/MyBoyfriendProfile.jsx:48-61 | the form takes the profile's fields. Latitude is coordinate 1 and longitude coordinate 0. Traits are joined with ", " |
| MyProfile.SaveUnedited | src/pages/MyBoyfriendProfile.jsx:48-161 | saving an unedited form sends the loaded name, numbers, traits and images back |
| MyProfile.SaveWithoutTraits | src/pages/MyBoyfriendProfile.jsx:57-158 | a profile with no traits is saved with one empty trait |
| MyProfile.RequestFor | src/pages/MyBoyfriendProfile.jsx:163-173 | create mode sends a creation and otherwise an update, both with the converted form |
| MyProfile.Editor.constructor | src/pages/MyBoyfriendProfile.jsx:19-39 | the editor starts loading, not editing or creating |
| MyProfile.Editor.FetchProfile | src/pages/MyBoyfriendProfile.jsx:45-74 | a loaded profile fills the form. A 404 enters create mode, editing and creating. Other errors change neither. Loading ends |
| MyProfile.Editor.StartEditing | src/pages/MyBoyfriendProfile.jsx:193-194 | editing starts and the form shows |
| MyProfile.Editor.CancelEditing | src/pages/MyBoyfriendProfile.jsx:286 | editing stops and nothing else changes |
| MyProfile.Editor.HandleChange | src/pages/MyBoyfriendProfile.jsx:76-78 | an edit applies to the form only |
| MyProfile.Editor.HandleLocation | src/pages/MyBoyfriendProfile.jsx:80-101 | a fix applies `WithPosition`; the flag it uses is `uploading` |
| MyProfile.Editor.UploadProfileImage | src/pages/MyBoyfriendProfile.jsx:103-119 | the upload's URL becomes the main photo |
| MyProfile.Editor.UploadGallery | src/pages/MyBoyfriendProfile.jsx:121-142 | the existing images stay first and the uploads follow |
| MyProfile.Editor.RemoveGalleryImage | src/pages/MyBoyfriendProfile.jsx:144-149 | only the chosen index is dropped |
| MyProfile.Editor.HandleSubmit | src/pages/MyBoyfriendProfile.jsx:151-183 | the request is `RequestFor` the mode. Success stores the profile and ends editing and creating. A failure keeps both modes and reports the message. Saving ends false |
| BoyfriendProfile.DisplayedImage | src/pages/BoyfriendProfile.jsx:126 | the shown image falls back mainImage, profileImage, images[0], then the default URL |
| BoyfriendProfile.LoadedShowsFirstImage | src/pages/BoyfriendProfile.jsx:40-126 | after a load with a gallery, the first gallery image shows |
| BoyfriendProfile.LitStars | src/pages/BoyfriendProfile.jsx:243-248 | star k of 1..5 is lit exactly when k ≤ the rating |
| BoyfriendProfile.StarsLitPrefix | src/pages/BoyfriendProfile.jsx:243-248 | the lit stars are a prefix as long as the rating |
| BoyfriendProfile.WithoutFirstAt | src/pages/BoyfriendProfile.jsx:214 | only the first '@' is removed from the handle |
| BoyfriendProfile.InstagramHandle | src/pages/BoyfriendProfile.jsx:212-214 | `@name` links (`InstagramUrl`) to `https://instagram.com/name` |
| BoyfriendProfile.ChatLink | src/pages/BoyfriendProfile.jsx:208 | the chat button links to `/chats/` followed by the account id |
| BoyfriendProfile.Page.constructor | src/pages/BoyfriendProfile.jsx:17-27 | the page starts loading on review page 1 of 1, rating 5 and an empty comment |
| BoyfriendProfile.Page.Load | src/pages/BoyfriendProfile.jsx:30-55 | the id "preview" fetches nothing. A load sets the profile, first image and reviews, and a missing page count becomes 1. A failure sets the error. Loading ends |
| BoyfriendProfile.Page.SelectImage | src/pages/BoyfriendProfile.jsx:140 | a gallery click sets the main image only |
| BoyfriendProfile.Page.LoadMoreReviews | src/pages/BoyfriendProfile.jsx:57-66 | requests page reviewPage + 1, appends its reviews and advances the page only on success |
| BoyfriendProfile.Page.EditReview | src/pages/BoyfriendProfile.jsx:26 | editing sets the rating and comment only |
| BoyfriendProfile.Page.SubmitReview | src/pages/BoyfriendProfile.jsx:68-88 | the review is sent. A success is prepended and resets rating 5 with an empty comment. A failure keeps the form and reports the message |
| BoyfriendList.PagerFor | src/pages/BoyfriendList.jsx:226-262 | the pager shows only for more than one page; Previous is disabled on page 1, Next on the last; the buttons are 1..totalPages |
| BoyfriendList.PagerStaysInRange | src/pages/BoyfriendList.jsx:226-262 | every enabled pager move stays within 1..totalPages |
| BoyfriendList.Browser.constructor | src/pages/BoyfriendList.jsx:47-55 | the list starts on page 1 at 50 km without location |
| BoyfriendList.Browser.Params | src/pages/BoyfriendList.jsx:59-74 | always page and limit 6. lat, lng and dist only with GPS on and a fix. search only when non-empty. Nothing else |
| BoyfriendList.Browser.FinishFetch | src/pages/BoyfriendList.jsx:76-84 | loaded profiles replace the list, and a missing page count becomes 1 |
| BoyfriendList.Browser.ChangePage | src/pages/BoyfriendList.jsx:99-102 | a page change sets the page only |
| BoyfriendList.Browser.Search | src/pages/BoyfriendList.jsx:49 | typing sets the search term only |
| BoyfriendList.Browser.SetDistance | src/pages/BoyfriendList.jsx:182-187 | the slider sets a distance within 1..500 |
| BoyfriendList.Browser.IncreaseRange | src/pages/BoyfriendList.jsx:215 | "Increase Range" sets 500 km |
| BoyfriendList.Browser.ToggleLocation | src/pages/BoyfriendList.jsx:108-134 | turning GPS off clears both the flag and the location; turning it on sets both, and only on a fix |
| SwipeView.Back | src/components/organisms/MobileSwipeView.jsx:43 | moving back decrements the index, and stops at 0 |
| SwipeView.Forward | src/components/organisms/MobileSwipeView.jsx:53 | moving forward increments the index, and stops at the last profile |
| SwipeView.DragTarget | src/components/organisms/MobileSwipeView.jsx:38-65 | an offset strictly below -100 goes back, strictly above 100 forward, anything else stays |
| SwipeView.ThresholdIsStrict | src/components/organisms/MobileSwipeView.jsx:39-56 | exactly ±100 leaves the index unchanged |
| SwipeView.DragStaysInRange | src/components/organisms/MobileSwipeView.jsx:41-56 | drags keep the index within 0..length-1 |
| SwipeView.SwipeTarget | src/components/organisms/MobileSwipeView.jsx:67-81 | "left" goes back, any other direction forward |
| SwipeView.ControlsFor | src/components/organisms/MobileSwipeView.jsx:214-228 | the counter reads index+1 / length and the buttons are disabled exactly at the ends |
| SwipeView.ButtonsMatchMoves | src/components/organisms/MobileSwipeView.jsx:214-228 | a button is enabled exactly when its move changes the index |
| SwipeView.ShowsEmptyState | src/components/organisms/MobileSwipeView.jsx:20-106 | with the index in range, the empty state shows exactly for an empty list |
| SwipeView.Guard | src/components/organisms/MobileSwipeView.jsx:24 | the distance is computed only when every coordinate is non-zero |
| SwipeView.DistanceEndpoints | src/components/organisms/MobileSwipeView.jsx:109-123 | lat is coordinates[1] and lng coordinates[0] of an object location. When those give no distance, or the location is not an object, the latitude and longitude fields are used. No viewer position, or any zero coordinate, means no distance |
| SwipeView.ZeroCoordinateHidesDistance | src/components/organisms/MobileSwipeView.jsx:24-123 | a zero coordinate hides the distance |
| SwipeView.PlaceLabel | src/components/organisms/MobileSwipeView.jsx:176-179 | an object's non-empty address or a string location is shown as it is, and a missing location shows nothing. An object without an address falls through to the object, which cannot render (`None`), and only then |
| SwipeView.CardImage | src/components/organisms/MobileSwipeView.jsx:153 | the card image is profileImage, else images[0] |
| SwipeView.Swiper.constructor | src/components/organisms/MobileSwipeView.jsx:9-10 | the swiper starts at the first profile, centred |
| SwipeView.Swiper.DragEnd | src/components/organisms/MobileSwipeView.jsx:38-65 | the index becomes `DragTarget`, and the card exits left or right with the move |
| SwipeView.Swiper.Swipe | src/components/organisms/MobileSwipeView.jsx:67-81 | the index becomes `SwipeTarget`, and the card exits with the move |
| SwipeView.Swiper.Tap | src/components/organisms/MobileSwipeView.jsx:83-86 | a tap opens the shown profile |
| Signup.Form.constructor | src/pages/Signup.jsx:11-20 | the form starts empty with role "user" |
| Signup.Form.Edit | src/pages/Signup.jsx:11-16 | editing sets the text fields and role only |
| Signup.Form.UploadImage | src/pages/Signup.jsx:25-39 | the uploaded URL becomes the image; a failure keeps it |
| Signup.Form.GetLocation | src/pages/Signup.jsx:43-66 | a fix sets the location; otherwise it is kept |
| Signup.Form.BuildUserData | src/pages/Signup.jsx:72-89 | a companion without both image and location gets no data. Otherwise name, email, password and role are sent, and only companions add phone and image |
| Signup.Form.HandleSignup | src/pages/Signup.jsx:70-106 | an incomplete companion is stopped with loading reset, and nothing is sent. Otherwise the sent data has the form's name, e-mail, password and role, and a phone number and photo exactly for a companion, taken from the form. Success sets `success` without logging in. A failure resets loading and shows the message |
| ResetPassword.Rejection | src/pages/ResetPassword.jsx:32-40 | a mismatch is rejected before the length check, then passwords shorter than 6 |
| ResetPassword.Page.constructor | src/pages/ResetPassword.jsx:12-20 | the token is the `token` parameter of the page's query, which ends at the fragment; a `token` inside the fragment is not read |
| ResetPassword.Page.CheckToken | src/pages/ResetPassword.jsx:22-27 | a missing token redirects to /login with "Invalid reset link" |
| ResetPassword.Page.Edit | src/pages/ResetPassword.jsx:16-17 | editing sets both password fields only |
| ResetPassword.Page.HandleSubmit | src/pages/ResetPassword.jsx:29-53 | a rejected form sends nothing. Otherwise {token, newPassword} is sent; success sets `success`, and loading ends false |
| VerifyEmail.ButtonLabel | src/pages/VerifyEmail.jsx:50-57 | the button appears only after loading and reads "Go to Login" exactly on success |
| VerifyEmail.LinkTokenReachesServer | src/pages/VerifyEmail.jsx:15-22 | the token of a verification link `prefix?token=t`, with no '?' or '#' in `prefix`, is the one the request sends |
| VerifyEmail.Page.constructor | src/pages/VerifyEmail.jsx:12-13 | the status starts as loading |
| VerifyEmail.Page.Run | src/pages/VerifyEmail.jsx:15-34 | a missing token, including one written inside the fragment, fails with "Invalid verification link." and no call. Success gives success. A failure shows the server message or the expiry fallback |
| BoyfriendCard.ClickRoute | src/components/molecules/BoyfriendCard.jsx:13-19 | a click goes to /login when logged out, else to /boyfriends/{id} |
| BoyfriendCard.LockedGoesToLogin | src/components/molecules/BoyfriendCard.jsx:13-37 | the card shows the lock overlay (`Locked`) exactly when a click leads to /login |
| BoyfriendCard.CardImage | src/components/molecules/BoyfriendCard.jsx:28 | the image falls back profileImage, images[0], then the default URL |
| Domain.LocationOr | src/components/molecules/BoyfriendCard.jsx:56 | a string location is shown itself, else an object's non-empty address, else the fallback: "Unknown Location" on the card, and "Location Hidden" on the profile page (src/pages/BoyfriendProfile.jsx line 164) |
| BoyfriendCard.RatingShown | src/components/molecules/BoyfriendCard.jsx:62 | a missing or zero rating shows 4.5 |
| BoyfriendCard.ShownTraits | src/components/molecules/BoyfriendCard.jsx:72 | at most the first 3 traits show |
| UserAvatar.EncodeComponent | src/components/ui/user-avatar.jsx:12 | `encodeURIComponent` yields only unreserved characters and percent escapes |
| UserAvatar.EncodePlain | src/components/ui/user-avatar.jsx:12 | a name of unreserved characters is left as it is |
| UserAvatar.EncodedStaysInParam | src/components/ui/user-avatar.jsx:12 | the encoded name cannot end or split the seed parameter |
| UserAvatar.DisplayName | src/components/ui/user-avatar.jsx:7 | the name defaults to "User" |
| UserAvatar.Avatar | src/components/ui/user-avatar.jsx:5-17 | no user renders nothing. The image is profileImage, else the DiceBear URL seeded with the encoded name. The fallback is the name's first character, upper-cased |
| UserAvatar.NamelessAvatar | src/components/ui/user-avatar.jsx:7-17 | a user without name or photo shows the "User" DiceBear avatar with fallback "U" |
| ProfilePage.RoleRedirect | src/pages/Profile.jsx:22-26 | a companion is redirected to /boyfriends/me |
| ProfilePage.Settings.constructor | src/pages/Profile.jsx:29-34 | the fields start from the stored user |
| ProfilePage.Settings.Resync | src/pages/Profile.jsx:36-42 | name, email and image resync from the stored user |
| ProfilePage.Settings.StartEditing | src/pages/Profile.jsx:97-98 | editing starts |
| ProfilePage.Settings.EditName | src/pages/Profile.jsx:29 | the name field changes only |
| ProfilePage.Settings.UploadImage | src/pages/Profile.jsx:44-59 | the uploaded URL becomes the image |
| ProfilePage.Settings.RandomizeAvatar | src/pages/Profile.jsx:61-66 | the image becomes a seeded avatar URL |
| ProfilePage.Settings.SaveChanges | src/pages/Profile.jsx:68-85 | only name and image are sent, never the e-mail; success stores the response via `login` and leaves edit mode |
| ProfilePage.Settings.Cancel | src/pages/Profile.jsx:87-91 | cancel restores name and image from the stored user and leaves edit mode |
| Url.PresentParam | src/pages/MobileHandover.jsx:13-16 | a query parameter counts as present when the page's query (cut at the fragment) has it and it is non-empty |
| Url.PairValue | src/pages/MobileHandover.jsx:13 | a single `name=value` query reads back `value` for `name` |
| Url.FirstPair | src/pages/MobileHandover.jsx:13 | the first pair of a query answers for its own name |
| Url.SkipPair | src/pages/MobileHandover.jsx:13 | a name other than the first pair's is answered by the rest of the query |
| Url.LinkParam | src/pages/VerifyEmail.jsx:10-16 | a link `prefix?name=value`, with no '?' or '#' in `prefix`, carries `value` in its `name` parameter |
| Url.QueryInFragmentIgnored | src/pages/MobileHandover.jsx:13 | in `a#b`, with no '?' or '#' in `a`, the query is empty and no parameter is found, whatever the fragment `b` holds |

## Left out

- Face recognition (loading the models, fetching images, detecting faces, extracting descriptors, measuring distance) is a foreign library over floating point. The detection outcome and the distance are inputs; only the `distance < 0.6` rule is modelled.
- The Haversine formula in `MobileSwipeView.jsx` is trigonometric floating point. Only its null guard and the choice of coordinates are modelled.
- Transport is not modelled: the axios calls, the notification EventSource stream and the socket.io chat in `ChatContext.jsx`. Their results are handler parameters.
- Timers, debouncing, the IntersectionObserver and overlapping requests are timing and concurrency. Polling and scrolling are sequences of discrete events.
- React closure snapshots are modelled only for the directory reset, where they show as a finding.
- Browser and device APIs are parameters: webcam, QR rendering, geolocation, file pickers, localStorage, the window width, and `Math.random` (the avatar seed).
- Dates are integer millisecond timestamps; date-fns formatting and `Date` parsing are not modelled.
- Toasts, alerts, sounds and `console` output are not modelled, except the messages the handlers return.
- Presentational files without decision logic are not part of this model: Home, About, Privacy, Terms, Contact, Footer, Navbar, MainLayout, AuthLayout, Login, ForgotPassword, EmailVerificationPending, the route table of App.jsx and vite.config.js.
- `organisms/BookingModal.jsx` only simulates a request with a timer, so it is not part of this model.
- `AuthContext.jsx` is never mounted (the live session state is `authStore.js`), so it is not part of this model.
- `URLSearchParams` is modelled without percent-decoding or '+' as space. The round-trip lemmas only cover values free of '%', '+', '&' and '#'.
- `Number` of form text is evaluated only on blank input and decimal digit strings. Every other text is an opaque `Other` value.
- Case mapping is ASCII only. Lengths count characters, not UTF-16 code units.
- Real numbers are never rendered to text (`toFixed`), so the distance label is left out.
- The `getBoyfriends` query serialisation (`URLSearchParams.toString`) is not modelled. `BoyfriendList.Browser.Params` states the parameter map instead.
- ProfileForm.PayloadOf: the payload also spreads every form field (`...formData`); only the fields the server reads are kept.
- BookingList.ChatTarget: `boyfriend.user` is modelled only as a bare id, as the page's own comparison with `user._id` expects. A populated account object would make the source navigate to "/chats/[object Object]".
- ChatList.Sidebar.DebounceFired and Notifications.Provider.Connect carry out the corrected behaviour of the two findings below. The source's behaviour is stated by ChatList.ResetRequestAsWritten and Notifications.StreamUrlAsWritten, not by these methods.
- Signup.Form.UploadImage and ProfilePage.Settings.UploadImage receive the uploaded URL as text. The upload response's shape is modelled only in the profile editors.

## Findings

| source | as written | input that shows it | evidently intended | confidence | as-written member | corrected member |
|---|---|---|---|---|---|---|
| src/components/organisms/ChatList.jsx:72-76 | the debounced reset calls `fetchBoyfriends` from the render that scheduled it, so the fetch reads the old `page` and `hasMore`, not the reset values | a new search typed on page 3 after the last page was reached fetches nothing and leaves the directory empty; on page 3 with more pages it fetches page 3 of the new search into the emptied list | fetch page 1 of the new search | not executed | ChatList.ResetRequestAsWritten | ChatList.ResetRequest |
| src/context/NotificationContext.jsx:23 | the stream URL uses `VITE_BACKEND_URL` without the `http://localhost:3000` fallback the API client applies | with the variable unset, the stream goes to `undefined/api/notifications/stream` while requests go to `http://localhost:3000/api` | the same base URL as the API client | not executed | Notifications.StreamUrlAsWritten | Notifications.StreamUrl |
