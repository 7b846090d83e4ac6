# Guardians Club front end, modelled in Dafny

Guardians Club is a web application for children, guardians, teachers and
administrators. It offers activities, educational content (stories, quizzes,
videos), favourites, ratings with comments, admin replies, notifications and
an analytics dashboard, all on top of a hosted database with auth, storage and
realtime channels.

This project models the application logic of its TypeScript front end:

- the page filters and badges (Activities, Content, the moderation table, the
  user table);
- the form handlers, as classes whose fields are the React state and whose
  methods are the handlers (feedback form, admin reply form, favourite button,
  content upload, role change, the moderation drawer);
- the data helpers (sign-up, avatar upload, notifications, the realtime
  notification slot);
- the auth provider's state transitions;
- the analytics aggregations.

The hosted backend is one class, `Backend.Database`. It holds the tables the
front end touches. Each request method takes `accepted`, the outcome that the
service and the network decide. Inserts the tables' unique keys would refuse
are refused: a second favourite for the same (user, content) pair, a second
profile for an id, a second file under a storage path.

An async handler is modelled as two methods split at its `await`: `Begin…`
holds what happens before the request and `Finish…` what happens after it.
A third method runs the two in order. This way the state seen while a request
is outstanding (for example `loading`) can be stated.

Modules, one per file:

- `Wrappers`: `Option` (for `null`/`undefined`) and `Result` (a value, or the
  message of a thrown error).
- `Text`: JavaScript string operations: `toLowerCase`, `includes`, `trim`,
  `split(c)[0]`, `split(c).pop()`.
- `Seqs`: filtering and summing of sequences.
- `Schema`, `Palette`, `Backend`: row types, badge colours, the database.
- `Activities`, `ContentPage`, `ContentModeration`, `FeedbackForm`,
  `FeedbackList`, `FavoriteButton`, `UserTable`, `UploadContent`: the pages
  and components.
- `Notifications`, `SupabaseLib`, `AuthContext`, `AnalyticsService`,
  `AnalyticsPage`: the libraries, the context provider and the dashboard.

No profile is created on sign-in. `getProfile`
(project/src/lib/supabase.ts:83-92) only fetches, and the auth provider stores
a failed fetch as no profile (project/src/contexts/AuthContext.tsx:55-58). The
only profile insert is the one in `signUp`.

## Model

| member | source | states |
|---|---|---|
| Text.ToLower | project/src/pages/Activities.tsx:118-119 | `toLowerCase` keeps the length, folds each letter and leaves no upper-case letter |
| Text.ContainsIffOccurs | project/src/pages/Activities.tsx:118-119 | `includes` holds exactly when the needle occurs at some index of the text |
| Text.Trim | project/src/pages/UploadContent.tsx:27 | `trim` removes only whitespace, and only from the two ends; the rest has no whitespace at either end |
| Text.TrimEmptyIff | project/src/pages/UploadContent.tsx:27 | `!s.trim()` holds exactly when `s` is all whitespace |
| Text.TrimIdempotent | project/src/pages/UploadContent.tsx:39-41 | trimming a trimmed text changes nothing |
| Text.BeforeFirst | project/src/lib/supabase.ts:45 | `split('@')[0]` is a prefix without `@`, followed by `@` in the text when it is shorter than it |
| Text.AfterLast | project/src/lib/supabase.ts:107 | `split('.').pop()` is a suffix without `.`, preceded by `.` when it is shorter than the text |
| Text.AfterLastOfJoin | project/src/lib/supabase.ts:107-108 | the text after the last dot of `p + "." + e` is `e` when `e` has no dot |
| Seqs.Filter | project/src/pages/Activities.tsx:117-126 | `filter` keeps each element that satisfies the predicate as many times as it occurs, and no other element |
| Seqs.SumBySingle | project/src/pages/Analytics.tsx:216 | a `reduce` sum over one element is that element's term |
| Seqs.FilterIsSubsequence | project/src/pages/Content.tsx:47-51 | a filtered list keeps the original order |
| Seqs.FilterKeepsAll | project/src/pages/Content.tsx:47-51 | a predicate that every element satisfies keeps the whole list |
| Seqs.FilterCongruent | project/src/pages/Activities.tsx:117-126 | predicates that agree on every element filter alike |
| Seqs.SumByAppend | project/src/pages/Analytics.tsx:209-212 | a `reduce` sum over a concatenation is the sum of the two sums |
| Seqs.SumByAtLeast | project/src/lib/analyticsService.ts:140-142 | a sum of terms each at least `lo` is at least `lo` times the length |
| Seqs.SumByConstant | project/src/lib/analyticsService.ts:140-142 | a sum of equal terms is that term times the length |
| Schema.ContentTypeNameInjective | project/src/pages/Content.tsx:49 | the type names `story`, `quiz` and `video` are distinct |
| Activities.FilteredActivities | project/src/pages/Activities.tsx:117-126 | `filteredActivities` holds each activity matching the search and the three filters as often as the catalogue does, and nothing else |
| Activities.FilteredMembership | project/src/pages/Activities.tsx:117-126 | an activity is shown exactly when it matches the search in title or description and the age, difficulty and category filters |
| Activities.FilteredIsSubsequence | project/src/pages/Activities.tsx:117 | the shown activities keep the catalogue's order |
| Activities.FilteredAgreeWithFilters | project/src/pages/Activities.tsx:121-123 | every shown activity has the selected age range, difficulty and category, unless `all` is selected |
| Activities.NoFilterKeepsAll | project/src/pages/Activities.tsx:16-20 | the initial filters and an empty query show the whole catalogue |
| Activities.SearchIgnoresCase | project/src/pages/Activities.tsx:118-119 | queries that differ only in case show the same activities |
| Activities.LowerCaseQuery | project/src/pages/Activities.tsx:118-119 | lower-casing the query first changes nothing |
| Activities.FilterTwice | project/src/pages/Activities.tsx:117-126 | filtering the shown activities again shows them unchanged |
| Activities.DifficultyTone | project/src/pages/Activities.tsx:89-99 | easy is green, medium yellow, hard red, and anything else gray |
| Activities.DifficultyColor | project/src/pages/Activities.tsx:89-99 | `getDifficultyColor` gives the green, yellow, red and default gray badge classes for easy, medium, hard and anything else |
| ContentPage.FilteredContent | project/src/pages/Content.tsx:47-51 | `filteredContent` holds each item matching the title search and the type filter as often as the library does, and nothing else |
| ContentPage.FilteredMembership | project/src/pages/Content.tsx:47-51 | an item is shown exactly when its title contains the query, ignoring case, and its type is the selected one or `all` is selected |
| ContentPage.FilteredIsSubsequence | project/src/pages/Content.tsx:47 | the shown items keep the library's order |
| ContentPage.FilteredHaveType | project/src/pages/Content.tsx:49 | with a type selected, every shown item has that type |
| ContentPage.AllTypesSearchOnly | project/src/pages/Content.tsx:49 | with `all` selected, only the search decides |
| ContentPage.EmptyQueryKeepsAll | project/src/pages/Content.tsx:47-51 | no query and `all` show the whole library |
| ContentPage.SearchIgnoresCase | project/src/pages/Content.tsx:48 | queries that differ only in case show the same items |
| ContentPage.EmptyMessage | project/src/pages/Content.tsx:140-142 | the "no match" text appears exactly when a query or a type filter is set, and "no content" otherwise |
| ContentPage.ListArea | project/src/pages/Content.tsx:131-160 | spinner while loading, then the error message itself, then the empty notice or the grid of exactly the filtered items |
| ContentModeration.RatingTone | project/src/components/ContentModeration.tsx:82-87 | gray exactly for no rating or 0, green from 4, yellow from 3 to below 4, red for the rest |
| ContentModeration.RatingColor | project/src/components/ContentModeration.tsx:82-87 | `getRatingColor` is `text-gray-400` exactly for no rating or 0, `text-green-500` from 4, `text-yellow-500` from 3 to below 4, `text-red-500` for the rest |
| ContentModeration.RatingLabel | project/src/components/ContentModeration.tsx:142 | "No ratings" exactly for no rating or 0, otherwise the average itself |
| ContentModeration.GrayIffNoRatings | project/src/components/ContentModeration.tsx:141-142 | the cell is gray exactly when it reads "No ratings" |
| ContentModeration.StarRow | project/src/components/ContentModeration.tsx:184-188 | star `i` is lit exactly when `i` is below the rating |
| ContentModeration.StarRowCount | project/src/components/ContentModeration.tsx:184-188 | a row of `n` stars lights the rating clamped to `0..n` |
| ContentModeration.StarsCount | project/src/components/ContentModeration.tsx:184 | a rating from 0 to 5 lights exactly that many of the five stars |
| ContentModeration.ModerationPanel.constructor | project/src/components/ContentModeration.tsx:19-21 | nothing is selected, no feedback is shown, nothing is loading |
| ContentModeration.ModerationPanel.Choose | project/src/components/ContentModeration.tsx:46-54 | choosing the open item closes it and fetches nothing; another item becomes the selection, with loading set, before the request |
| ContentModeration.ModerationPanel.Receive | project/src/components/ContentModeration.tsx:71-79 | a reply replaces the feedback shown; a failure keeps it and sets the error; loading always ends |
| ContentModeration.ModerationPanel.LoadFeedbackForContent | project/src/components/ContentModeration.tsx:46-80 | the whole handler: the toggle-off path changes only the selection; otherwise selection, feedback, error and loading as above |
| ContentModeration.ModerationPanel.Close | project/src/components/ContentModeration.tsx:165 | the close button clears the selection |
| FeedbackForm.StoredComment | FeedbackForm.tsx:43 | the stored comment is null exactly when only whitespace was typed, and otherwise the trimmed text |
| FeedbackForm.Payload | FeedbackForm.tsx:37-47 | the upsert is keyed by the user and the item, carries the chosen rating and the time, and stores a blank comment as null and any other comment trimmed |
| FeedbackForm.UpsertTwice | FeedbackForm.tsx:39-47 | a second upsert on the same (user, content) pair replaces the first, and other pairs keep their rows |
| FeedbackForm.FeedbackForm.constructor | FeedbackForm.tsx:13-18 | rating 0, empty comment, no error, not loading, no success |
| FeedbackForm.FeedbackForm.SelectRating | FeedbackForm.tsx:90 | a star click sets the rating |
| FeedbackForm.FeedbackForm.BeginSubmit | FeedbackForm.tsx:20-34 | no user gives the login message, rating 0 the rating message, and nothing is sent; otherwise it sets loading, clears the error and returns the upsert for the pair |
| FeedbackForm.FeedbackForm.FinishSubmit | FeedbackForm.tsx:36-65 | an accepted upsert writes the row, sets success, clears the comment and calls `onSubmit`; a refused one sets the failure message; loading ends |
| FeedbackForm.FeedbackForm.HandleSubmit | FeedbackForm.tsx:20-66 | the whole handler: each guard sets only its error and writes nothing; the upsert's success clears the comment and calls `onSubmit` once; its failure sets the error and leaves `success`, the comment and `onSubmit` alone |
| FeedbackForm.FeedbackForm.SuccessTimeout | FeedbackForm.tsx:56-58 | the timer hides the success message |
| FeedbackForm.SubmitTwice | FeedbackForm.tsx:36-47 | two accepted submissions from one form leave the pair with the second submission's row only, all other pairs unchanged |
| FeedbackForm.GreatIsStoredAsTyped | FeedbackForm.tsx:39-44 | rating 4 with "Great!" sends that comment as typed |
| FeedbackForm.EmptyIsStoredAsNull | FeedbackForm.tsx:43 | an empty comment is sent as null |
| FeedbackList.IsAdmin | project/src/components/FeedbackList.tsx:42 | only a loaded profile can be an admin's, and never a child's, guardian's or teacher's |
| FeedbackList.MaySubmit | project/src/components/FeedbackList.tsx:118-120 | the guard lets a reply through only for a loaded admin profile |
| FeedbackList.MaySubmitIff | project/src/components/FeedbackList.tsx:118-120 | a reply is sent exactly when it is not all whitespace and the profile is an admin's |
| FeedbackList.ResponseRow | project/src/components/FeedbackList.tsx:127-131 | the reply row names the feedback, the admin's id and the trimmed text |
| FeedbackList.ResponseComposer.constructor | project/src/components/FeedbackList.tsx:38-40 | no draft, no open form, not submitting |
| FeedbackList.ResponseComposer.StartResponding | project/src/components/FeedbackList.tsx:259 | the button opens the form for that feedback |
| FeedbackList.ResponseComposer.Cancel | project/src/components/FeedbackList.tsx:240-243 | cancel closes the form and drops the draft |
| FeedbackList.ResponseComposer.BeginSubmitResponse | project/src/components/FeedbackList.tsx:117-122 | the guard fails without any change; otherwise submitting is set and the row is returned |
| FeedbackList.ResponseComposer.FinishSubmitResponse | project/src/components/FeedbackList.tsx:124-143 | an accepted insert clears the draft, closes the form and reloads; a refused one keeps the draft and sets the error; submitting ends |
| FeedbackList.ResponseComposer.HandleSubmitResponse | project/src/components/FeedbackList.tsx:117-144 | the whole handler: the guard changes nothing; success clears the draft, closes the form and reloads once, keeping the error; failure sets the error and keeps the draft, the open form and the reload count |
| FavoriteButton.Toggled | FavoriteButton.tsx:21-54 | a refused request changes neither flag nor table; a write flips the flag to what the table now holds for the pair; no other pair changes |
| FavoriteButton.ToggleKeepsSync | FavoriteButton.tsx:21-54 | a button that shows what the table holds still does so after a toggle, whatever the outcome |
| FavoriteButton.ToggleOutcome | FavoriteButton.tsx:26-47 | a toggle writes exactly when accepted (and, for an insert, when the pair is new); only then does the flag flip; other pairs never change |
| FavoriteButton.ToggleTwiceRestores | FavoriteButton.tsx:21-54 | two accepted toggles restore the flag and the table |
| FavoriteButton.StaleButtonStuck | FavoriteButton.tsx:37-44 | a button showing "not favourited" for a stored pair never writes, because the pair's unique key refuses the insert |
| FavoriteButton.FavoriteButton.constructor | FavoriteButton.tsx:12-19 | the flag starts as `initialIsFavorited` (false by default), not loading |
| FavoriteButton.FavoriteButton.ToggleFavorite | FavoriteButton.tsx:21-54 | no user changes nothing; otherwise the flag and the table are as the toggle specification says, `onToggle` gets the new flag on success, loading ends |
| UserTable.WithUserType | project/src/components/UserTable.tsx:53-55 | the local list keeps its length and order; the matching entries take the new role and nothing else changes |
| UserTable.WithUserTypeAbsent | project/src/components/UserTable.tsx:53-55 | an id not in the list leaves the list unchanged |
| UserTable.WithUserTypeOnlyTouchesMatch | project/src/components/UserTable.tsx:54 | other entries are kept whole; matching ones change only their role |
| UserTable.WithUserTypeIdempotent | project/src/components/UserTable.tsx:53-55 | applying the same change twice is applying it once |
| UserTable.RoleTone | project/src/components/UserTable.tsx:138-146 | admin purple, teacher green, guardian blue, child gray |
| UserTable.RoleBadgeClasses | project/src/components/UserTable.tsx:138-146 | the role badge's classes are purple for admin, green for teacher, blue for guardian and gray for child |
| Palette.BadgeClasses | project/src/pages/Activities.tsx:89-99 | the gray badge, which every badge switch falls back to, belongs to the gray tone alone |
| UserTable.UserTable.constructor | project/src/components/UserTable.tsx:15-18 | no users, nobody being edited, no error |
| UserTable.UserTable.StartEditing | project/src/components/UserTable.tsx:164 | the edit button opens the editor for that user |
| UserTable.UserTable.CancelEditing | project/src/components/UserTable.tsx:157 | cancel closes the editor |
| UserTable.UserTable.UpdateUserType | project/src/components/UserTable.tsx:44-61 | an accepted update changes the stored role and the local list and closes the editor; a refused one sets the error and changes nothing else |
| UploadContent.MayUpload | project/src/pages/UploadContent.tsx:19 | children and guardians are exactly the roles that may not upload |
| UploadContent.Redirects | project/src/pages/UploadContent.tsx:18-22 | the page navigates home exactly for a loaded child's or guardian's profile |
| UploadContent.RendersForm | project/src/pages/UploadContent.tsx:63-65 | the form needs a signed-in user, and a signed-in user whose profile is still loading sees it |
| UploadContent.GateConsistent | project/src/pages/UploadContent.tsx:18-65 | the form renders exactly for a signed-in user without a child's or guardian's profile; it never renders while the page redirects, and a loaded profile is then a teacher's or an admin's |
| UploadContent.Filled | project/src/pages/UploadContent.tsx:27 | the blank-field guard passes only for two non-empty fields |
| UploadContent.FilledIff | project/src/pages/UploadContent.tsx:27 | the blank-field guard passes exactly when neither title nor url is all whitespace |
| UploadContent.ContentRow | project/src/pages/UploadContent.tsx:38-42 | the inserted row holds the trimmed title and url and the selected type |
| UploadContent.UploadForm.constructor | project/src/pages/UploadContent.tsx:10-15 | empty fields, type story, not loading, no error, no success |
| UploadContent.UploadForm.BeginSubmit | project/src/pages/UploadContent.tsx:27-33 | a blank title or url gives the required-fields message and sends nothing; otherwise it sets loading, clears the error and returns the row |
| UploadContent.UploadForm.FinishSubmit | project/src/pages/UploadContent.tsx:36-60 | an accepted insert sets success and clears title and url but keeps the type; a refused one sets the failure message; loading ends |
| UploadContent.UploadForm.HandleSubmit | project/src/pages/UploadContent.tsx:24-61 | the whole handler: the guard sets only its error; success clears title and url; failure sets the error and keeps title, url and `success`; the type is always kept |
| UploadContent.UploadForm.SuccessTimeout | project/src/pages/UploadContent.tsx:51-53 | the timer hides the success message |
| Notifications.BroadcastRows | project/src/lib/notifications.ts:18-23 | one draft per user id, in the same order, each with the given title and message and type info |
| Notifications.BroadcastStoresOnePerUser | project/src/lib/notifications.ts:17-30 | the stored rows are one per user id, in order, with consecutive ids, type info and unread |
| Notifications.MarkAllClearsUnread | project/src/lib/notifications.ts:41-49 | after marking all read, the user has no unread notification |
| Notifications.MarkAllTouchesOnlyUser | project/src/lib/notifications.ts:41-49 | every row of the user becomes read, changing nothing else; other users' rows are unchanged |
| Notifications.MarkOneTouchesOnlyId | project/src/lib/notifications.ts:32-39 | the row with that id becomes read and no other row changes |
| Notifications.MarkReadIdempotent | project/src/lib/notifications.ts:32-49 | marking the same rows read twice is marking them once |
| Notifications.CreateNotification | project/src/lib/notifications.ts:9-15 | an accepted insert appends one unread row under the next id and advances the counter by one; a refused one throws and changes neither; fresh, unique ids stay so |
| Notifications.BroadcastNotification | project/src/lib/notifications.ts:17-30 | one insert stores all the broadcast rows and advances the counter by their number, or changes nothing when refused; fresh, unique ids stay so |
| Notifications.MarkAsRead | project/src/lib/notifications.ts:32-39 | the update marks the row with that id, or nothing when refused, keeping ids fresh and unique; `markNotificationAsRead` (project/src/lib/supabase.ts:142-149) sends the same request |
| Notifications.MarkAllAsRead | project/src/lib/notifications.ts:41-49 | the update marks the user's unread rows, after which none is unread; ids stay fresh and unique |
| Notifications.NotificationHub.constructor | project/src/lib/notifications.ts:7 | the slot starts empty and no channel is open |
| Notifications.NotificationHub.Delivered | project/src/lib/notifications.ts:58-68 | the callback runs exactly for an INSERT into notifications for the subscribed user on an open channel, and gets the new row |
| Notifications.NotificationHub.Subscribe | project/src/lib/notifications.ts:51-70 | the old channel is closed before the new one opens, so only the new channel is open and only its user's inserts are delivered |
| Notifications.NotificationHub.Cleanup | project/src/lib/notifications.ts:72-77 | the channel in the slot is closed and the slot cleared; with an empty slot nothing changes; afterwards nothing is delivered |
| Notifications.StaleCleanupClosesNewer | project/src/lib/notifications.ts:72-76 | the cleanup of an older subscription, run after a newer one, leaves no open channel, the newer one included |
| SupabaseLib.DefaultProfile | project/src/lib/supabase.ts:41-47 | id and email are the new user's, the name is the typed email up to its first `@` (all of it without one), the role is child |
| SupabaseLib.DefaultNameIsLocalPart | project/src/lib/supabase.ts:45 | the name of `local@domain` is `local` |
| SupabaseLib.SignUp | project/src/lib/supabase.ts:27-53 | an auth error is thrown before any write; no user inserts nothing; otherwise the default profile is inserted, or the refusal is thrown |
| SupabaseLib.AvatarExtension | project/src/lib/supabase.ts:107 | the extension is the dot-free suffix that follows the last dot, or the whole name without a dot |
| SupabaseLib.AvatarPath | project/src/lib/supabase.ts:108-109 | the path is `avatars/<user>-<random>.` followed by exactly the extension, and its own last-dot suffix is that extension |
| SupabaseLib.AvatarKeepsExtension | project/src/lib/supabase.ts:107-109 | the stored file has the uploaded file's extension |
| SupabaseLib.UpdateAvatar | project/src/lib/supabase.ts:106-129 | a refused upload throws and changes nothing; otherwise the profile's avatar address is the public address of the same path, which is returned; a refused update throws and leaves the profile |
| AuthContext.AfterAuthEvent | project/src/contexts/AuthContext.tsx:46-64 | after an auth event the user is the session's, the profile is the fetched one only when there is a session and the fetch worked, and loading is over |
| AuthContext.AuthEventConsistent | project/src/contexts/AuthContext.tsx:48-62 | an auth event never leaves a profile without its user |
| AuthContext.AfterInitialSession | project/src/contexts/AuthContext.tsx:26-40 | the initial session sets the user, replaces the profile only on a successful fetch, and never touches loading |
| AuthContext.LateInitialSessionKeepsProfile | project/src/contexts/AuthContext.tsx:26-64 | an empty initial session arriving after a sign-in event leaves a profile without a user |
| AuthContext.AuthProvider.constructor | project/src/contexts/AuthContext.tsx:18-20 | no user, no profile, loading |
| AuthContext.AuthProvider.Mount | project/src/contexts/AuthContext.tsx:44-46 | mounting registers the auth listener |
| AuthContext.AuthProvider.HandleInitialSession | project/src/contexts/AuthContext.tsx:26-40 | the state becomes the initial-session transition of the fetched profile |
| AuthContext.AuthProvider.HandleAuthChange | project/src/contexts/AuthContext.tsx:46-64 | the state becomes the auth-event transition of the fetched profile, which is consistent |
| AuthContext.AuthProvider.Teardown | project/src/contexts/AuthContext.tsx:66-69 | the cleanup unsubscribes the listener |
| AnalyticsService.Weight | project/src/lib/analyticsService.ts:141 | a missing or zero weight counts as 1, any other weight as itself |
| AnalyticsService.EngagementScore | project/src/lib/analyticsService.ts:140-142 | no activity scores 0; with EngagementScoreSingle and EngagementScoreAdditive the score is the sum of the weights |
| AnalyticsService.EngagementScoreSingle | project/src/lib/analyticsService.ts:140-142 | one activity scores its own weight |
| AnalyticsService.EngagementScoreAdditive | project/src/lib/analyticsService.ts:140-142 | the score of two lists of activities is the sum of their scores |
| AnalyticsService.UnweightedScoreIsCount | project/src/lib/analyticsService.ts:140-142 | activities without weights score one point each |
| AnalyticsService.PositiveWeightsScoreAtLeastCount | project/src/lib/analyticsService.ts:140-142 | positive weights score at least one point per activity |
| AnalyticsService.EngagementLevelOf | project/src/lib/analyticsService.ts:139-147 | high exactly above 100, medium exactly above 50 up to 100, low otherwise |
| AnalyticsService.LevelMonotone | project/src/lib/analyticsService.ts:139-147 | more activities with positive weights never lower the score or the level |
| AnalyticsService.AbsentGroupTotal | project/src/lib/analyticsService.ts:170-175 | a group that does not occur sums to zero |
| AnalyticsService.GroupTotalSnoc | project/src/lib/analyticsService.ts:172 | one more record adds its count to its own group only |
| AnalyticsService.AggregateDemographics | project/src/lib/analyticsService.ts:170-175 | the keys are exactly the groups present, each mapped to the sum of its counts; no data gives `{}` |
| AnalyticsService.ActiveUsers | project/src/lib/analyticsService.ts:199-202 | 0 without data or rows; with ActiveUsersSingle and ActiveUsersAdditive, otherwise the sum of the active users |
| AnalyticsService.ActiveUsersAdditive | project/src/lib/analyticsService.ts:199-202 | the figure over two lists of rows is the sum of their figures |
| AnalyticsService.ActiveUsersSingle | project/src/lib/analyticsService.ts:199-202 | one row counts its own active users |
| AnalyticsService.ActiveUsersIgnoresRange | project/src/lib/analyticsService.ts:103-106 | the daily, weekly and monthly figures are equal |
| AnalyticsService.AverageSessionDuration | project/src/lib/analyticsService.ts:204-208 | 0 without data or rows, otherwise the mean duration |
| AnalyticsService.ViewsOf | project/src/lib/analyticsService.ts:166 | `metricsData.views` is the row's views, and undefined on a list of rows |
| AnalyticsService.ConversionRate | project/src/lib/analyticsService.ts:165-168 | 0 without data or views, otherwise conversions per hundred views |
| AnalyticsService.PerformanceAsWritten | project/src/lib/analyticsService.ts:68-87 | `getContentInsights` as written: with no metrics at all, 0 views and a rate of 0 |
| AnalyticsService.AsWrittenPerformanceIsZero | project/src/lib/analyticsService.ts:68-87 | as written, a content item's views and conversion are 0 whatever its metrics |
| AnalyticsService.AsWrittenLosesMetrics | project/src/lib/analyticsService.ts:68-87 | 200 views and 10 conversions report as 0 and 0 |
| AnalyticsService.ContentPerformance | project/src/lib/analyticsService.ts:85-87 | with the single metrics row, the views are the row's (0 when missing), and the conversion is 0 without views and otherwise conversions per hundred views |
| AnalyticsService.CorrectedKeepsMetrics | project/src/lib/analyticsService.ts:85-87 | 200 views and 10 conversions report as 200 and 5 |
| AnalyticsPage.TotalUsers | project/src/pages/Analytics.tsx:209-212 | 0 when undefined |
| AnalyticsPage.TotalUsersAdditive | project/src/pages/Analytics.tsx:211 | the total of two lists is the sum of the totals, and no group counts 0 |
| AnalyticsPage.TotalUsersSingle | project/src/pages/Analytics.tsx:211 | one group counts exactly its own members |
| AnalyticsPage.TotalViews | project/src/pages/Analytics.tsx:220-223 | 0 when undefined or empty |
| AnalyticsPage.TotalViewsSingle | project/src/pages/Analytics.tsx:222 | one category counts its own views; with additivity the total is the sum of the views |
| AnalyticsPage.TotalViewsAdditive | project/src/pages/Analytics.tsx:222 | the total of two lists is the sum of the totals |
| AnalyticsPage.TotalViewsNonNegative | project/src/pages/Analytics.tsx:220-223 | non-negative views give a non-negative total |
| AnalyticsPage.RoundDiv | project/src/pages/Analytics.tsx:217-229 | `Math.round(num / den)`, as the average and the growth rate use it, is within one half of the quotient, halves going up, for a denominator of either sign |
| AnalyticsPage.RoundDivUnique | project/src/pages/Analytics.tsx:229 | that bound has exactly one solution |
| AnalyticsPage.RoundDivExact | project/src/pages/Analytics.tsx:217 | an exact quotient rounds to itself |
| AnalyticsPage.InteractionsTotal | project/src/pages/Analytics.tsx:216 | no engagement points total 0; with InteractionsTotalSingle and InteractionsTotalAdditive the total is the sum of the interactions |
| AnalyticsPage.InteractionsTotalAdditive | project/src/pages/Analytics.tsx:216 | the total over two lists of points is the sum of their totals |
| AnalyticsPage.InteractionsTotalSingle | project/src/pages/Analytics.tsx:216 | one point totals its own interactions |
| AnalyticsPage.AverageEngagement | project/src/pages/Analytics.tsx:214-218 | 0 when undefined or empty, otherwise the mean of the interactions, rounded |
| AnalyticsPage.AverageOfConstant | project/src/pages/Analytics.tsx:214-218 | points with equal interactions average to that value |
| AnalyticsPage.GrowthRate | project/src/pages/Analytics.tsx:225-230 | 0 with fewer than two points; not finite when the first value is 0; otherwise the change from first to last as a rounded percentage of the first |
| AnalyticsPage.GrowthRateEndsOnly | project/src/pages/Analytics.tsx:227-229 | only the first and last points matter |
| AnalyticsPage.FlatGrowthIsZero | project/src/pages/Analytics.tsx:225-230 | no change from first to last is 0% |
| Backend.MarkRead | project/src/lib/notifications.ts:32-49 | the table keeps its length; exactly the rows the filter selects (one id, or a user's unread rows) become read |
| Backend.Stored | project/src/lib/notifications.ts:25-27 | the inserted rows get consecutive ids and start unread |
| Backend.StoredKeepsIdsBelow | project/src/lib/notifications.ts:25-27 | a batch stored from the counter keeps ids unique and below the advanced counter |
| Backend.MarkReadKeepsIdsBelow | project/src/lib/notifications.ts:42-46 | marking rows read changes no id |
| Backend.Database.constructor | project/src/lib/supabase.ts:15 | every table starts empty and the notification counter at 0, so ids are fresh |
| Backend.Database.FetchProfile | project/src/lib/supabase.ts:83-92 | `.single()` gives the row for the id, and fails when there is none |
| Backend.Database.InsertProfile | project/src/lib/supabase.ts:40-49 | the insert is refused for an id that already has a profile |
| Backend.Database.UpdateUserType | project/src/components/UserTable.tsx:46-49 | the update changes the role of the row with that id; no such row is not an error |
| Backend.Database.UpdateAvatarUrl | project/src/lib/supabase.ts:121-124 | the update sets the avatar address of the row with that id |
| Backend.Database.InsertContent | project/src/pages/UploadContent.tsx:36-42 | the row is appended |
| Backend.Database.InsertFavorite | FavoriteButton.tsx:37-42 | the insert is refused for a stored (user, content) pair |
| Backend.Database.DeleteFavorite | FavoriteButton.tsx:28-32 | the pair is removed |
| Backend.Database.UpsertFeedback | FeedbackForm.tsx:37-47 | the row for the pair is created or replaced |
| Backend.Database.InsertResponse | project/src/components/FeedbackList.tsx:125-131 | the reply is appended |
| Backend.Database.InsertNotifications | project/src/lib/notifications.ts:25-27 | the rows are appended under consecutive ids from the counter, which advances past them; when every stored id is below the counter and unique, that stays so |
| Backend.Database.SetRead | project/src/lib/notifications.ts:42-46 | exactly the rows the filter selects become read, and fresh, unique ids stay so |
| Backend.Database.Upload | project/src/lib/supabase.ts:111-113 | the upload is refused for a path that is already stored |
| Backend.Database.PublicUrl | project/src/lib/supabase.ts:117-119 | the public address is exactly the bucket prefix followed by the path |

## Left out

- JSX markup, styling, icons and routing: presentation only. The badge and
  colour class strings are modelled with their tones, and routing as the gate
  predicates.
- The backend client library: the query builders, auth, storage and realtime
  APIs. Only their effects on the tables are modelled, with `accepted` as the
  outcome the service decides. Notification ids are natural numbers, where the
  database uses UUID strings. `created_at` ordering and timestamps are
  parameters.
- The list loaders: `loadContent` in project/src/pages/Content.tsx:20-41 and
  project/src/components/ContentModeration.tsx:27-44, `loadUsers` in
  project/src/components/UserTable.tsx:24-42, and `loadFeedback` in
  project/src/components/FeedbackList.tsx:86-115. Each one sets a list or an
  error around a select. The reload that a reply
  triggers is a counter in `FeedbackList.ResponseComposer`.
- The realtime reload subscriptions in project/src/components/FeedbackList.tsx:47-83,
  and the interleaving of concurrent handlers. Each handler runs to completion
  in the model.
- The hover state of the rating stars and Content.tsx's selected-item modal:
  these are presentation state.
- `signIn`, `signOut`, `resetPassword`, `updatePassword`, `updateProfile` and
  `getNotifications` in project/src/lib/supabase.ts: each passes one call to
  the auth or query API and throws its error. `getProfile` is
  `Backend.Database.FetchProfile`.
- Text.ToLower: folds ASCII letters only; JavaScript's full Unicode case
  mapping is not modelled.
- `Math.random()` in avatar names: a string parameter. The date ranges of the
  analytics queries are not modelled either: they depend on the clock.
- The OpenAI calls of the analytics service, `getUserInsights`, and the
  recommendation queries: foreign services.
- Floating point: ratios are exact reals and rounding is exact integer
  arithmetic, so a float rounding error at a tie is not reproduced. The
  engagement score of a content item (`/ 10`), the bounce and retention rates
  (with their NaN on zero totals) and `toFixed` displays are not modelled.
- AnalyticsPage.GrowthRate: a first value of 0 is reported as `NonFinite`
  without telling `Infinity` from `NaN`.
- AnalyticsService.EngagementLevelOf: `userData` is assumed present; the
  source calls `reduce` on it without a null guard, and null would throw.
- AnalyticsService.AggregateDemographics: the accumulator is modelled as a
  plain map, not as a JavaScript object with a prototype. In the source, a
  group named after an inherited `Object.prototype` member (`constructor`,
  `toString`, `valueOf`, ...) starts from that truthy member, so its value
  becomes a string such as `"function Object() { [native code] }5"`. A group
  named `__proto__` creates no entry at all. The model maps each such group
  to its count like any other.

## Findings

| source | as written | input that shows it | evidently intended | confidence | as-written member | corrected member |
|---|---|---|---|---|---|---|
| project/src/lib/analyticsService.ts:68-87 | the `content_metrics` query has no `.single()`, so a list of rows reaches `metricsData?.views` and `calculateConversionRate`, both of which read `.views` from the list | one metrics row with 200 views and 10 conversions: views 0, conversion 0 | the item's own row is read: views 200, conversion 5 | high, not executed | AnalyticsService.AsWrittenPerformanceIsZero | AnalyticsService.ContentPerformance |
