# padelhub in Dafny

padelhub is a padel match-making application. It has a NestJS + TypeORM
backend and a React client. This project models the logic of both halves
and proves what that logic promises.

**Backend.** Each database table is a sequence of rows held in a service
class. Each `find`, `save` and `remove` is a method with a `modifies`
clause. Its `ensures` ties the new table to a function of the old one.
The services modelled are:

- the match roster (one roster entry per match and user);
- the match chat log (cursor pagination, author-only delete);
- the push-notification dispatcher (subscription registry, fan-out
  delivery, the "starting soon" sweep and its log);
- users and Google sign-in (the find-or-create-or-link flow, the
  first/last name split, the `token_<id>_<ts>` tokens and the
  `Bearer ` header);
- the club registry;
- the Google image proxy (domain allow-list, error ladder, cache-aside
  lookup).

**Client.** The pure decisions are Dafny functions. The state that React
and `localStorage` hold becomes classes. The modelled client logic is:

- the match-status buckets;
- the lobby filter, sort and "full" flag;
- the auth context with its persisted user;
- the route guard;
- the Google sign-in hook;
- the push-notification client (base64url key decoding, key cache,
  subscribe guards);
- the match-creation form;
- the registration-completion form.

**Outside calls are parameters.** Each appears as a function or a value
passed in:

- Google's token verification;
- `webpush.sendNotification`, whose outcome is delivered, rejected with a
  status, or rejected without one;
- `fetch`, `new URL(...).hostname`, `encodeURIComponent` and `atob`;
- `toISOString` and `toLocaleTimeString`;
- the backend calls made by the client.

Fresh ids (the database's uuid default) and the clock are parameters too.
Times are integers in epoch milliseconds.

**Integrity rules become errors.** Where a database constraint decides
the outcome, the model returns an error instead of assuming the rule is
never broken:

- a unique column (user email, Google id) gives `UniqueViolation`;
- a foreign key with `ON DELETE NO ACTION` (a rostered match, a user on a
  roster, a club in use) gives `ForeignKeyViolation` on delete;
- an insert whose foreign key names no stored row (a match's club, a
  roster entry's user, a message's match or author) gives
  `ForeignKeyViolation`.

The stored ids such a check needs are a parameter of the operation.

The files:

- **Shared modules:**
  - `common.dfy`: Option, Result and the error kinds;
  - `tables.dfy`: sequences used as tables; filter, key lookup, remove;
  - `sorting.dfy`: a stable insertion sort by a comparator, and its lemmas;
  - `strings.dfy`: prefix and suffix tests, split and join, and `parseInt`.
- **One module per backend source file:**
  - `matches.dfy`, `match_messages.dfy`, `notifications.dfy`;
  - `users.dfy`, `auth_service.dfy`, `auth_controller.dfy`, `clubs.dfy`;
  - `image_proxy_service.dfy`, `image_proxy_controller.dfy`.
- **Client:**
  - `client_types.dfy`: the client's user and match types, the
    `{ ...prev, ...patch }` merge, and `parseInt` with NaN;
  - `client_image_proxy.dfy`, `match_page.dfy`, `lobby.dfy`;
  - `auth_context.dfy`, `protected_route.dfy`, `google_auth_hook.dfy`;
  - `push_client.dfy`, `create_match_form.dfy`, `complete_registration.dfy`.

Paths in the table are relative to the repository root.

## Model

| member | source | states |
|---|---|---|
| Matches.LookupMatch | padelhub-backend/src/matches/matches.service.ts:38-49 | NotFound exactly when no match has the id; otherwise the match with that id together with exactly its roster rows |
| Matches.ApplyUpdate | padelhub-backend/src/matches/matches.service.ts:55-57 | `Object.assign`: every provided field overwrites, every absent one is kept, the matchId never changes |
| Matches.EmptyUpdateIsIdentity | padelhub-backend/src/matches/matches.service.ts:56 | an update with no fields leaves the match as it was |
| Matches.UpdateIdempotent | padelhub-backend/src/matches/matches.service.ts:56 | applying the same update twice equals applying it once |
| Matches.AddEntryKeepsValid | padelhub-backend/src/matches/matches.service.ts:69-83 | a new entry for an existing match and a pair not yet rostered keeps ids unique, one entry per (match, user), and every entry pointing at a match |
| Matches.AddedEntryIsFound | padelhub-backend/src/matches/matches.service.ts:69-75 | once added, the (match, user) pair is found, so a second `addPlayer` conflicts |
| Matches.RemoveEntryKeepsValid | padelhub-backend/src/matches/matches.service.ts:96 | removing a roster row keeps the roster invariant |
| Matches.RemoveEntryShrinksRoster | padelhub-backend/src/matches/matches.service.ts:87-98 | removing an entry shortens its match's roster by exactly one and leaves no entry for the pair |
| Matches.SetTeamKeepsValid | padelhub-backend/src/matches/matches.service.ts:113-114 | changing an entry's team keeps the roster invariant |
| Matches.UpdateMatchKeepsValid | padelhub-backend/src/matches/matches.service.ts:56-57 | updating a match keeps every roster entry pointing at an existing match |
| Matches.RemoveMatchKeepsValid | padelhub-backend/src/matches/matches.service.ts:60-63 | removing a match with no roster rows keeps match ids unique and every roster entry pointing at an existing match |
| Matches.MatchesOfRows | padelhub-backend/src/matches/matches.service.ts:137-138 | `map(mp => mp.match)` yields only stored matches |
| Matches.MatchesOfRowsComplete | padelhub-backend/src/matches/matches.service.ts:137-138 | the match of every row whose match exists is among the mapped matches |
| Matches.MatchesOfRowsSound | padelhub-backend/src/matches/matches.service.ts:137-138 | every mapped match is referenced by some row |
| Matches.UserMatchesSound | padelhub-backend/src/matches/matches.service.ts:128-145 | every listed match exists and has the user on its roster |
| Matches.UserMatchesComplete | padelhub-backend/src/matches/matches.service.ts:128-145 | every stored match that rosters the user is listed |
| Matches.UserMatchesCorrect | padelhub-backend/src/matches/matches.service.ts:128-145 | the listing is exactly the user's matches, each once, by startDate descending |
| Matches.SameIdSameMatch | padelhub-backend/src/matches/matches.service.ts:139-141 | with unique ids, two stored matches with the same id are the same match, so de-duplicating by id loses nothing |
| Matches.MatchesService.Create | padelhub-backend/src/matches/matches.service.ts:26-29 | ForeignKeyViolation with no change when the club is not stored; otherwise appends one match with the given fields, status PENDING and isCourtScheduled false by default; the roster is unchanged |
| Matches.MatchesService.FindAll | padelhub-backend/src/matches/matches.service.ts:31-36 | a permutation of all matches, by startDate descending |
| Matches.MatchesService.FindOne | padelhub-backend/src/matches/matches.service.ts:38-49 | NotFound iff the id is absent; otherwise that match and exactly its roster |
| Matches.MatchesService.Update | padelhub-backend/src/matches/matches.service.ts:51-58 | NotFound with no change for an absent id; otherwise the merged match replaces the old one in place and is returned |
| Matches.MatchesService.Remove | padelhub-backend/src/matches/matches.service.ts:60-63 | NotFound for an absent id; a match with roster rows is refused by the foreign key; otherwise exactly that match is removed |
| Matches.MatchesService.AddPlayer | padelhub-backend/src/matches/matches.service.ts:65-85 | NotFound for a missing match, Conflict for a rostered pair, ForeignKeyViolation for a user not stored (all with no change); otherwise exactly one entry with the given team or UNASSIGNED is appended and the refreshed match is returned |
| Matches.MatchesService.RemovePlayer | padelhub-backend/src/matches/matches.service.ts:87-98 | NotFound with no change when the pair has no entry; otherwise exactly that entry is removed and the match is returned |
| Matches.MatchesService.UpdatePlayerTeam | padelhub-backend/src/matches/matches.service.ts:100-116 | NotFound with no change when the pair has no entry; otherwise only that entry's team changes |
| Matches.MatchesService.GetMatchPlayers | padelhub-backend/src/matches/matches.service.ts:118-126 | NotFound for a missing match; otherwise a permutation of exactly its roster, by joinedAt ascending |
| Matches.MatchesService.FindByUserId | padelhub-backend/src/matches/matches.service.ts:128-145 | each match that rosters the user, exactly once, by startDate descending |
| MatchMessages.CursorDate | padelhub-backend/src/match-messages/match-messages.service.ts:39-48 | a bound exists exactly when `before` is non-empty and names a stored message |
| MatchMessages.QualifyingMember | padelhub-backend/src/match-messages/match-messages.service.ts:31-48 | a qualifying row is a message of the match, older than the cursor when there is one |
| MatchMessages.PrefixOfSorted | padelhub-backend/src/match-messages/match-messages.service.ts:35-36 | the first `limit` rows of the ordered rows are sorted, come from the rows, and every row left out comes after every row kept; a limit of 0 takes all |
| MatchMessages.ReverseOfNewestFirst | padelhub-backend/src/match-messages/match-messages.service.ts:51-54 | reversing a newest-first page gives an oldest-first page |
| MatchMessages.NewestReversed | padelhub-backend/src/match-messages/match-messages.service.ts:35-54 | the reversed page holds `limit` qualifying rows, or all of them when there are fewer, in ascending createdAt, and no row left out is newer than a row kept |
| MatchMessages.NewestReversedMembers | padelhub-backend/src/match-messages/match-messages.service.ts:51-54 | reversing keeps a page's rows and its "nothing newer left out" property |
| MatchMessages.PageIsNewest | padelhub-backend/src/match-messages/match-messages.service.ts:26-55 | `findByMatchId` yields `limit` messages of the match, or all qualifying ones when there are fewer, oldest first, and they are the newest qualifying ones |
| MatchMessages.PageOlderThanCursor | padelhub-backend/src/match-messages/match-messages.service.ts:39-48 | with a resolvable cursor every returned message is strictly older than the cursor message |
| MatchMessages.UnresolvedCursorIgnored | padelhub-backend/src/match-messages/match-messages.service.ts:39-49 | a `before` id that names no message gives the page without a cursor |
| MatchMessages.RecentIsOldest | padelhub-backend/src/match-messages/match-messages.service.ts:57-71 | `findRecentMessages` yields `limit` messages of the match created before `after`, or all of them when there are fewer, in ascending order, and no message left out is older than one kept |
| MatchMessages.DeleteErrors | padelhub-backend/src/match-messages/match-messages.service.ts:73-85 | deletion fails, always with NotFound, exactly when the user is not the author of a stored message with that id |
| MatchMessages.DeleteRemovesOne | padelhub-backend/src/match-messages/match-messages.service.ts:87 | the author's deletion removes exactly that message and keeps the others in order |
| MatchMessages.ReverseInPlace | padelhub-backend/src/match-messages/match-messages.service.ts:54 | the in-place `reverse()` leaves the array holding the reverse of its old contents |
| MatchMessages.MatchMessagesService.Create | padelhub-backend/src/match-messages/match-messages.service.ts:14-24 | ForeignKeyViolation with no change when the match or the author is not stored; otherwise appends exactly the new message with the given match, author, text and time |
| MatchMessages.MatchMessagesService.FindByMatchId | padelhub-backend/src/match-messages/match-messages.service.ts:26-55 | the reversed page: at most `limit` messages, all of the match, ascending createdAt |
| MatchMessages.MatchMessagesService.FindRecentMessages | padelhub-backend/src/match-messages/match-messages.service.ts:57-71 | messages of the match created before `after`, ascending |
| MatchMessages.MatchMessagesService.Delete | padelhub-backend/src/match-messages/match-messages.service.ts:73-88 | NotFound with no change when missing or not the user's; otherwise that one message is removed |
| Notifications.BuildPayload | padelhub-backend/src/notifications/notifications.service.ts:125-132 | title, body and tag are copied; a non-empty icon or badge is kept and a missing or empty one falls back to the app icons |
| Notifications.UpsertCorrect | padelhub-backend/src/notifications/notifications.service.ts:54-78 | an existing (user, endpoint) row gets new keys and becomes active in place, with the new agent when one is given and its stored agent otherwise; otherwise one active row is added; the registry keeps one row per pair |
| Notifications.UnsubscribeCorrect | padelhub-backend/src/notifications/notifications.service.ts:84-90 | only `isActive` of the matching rows turns false, nothing is deleted, and a second unsubscribe changes nothing |
| Notifications.ActiveOfMember | padelhub-backend/src/notifications/notifications.service.ts:98-102 | every listed subscription is a stored active subscription of the user |
| Notifications.SentCount | padelhub-backend/src/notifications/notifications.service.ts:134-168 | the sent counter never exceeds the number of subscriptions tried |
| Notifications.GoneIdsIff | padelhub-backend/src/notifications/notifications.service.ts:157-164 | a subscription id is retired exactly when its delivery was rejected with status 410 |
| Notifications.DeactivateIds | padelhub-backend/src/notifications/notifications.service.ts:159-162 | the rows with the given ids become inactive; every other row is unchanged |
| Notifications.DeactivateIdsNone | padelhub-backend/src/notifications/notifications.service.ts:157-164 | retiring no id changes nothing |
| Notifications.DeactivateIdsTwice | padelhub-backend/src/notifications/notifications.service.ts:159-162 | retiring two sets of ids one after the other is retiring their union |
| Notifications.DeactivateIdsKeepsValid | padelhub-backend/src/notifications/notifications.service.ts:159-162 | retiring keeps the registry invariant |
| Notifications.TryEach | padelhub-backend/src/notifications/notifications.service.ts:134-168 | the delivery loop: sent counts the deliveries, sent + failed is the number tried, and exactly the 410 rows are retired |
| Notifications.SendUnfold | padelhub-backend/src/notifications/notifications.service.ts:118-168 | with active subscriptions the send is the loop over them; failed is the rest |
| Notifications.PrefixStep | padelhub-backend/src/notifications/notifications.service.ts:137-166 | one more iteration adds one to sent on a delivery, and retires the row on a 410 |
| Notifications.SendCounts | padelhub-backend/src/notifications/notifications.service.ts:118-168 | sent + failed is the number of active subscriptions; with none the result is {0, 0} and nothing changes; the registry invariant holds |
| Notifications.SendDeactivatesOnlyGone | padelhub-backend/src/notifications/notifications.service.ts:151-165 | a row's only change is `isActive`, and it turns false exactly for the user's rows rejected with 410 |
| Notifications.GoneIdOfRow | padelhub-backend/src/notifications/notifications.service.ts:151-165 | a row's id is among the ids retired by a send exactly when it is an active row of the user that answered 410 |
| Notifications.TriedIsSend | padelhub-backend/src/notifications/notifications.service.ts:118-168 | the registry and counters left by the delivery loop are those of the send, and the registry stays valid |
| Notifications.SweepTargetsIff | padelhub-backend/src/notifications/notifications.service.ts:184-190 | the sweep selects exactly the PENDING matches starting before now + 70 minutes, since `MoreThan(a) && LessThan(b)` is `LessThan(b)` |
| Notifications.SweepSelectsStartedMatch | padelhub-backend/src/notifications/notifications.service.ts:186 | a PENDING match that started a day ago is still selected: there is no lower bound |
| Notifications.SentLogIndexIff | padelhub-backend/src/notifications/notifications.service.ts:213-222 | the lookup finds a row exactly when a SENT "starting soon" row exists for the user and match |
| Notifications.NotifyStepLogs | padelhub-backend/src/notifications/notifications.service.ts:211-282 | a notified player adds no row; any other player adds exactly the row of the attempt |
| Notifications.NotifyAllStep | padelhub-backend/src/notifications/notifications.service.ts:211-282 | the loop over k + 1 players is the loop over k players followed by one more step |
| Notifications.NotifyAllLast | padelhub-backend/src/notifications/notifications.service.ts:211-282 | the last iteration of the player loop adds no row for a notified player and the attempt's row otherwise |
| Notifications.SweepAllStep | padelhub-backend/src/notifications/notifications.service.ts:194-196 | the sweep over k + 1 matches is the sweep over k matches followed by notifying the next match's roster |
| Notifications.NotifyStepCorrect | padelhub-backend/src/notifications/notifications.service.ts:211-282 | a step changes nothing for a notified player and otherwise appends one row that is SENT with a time or FAILED with its reason, never PENDING; both invariants are kept |
| Notifications.NotifyAllCorrect | padelhub-backend/src/notifications/notifications.service.ts:202-283 | notifying a roster only appends rows, each a well-formed row for one of its players, and keeps at most one SENT row per (user, match) |
| Notifications.NotifyAllKeepsValid | padelhub-backend/src/notifications/notifications.service.ts:202-283 | notifying a roster keeps subscription ids and endpoints unique and at most one SENT row per (user, match) |
| Notifications.NotifiedUserSkipped | padelhub-backend/src/notifications/notifications.service.ts:213-227 | a player with a SENT row gets no new row at all |
| Notifications.UnnotifiedUserLogged | padelhub-backend/src/notifications/notifications.service.ts:240-281 | a player without a SENT row gets a saved row, so a FAILED row does not block a retry |
| Notifications.LogsOnlyGrow | padelhub-backend/src/notifications/notifications.service.ts:240-281 | the log is only appended to |
| Notifications.SweepKeepsAtMostOneSent | padelhub-backend/src/notifications/notifications.service.ts:176-197 | however many sweeps run, there is never a second SENT row per (user, match) |
| Notifications.HistoryCorrect | padelhub-backend/src/notifications/notifications.service.ts:288-298 | `limit` rows of the user, or all of them when there are fewer or no limit, newest first, and no row of the user left out is newer than a row kept |
| Notifications.NotificationsService.Subscribe | padelhub-backend/src/notifications/notifications.service.ts:50-79 | the registry becomes the upsert of the old one; the saved row is active with the given keys, and is stored as returned when an agent is given, with the stored agent kept otherwise |
| Notifications.NotificationsService.Unsubscribe | padelhub-backend/src/notifications/notifications.service.ts:84-93 | the registry becomes the soft deactivation of the old one; the logs are unchanged |
| Notifications.NotificationsService.GetUserSubscriptions | padelhub-backend/src/notifications/notifications.service.ts:98-102 | exactly the user's active subscriptions |
| Notifications.NotificationsService.SendPushNotification | padelhub-backend/src/notifications/notifications.service.ts:107-169 | the new registry and the counters are those of the send over the old registry |
| Notifications.NotificationsService.NotifyMatchPlayers | padelhub-backend/src/notifications/notifications.service.ts:202-283 | the new registry and log are the player loop over the match's roster |
| Notifications.NotificationsService.CheckUpcomingMatches | padelhub-backend/src/notifications/notifications.service.ts:176-197 | the new registry and log are the sweep over the selected matches |
| Notifications.NotificationsService.GetUserNotificationHistory | padelhub-backend/src/notifications/notifications.service.ts:288-298 | at most `limit` of the user's rows, newest first |
| Users.NewUser | padelhub-backend/src/users/users.service.ts:28 | the new row carries every given field (names, email, phone, city, picture, side, and category, match count and verification when given), no Google id, and otherwise unverified, category 8 and 0 matches |
| Users.FromGoogle | padelhub-backend/src/users/users.service.ts:96-105 | a Google user is created verified, with the Google id, names, email and picture, the default category and match count, and no phone, city or side |
| Users.ApplyUserUpdate | padelhub-backend/src/users/users.service.ts:71 | each of the ten updatable fields is the provided value or else the old one; the id and Google id never change |
| Users.LinkGoogle | padelhub-backend/src/users/users.service.ts:110-111 | linking sets the Google id and `isUserVerified` and changes nothing else |
| Users.EmailConflictIff | padelhub-backend/src/users/users.service.ts:61-69 | Conflict exactly when a non-empty new email differs from the current one and another user holds it |
| Users.SameEmailNoConflict | padelhub-backend/src/users/users.service.ts:61 | resubmitting the current email never conflicts |
| Users.ReplaceKeepsValid | padelhub-backend/src/users/users.service.ts:71-72 | replacing a row keeps ids, emails and Google ids unique when the new email and Google id are not another user's |
| Users.AppendKeepsValid | padelhub-backend/src/users/users.service.ts:28-29 | appending a user with a fresh id, email and Google id keeps the uniqueness invariant |
| Users.RemoveKeepsValid | padelhub-backend/src/users/users.service.ts:77 | removing a row keeps the uniqueness invariant |
| Users.IdLookupUnique | padelhub-backend/src/users/users.service.ts:39 | finding by id returns the one row with that id |
| Users.EmailLookupUnique | padelhub-backend/src/users/users.service.ts:49 | finding by email returns the one row with that email |
| Users.UsersService.Create | padelhub-backend/src/users/users.service.ts:19-30 | Conflict and no new user when the email is taken; otherwise exactly the new user is appended |
| Users.UsersService.FindOne | padelhub-backend/src/users/users.service.ts:38-46 | NotFound iff no user has the id; otherwise the row with that id |
| Users.UsersService.FindByEmail | padelhub-backend/src/users/users.service.ts:48-56 | NotFound iff no user has the email; otherwise a row with that email |
| Users.UsersService.Update | padelhub-backend/src/users/users.service.ts:58-73 | NotFound for an absent id; Conflict on a changed email held by another user; a unique violation when an empty email skips the check yet collides with another user's; otherwise the merged row replaces the old one |
| Users.UsersService.Remove | padelhub-backend/src/users/users.service.ts:75-78 | NotFound for an absent id; a user on a roster is refused by the foreign key; otherwise exactly that row is removed |
| Users.UsersService.FindByEmailOrGoogleId | padelhub-backend/src/users/users.service.ts:80-87 | a user with that email or that Google id, the first such row; none exactly when no row has either |
| Users.UsersService.CreateFromGoogle | padelhub-backend/src/users/users.service.ts:89-106 | a unique violation when the email or Google id is taken; otherwise the verified Google user is appended |
| Users.UsersService.UpdateGoogleId | padelhub-backend/src/users/users.service.ts:108-113 | NotFound for an absent id; a unique violation when another user has the Google id; otherwise only the Google id and `isUserVerified` change |
| AuthService.FirstNameOf | padelhub-backend/src/auth/auth.service.ts:75 | the first name is `given_name` when given and is never empty |
| AuthService.LastNameOf | padelhub-backend/src/auth/auth.service.ts:76 | the last name is `family_name` when given |
| AuthService.FirstNameFromName | padelhub-backend/src/auth/auth.service.ts:75 | without `given_name`: the name up to its first space, or "User" when that is empty |
| AuthService.LastNameFromName | padelhub-backend/src/auth/auth.service.ts:76 | without `family_name`: everything after the first space, or "" when there is none |
| AuthService.ProfileOf | padelhub-backend/src/auth/auth.service.ts:73-79 | the profile of a new Google user: email, Google id, picture and the two derived names |
| AuthService.GenerateToken | padelhub-backend/src/auth/auth.service.ts:95-99 | a generated token starts with "token_" |
| AuthService.ParseTokenOfShape | padelhub-backend/src/auth/auth.service.ts:105-110 | every text of the shape `token_<id over [a-f0-9-]>_<digits>` yields that id |
| AuthService.ParseTokenSound | padelhub-backend/src/auth/auth.service.ts:105-110 | a text that yields an id has that shape |
| AuthService.TokenRoundTrip | padelhub-backend/src/auth/auth.service.ts:95-111 | parsing a token generated for an id over [a-f0-9-] gives the id back |
| AuthService.ForeignIdRejected | padelhub-backend/src/auth/auth.service.ts:105 | a token generated for an id with any other character does not give that id back |
| AuthService.TokenUser | padelhub-backend/src/auth/auth.service.ts:101-114 | null, not an error, when the token is malformed or names no user; otherwise the user with the token's id |
| AuthService.IssuedTokenResolves | padelhub-backend/src/auth/auth.service.ts:95-114 | a token issued to a stored user resolves to that user |
| AuthService.AuthService.VerifyToken | padelhub-backend/src/auth/auth.service.ts:101-115 | the user the token resolves to, or none |
| AuthService.AuthService.AuthenticateWithGoogle | padelhub-backend/src/auth/auth.service.ts:57-93 | Unauthorized with no change when verification fails; no match creates exactly one user; a match with a Google id is returned untouched; a match without one is linked; the token is issued for the returned user |
| AuthController.BearerToken | padelhub-backend/src/auth/auth.controller.ts:30 | the token is the header without its 7-character "Bearer " prefix |
| AuthController.VerifyAuthorization | padelhub-backend/src/auth/auth.controller.ts:25-41 | Unauthorized for a missing or non-Bearer header and for a token that resolves to no user; otherwise `{success: true, user}` for that user |
| AuthController.IssuedTokenAccepted | padelhub-backend/src/auth/auth.controller.ts:25-41 | "Bearer " plus a token issued to a stored user is accepted with that user |
| AuthController.RawTokenRefused | padelhub-backend/src/auth/auth.controller.ts:26-28 | a header without the prefix is refused whatever the token |
| Clubs.NameLeIsTotalPreorder | padelhub-backend/src/clubs/clubs.service.ts:22 | ordering by name is total and transitive, so the sorted listing is well defined |
| Clubs.NewClub | padelhub-backend/src/clubs/clubs.service.ts:16 | the new club carries exactly the given fields and the fresh id |
| Clubs.ApplyClubUpdate | padelhub-backend/src/clubs/clubs.service.ts:38 | each of the eight updatable fields is the provided value or else the old one; the id never changes |
| Clubs.EmptyClubUpdate | padelhub-backend/src/clubs/clubs.service.ts:38 | an update with no fields changes nothing |
| Clubs.ClubUpdateIdempotent | padelhub-backend/src/clubs/clubs.service.ts:38 | applying the same update twice equals applying it once |
| Clubs.CreatedClubFound | padelhub-backend/src/clubs/clubs.service.ts:15-18 | after a create, finding the new id returns the stored fields |
| Clubs.RemovedClubGone | padelhub-backend/src/clubs/clubs.service.ts:42-45 | after a remove the id is not found and every other club is still there |
| Clubs.ClubLookupUnique | padelhub-backend/src/clubs/clubs.service.ts:27 | finding by id returns the one club with that id |
| Clubs.ClubsService.Create | padelhub-backend/src/clubs/clubs.service.ts:15-18 | exactly the new club is appended and is found under its id |
| Clubs.ClubsService.FindAll | padelhub-backend/src/clubs/clubs.service.ts:20-24 | a permutation of all clubs, by name ascending |
| Clubs.ClubsService.FindOne | padelhub-backend/src/clubs/clubs.service.ts:26-34 | NotFound iff the id is absent; otherwise the club with that id |
| Clubs.ClubsService.Update | padelhub-backend/src/clubs/clubs.service.ts:36-40 | NotFound with no change for an absent id; otherwise the merged club replaces the old one in place |
| Clubs.ClubsService.Remove | padelhub-backend/src/clubs/clubs.service.ts:42-45 | NotFound for an absent id; a club a match uses is refused by the foreign key; otherwise exactly that club is removed and is no longer found |
| ImageProxyService.CacheKey | padelhub-backend/src/image-proxy/image-proxy.service.ts:16 | the cache key is "image:" followed by the url |
| ImageProxyService.CacheKeyInjective | padelhub-backend/src/image-proxy/image-proxy.service.ts:16 | different urls never share a cache entry |
| ImageProxyService.ImageOf | padelhub-backend/src/image-proxy/image-proxy.service.ts:30-37 | the body is kept and the content type defaults to "image/jpeg" |
| ImageProxyService.ImageProxyService.FetchImage | padelhub-backend/src/image-proxy/image-proxy.service.ts:14-43 | a hit returns the cached value with no fetch; a failed or non-ok fetch fails and leaves the cache alone; a successful miss stores the value under its key and returns it; other keys are unchanged |
| ImageProxyController.IsAllowedDomainIff | padelhub-backend/src/image-proxy/image-proxy.controller.ts:48-60 | allowed exactly when the url parses and its hostname ends with one of the three Google suffixes |
| ImageProxyController.SuffixLookalikeAllowed | padelhub-backend/src/image-proxy/image-proxy.controller.ts:56 | the plain suffix test lets "evilgoogleusercontent.com" through |
| ImageProxyController.UnparseableRejected | padelhub-backend/src/image-proxy/image-proxy.controller.ts:57-59 | an unparseable url is not allowed |
| ImageProxyController.ImageProxyController.GetImage | padelhub-backend/src/image-proxy/image-proxy.controller.ts:16-46 | 400 for a missing url and 403 for a foreign domain, both before any fetch; a cache hit is served without a fetch; a miss fetches once and serves the image exactly when the response is ok, caching it under its key alone, and otherwise answers 500 with the cache unchanged |
| ClientImageProxy.ApiUrl | padelhub-frontend/src/utils/imageProxy.ts:1 | the API base is never empty |
| ClientImageProxy.ProxiedImageUrl | padelhub-frontend/src/utils/imageProxy.ts:8-30 | undefined exactly for an empty input; a url mentioning no Google domain is returned as is; any other becomes the proxy url of its encoding |
| ClientImageProxy.PathMentionProxied | padelhub-frontend/src/utils/imageProxy.ts:20 | a domain mentioned only in the path still sends the url through the proxy: the client tests substrings, not hostnames |
| ClientImageProxy.ProxiedButRefused | padelhub-frontend/src/utils/imageProxy.ts:20-29 | a url the client sends through the proxy can have a host the backend's allow-list refuses with 403 |
| ClientTypes.ParseNum | padelhub-frontend/src/pages/CreateMatch.tsx:103 | `parseInt` is NaN exactly when the text, after JavaScript white space and a sign, has no leading integer (hexadecimal after `0x`), otherwise that integer |
| Strings.ParseIntSkipsSpace | padelhub-frontend/src/pages/CreateMatch.tsx:103 | a leading JavaScript white-space character does not change `parseInt` |
| Strings.ParseIntOfHex | padelhub-frontend/src/pages/CreateMatch.tsx:103 | without a radix, `0x` and hexadecimal digits read in base sixteen |
| Strings.ParseIntOfNatToString | padelhub-frontend/src/pages/CreateMatch.tsx:103 | `parseInt` of a number's decimal text is that number |
| ClientTypes.Merge | padelhub-frontend/src/contexts/AuthContext.tsx:37 | `{ ...prev, ...userData }`: for each of the ten fields, a given value overrides and an absent one is kept |
| ClientTypes.MergeEmpty | padelhub-frontend/src/contexts/AuthContext.tsx:37 | merging no fields keeps the user |
| ClientTypes.MergeWhole | padelhub-frontend/src/pages/CompleteRegistration.tsx:31 | merging a whole user yields that user |
| ClientTypes.MergeIdempotent | padelhub-frontend/src/contexts/AuthContext.tsx:37 | merging the same fields twice equals merging them once |
| ClientTypes.MergeThen | padelhub-frontend/src/contexts/AuthContext.tsx:34-41 | two updates in a row equal one update with the later fields winning |
| MatchPage.StatusOf | padelhub-frontend/src/pages/Match.tsx:56-76 | COMPLETED or CANCELLED is always "completed"; otherwise start ≤ now ≤ end is "in progress", now < start is "upcoming", and the rest is "completed" |
| MatchPage.InExactlyOneBucket | padelhub-frontend/src/pages/Match.tsx:78-86 | a match is in a bucket's list exactly when the status says that bucket |
| MatchPage.BucketsPartition | padelhub-frontend/src/pages/Match.tsx:78-86 | the three lists together are exactly the match list, each match once |
| MatchPage.ConcludedCountIsStatusCount | padelhub-frontend/src/pages/Match.tsx:191-194 | the "Concluídas" count is the number of matches with status COMPLETED |
| MatchPage.ScheduledCount | padelhub-frontend/src/pages/Match.tsx:202 | the "Agendadas" count is what remains after the completed and in-progress lists |
| Lobby.PendingMatches | padelhub-frontend/src/App.tsx:44 | exactly the PENDING matches, drawn from the list |
| Lobby.SortedMatches | padelhub-frontend/src/App.tsx:47-49 | a permutation of the pending matches by startDate ascending |
| Lobby.FilteredMatches | padelhub-frontend/src/App.tsx:51-54 | no category shows the sorted list; a category shows exactly the pending matches of that category, still sorted |
| Lobby.JoinButtonOf | padelhub-frontend/src/App.tsx:126-128 | the button is disabled exactly when the roster has 4 or more players, and then reads "Partida Cheia", else "Entrar" |
| Lobby.FullStaysFull | padelhub-frontend/src/App.tsx:126-128 | a full match stays full when a player joins |
| Lobby.Elo | padelhub-frontend/src/App.tsx:61 | category × 100 for a truthy category, 800 otherwise |
| Lobby.EloOnBar | padelhub-frontend/src/App.tsx:61-63 | for the categories the form allows (1 to 10) the elo lies within the bar's 2000 |
| AuthContext.NeedsRegistrationOf | padelhub-frontend/src/contexts/AuthContext.tsx:46-50 | false with no user; otherwise true iff phone or city is empty or the category is undefined |
| AuthContext.CompletingPatch | padelhub-frontend/src/contexts/AuthContext.tsx:34-50 | an update that gives a phone, a city and a category completes the registration |
| AuthContext.PatchKeepsRegistration | padelhub-frontend/src/contexts/AuthContext.tsx:34-50 | an update that leaves phone, city and category alone leaves the registration status alone |
| AuthContext.RestoredUser | padelhub-frontend/src/contexts/AuthContext.tsx:53-58 | the mount effect restores a user exactly when one is stored under "user" |
| AuthContext.AuthState.constructor | padelhub-frontend/src/contexts/AuthContext.tsx:19-20 | no user and not loading |
| AuthContext.AuthState.Restore | padelhub-frontend/src/contexts/AuthContext.tsx:53-58 | the stored user, when there is one, becomes the user; storage unchanged |
| AuthContext.AuthState.Login | padelhub-frontend/src/contexts/AuthContext.tsx:22-26 | the user is set and stored under "user"; authenticated |
| AuthContext.AuthState.Logout | padelhub-frontend/src/contexts/AuthContext.tsx:28-32 | no user, and both "user" and "authToken" are removed |
| AuthContext.AuthState.UpdateUser | padelhub-frontend/src/contexts/AuthContext.tsx:34-41 | no change without a user; otherwise the merged user replaces it and is stored |
| AuthContext.AuthState.SetIsLoading | padelhub-frontend/src/contexts/AuthContext.tsx:20 | only the loading flag changes |
| AuthContext.ReloadAfterLogin | padelhub-frontend/src/contexts/AuthContext.tsx:22-58 | what `login` stores is restored on reload; after `logout` nothing is |
| ProtectedRoute.Guard | padelhub-frontend/src/components/ProtectedRoute.tsx:14-32 | nothing while loading; "/" when signed out; the registration page when registration is needed elsewhere; /app when it is not needed there; each iff |
| ProtectedRoute.ChildrenIff | padelhub-frontend/src/components/ProtectedRoute.tsx:14-32 | the page renders exactly when signed in, not loading, and on the registration page iff registration is needed |
| ProtectedRoute.NoRedirectLoop | padelhub-frontend/src/components/ProtectedRoute.tsx:18-32 | with the same auth state the guard at a redirect target other than "/" renders the page |
| ProtectedRoute.RedirectSettles | padelhub-frontend/src/components/ProtectedRoute.tsx:18-32 | following one redirect reaches a path that renders or goes home |
| GoogleAuthHook.InlineIsContextPredicate | padelhub-frontend/src/hooks/useGoogleAuth.ts:23-24 | the hook's inline check is the context's `needsRegistration` for that user |
| GoogleAuthHook.NavigationTarget | padelhub-frontend/src/hooks/useGoogleAuth.ts:26-31 | /complete-registration iff registration is needed, otherwise /app |
| GoogleAuthHook.TargetIsGuarded | padelhub-frontend/src/hooks/useGoogleAuth.ts:26-31 | once signed in and settled, the guard renders the target page |
| GoogleAuthHook.OnMutate | padelhub-frontend/src/hooks/useGoogleAuth.ts:12-14 | loading becomes true and nothing else changes |
| GoogleAuthHook.OnSuccess | padelhub-frontend/src/hooks/useGoogleAuth.ts:15-33 | the token is stored under "authToken", `login` receives exactly the returned user, and the target is chosen by the registration check |
| GoogleAuthHook.OnSettled | padelhub-frontend/src/hooks/useGoogleAuth.ts:39-41 | loading becomes false and nothing else changes |
| GoogleAuthHook.SignIn | padelhub-frontend/src/hooks/useGoogleAuth.ts:10-42 | loading ends false either way; on failure nothing else changes; on success the user and token are stored and the target renders |
| PushClient.Repeat | padelhub-frontend/src/services/notifications.ts:77 | `'='.repeat(n)` is n copies of the character |
| PushClient.Padding | padelhub-frontend/src/services/notifications.ts:77 | the padding count is below 4 and makes the length a multiple of 4 |
| PushClient.ReplaceAll | padelhub-frontend/src/services/notifications.ts:78-80 | every occurrence of the character is replaced and every other character is kept |
| PushClient.Base64Of | padelhub-frontend/src/services/notifications.ts:77-80 | '-' becomes '+', '_' becomes '/', the rest is kept, and '=' pads to a multiple of 4 |
| PushClient.Base64OfStandard | padelhub-frontend/src/services/notifications.ts:77-80 | padded standard base64 passes through unchanged |
| PushClient.ByteOfLatin1 | padelhub-frontend/src/services/notifications.ts:86 | a character code below 256 is stored whole in the byte |
| PushClient.UrlBase64ToUint8Array | padelhub-frontend/src/services/notifications.ts:76-89 | nothing when `atob` throws; otherwise a fresh array of the decoded length whose byte i is the code of decoded character i |
| PushClient.PermissionStatus | padelhub-frontend/src/services/notifications.ts:66-71 | "denied" without support, the browser's permission otherwise |
| PushClient.IsSubscribed | padelhub-frontend/src/services/notifications.ts:157-170 | true exactly when supported and the lookup finds a subscription; false on a failed lookup |
| PushClient.CachedKeyKept | padelhub-frontend/src/services/notifications.ts:29-39 | a cached key is returned by every later call with no fetch |
| PushClient.AtMostOneFetch | padelhub-frontend/src/services/notifications.ts:29-39 | while the backend serves a non-empty key it is fetched at most once and every call returns the first key |
| PushClient.EmptyKeyRefetched | padelhub-frontend/src/services/notifications.ts:30 | an empty key is not cached: two calls fetch twice |
| PushClient.NotificationsClient.constructor | padelhub-frontend/src/services/notifications.ts:24 | no key cached, nothing fetched, nothing posted |
| PushClient.NotificationsClient.GetVapidPublicKey | padelhub-frontend/src/services/notifications.ts:29-39 | a cached key is returned without a fetch; otherwise one fetch, whose key is cached and returned, or which fails and caches nothing |
| PushClient.NotificationsClient.Subscribe | padelhub-frontend/src/services/notifications.ts:94-133 | throws, in the source's order, without support, without "granted", on a failed key GET, on a key `atob` refuses, on a rejected `pushManager.subscribe` and on a subscription without endpoint or keys, posting nothing; otherwise posts exactly one request and succeeds exactly when the POST does |
| CreateMatchForm.WithField | padelhub-frontend/src/pages/CreateMatch.tsx:111-113 | the named field takes the value and every other field is kept |
| CreateMatchForm.WithFieldTwice | padelhub-frontend/src/pages/CreateMatch.tsx:111-113 | the last value written to a field is the one it holds |
| CreateMatchForm.NewClubOf | padelhub-frontend/src/pages/CreateMatch.tsx:69-79 | a club request exactly when name and address are both given, carrying them |
| CreateMatchForm.SubmissionOf | padelhub-frontend/src/pages/CreateMatch.tsx:81-109 | stops for a missing club, then for a missing category, date or time, then on an invalid date; otherwise the DTO is PENDING, not court-scheduled, with no court when empty and the parsed category |
| CreateMatchForm.SelectedCategoryParses | padelhub-frontend/src/pages/CreateMatch.tsx:251-255 | a category offered by the select parses back to its number |
| CreateMatchForm.CreateMatchPage.constructor | padelhub-frontend/src/pages/CreateMatch.tsx:24-34 | every field empty, not creating a club, nothing sent |
| CreateMatchForm.CreateMatchPage.HandleChange | padelhub-frontend/src/pages/CreateMatch.tsx:111-113 | only the named field of the form changes |
| CreateMatchForm.CreateMatchPage.SetIsCreatingNewClub | padelhub-frontend/src/pages/CreateMatch.tsx:173 | only the new-club flag changes |
| CreateMatchForm.CreateMatchPage.HandleCreateNewClub | padelhub-frontend/src/pages/CreateMatch.tsx:69-79 | sends one club request when name and address are given, nothing otherwise |
| CreateMatchForm.CreateMatchPage.OnClubCreated | padelhub-frontend/src/pages/CreateMatch.tsx:45-48 | the new club becomes the selected one and the sub-form closes |
| CreateMatchForm.CreateMatchPage.HandleSubmit | padelhub-frontend/src/pages/CreateMatch.tsx:81-109 | sends exactly the built match request when the submission gets that far, nothing otherwise |
| CreateMatchForm.CreatedClubSelected | padelhub-frontend/src/pages/CreateMatch.tsx:45-48 | after a club is created the submission no longer stops for a missing club |
| CompleteRegistration.InitialForm | padelhub-frontend/src/pages/CompleteRegistration.tsx:12-19 | the user's fields or "", the user's category when truthy and 8 otherwise |
| CompleteRegistration.AcceptedFormCompletes | padelhub-frontend/src/pages/CompleteRegistration.tsx:45 | a form that passes the check completes any user's registration |
| CompleteRegistration.RegisteredUserMaySubmit | padelhub-frontend/src/pages/CompleteRegistration.tsx:12-19 | a registered user with both names gets a form that passes the check as it stands |
| CompleteRegistration.RegistrationPage.constructor | padelhub-frontend/src/pages/CompleteRegistration.tsx:12-19 | the form starts as the initial form of the user |
| CompleteRegistration.RegistrationPage.SetText | padelhub-frontend/src/pages/CompleteRegistration.tsx:87-88 | the text inputs change only their own field |
| CompleteRegistration.RegistrationPage.SetCategory | padelhub-frontend/src/pages/CompleteRegistration.tsx:169-173 | the category becomes `parseInt` of the text, NaN included |
| CompleteRegistration.RegistrationPage.SetSide | padelhub-frontend/src/pages/CompleteRegistration.tsx:194-199 | the side radio sets only the side |
| CompleteRegistration.RegistrationPage.HandleSubmit | padelhub-frontend/src/pages/CompleteRegistration.tsx:21-51 | blocked without the required fields, failed without a token or user or when the call fails (no change then); otherwise the returned user replaces the signed-in one and the page goes to /app |

## Left out

- Concurrency: every operation is atomic and sequential. The check-then-insert race in `addPlayer` and the overlap of cron runs are not modelled.
- Scheduling: the every-10-minutes cron schedule is not modelled. `CheckUpcomingMatches` is one run at a given time.
- TypeORM relations (`club`, `matchPlayers.user`, `match`) are not loaded into results. A view carries the match and its roster rows only.
- Database row order: ties in an ordered query, and the row order of an unordered `find`, follow the table's insertion order. The stable sort keeps ties as inserted. The database promises no particular tie order.
- NestJS routing, DTO validation pipes and the controllers other than `AuthController.verifyToken` and `ImageProxyController.getImage` are not part of this model. Their only logic is routing and default limits.
- JSON serialization and the HTTP layer are not modelled: the response objects, `res.setHeader` and `res.send` are values.
- Dates are integers, so an invalid date (`Invalid Date`, NaN) cannot arise on the backend. On the client, `toISOString` is an oracle that may fail.
- `UsersService.findAll` is not modelled. `update-user.dto.ts` is not part of this model; an update is modelled as every user field made optional.
- Google token verification, `webpush.sendNotification`, `fetch`, `new URL`, `encodeURIComponent`, `atob`, `toISOString`, `toLocaleTimeString` and the backend calls of the client are parameters.
- Log ids, the payload's `data` field and the push payload's JSON text are not modelled.
- The cache's 24-hour TTL and any eviction are left out: the image cache is a map that only grows.
- A negative `limit` cannot be expressed: limits are natural numbers. A limit of 0 means "no limit", as TypeORM's `take(0)` does.
- String order is by code point; database collation is not modelled.
- Notifications.NotificationsService.NotifyMatchPlayers: the `catch` around `sendPushNotification` is unreachable in the model, because the send never throws; every failure is counted inside the send.
- Matches.MatchesService.Update: a changed `clubId` is not checked against the clubs table.
- Users.UsersService.Remove: `ON DELETE CASCADE` is not modelled. Deleting a user also deletes that user's messages, push subscriptions and notification logs; those rows are in other services' tables, which the model's `Remove` leaves as they are.
- Matches.MatchesService.Remove: `ON DELETE CASCADE` is not modelled. Deleting a match also deletes its messages and notification logs; those rows are in other services' tables, which the model's `Remove` leaves as they are.
- Notifications.NotificationsService.Subscribe: the foreign key from a subscription to its user is not checked. The user id comes from a verified token. The same holds for the user and match keys of the log rows `notifyMatchPlayers` writes, which come from a stored roster.
- MatchPage.BucketsPartition: proved for one clock reading. `getMatchStatus` reads `new Date()` on every call, once per match in each of the three filters, so a match whose start or end falls between two readings could land in two lists or in none.
- Alerts, `console` output, `navigate` calls other than their target, and React rendering are not modelled.
- CompleteRegistration: the page's redirect to the start page when no user is signed in is not modelled.
- AuthContext.RestoredUser: `JSON.parse` of a foreign text under "user" is read as no user, not as a throw.
- PushClient.ByteOf: `charCodeAt` is modelled on Dafny characters (code points), not UTF-16 code units. `atob` yields only codes below 256, so the two agree there.
- Strings.ParseInt: results beyond the safe-integer range are exact integers, not rounded doubles.
- The client `unsubscribe` and `requestPermission` alone are not modelled; the permission prompt is the `answer` parameter of `Subscribe`.
- The client's service-worker readiness is not modelled (`navigator.serviceWorker.ready` waits and does not reject). The outcome of `pushManager.subscribe` is the `sub` parameter of `Subscribe`.
