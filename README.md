# AnimeStream Hub catalog core, in Dafny

This project models three parts of the AnimeStream Hub web application:

- **The relational catalog** declared with Drizzle: six tables.
  - The tables are `anime`, `episodes`, `profiles`, `watchlist`, `watch_progress` and `reviews`.
  - They declare enum domains, column defaults and NOT NULL columns.
  - Their foreign keys are declared `ON DELETE CASCADE`.
- **The client's request layer**:
  - the error-message rule of `fetchApi`;
  - `getById`, which answers null on any failure;
  - the query string `getAll` builds from optional filters;
  - the default limits of `getFeatured` and `getTrending`;
  - `getBySeriesName`, which filters the full list by series and stably sorts it by season.
- **The sign-up handler**: the ordered guards on the form, the call to the auth provider, and the profile row it inserts.

Modules:

- `Results` (`results.dfy`): `Option` and `Result`.
- `Text` (`text.dfy`): decimal rendering and parsing of integers, plus `join`/`split` on a separator.
- `Schema` (`schema.dfy`): the data model.
  - The store is a value of six maps, each keyed by the row's primary key.
  - Each insert builds the row from a payload whose columns may all be missing. Building fills the defaults and checks enum labels, the 32-bit range of `integer` columns and NOT NULL. After that come the primary key check and the foreign key checks.
  - There is one delete per table that carries out the cascade.
  - A table-independent reference definition of the cascade, `Doomed`, says which rows a delete must remove: those that reach the deleted row through foreign keys.
- `Integrity` (`integrity.dfy`): what the declarations promise about the store.
  - Inserts and deletes keep every foreign key resolved.
  - Each delete removes exactly the rows `Doomed` names.
  - Survivors are unchanged.
- `Api` (`api.dfy`):
  - HTTP is a `server` function from the requested URL to the reply.
  - `URLSearchParams` is a class whose entries `set` updates in place.
  - `getAll`'s query building is a method proved against the function `ListEndpoint`.
  - `getBySeriesName` is a pure filter followed by a stable insertion sort.
- `Signup` (`signup.dfy`): `handleSignup`. The replies of the auth provider and of the insert are parameters. It returns what the handler did: the sign-up call, the profile row, the toast and the redirect.

Inputs that the source takes from its environment are parameters here:

- `defaultRandom()` ids are the `generated` parameter;
- `defaultNow()` timestamps are the `now` parameter;
- the HTTP server is `server`;
- the auth provider's and the database's replies are `auth` and `insert`.

## Model

| member | source | states |
|---|---|---|
| Schema.ParseStatus | shared/schema.ts:4 | a status label is accepted exactly when it is `Ongoing` or `Completed`, and it reads back as itself |
| Schema.ParseContentType | shared/schema.ts:5 | a content type is accepted exactly when it is `anime` or `cartoon`, and it reads back as itself |
| Schema.ParseRole | shared/schema.ts:6 | a role is accepted exactly when it is `user` or `admin`, and it reads back as itself |
| Integrity.EnumLabelsRoundTrip | shared/schema.ts:4-6 | each enum value's label parses back to that value, so a stored enum column only ever holds a declared label |
| Schema.BuildAnime | shared/schema.ts:8-26 | the row is built exactly when `title` and `series_name` are given, enum labels are valid and integers fit 32 bits. Given columns are kept. Missing ones default: status Ongoing, total_episodes 0, rating 0, season_number 1, content_type anime, genres empty, the generated id and `now` |
| Schema.BuildEpisode | shared/schema.ts:28-39 | the row is built exactly when `anime_id`, `episode_number` and `video_url` are given (an empty string counts as given) and integers fit 32 bits. season_number defaults to 1 |
| Schema.BuildProfile | shared/schema.ts:41-48 | the row is built exactly when the role label, if given, is valid. role defaults to `user` |
| Schema.BuildWatchlistEntry | shared/schema.ts:50-55 | the row is built exactly when `user_id` and `anime_id` are given. added_at defaults to `now` |
| Schema.BuildWatchProgress | shared/schema.ts:57-65 | the row is built exactly when `user_id`, `episode_id` and `anime_id` are given and last_position fits 32 bits. watched defaults to false and last_position to 0 |
| Schema.BuildReview | shared/schema.ts:67-75 | the row is built exactly when `user_id`, `anime_id` and a 32-bit `rating` are given |
| Schema.InsertAnime | shared/schema.ts:8-26 | the insert succeeds exactly when the row builds and its id is free. The new store is the old one plus that row |
| Schema.InsertEpisode | shared/schema.ts:28-39 | the insert succeeds exactly when the row builds, its id is free and its anime exists. A missing anime is a foreign key violation |
| Schema.InsertProfile | shared/schema.ts:41-48 | the insert succeeds exactly when the row builds and its id is free |
| Schema.InsertWatchlistEntry | shared/schema.ts:50-55 | the insert succeeds exactly when the row builds, its id is free and its profile and anime exist |
| Schema.InsertWatchProgress | shared/schema.ts:57-65 | the insert succeeds exactly when the row builds, its id is free and its profile, episode and anime exist |
| Schema.InsertReview | shared/schema.ts:67-75 | the insert succeeds exactly when the row builds, its id is free and its profile and anime exist |
| Integrity.ReferencesResolveAsParents | shared/schema.ts:30 | the table-by-table foreign key invariant is equivalent to "every parent of a stored row is stored" |
| Integrity.EmptyStoreValid | shared/schema.ts:8-75 | the empty database satisfies the invariant |
| Integrity.PutEpisodeKeepsValid | shared/schema.ts:30 | storing an episode whose anime exists keeps the invariant |
| Integrity.PutWatchlistEntryKeepsValid | shared/schema.ts:52-53 | storing a watchlist row whose profile and anime exist keeps the invariant |
| Integrity.PutWatchProgressKeepsValid | shared/schema.ts:59-61 | storing a progress row whose profile, episode and anime exist keeps the invariant |
| Integrity.PutReviewKeepsValid | shared/schema.ts:69-70 | storing a review whose profile and anime exist keeps the invariant |
| Integrity.PutAnimeKeepsValid | shared/schema.ts:9 | storing an anime under its own id keeps the invariant |
| Integrity.PutProfileKeepsValid | shared/schema.ts:42 | storing a profile under its own id keeps the invariant |
| Integrity.InsertAnimeKeepsValid | shared/schema.ts:8-26 | a successful anime insert keeps every key matched and every reference resolved |
| Integrity.InsertEpisodeKeepsValid | shared/schema.ts:30 | a successful episode insert keeps the invariant |
| Integrity.InsertProfileKeepsValid | shared/schema.ts:41-48 | a successful profile insert keeps the invariant |
| Integrity.InsertWatchlistEntryKeepsValid | shared/schema.ts:52-53 | a successful watchlist insert keeps the invariant |
| Integrity.InsertWatchProgressKeepsValid | shared/schema.ts:59-61 | a successful progress insert keeps the invariant |
| Integrity.InsertReviewKeepsValid | shared/schema.ts:69-70 | a successful review insert keeps the invariant |
| Schema.DeleteAnime | shared/schema.ts:30-70 | deleting an anime removes it, its episodes, the progress rows on those episodes, and every watchlist, progress and review row naming it; Integrity.DeleteAnimeIsCascade proves this is the `ON DELETE CASCADE` closure |
| Schema.DeleteEpisode | shared/schema.ts:60 | deleting an episode removes it and the progress rows naming it; Integrity.DeleteEpisodeIsCascade proves this is the closure |
| Schema.DeleteProfile | shared/schema.ts:52-69 | deleting a profile removes it and the user's watchlist, progress and review rows; Integrity.DeleteProfileIsCascade proves this is the closure |
| Schema.DeleteWatchlistEntry | shared/schema.ts:50-55 | no table references a watchlist row, so only that row goes; Integrity.DeleteLeafIsCascade proves it |
| Schema.DeleteWatchProgress | shared/schema.ts:57-65 | no table references a progress row, so only that row goes; Integrity.DeleteLeafIsCascade proves it |
| Schema.DeleteReview | shared/schema.ts:67-75 | no table references a review, so only that row goes; Integrity.DeleteLeafIsCascade proves it |
| Schema.Delete | shared/schema.ts:30-70 | deleting any row, dispatched by table; Integrity.DeleteIsCascade, DeleteKeepsValid and DeleteIdempotent are stated on it |
| Integrity.DoomedAtOne | shared/schema.ts:30 | following one foreign key, the doomed rows are the target and its direct children |
| Integrity.ParentsAreRoots | shared/schema.ts:30 | the only chain of two foreign keys is watch_progress → episodes → anime |
| Integrity.ParentDoomedAtOne | shared/schema.ts:60 | a parent reached through any chain of foreign keys is reached through at most one |
| Integrity.CascadeDepthTwo | shared/schema.ts:30 | chains of length two already reach every row the transitive cascade reaches, so depth 2 is the whole closure |
| Integrity.DoomedAtTwoIf | shared/schema.ts:60 | the target, its children and the progress rows of its episodes are doomed |
| Integrity.DoomedAtTwoOnlyIf | shared/schema.ts:60 | no other row is doomed |
| Integrity.DoomedAtTwo | shared/schema.ts:60 | the doomed rows are exactly the target, its direct children, and progress rows on an episode that is a child of the target |
| Integrity.DeleteAnimeIsCascade | shared/schema.ts:30 | after deleting an anime, a row remains exactly when it was stored and is not doomed |
| Integrity.DeleteEpisodeIsCascade | shared/schema.ts:60 | after deleting an episode, a row remains exactly when it was stored and is not doomed |
| Integrity.DeleteProfileIsCascade | shared/schema.ts:52 | after deleting a profile, a row remains exactly when it was stored and is not doomed |
| Integrity.DeleteLeafIsCascade | shared/schema.ts:50-75 | watchlist, progress and review rows are referenced by nothing, so deleting one removes only that row |
| Integrity.DeleteIsCascade | shared/schema.ts:30 | for every kind of target, a row survives a delete exactly when it was stored and no chain of foreign keys leads from it to the target |
| Integrity.DeleteKeepsSurvivors | shared/schema.ts:30 | a delete only removes rows and changes no surviving row |
| Integrity.ParentsOfSurvivor | shared/schema.ts:30 | a surviving row's foreign keys name the same rows as before |
| Integrity.DeleteKeepsValid | shared/schema.ts:30 | every delete keeps the invariant, so no dangling reference is left |
| Integrity.DeleteAnimeEpisodes | shared/schema.ts:30 | after deleting an anime, no episode names it, and episodes of other anime are unchanged |
| Integrity.DeleteAnimeLeavesNoReference | shared/schema.ts:53 | after deleting an anime, no watchlist, progress or review row names it, and none sits on one of its episodes. Profiles are untouched and the invariant holds |
| Integrity.DeleteProfileExact | shared/schema.ts:52 | deleting a profile removes exactly its watchlist, progress and review rows. Anime, episodes and other profiles are untouched |
| Integrity.DeleteEpisodeExact | shared/schema.ts:60 | deleting an episode removes exactly the progress rows naming it, and nothing else changes |
| Integrity.DeleteAnimeIdempotent | shared/schema.ts:30 | deleting an anime twice is deleting it once |
| Integrity.DeleteProfileIdempotent | shared/schema.ts:52 | deleting a profile twice is deleting it once |
| Integrity.DeleteIdempotent | shared/schema.ts:30 | repeating any delete changes nothing more |
| Api.ErrorMessage | src/db/api.ts:14-16 | the message is the body's `error` field when that is present and non-empty, and `Request failed` when the body is not JSON or has no non-empty `error`; it is then never empty. A JSON `null` body makes reading `error` throw, and the message is that `TypeError`'s |
| Api.FetchApi | src/db/api.ts:5-20 | the request goes to `/api` + endpoint. An ok reply yields its data. A non-ok reply fails with the error-message rule. A rejected fetch or an unreadable ok body fails with its own message |
| Api.FetchOrNull | src/db/api.ts:47-53 | a value exactly when the fetch succeeds, null on any failure |
| Api.GetAnimeById | src/db/api.ts:47-53 | null exactly when `/api/anime/<id>` is not delivered, otherwise the delivered row. It never fails |
| Api.GetEpisodeById | src/db/api.ts:92-98 | null exactly when `/api/episodes/<id>` is not delivered, otherwise the delivered row |
| Api.GetProfileById | src/db/api.ts:177-183 | null exactly when `/api/profiles/<id>` is not delivered, otherwise the delivered row |
| Api.Without | src/db/api.ts:34 | the result holds exactly the entries of the input not called by the name, and none called by it |
| Api.WithoutAppend | src/db/api.ts:34 | removing a name keeps the order of the remaining entries: it distributes over concatenation |
| Api.Serialize | src/db/api.ts:43 | the query string is empty exactly when there are no entries |
| Api.WithoutAbsent | src/db/api.ts:34 | removing an absent name changes nothing |
| Api.WithEntry | src/db/api.ts:34 | `URLSearchParams.set`: the first entry with the name takes the new value and later ones are dropped, otherwise the pair is appended; its properties are Api.WithEntryAppends and Api.WithEntrySetsOne |
| Api.WithEntryAppends | src/db/api.ts:34 | `set` of a new name appends the entry |
| Api.WithEntrySetsOne | src/db/api.ts:34 | after `set`, the name has exactly the one new value, and every other entry keeps its order |
| Api.OnlyWithout | src/db/api.ts:34 | removing a name leaves no entry with it |
| Api.SearchParams.Set | src/db/api.ts:34-41 | `params.set` replaces the parameter's entries with the new value, in place |
| Api.SearchParams.ToString | src/db/api.ts:43 | the loop produces the serialization of the entries |
| Api.ParamValue | src/db/api.ts:34-41 | the value each guarded line sends, or none: genres when the list is non-empty, text when non-empty, numbers when non-zero, the content type whenever given; Api.QuerySendsTruthy states the rule per parameter |
| Api.SetStep | src/db/api.ts:34-41 | when parameter i is considered, the earlier entries do not hold its name, so `set` appends it |
| Api.SetWhenSent | src/db/api.ts:34-41 | one guarded `params.set` line. When `params` holds the query entries of the parameters before it, afterwards it holds those of the parameters up to and including it: the entry is appended when the filter is truthy and nothing changes otherwise |
| Api.GetAllEndpoint | src/db/api.ts:33-44 | the method that builds `URLSearchParams` step by step requests exactly `ListEndpoint(filters)` |
| Api.ParamOrderDistinct | src/db/api.ts:34-41 | no parameter name is set twice |
| Api.ParamIndexOf | src/db/api.ts:34-41 | each parameter name has its position in the order |
| Api.QueryEntriesNamedBefore | src/db/api.ts:34-41 | after the first n parameters, only their names occur |
| Api.QueryEntriesHas | src/db/api.ts:34-41 | parameter i is present with a value exactly when its filter is truthy and renders as that value |
| Api.QuerySendsTruthy | src/db/api.ts:34-41 | `getAll` sends a parameter with a value exactly when its filter is truthy and renders as that value |
| Api.QueryOnlyParams | src/db/api.ts:34-41 | every sent entry is one of the eight parameters, carrying its filter's value |
| Api.QueryEntriesOrdered | src/db/api.ts:34-41 | the entries appear in parameter order |
| Api.QueryOrdered | src/db/api.ts:34-41 | the parameters appear in the order genres, season, year, status, search, content_type, limit, offset, each at most once |
| Api.QueryEntriesEmpty | src/db/api.ts:34-41 | no entry is sent exactly when no filter is truthy |
| Api.AnimePathBare | src/db/api.ts:44 | the path is `/anime` alone exactly for an empty query string, otherwise `/anime?` followed by it |
| Api.ListEndpoint | src/db/api.ts:43-44 | the endpoint `getAll` requests: `/anime` and the serialised query; Api.GetAllEndpoint proves the step-by-step method builds it and Api.ListEndpointShape gives its shape |
| Api.ListEndpointShape | src/db/api.ts:43-44 | the endpoint is exactly `/anime` when no filter is truthy, otherwise `/anime?` followed by the query |
| Api.GenresReadBack | src/db/api.ts:34 | genres are sent exactly when the list is non-empty, as one comma-joined value that splits back into the list when no genre holds a comma |
| Api.TextParamsReadBack | src/db/api.ts:35-38 | season, status and search are sent as given, unless missing or empty |
| Api.NumberParamsReadBack | src/db/api.ts:36-41 | year, limit and offset are sent exactly when given and not 0, as decimal text that reads back as the number |
| Api.ContentTypeReadBack | src/db/api.ts:39 | a given content type is always sent, as a label that parses back to it |
| Api.FeaturedEndpoint | src/db/api.ts:73-75 | with no argument, `limit=6` is requested; otherwise the given limit |
| Api.TrendingEndpoint | src/db/api.ts:77-79 | with no argument, `limit=12` is requested; otherwise the given limit |
| Api.InSeries | src/db/api.ts:83 | exactly the input titles whose `series_name` is the name, as a sub-multiset of the input |
| Api.InSeriesCounts | src/db/api.ts:83 | each title of the series occurs as often as in the input, every other title not at all |
| Api.InSeriesAppend | src/db/api.ts:83 | filtering keeps input order: the filter of a concatenation is the concatenation of the filters |
| Api.InSeriesOne | src/db/api.ts:83 | a single title is kept exactly when its `series_name` is the name |
| Api.WithSeason | src/db/api.ts:83 | the titles of one season, in order |
| Api.SortedTail | src/db/api.ts:83 | the tail of a season-sorted list is sorted, and no title in it has a lower season than the head |
| Api.PrependSorted | src/db/api.ts:83 | prepending a title no later than the rest keeps the list sorted |
| Api.BoundedByMultiset | src/db/api.ts:83 | a lower bound on seasons carries over to a permutation |
| Api.InsertBySeason | src/db/api.ts:83 | inserting into a sorted list keeps it sorted and adds exactly that title |
| Api.SortBySeason | src/db/api.ts:83 | the result is sorted non-decreasingly by `season_number` and is a permutation of the input |
| Api.InsertKeepsSeasonOrder | src/db/api.ts:83 | an inserted title goes before every title of its own season and moves no other title of that season |
| Api.SortKeepsSeasonOrder | src/db/api.ts:83 | the sort is stable: titles of one season keep their input order |
| Api.SeriesGroup | src/db/api.ts:83 | the filter-then-sort expression of `getBySeriesName`; Api.SeriesGroupSpec states what it holds |
| Api.SeriesGroupSpec | src/db/api.ts:83 | the group holds exactly the series' titles, as a permutation of the filtered list, sorted by season, with ties in input order |
| Api.GetBySeriesName | src/db/api.ts:81-84 | it requests `/api/anime` with no query. It succeeds exactly when that is delivered, with the series group of the delivered list, and otherwise fails with `fetchApi`'s error |
| Signup.Utf16Length | src/pages/Signup.tsx:41 | `password.length` counts UTF-16 code units, between the character count and twice it, and equal to it for text within the Basic Multilingual Plane |
| Signup.CheckForm | src/pages/Signup.tsx:23-48 | "Please fill in all fields" exactly when a field is empty. "Passwords do not match" exactly when all are filled and the passwords differ. "Password must be at least 6 characters" exactly when the first two pass and the password is shorter than 6. Otherwise the form proceeds |
| Signup.SignupFailed | src/pages/Signup.tsx:60-67 | an auth error shows "Signup Failed" with its message, or "Unable to create account" when the message is empty |
| Signup.NewUserProfile | src/pages/Signup.tsx:72-81 | the inserted profile has the user's id and email and role `user`, and nothing else is given |
| Signup.RedirectTarget | src/pages/Signup.tsx:18 | the redirect goes to the `from` location when it is non-empty, otherwise to `/` |
| Signup.HandleSignup | src/pages/Signup.tsx:20-106 | sign-up is called, with the form's email and password, exactly when all guards pass. A rejected form shows its error toast and does nothing else. A profile is inserted exactly when sign-up yields a user. The redirect with the success toast happens exactly then, unless the insert throws. An auth error shows the "Signup Failed" toast with its message; a thrown sign-up or a thrown insert shows the unexpected-error toast. No toast appears exactly when sign-up yields no user |
| Signup.RejectedFormIgnoresReplies | src/pages/Signup.tsx:23-48 | when a guard fails, nothing the auth provider or the database would reply matters |
| Signup.InsertErrorIgnored | src/pages/Signup.tsx:83-91 | a profile insert that reports an error leaves the outcome as if it had succeeded |
| Signup.SignupProfileStored | src/pages/Signup.tsx:72-81 | into a valid store without the user's profile, the insert succeeds and keeps the store valid, storing role user with the user's id and email. Otherwise the insert is a duplicate-key error, which the handler ignores |
| Text.NatToString | src/db/api.ts:36 | decimal text of a number: non-empty digits with no leading zero |
| Text.IntToString | src/db/api.ts:36 | decimal text of an integer: non-empty, with a leading `-` exactly for negative numbers |
| Text.ParseNatToString | src/db/api.ts:36 | the decimal text of a natural number reads back as it |
| Text.IntToStringRoundTrip | src/db/api.ts:36 | the decimal text of an integer reads back as it |
| Text.Join | src/db/api.ts:34 | `genres.join(',')`: the parts with the separator between them, a single part unchanged; Text.SplitJoin proves splitting undoes it |
| Text.SplitJoin | src/db/api.ts:34 | joining non-empty lists with a separator that no part contains is undone by splitting |
| Text.SplitNoSeparator | src/db/api.ts:34 | text without the separator splits into itself |
| Text.SplitAfterSeparator | src/db/api.ts:34 | a final separator and piece add one piece to the split |

## Left out

- Deletes follow the source's cascade. `watch_progress.anime_id` and the episode's anime are not required to agree, because the schema does not require it. So deleting an anime also removes progress rows that name it directly, and progress rows on its episodes.
- The schema declares no unique constraints on (user_id, anime_id) or (user_id, episode_id), on (series_name, season_number) of anime, or on (anime_id, season_number, episode_number) of episodes, no rating bounds and no non-empty `video_url`, and the model adds none.
- Uuid syntax is not checked: ids are strings. Timestamps are integers. `rating` on anime is a Dafny `real`, so single-precision rounding is not modelled.
- Null and undefined in insert payloads are one case, a missing column. Schema.BuildAnime and the other builders report the first failing check in a fixed order: value conversions first, then NOT NULL. PostgreSQL may report a different one of several errors.
- Database transactions and concurrent statements are not modelled. Each insert or delete is one atomic step.
- The `relations(...)` declarations (shared/schema.ts:77-133) only give the ORM navigation names. They add no constraint, so they have no member.
- Api.FetchApi: request options and headers are not modelled. A non-string truthy `error` field, which JavaScript would turn into a string, is not modelled: the field is an optional string. The text of the `TypeError` thrown for a JSON `null` body depends on the JavaScript engine, so the body carries it.
- Api.Serialize: `URLSearchParams` percent-encoding of names and values is not modelled. Entries are written as `name=value`.
- Api.NumberParamsReadBack: numbers are integers; non-integral and non-finite JavaScript numbers and their `toString` are not modelled. Integers beyond 2^53 in magnitude are not exact JavaScript numbers, and are not modelled as such.
- Text.IntToString: plain decimal digits for every integer. JavaScript's `toString` switches to exponent notation (`1e+21`) from a magnitude of 10^21, and that form is not modelled; it applies to year, limit and offset in `getAll` and to the limits of `getFeatured` and `getTrending`.
- Signup.Utf16Length: a Dafny string holds Unicode scalar values, so a JavaScript string with a lone surrogate has no counterpart; for every other string the count is exact.
- Api.SortBySeason: `season_number` values are integers, so the comparator `a - b` never overflows or yields NaN.
- The create, update and delete wrappers (src/db/api.ts:55-71, 100-116), `episodeApi.getByAnimeId` (src/db/api.ts:88-90) and `profileApi.getAll`/`updateRole` (src/db/api.ts:185-198) only forward a request to `fetchApi`. Their server-side effects, including role gating, run in code that is not part of this model.
- The watchlist, progress, review and profile-update stubs (src/db/api.ts:119-174, 189-191) return fixed placeholders and are not modelled.
- Which titles the featured and trending endpoints return is decided by the server and is not modelled; only the endpoint strings are.
- Signup.HandleSignup: the loading flag, `console` logging, the 1.5-second delay before navigating and `emailRedirectTo` are not modelled. A sign-up reply that resolves with an error and a user at once is modelled as the error. The profile insert is modelled by its reply alone; Signup.SignupProfileStored connects it to Schema.InsertProfile.
- The login and admin-login pages and the repository-sync scripts are not part of this model.
