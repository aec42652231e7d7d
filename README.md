# inari-admin: verified model of the login, composer, microformats and media-listing core

inari-admin is a small admin web application for an IndieWeb site. Its owner:
- logs in with IndieAuth. `indieauth/indieauth.go` runs the authorization redirect and the token callback. `storage/storage.go` creates the session and discovers the endpoints the owner's home page advertises.
- stages photos, a location and a published date in a "composer" held in the session, then posts the result to the Micropub endpoint. There are two versions: `pkg/micropub/micropub.go`, and the older `micropub/micropub.go`.
- browses uploaded media by year, month and day. `pkg/okami/okami.go` queries the Micropub client, and `pkg/view/view.go` turns the answer into the page model.

`pkg/mf2/mf2.go` holds the microformats value (`MicroFormat`), the post list and the helpers that build and normalise posts.

The project models these files in Dafny. Each Dafny module follows one Go file or one concern:

| module | Go file | form |
|---|---|---|
| `Wrappers` | — | `Option`, `Result` and `Run` (a call that returns or panics) |
| `Text` | Go's `strings`/`url` helpers used by the core | pure functions and lemmas |
| `Web` | `url.Values`, HTTP responses | pure functions and lemmas |
| `Sessions` | `storage/storage.go` (UserSession, session store), composer staging | datatypes; the store is a class over a map |
| `Discovery` | `storage/storage.go` (endpoint discovery, auth redirect) | functions over HTML tree and Link header datatypes |
| `Events` | `storage/storage.go` (event log) | functions, plus a method for `FetchAll`'s loop |
| `IndieAuth` | `indieauth/indieauth.go` | pure checks plus a `Client` class whose methods change the session store |
| `CreateForm` | the create-post form in both composers | a method with a loop, specified by a predicate |
| `Composer` | `pkg/micropub/micropub.go` | `Server` class over the session store; query URL builders |
| `LegacyComposer` | `micropub/micropub.go` | `Server` class over the session store |
| `Mf2` | `pkg/mf2/mf2.go` | functions for value mutators; methods over arrays for in-place sorting and rewriting; `PostList` class |
| `Okami` | `pkg/okami/okami.go` and the `pkg/mpclient` types it consumes | methods with loops specified by functions |
| `View` | `pkg/view/view.go` | methods with loops specified by functions; day grouping proved against a reference definition |

Some things are parameters rather than part of the model:
- Outside effects. The network replies, the session-store faults, the clock (`now`), the uuid generator (`uid`), and the date formatter (`dayOf`, `humanDay`, `yearMonthOf`, `publishedOf`).
- `url.Parse`. It is a `UrlCodec` value holding a parse function.

A Go panic (an out-of-range index, a nil dereference) is modelled as the `Panicked` outcome of `Run`.

`parseMediaDays` dereferences every item's `DateTime` (`pkg/view/view.go:148`), and the media in `pkg/view/view_test.go:54-57` have none. So `View.ParseListMediaView` panics exactly when some media item has no date, which covers that test input. The test's expected value lists no `MediaDays`.

## Model

| member | source | states |
|---|---|---|
| `IndieAuth.IsValidIff` | indieauth/indieauth.go:35-46 | A token response is valid exactly when the status is 200 and neither `me` nor `scope` is empty after trimming white space. This holds in both directions. |
| `IndieAuth.ParseDomainAsWritten` | indieauth/indieauth.go:158-166 | Returns "" when the URL does not parse. Otherwise it panics exactly when the host has no dot, because it indexes `parts[len-2]`. |
| `IndieAuth.EmptyMePanics` | indieauth/indieauth.go:148-150 | If the token response has no `me` (an empty URL has an empty host), the domain comparison as written panics. |
| `IndieAuth.ParseDomain` | indieauth/indieauth.go:158-166 | Corrected domain parse: None exactly where the as-written parse panics (a parsable URL whose host has no dot), and otherwise the as-written value, including "" for an unparsable URL. |
| `IndieAuth.ParseDomainLastTwoLabels` | indieauth/indieauth.go:162-165 | For a dotted host, the parsed domain is its last two labels, `a.b` out of `pre….a.b`. |
| `IndieAuth.CompareDomainsSubdomain` | indieauth/indieauth.go:148-157 | Two URLs whose hosts share the last two labels `a.b` compare equal, whatever their subdomains. |
| `IndieAuth.CompareDomainsAgrees` | indieauth/indieauth.go:148-157 | Wherever the as-written comparison does not panic, the corrected comparison returns the same verdict, so two unparsable URLs still match; where it panics, the corrected comparison rejects. |
| `IndieAuth.TokenForm` | indieauth/indieauth.go:189-194 | The token request form has exactly the five keys `grant_type`, `code`, `client_id`, `redirect_uri` and `me`. Each has the one given value, and `grant_type` is `authorization_code`. |
| `IndieAuth.Client.constructor` | indieauth/indieauth.go:54-60 | The client keeps the session store and the URL codec it is given. |
| `IndieAuth.Client.Init` | indieauth/indieauth.go:99-139 | With no uid the answer is 400 and the store is unchanged. Otherwise the steps are new session, endpoint discovery, redirect URL, store write. A discovery error gives 400, an unparsable authorization endpoint gives an empty response, and a store fault gives 500; none of these writes anything. Success stores the discovered session under its uid, whose state is the uid, and redirects to the authorization URL. The store stays keyed by uid throughout. |
| `IndieAuth.Client.Callback` | indieauth/indieauth.go:168-251 | A failed fetch or unknown state gives 500, and a stored session whose state differs gives 403; in both cases no token request is made. An unparsable token endpoint also gives 500 with no request. Otherwise the token form above is sent to the session's token endpoint, and the outcome is decided in this order: transport error 500, non-200 reply 403, unreadable body 500, domain mismatch (corrected comparison) 403, store fault 500. On success the session is stored with the access token and token type, and the answer redirects to `/composer` with the session cookie. Only a redirect writes to the store. |
| `Sessions.NewUserSession` | storage/storage.go:68-81 | Fails exactly when no uid can be generated. Otherwise the session carries `me`, client id and redirect URI, the uid as its state, scope `create`, no endpoints and no token, and an empty composer. |
| `Sessions.SessionStore.constructor` | storage/storage.go:45-48 | A new store is empty and well formed. |
| `Sessions.SessionStore.Create` | storage/storage.go:246-262 | A write without a fault stores the session under its uid and reports success. A faulted write changes nothing and reports failure. |
| `Sessions.SessionStore.FetchByID` | storage/storage.go:264-282 | Succeeds exactly when there is no fault and the id is stored. It then returns that record, whose uid is the id. Otherwise it returns the fetch error. |
| `Sessions.StoreRoundTrip` | storage/storage.go:246-282 | On any store whose records are filed under their own uids, a session written and then fetched by its uid comes back unchanged, and the write replaces only that uid's record. |
| `Sessions.StagePhotos` | pkg/micropub/micropub.go:560-585 | Staging a batch of upload outcomes appends exactly the successful uploads to the composer's photos, in upload order. |
| `Sessions.StagePublished` | micropub/micropub_test.go:77-87 | After staging, the published date is that of the last successful upload with a non-empty date, or the previous one when there is none. |
| `Sessions.StoredAfterStep` | pkg/micropub/micropub.go:560-585 | One loop step extends both the staged composer and the store contents by exactly the next upload. |
| `Sessions.StoredAfterOthers` | pkg/micropub/micropub.go:575-580 | Staging writes only the one session. Every other record is unchanged. |
| `Sessions.StoredAfterNothingWritten` | pkg/micropub/micropub.go:560-585 | If every upload failed or its write faulted, the store is unchanged. |
| `Sessions.StoredAfterAllWritten` | pkg/micropub/micropub.go:560-585 | If no write faults and some upload succeeded, the stored session holds the fully staged composer: the old photos followed by every successful upload, in order. |
| `Discovery.BuildAuthRedirectUrl` | storage/storage.go:83-97 | Fails exactly when the authorization endpoint does not parse. Otherwise the URL keeps that endpoint's host, path and other parameters, and sets `me`, `client_id`, `redirect_uri`, `state` and `scope` to the session's values and `response_type` to `code`. |
| `Discovery.FirstRel` | storage/storage.go:179-186 | Finds a link with the wanted rel exactly when one exists, and returns the URL of the first such link. |
| `Discovery.FindEndpoint` | storage/storage.go:174-207 | When a Link header is present, the result comes only from the header (first matching rel, else ""). Otherwise it is the HTML pre-order search. |
| `Discovery.FirstFound` | storage/storage.go:192-206 | A non-empty result is the href of some matching `<link>`. An empty result means no node yields a non-empty href. |
| `Discovery.FirstFoundAppend` | storage/storage.go:200-205 | Searching a concatenation is searching the first part, then the second. |
| `Discovery.InTreePreOrder` | storage/storage.go:189-206 | The recursive HTML search returns the first non-empty match in document pre-order. |
| `Discovery.InChildrenPreOrder` | storage/storage.go:200-205 | Within the siblings, the search returns the first match in pre-order. |
| `Discovery.BuildConfigUrl` | storage/storage.go:142-151 | Fails exactly when the endpoint does not parse. Otherwise it is the endpoint with `q=config` set and every other query key kept. |
| `Discovery.DiscoverMediaEndpoint` | storage/storage.go:125-140 | Only the media endpoint changes. It is set from the fetched configuration when the config URL builds and the fetch succeeds. Otherwise it is empty. |
| `Discovery.DiscoverEndpointsOutcome` | storage/storage.go:99-123 | Succeeds exactly when the profile answers 200 with a parsable page that names an authorization endpoint. A failed fetch, a non-200 or an unparsable page leaves the session unchanged. A missing authorization endpoint fails before the token, micropub and media endpoints change. Outcome and error alike change only the four endpoints: uid, state, me, client id, redirect URI, scope, access token, token type and composer always keep the caller's values. |
| `Discovery.DiscoverEndpointsFound` | storage/storage.go:110-121 | On success the authorization, token and micropub endpoints are the ones `findEndpoint` reports for the profile, and the authorization endpoint is non-empty. |
| `Events.Apply` | storage/storage.go:860-862 | Replaying a post-created event yields its post. A null event leaves the post unchanged. |
| `Events.ReplayLast` | storage/storage.go:860-862 | A fact about folding `Apply` over a log; no reader in the source folds one. Folding a log whose last post-created event is at k, with only null events after it, yields that event's post. |
| `Events.ReplayNulls` | storage/storage.go:221-223 | A fact about folding `Apply` over a log; no reader in the source folds one. Folding a log of null events leaves the post unchanged. |
| `Events.UnmarshalEvent` | storage/storage.go:792-814 | Decoding succeeds exactly when the type is `PostCreated` and the payload decodes. On any error the event is the null event, and the error says whether the type was unreadable or unknown. |
| `Events.UnmarshalApply` | storage/storage.go:792-814 | Applying a decoded record either installs its post or, on an error, leaves the post unchanged. |
| `Events.KeptBounds` | storage/storage.go:760-772 | The fetched log is never longer than the key listing. When decoding yields only post-created events, so does the log. |
| `Events.KeptAll` | storage/storage.go:760-772 | When every key downloads and decodes, the log has one event per key, in listing order. |
| `Events.FetchAll` | storage/storage.go:750-776 | A listing error gives an empty log and that error. Otherwise the result is the kept events and no error. |
| `CreateForm.PhotoUrls` | pkg/micropub/micropub.go:331-333 | One URL per staged photo, in order. |
| `CreateForm.HasBodyPhoto` | pkg/micropub/micropub.go:331-333 | Adding the next photo URL extends the form's `photo` values by exactly that URL. |
| `CreateForm.HasBodyComplete` | pkg/micropub/micropub.go:335-342 | Adding `published`, and `location` when there is one, completes a create form. |
| `CreateForm.CreateFormUnique` | pkg/micropub/micropub.go:328-342 | The create form is determined uniquely by content, type, photos, published date and location. |
| `CreateForm.BuildCreateForm` | pkg/micropub/micropub.go:327-342 | The form holds `h`, `content`, every photo URL in order, `published` (the composer's date or else now) and `location` exactly when one is set. It holds nothing else. |
| `Composer.Server.constructor` | pkg/micropub/micropub.go:38-53 | The server keeps the session store it is given. |
| `Composer.Server.SubmitPost` | pkg/micropub/micropub.go:311-368 | A failed fetch gives 500 with the fetch error, sends nothing and writes nothing. Otherwise the create form built from the session's composer is sent to the session's micropub endpoint with its access token. A send error gives 500 and leaves the store unchanged. Otherwise the response echoes the endpoint's status and Location, and the session is written back with an empty composer unless the write faults. |
| `Composer.Server.AddLocation` | pkg/micropub/micropub.go:453-488 | A failed fetch gives 500. Otherwise the composer's location becomes the given locality, region and country with the point read from lat/lng, and nothing else in the session changes. A write fault gives 500 and changes nothing; success redirects to `/composer`. |
| `Composer.Server.AddPhotos` | pkg/micropub/micropub.go:544-595 | A failed fetch gives 500 and writes nothing. Otherwise every upload is attempted. Each success is staged and written back at once, and a failed upload or write does not stop the loop. The store ends as `StoredAfter` of the upload outcomes, and the answer redirects to `/composer`. |
| `Composer.MediaListUrlParams` | pkg/micropub/micropub.go:759-764 | The media query URL is the endpoint with `q=source&limit=15`, then either `after=` or `year=`/`month=`. |
| `Composer.MediaListUrlByMonth` | pkg/micropub/micropub.go:760-761 | Without an after key, the query asks for the given year and month. |
| `Composer.MediaListUrlAfter` | pkg/micropub/micropub.go:762-763 | With an after key, the query pages on it and ignores year and month. |
| `Composer.PostListUrlParams` | pkg/micropub/micropub.go:846-850 | The post list query is `q=source`, with `after=` only when an after key is given. |
| `Composer.MonthsListUrlParams` | pkg/micropub/micropub.go:920 | The months query is `q=months&year=`. |
| `Composer.MediaItemUrlParams` | pkg/micropub/micropub.go:811 | The single-media query is `q=source&url=`. |
| `LegacyComposer.Server.constructor` | micropub/micropub.go:24-31 | The server keeps the session store it is given. |
| `LegacyComposer.Server.SubmitPost` | micropub/micropub.go:75-121 | A failed fetch gives 500 and sends nothing. Otherwise the create form (published falls back to now, location only when set) is sent to the session's endpoint, the session is written back with an empty composer unless the write faults, and the answer always redirects to `/composer`. |
| `LegacyComposer.Server.AddPhotos` | micropub/micropub.go:249-296 | A failed fetch gives 500 and writes nothing. Otherwise each successful upload is staged and written at once, the store ends as `StoredAfter` of the outcomes, and the answer redirects to `/composer`. |
| `LegacyComposer.OneUploadStored` | micropub/micropub_test.go:45-96 | One successful upload with its URL, date and location is stored as exactly that one photo, date and location. |
| `Mf2.PropertyNameOfList` | pkg/mf2/mf2.go:28 | A `name[]` form key and a plain `name` key name the same property. |
| `Mf2.Strs` | pkg/mf2/mf2.go:32-34 | Each form value becomes one string property value, in order. |
| `Mf2.AppendedStep` | pkg/mf2/mf2.go:32-34 | Appending one more value extends the property by exactly that value. |
| `Mf2.AppendValues` | pkg/mf2/mf2.go:32-34 | Every form value of a key is appended to its property, in order. No other property changes. |
| `Mf2.CollectsAllStep` | pkg/mf2/mf2.go:27-35 | Visiting one more form key keeps the property map equal to the reference `Collected` definition. |
| `Mf2.MfFromForm` | pkg/mf2/mf2.go:16-38 | The types come from the `h` values. A property exists exactly when some visited key other than `access_token` contributes values to it. The properties equal the reference collection, and there are no children. |
| `Mf2.CollectedKeepsValues` | pkg/mf2/mf2.go:27-35 | No submitted value of a visited key is lost. |
| `Mf2.VisitedHas` | pkg/mf2/mf2.go:32-34 | A visited key contributes each of its values. |
| `Mf2.CollectedFromForm` | pkg/mf2/mf2.go:27-35 | Every collected value was submitted under some key naming that property, and never under `access_token`. |
| `Mf2.CollectedSingle` | pkg/mf2/mf2.go:27-35 | When only one key names a property, the property is that key's values in order. |
| `Mf2.CollectedAbsent` | pkg/mf2/mf2.go:27-35 | A property no visited key names is not collected. |
| `Mf2.FirstString` | pkg/mf2/mf2.go:181-189 | The result is the first string value, or "" when there is none. |
| `Mf2.StringsOf` | pkg/mf2/mf2.go:190-199 | The result holds exactly the string values, and is never longer than the input. |
| `Mf2.StringsOfAppend` | pkg/mf2/mf2.go:190-199 | Collecting strings distributes over concatenation. |
| `Mf2.FirstStringOfSlice` | pkg/mf2/mf2.go:181-199 | The first string is the head of the string slice, or "" when the slice is empty. |
| `Mf2.GetFirstString` | pkg/mf2/mf2.go:181-189 | The loop returns the first string value of the property. |
| `Mf2.GetStringSlice` | pkg/mf2/mf2.go:190-199 | The loop returns all string values of the property, in order. |
| `Mf2.AddProperty` | pkg/mf2/mf2.go:162-170 | The value is appended to that property, and every other property, the types and the children are unchanged. |
| `Mf2.AddPropertyStrings` | pkg/mf2/mf2.go:162-170 | Adding a string extends the property's string slice by it, and keeps the first string when there was one. |
| `Mf2.AddChild` | pkg/mf2/mf2.go:173-175 | The value is appended to the children, and nothing else changes. |
| `Mf2.SetDefaults` | pkg/mf2/mf2.go:106-125 | A missing type becomes `h-entry`. `published` and `author` get defaults only when they have no values. `uid` and `url` are always replaced by the given one. No other property and no child changes. |
| `Mf2.SetDefaultsTwice` | pkg/mf2/mf2.go:106-125 | A second `SetDefaults` keeps the type, published date and author from the first, and only replaces uid and url. |
| `Mf2.Feeds` | pkg/mf2/mf2.go:93-96 | Feeds are `all` plus the year-month of the first published value. |
| `Mf2.FeedsUnpublished` | pkg/mf2/mf2.go:93-104 | A post with no published string is filed under `000000` when the empty string does not parse. |
| `Mf2.FeedsAfterDefaults` | pkg/mf2/mf2.go:93-125 | After defaults, an undated post is filed under the month of `now`. |
| `Mf2.PrepForHugo` | pkg/mf2/mf2.go:254-257 | Only the URL changes: the site prefix is removed when present, and otherwise the URL is kept. |
| `Mf2.PrepForHugoPath` | pkg/mf2/mf2.go:254-257 | A site URL becomes its root-relative path, and preparing twice equals preparing once. |
| `Mf2.Proxied` | pkg/mf2/mf2.go:259-263 | Each photo URL is prefixed by the image proxy, in order. |
| `Mf2.ProxiedTwice` | pkg/mf2/mf2.go:259-263 | Proxying twice is proxying once through the concatenated prefix, so the rewrite is not idempotent. |
| `Mf2.PrepImageLinks` | pkg/mf2/mf2.go:259-263 | The in-place loop rewrites the photo array to its proxied version. |
| `Mf2.NotLessTransitive` | pkg/mf2/mf2.go:250 | The "not later than" relation between published strings is transitive. |
| `Mf2.LessAsymmetric` | pkg/mf2/mf2.go:250 | The string order used by the sort is asymmetric. |
| `Mf2.InsertingStart` | pkg/mf2/mf2.go:248-252 | The insertion step's invariant holds when the step begins. |
| `Mf2.InsertingSwap` | pkg/mf2/mf2.go:248-252 | A swap of adjacent out-of-order elements keeps the invariant. |
| `Mf2.InsertingDone` | pkg/mf2/mf2.go:248-252 | When the step stops, the prefix is sorted newest first. |
| `Mf2.InsertDesc` | pkg/mf2/mf2.go:248-252 | Inserting one element keeps the prefix sorted newest first and permutes the array. |
| `Mf2.SortDesc` | pkg/mf2/mf2.go:248-252 | The array ends sorted newest first and is a permutation of its old contents. |
| `Mf2.SortChildren` | pkg/mf2/mf2.go:248-252 | Children end sorted by `published`, newest first, as a permutation of the old children. |
| `Mf2.PostList.constructor` | pkg/mf2/mf2.go:59-62 | A new post list is empty and has no paging. |
| `Mf2.PostList.Add` | pkg/mf2/mf2.go:68-70 | The item is appended, and paging is unchanged. |
| `Mf2.PostList.Sort` | pkg/mf2/mf2.go:81-85 | Panics exactly when there are two or more items and one of them has no type, since the comparator's `ToView` reads `Type[0]` (pkg/mf2/mf2.go:133). Otherwise the items end newest first. Either way they are a permutation of the old items, and paging is unchanged. |
| `Okami.YearsOf` | pkg/okami/okami.go:97-99 | One archive year per client year, with the same year and count. |
| `Okami.MonthsOf` | pkg/okami/okami.go:116-118 | One archive month per client month, with the same month and count. |
| `Okami.MediaOf` | pkg/okami/okami.go:137-146 | One media item per query item, with the same URL, date and published flag; the MIME type is left empty. |
| `Okami.ListMediaYears` | pkg/okami/okami.go:86-102 | The loop returns the client's years converted one by one, or none when the client fails. |
| `Okami.ListMediaMonths` | pkg/okami/okami.go:104-121 | The loop returns the client's months of the year converted one by one, or none when the client fails. |
| `Okami.ListMediaItems` | pkg/okami/okami.go:123-154 | The loop returns the converted media and the next after key ("" without paging), or nothing when the client fails. |
| `Okami.ListMediaResult` | pkg/okami/okami.go:54-84 | The year is the selected one, else the first listed year. The month is the selected one, else the first month listed for that year. An unselected value with an empty list panics (index out of range). Otherwise the response carries the years, the months, the current year and month, and the media page and after key for them. |
| `Okami.ListMedia` | pkg/okami/okami.go:54-84 | The method computes exactly `ListMediaResult`. |
| `Okami.ListMediaDefaults` | pkg/okami/okami_test.go:37-56 | With no year or month selected, the current year and month are the first listed ones, and the media and after key come from that query. |
| `Okami.ListMediaClientDown` | pkg/okami/okami.go:86-154 | With year and month selected and every client call failing, the response is empty, with no after key, apart from the selected year and month. |
| `View.InMonthRange` | pkg/view/view.go:95 | Accepts exactly the month numbers 1 to 12. |
| `View.MonthNumber` | pkg/view/view.go:95 | A parsed month number lies in 1 to 12. |
| `View.LookupIndex` | pkg/view/view.go:96 | The month-name lookup returns the k-th name. |
| `View.ParseMonth` | pkg/view/view.go:94-97 | An unparsable month falls back to `January`, the zero time's month. |
| `View.ParseMonthName` | pkg/view/view.go:94-97 | The result is always a month name, and it is the parsed month's name when the input parses. |
| `View.ParseMonthDecimal` | pkg/view/view.go:94-97 | Month n in decimal, with or without a leading zero, gives the n-th month name. |
| `View.ParseMonthFallback` | pkg/view/view.go:94-97 | "", "0" and "13" all fall back to `January`. |
| `View.EscapedHasNoSeparator` | pkg/view/view.go:107-114 | A query-escaped value contains no `&` or `?`. |
| `View.MonthLinkParams` | pkg/view/view.go:107-114 | A month link is a bare query whose parameters are `month=` and `year=`, sorted by key, with escaped values that split back apart. |
| `View.YearLinkParams` | pkg/view/view.go:127-133 | A year link is a bare query with the single escaped `year=` parameter. |
| `View.PlainLinks` | pkg/view/view_test.go:63-68 | For values that need no escaping, the links are `?month=M&year=Y` and `?year=Y`. |
| `View.MonthsView` | pkg/view/view.go:99-120 | One entry per archive month: the month name and year, the count and the link. |
| `View.YearsView` | pkg/view/view.go:122-139 | One entry per archive year: the year, the count and the link. |
| `View.ParseMonths` | pkg/view/view.go:99-120 | The loop computes `MonthsView`. |
| `View.ParseYears` | pkg/view/view.go:122-139 | The loop computes `YearsView`. |
| `View.ParseMedia` | pkg/view/view.go:173-183 | The URL is kept, and the border is red exactly when the item is published, near-white otherwise. |
| `View.MediaListView` | pkg/view/view.go:185-193 | One tile per media item, in order. |
| `View.ParseMediaList` | pkg/view/view.go:185-193 | The loop computes `MediaListView`. |
| `View.DayKeys` | pkg/view/view.go:146-148 | Each dated item's day key is its formatted date. |
| `View.FirstOccurrences` | pkg/view/view.go:145-156 | The day list holds each day that occurs, exactly once. |
| `View.FirstIndex` | pkg/view/view.go:154-156 | The first position at which a day occurs. |
| `View.FirstIndexUnique` | pkg/view/view.go:154-156 | The first position is the only position with no earlier occurrence. |
| `View.FirstIndexPrefix` | pkg/view/view.go:154-156 | Later items do not move a day's first position. |
| `View.FirstIndexInit` | pkg/view/view.go:154-156 | Removing the last key keeps the first positions of the days seen before it. |
| `View.FirstOrderNew` | pkg/view/view.go:154-156 | A new day appended last keeps the day list in first-occurrence order. |
| `View.FirstOrderSeen` | pkg/view/view.go:154-156 | A repeated day keeps the day list in first-occurrence order. |
| `View.FirstOccurrencesOrder` | pkg/view/view.go:141-171 | Days appear in the order of their first occurrence among the media. |
| `View.GroupHasItem` | pkg/view/view.go:146-153 | Every media tile appears under its own day. |
| `View.GroupAbsent` | pkg/view/view.go:146-153 | A day no item has gets no tiles. |
| `View.GroupSizesAppend` | pkg/view/view.go:150-153 | Adding one day to the list adds its group's size. |
| `View.GroupSizesStep` | pkg/view/view.go:150-153 | One more item adds one to the group sizes if its day is listed, and nothing otherwise. |
| `View.GroupsPartition` | pkg/view/view.go:141-171 | The group sizes over the day list sum to the number of media, so the groups partition the media. |
| `View.GroupSnoc` | pkg/view/view.go:150-153 | One more item extends its own day's group by its tile, and no other group changes. |
| `View.FirstOccurrencesSnoc` | pkg/view/view.go:154-156 | One more item adds its day to the list only if it is new. |
| `View.DayKeysSnoc` | pkg/view/view.go:148 | One more dated item adds its day key. |
| `View.GroupedBySnoc` | pkg/view/view.go:148-153 | The map update of one loop step keeps the map equal to the reference grouping. |
| `View.GroupStep` | pkg/view/view.go:146-157 | One loop step keeps the map and day list equal to the reference grouping and first occurrences. |
| `View.GroupByDayStep` | pkg/view/view.go:146-157 | The loop invariant is preserved for the next media item. |
| `View.GroupByDay` | pkg/view/view.go:144-157 | Succeeds exactly when every item is dated. The day list is then the first occurrences of the day keys, and the map groups the tiles by day, in media order. |
| `View.ReadDays` | pkg/view/view.go:159-168 | One day entry per listed day: its human date and its group. |
| `View.MediaDaysFromMap` | pkg/view/view.go:159-168 | Reading the grouped map along the day list yields the reference `MediaDaysOf`. |
| `View.ParseMediaDays` | pkg/view/view.go:141-171 | Panics exactly when some item has no date. Otherwise the result is `MediaDaysOf`: the days in first-occurrence order, each with its tiles. |
| `View.ParseListMediaView` | pkg/view/view.go:195-215 | Panics exactly when some media item has no date. Otherwise the view's months are `MonthsView` of the current year, its years `YearsView`, its current month `ParseMonth`'s name, its tiles `MediaListView` (one per item), its day groups `MediaDaysOf`, and its title the fixed page title. It keeps the current year and the after key, and pages exactly when the after key is non-empty. |
| `View.ViewTilesGrouped` | pkg/view/view.go:200-201 | The view's day groups are one per distinct day, dated by that day. Every tile of the flat list is in the group of its own day, and the groups hold exactly as many tiles as the flat list. |
| `View.TileCountGroups` | pkg/view/view.go:141-171 | Day groups holding the groups of a day list hold as many tiles as those groups. |
| `View.ArchiveYearsExample` | pkg/view/view_test.go:50-69 | The years of the example render as `?year=2019` and `?year=2016` with their counts. |
| `View.ArchiveMonthsExample` | pkg/view/view_test.go:44-70 | The months of the example render as "February, 2019" and "October, 2019", with their links. The current month is "March". |
| `Web.Set` | indieauth/indieauth.go:189-194 | Setting a key gives it exactly that one value, and no other key changes. |
| `Web.Add` | pkg/micropub/micropub.go:329-333 | Adding appends to the key's values, and no other key changes. |
| `Web.QueryRoundTrip` | pkg/micropub/micropub.go:759-764 | Joining parameters after `?` splits back into the endpoint and the same parameters. |
| `Text.TrimSpaceBlank` | indieauth/indieauth.go:39-44 | Trimming white space yields "" exactly when the string is all white space. |
| `Text.TrimLeftSuffix` | indieauth/indieauth.go:39-44 | What TrimLeft keeps is a suffix of the input. Every dropped character is in the cut set, and the result does not start with one. |
| `Text.TrimRightPrefix` | indieauth/indieauth.go:39-44 | What TrimRight keeps is a prefix of the input. Every dropped character is in the cut set, and the result does not end with one. |
| `Text.Split` | indieauth/indieauth.go:163 | The parts contain no separator and join back to the input. |
| `Text.SplitJoin` | indieauth/indieauth.go:163 | Splitting a join of separator-free parts gives back the parts. |
| `Text.JoinCons` | indieauth/indieauth.go:163 | Joining a leading part puts the part, then the separator, before the rest. |
| `Text.IndexOf` | indieauth/indieauth.go:163 | The result is the first position of the character. |
| `Text.IndexOfAt` | indieauth/indieauth.go:163 | A position holding the character, with no earlier occurrence, is its index. |
| `Text.ToLower` | indieauth/indieauth.go:153 | Lower-casing keeps the length and lowers each letter. |
| `Text.ToLowerIdempotent` | indieauth/indieauth.go:153 | Lower-casing twice equals lower-casing once. |
| `Text.TrimCutset` | pkg/mf2/mf2.go:28 | The result is no longer than the input, and neither end is in the cut set. |
| `Text.TrimCutsetSlice` | pkg/mf2/mf2.go:28 | The result is one slice of the input, and every character before and after that slice is in the cut set. |
| `Text.TrimCutsetAround` | pkg/mf2/mf2.go:28 | Trimming cut-set padding around a string with no cut characters at its ends gives back that string. |
| `Text.TrimPrefix` | pkg/mf2/mf2.go:255 | The prefix is removed when present, and the string is unchanged otherwise. |
| `Text.LessIrreflexive` | pkg/mf2/mf2.go:250 | No string is before itself. |
| `Text.LessTransitive` | pkg/mf2/mf2.go:250 | The string order is transitive. |
| `Text.LessTotal` | pkg/mf2/mf2.go:250 | Of any two distinct strings, one is before the other. |
| `Text.Utf8` | pkg/view/view.go:114 | Each character encodes to one to four bytes. |
| `Text.HexDigit` | pkg/view/view.go:114 | A nibble encodes to an upper-case hex digit. |
| `Text.PercentEncode` | pkg/view/view.go:114 | Each byte becomes three characters: `%` and two hex digits. |
| `Text.EscapeChar` | pkg/view/view.go:114 | An escaped character consists only of unreserved characters, `%` and `+`. |
| `Text.QueryEscape` | pkg/view/view.go:114 | An escaped string consists only of unreserved characters, `%` and `+`, and is no shorter than the input. |
| `Text.QueryEscapeUnreserved` | pkg/view/view.go:114 | A string of unreserved characters escapes to itself. |

## Left out

- HTTP handlers, templates and rendering (`Handle*`, `Show*Form`, `Render`, `ToView`, `ToJSON`, `MfFromJson`). They are I/O around the modelled operations.
- The wire clients (`UploadToMediaServer`, `SendRequest`, `Query*` bodies, `fetchMicropubConfig`). They are network calls. Their results are parameters, and only the query URLs they build are modelled.
- `VerifyAccessToken` and the bearer-token middleware. They are a network call with no state of the core's own.
- Storage backends (S3, DynamoDB, SQLite), `CreatePostEvent` and the post stores. The session store is one map-backed class whose per-call faults are parameters. The event log is modelled from a key listing and a download function.
- Floating point. The GeoURL latitude and longitude are not parsed. The geo URL built from lat/lng is a parameter (`geoOf`) in AddPhotos, and a string in AddLocation. Because `geoOf` is total, the model does not show that `GeoURL.Lng` (pkg/micropub/micropub.go:523-535) reads `latlng[1]` after splitting on ",", so a non-empty upload location without a comma panics inside AddPhotos.
- The clock, date parsing and formatting: `now`, `yearMonthOf`, `dayOf`, `humanDay` and `publishedOf` are parameters. Only the month parsing of `parseMonth` is modelled concretely.
- uuid generation. The uid is a parameter, and "none" models its error path.
- Concurrency. The handlers are not modelled, and each operation is sequential.
- HTML and Link-header parsing. They are given as parsed datatypes (`Node`, `LinkValue`).
- `Discovery.FindEndpoint`: reads only the canonical `Link` header key, in header order. Go ranges over the header map, which is unordered, and the model cannot see other capitalisations.
- h-card discovery and `HCard`. They are not part of `DiscoverEndpoints`.
- Go's map iteration order in `MfFromForm`. It is the `order` parameter, and the properties are proved equal to the reference collection for any order.
- `Mf2.SetDefaults`: does not model the nil-map panic when the post has no properties map, because a Dafny map always exists.
- `Sessions.SessionStore.FetchByID`: the JSON decode error of the stored object is not modelled, because the source ignores it. The fetch error texts are stand-ins.
- `IndieAuth.Client.Callback`: the JSON decode error of the token reply is ignored as in the source, so the decoded (possibly zero) value is a parameter.
- The `pkg/session` and `pkg/mpclient` types. They are not part of this model. Their shapes are modelled from their uses in the files above.
- Media coordinates and the other `MediaQueryListResponseItem` fields the view does not read.
- `Text.ToLower`: lowers only `A`-`Z`. Go's `strings.ToLower` also folds non-ASCII letters, so two hosts that differ only in a non-ASCII letter's case compare unequal here.
- `Mf2.PostList.Sort`: the published key is the parameter `publishedOf`, so `normalizeDate`'s fallback to the current time is not modelled. After a panic the items are left as they were, whereas Go stops mid-sort with the items partly reordered; the contract promises only a permutation there.
- `Sessions.AddPhotoUpload`: the upload's location replaces the staged one on every upload, even an empty one. This overwrite rule is assumed, because `pkg/session` is not part of this model.

## Findings

| source | as written | input that shows it | evidently intended | confidence | as-written member | corrected member |
|---|---|---|---|---|---|---|
| indieauth/indieauth.go:158-166 | `parseDomain` splits the host on `.` and indexes `parts[len(parts)-2]`, so a host with fewer than two labels panics | a token reply without `me`: `url.Parse("")` gives an empty host, and `CompareDomains` panics (`IndieAuth.EmptyMePanics`) | refuse the login with 403, as for any domain mismatch; every other input, an unparsable URL included, compares as written | not executed | `IndieAuth.ParseDomainAsWritten` | `IndieAuth.ParseDomain` |
