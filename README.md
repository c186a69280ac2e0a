# Spotify dependencies, modelled in Dafny

This project models the shared layer that the Spotify bots build on, in
`src/main/java/spotify`:

- **`SpotifyCall`** is the "greedy" executor.
  - It retries one Web API request for up to ten attempts.
  - After a 401 it refreshes the token and rewrites the `Authorization` header.
  - After a 429 it backs off for `retryAfter * 1000 * attempt + 1000` ms.
  - After a 404, 400 or 403 it stops.
  - A parse or I/O failure is wrapped and thrown at once.
  - Any other failure sleeps 10 s.
  - Its two pagers drive the executor until a page has no `next`. The offset pager advances the offset; the cursor pager advances the `after` cursor.
- **`SpotifyApiManager`** holds the credential state machine: `refresh`, `authorizationCodeRefresh` (token presence and scope check), `updateTokens`, `loginCallback`, `authenticate` and `generateRedirectUri`.
- **`SpotifyUtils` and `BotUtils`** are the helpers:
  - list partitioning;
  - URI id extraction;
  - the two duration formats;
  - largest and smallest image;
  - null filtering;
  - scope joining;
  - release year;
  - the numeric part of the EP rule.
- **`SpotifyLogger` and `BotLogger`** cover message truncation (two different versions), `printLine`, the log-tail reader, and the enable switch of the external log.
- **`PlaylistService`, `AlbumService` and `TrackService`** cover:
  - the request payloads and their batching (100 playlist items, 50 artist ids);
  - appears-on artist tagging and name resolution;
  - the search selection rule;
  - the album-to-tracks pairing;
  - null-on-error audio features.
- **`SpotifyApiConfig` and `SpringPortConfig`** cover:
  - where the properties come from;
  - the required-field checks;
  - the token write-back;
  - the memoised port.

Each Java file is one Dafny module, in a file named after it.

- `Lang` (`lang.dfy`) holds what Java gives the source for free:
  - `Option` for `null` and `Result` for exceptions;
  - 32-bit `int` wrap-around;
  - truncating division;
  - `String.split` with its trailing-empty rule;
  - `equalsIgnoreCase` over the JVM's case tables, which are a parameter, and an ASCII-only variant for comparing with the word "null";
  - `isBlank`, and `Integer.parseInt` over ASCII digits;
  - a mutable `JavaList`.
- `SpotifyObjects` holds the Web API value types.

Where the source changes state step by step, the model is imperative:

- Classes hold the fields the source updates: the request builder, the remote side, the manager, the loggers, the config objects and the port config.
- Methods run the source's loops.
- Each such method is proved equal to a pure specification function, and the properties are proved about that function.

The remote Web API is a script of replies. An attempt made after the script has run out fails with an `IOException`, and this is what makes every pager terminate. Sleeps, refreshes and sent requests are recorded, not performed.

Parse and I/O errors are not retried: `SpotifyCall.java:61-62` wraps and rethrows them on the attempt where they occur.

## Model

| member | source | states |
|---|---|---|
| SpotifyCall.ExecuteFrom | src/main/java/spotify/api/SpotifyCall.java:53-79 | a call that succeeds has consumed at least one scripted reply (so the pagers terminate) |
| SpotifyCall.ExecuteFromBounds | src/main/java/spotify/api/SpotifyCall.java:53-79 | from attempt `a`, `execute` sends at least 1 and at most `10 - a + 1` requests; earlier requests stay logged; replies are consumed from the front |
| SpotifyCall.SendOnce | src/main/java/spotify/api/SpotifyCall.java:55-56 | one attempt sends the builder's current request and takes the next reply; with no reply left the attempt raises an `IOException`; nothing else changes |
| SpotifyCall.Recover | src/main/java/spotify/api/SpotifyCall.java:57-75 | a catch block either ends the call with a failure or retries; neither consumes a reply nor sends a request |
| SpotifyCall.ThrottleSleepsValues | src/main/java/spotify/api/SpotifyCall.java:66-69 | the i-th 429 back-off is `retryAfter_i * 1000 * (attempt + i) + 1000` ms |
| SpotifyCall.RateLimitedThenSuccess | src/main/java/spotify/api/SpotifyCall.java:53-69 | after k 429 replies a success returns on attempt k + 1; exactly k + 1 requests are sent; the sleeps are the k back-offs in order; no refresh is made |
| SpotifyCall.ReturnsAtOnce | src/main/java/spotify/api/SpotifyCall.java:55-56 | a reply is returned at once: one request, no sleep, no refresh |
| SpotifyCall.ThrottledStep | src/main/java/spotify/api/SpotifyCall.java:66-69 | a 429 with a non-negative back-off records that sleep and goes on to the next attempt |
| SpotifyCall.NegativeBackOffStops | src/main/java/spotify/api/SpotifyCall.java:66-69 | a negative back-off ends the call with `Thread.sleep`'s `IllegalArgumentException`, unwrapped |
| SpotifyCall.StopsAtOnce | src/main/java/spotify/api/SpotifyCall.java:61-62 | a parse or I/O failure, or a 404/400/403, ends the call on that attempt: one request, no sleep, the exception thrown wrapped |
| SpotifyCall.UnauthorizedRefreshes | src/main/java/spotify/api/SpotifyCall.java:63-65 | a 401 calls `refresh()` exactly once and sets the header to `"Bearer " + token` before the next attempt, with no sleep |
| SpotifyCall.RefreshFailurePropagates | src/main/java/spotify/api/SpotifyCall.java:63-64 | an exception thrown by `refresh()` leaves `execute` unwrapped |
| SpotifyCall.GenericFailureSleeps | src/main/java/spotify/api/SpotifyCall.java:72-73 | any other exception sleeps exactly 10 000 ms and goes on to the next attempt |
| SpotifyCall.ExhaustsAttempts | src/main/java/spotify/api/SpotifyCall.java:27-28 | when every attempt fails generically, exactly ten requests and ten 10 000 ms sleeps are made, and the last exception is thrown wrapped |
| SpotifyCall.Throttled | src/main/java/spotify/api/SpotifyCall.java:66 | the scripted 429 replies, one per `retryAfter`, in order |
| SpotifyCall.ThrottleSleeps | src/main/java/spotify/api/SpotifyCall.java:68 | one back-off per 429 reply |
| SpotifyCall.PagedFromStep | src/main/java/spotify/api/SpotifyCall.java:94-100 | a page with `next` is followed by the rest of the pager, its items in front |
| SpotifyCall.PagedFrom | src/main/java/spotify/api/SpotifyCall.java:91-102 | specification of the offset pager: one `execute` per page, following `next`; its properties are `PagedItems`, `PagedRequests` and `PagedFromStep` |
| SpotifyCall.PagedRequests | src/main/java/spotify/api/SpotifyCall.java:91-102 | one `execute` per page up to and including the first page without `next` (one more if it fails); the first request keeps the builder's offset; each later one asks for the previous page's `offset + limit` as a 32-bit int |
| SpotifyCall.OffsetsChainedCons | src/main/java/spotify/api/SpotifyCall.java:95-97 | prepending a page with `next` to a chain of requests keeps it chained by offset |
| SpotifyCall.PagedItems | src/main/java/spotify/api/SpotifyCall.java:98-100 | on success the last page is the only page without `next`, and the result is the items of all pages in order, null item arrays counting as empty |
| SpotifyCall.PrependPrepend | src/main/java/spotify/api/SpotifyCall.java:99 | items already collected stay in front of those collected later |
| SpotifyCall.CursorPagedFromShape | src/main/java/spotify/api/SpotifyCall.java:116-132 | the first request is the builder's own; each later request carries `after` from the previous page's first cursor; a success returns all items in page order; a failure returns no partial list |
| SpotifyCall.CursorPagedFrom | src/main/java/spotify/api/SpotifyCall.java:116-132 | specification of the cursor pager: one `execute` per page, carrying the previous page's `after`; its properties are `CursorPagedFromShape` and `CursorAfterPage` |
| SpotifyCall.CursorAfterPage | src/main/java/spotify/api/SpotifyCall.java:119-130 | the same from any page on; a page with `next` but a null or empty cursor array fails before another request is sent |
| SpotifyCall.RequestBuilder.SetAuthorization | src/main/java/spotify/api/SpotifyCall.java:65 | sets only the `Authorization` header |
| SpotifyCall.RequestBuilder.SetOffset | src/main/java/spotify/api/SpotifyCall.java:96 | sets only the offset |
| SpotifyCall.RequestBuilder.SetAfter | src/main/java/spotify/api/SpotifyCall.java:123 | sets only the `after` cursor |
| SpotifyCall.Remote.Transmit | src/main/java/spotify/api/SpotifyCall.java:55-56 | sends the builder's request and returns the next scripted reply, as `SendOnce` says |
| SpotifyCall.Remote.Refresh | src/main/java/spotify/api/SpotifyCall.java:64 | returns the k-th `refresh()` result and counts the call |
| SpotifyCall.Remote.Sleep | src/main/java/spotify/api/SpotifyCall.java:69 | a negative duration throws and is not logged; any other duration is logged |
| SpotifyCall.Catch | src/main/java/spotify/api/SpotifyCall.java:58-74 | the catch clauses change the builder and the remote exactly as `Recover` says, and return the outcome or `None` to retry |
| SpotifyCall.TryOnce | src/main/java/spotify/api/SpotifyCall.java:54-75 | one pass of the loop body is `SendOnce` followed by `Recover` |
| SpotifyCall.Execute | src/main/java/spotify/api/SpotifyCall.java:50-80 | the retry loop returns exactly `ExecuteFrom(…, 1)` and leaves the builder and the remote in its final state |
| SpotifyCall.ExecutePaging | src/main/java/spotify/api/SpotifyCall.java:91-102 | the do-while loop returns exactly `PagedFrom(…)` and leaves the builder and the remote in its final state |
| SpotifyCall.ExecutePagingCursor | src/main/java/spotify/api/SpotifyCall.java:116-132 | the do-while loop returns exactly `CursorPagedFrom(…)` and leaves the builder and the remote in its final state |
| Manager.GenerateRedirectUri | src/main/java/spotify/api/SpotifyApiManager.java:216-230 | an environment URI is accepted exactly when it ends with `/callback` and is then used as is; otherwise `IllegalStateException`; without one, the URI is always built |
| Manager.RedirectUriEndsWithCallback | src/main/java/spotify/api/SpotifyApiManager.java:216-230 | every accepted redirect URI ends with `/callback` |
| Manager.DefaultRedirectUriPort | src/main/java/spotify/api/SpotifyApiManager.java:224-229 | the default URI is `http://127.0.0.1:` followed by the port in decimal, which parses back to the port, then `/callback` |
| Manager.FirstRepeatFrom | src/main/java/spotify/api/SpotifyApiManager.java:175 | finds a repeated scope exactly when `Set.of` would see a duplicate |
| Manager.ScopeCheck | src/main/java/spotify/api/SpotifyApiManager.java:174-178 | a null scope throws `NullPointerException`; a duplicated scope throws `IllegalArgumentException`; otherwise it passes exactly when every required scope is in the space-split granted scopes, and fails with `IllegalStateException` |
| Manager.RequiredScopesPass | src/main/java/spotify/api/SpotifyApiManager.java:136-139 | granting exactly the joined required scopes passes the scope check |
| Manager.UpdatedTokens | src/main/java/spotify/api/SpotifyApiManager.java:194-212 | each token is replaced only when the grant supplies it; the merged pair is saved to the config; a null token in the pair makes the config write throw `NullPointerException` |
| Manager.UpdateTokensIdempotent | src/main/java/spotify/api/SpotifyApiManager.java:194-207 | applying the same grant twice leaves the tokens as once |
| Manager.LoginCallbackSpec | src/main/java/spotify/api/SpotifyApiManager.java:81-86 | one code-grant request; on success the tokens are updated and exactly one permit is released; a failed grant changes no tokens and releases nothing |
| Manager.ScopeParameter | src/main/java/spotify/api/SpotifyApiManager.java:136-139 | the scope parameter is set exactly when the joined scopes are not blank |
| Manager.AuthenticateSpec | src/main/java/spotify/api/SpotifyApiManager.java:132-161 | the authorization URI is requested with the scope parameter; a failed URI request exits with status 182 (an API error) or rethrows; without a permit it exits with status 182 |
| Manager.AuthorizationCodeRefreshSpec | src/main/java/spotify/api/SpotifyApiManager.java:170-189 | without both tokens it throws `IllegalStateException` and sends nothing; a success returns the new access token and updates the tokens; a failure leaves the tokens and the permits unchanged |
| Manager.RefreshKeepsRequests | src/main/java/spotify/api/SpotifyApiManager.java:118-125 | `refresh` only appends requests |
| Manager.RefreshEnds | src/main/java/spotify/api/SpotifyApiManager.java:118-125 | a normal `refresh` ends with a refresh-grant request and stored tokens equal to the last saved pair; every exit status is 182; tokens once present stay present |
| Manager.OnlyIllegalStateLogsIn | src/main/java/spotify/api/SpotifyApiManager.java:118-125 | only an `IllegalStateException` from the refresh leads to `authenticate` and then to `refresh` again; any other exception is rethrown unchanged |
| Manager.PrefixTransitive | src/main/java/spotify/api/SpotifyApiManager.java:118-125 | request logs only grow, step after step |
| Manager.SpotifyApiManager.constructor | src/main/java/spotify/api/SpotifyApiManager.java:57-70 | the API object starts with the config's tokens and no permits |
| Manager.SpotifyApiManager.UpdateTokens | src/main/java/spotify/api/SpotifyApiManager.java:194-212 | the API object, the config object and the properties all receive the merged pair, as `UpdatedTokens` says |
| Manager.SpotifyApiManager.LoginCallback | src/main/java/spotify/api/SpotifyApiManager.java:81-86 | state change equal to `LoginCallbackSpec` |
| Manager.SpotifyApiManager.Authenticate | src/main/java/spotify/api/SpotifyApiManager.java:132-161 | state change equal to `AuthenticateSpec` |
| Manager.SpotifyApiManager.AuthorizationCodeRefresh | src/main/java/spotify/api/SpotifyApiManager.java:170-189 | state change equal to `AuthorizationCodeRefreshSpec` |
| Manager.SpotifyApiManager.RefreshFrom | src/main/java/spotify/api/SpotifyApiManager.java:118-125 | the recursive `refresh` equals `RefreshSpec` |
| Manager.SpotifyApiManager.Refresh | src/main/java/spotify/api/SpotifyApiManager.java:118-125 | the recursive `refresh` equals `RefreshSpec` |
| Manager.RefreshSpec | src/main/java/spotify/api/SpotifyApiManager.java:118-125 | specification of `refresh` over the scripted rounds: a refresh grant, then the interactive login only after an `IllegalStateException`; its properties are `RefreshEnds`, `OnlyIllegalStateLogsIn` and `RefreshKeepsRequests` |
| Manager.SpotifyApiManager.InitialLogin | src/main/java/spotify/api/SpotifyApiManager.java:113-116 | `refresh` followed by exactly one logged-in event when it returns normally |
| Manager.NewSpotifyApiManager | src/main/java/spotify/api/SpotifyApiManager.java:57-70 | the port comes from the port config; an invalid environment redirect URI fails construction; otherwise the manager starts from the config's tokens |
| SpotifyUtils.BuildScopesSplit | src/main/java/spotify/util/SpotifyUtils.java:98-100 | splitting the space-join of scopes without spaces gives the scopes back |
| SpotifyUtils.BuildScopes | src/main/java/spotify/util/SpotifyUtils.java:98-100 | the scopes joined by single spaces; `BuildScopesSplit` proves they split back |
| SpotifyUtils.IsNullStringSpellings | src/main/java/spotify/util/SpotifyUtils.java:160-162 | a string is a null string exactly when it is "null" in any letter case |
| SpotifyUtils.IsNullString | src/main/java/spotify/util/SpotifyUtils.java:160-162 | null, or "null" in any ASCII letter case; `IsNullStringSpellings` lists the sixteen spellings |
| SpotifyUtils.ItemsOf | src/main/java/spotify/util/SpotifyUtils.java:320-325 | a null array contributes no items |
| SpotifyUtils.AddToListIfNotBlank | src/main/java/spotify/util/SpotifyUtils.java:320-325 | a null or empty source leaves the target unchanged; otherwise its elements are appended in order |
| SpotifyUtils.PartitionFlatten | src/main/java/spotify/util/SpotifyUtils.java:665-673 | the parts, concatenated, are the input |
| SpotifyUtils.PartitionSizes | src/main/java/spotify/util/SpotifyUtils.java:665-673 | there are ceil(n / size) parts; all but the last have exactly `size` elements; the last has 1 to `size` |
| SpotifyUtils.PartitionList | src/main/java/spotify/util/SpotifyUtils.java:665-673 | the sublist loop produces exactly the partition |
| SpotifyUtils.Partition | src/main/java/spotify/util/SpotifyUtils.java:665-673 | specification of `partitionList`: consecutive slices of `size`; `PartitionFlatten` and `PartitionSizes` prove its content and sizes |
| SpotifyUtils.CreateAlbumGroupToListOfTMap | src/main/java/spotify/util/SpotifyUtils.java:134-140 | every album group maps to an empty list |
| SpotifyUtils.GetIdFromUri | src/main/java/spotify/util/SpotifyUtils.java:333-336 | the only failure is `ArrayIndexOutOfBoundsException` |
| SpotifyUtils.GetIdFromUriWithoutColon | src/main/java/spotify/util/SpotifyUtils.java:333-336 | a string without `:` is its own id |
| SpotifyUtils.GetIdFromUriAfterLastColon | src/main/java/spotify/util/SpotifyUtils.java:333-336 | the id is the text after the last `:` when that text is not empty |
| SpotifyUtils.GetIdFromUriOnlyColons | src/main/java/spotify/util/SpotifyUtils.java:333-336 | a string of colons only splits to no parts and fails |
| SpotifyUtils.FindReleaseYear | src/main/java/spotify/util/SpotifyUtils.java:344-348 | null for no date; otherwise the first four characters; a date shorter than four characters throws |
| SpotifyUtils.ReleaseYearOfIsoDate | src/main/java/spotify/util/SpotifyUtils.java:370-372 | the year of a track whose album date is `yyyy-…` is `yyyy` |
| SpotifyUtils.FindAlbumReleaseYear | src/main/java/spotify/util/SpotifyUtils.java:344-348 | the release year of the album's date, as `FindReleaseYear` |
| SpotifyUtils.FindTrackReleaseYear | src/main/java/spotify/util/SpotifyUtils.java:370-372 | the release year of the track's album; `ReleaseYearOfIsoDate` gives it for ISO dates |
| SpotifyUtils.GetLastArtistName | src/main/java/spotify/util/SpotifyUtils.java:294 | the last artist's name; throws exactly when there are no artists |
| SpotifyUtils.AnyArtistMatches | src/main/java/spotify/util/SpotifyUtils.java:437 | true exactly when some artist has the given non-null id |
| SpotifyUtils.ExtendedPlayByNumbers | src/main/java/spotify/util/SpotifyUtils.java:564-574 | five or more tracks make an EP; so does a total of at least 20 minutes that fits an `int` |
| SpotifyUtils.ShortReleaseIsNoExtendedPlay | src/main/java/spotify/util/SpotifyUtils.java:564-582 | without the EP title mark, short releases are never EPs |
| SpotifyUtils.ExtendedPlayByTitleTrack | src/main/java/spotify/util/SpotifyUtils.java:575-582 | in the middle band (3–4 tracks, 10–20 minutes) the title-track test decides |
| SpotifyUtils.IsExtendedPlay | src/main/java/spotify/util/SpotifyUtils.java:564-582 | the EP decision with the title checks as booleans and the duration sum as a wrapped `int`; its three lemmas above state the decision band by band |
| SpotifyUtils.ClockParts | src/main/java/spotify/util/SpotifyUtils.java:380-390 | minutes and seconds parts are below 60, and hours, minutes and seconds add up to the whole seconds |
| SpotifyUtils.FormatTimeReadsBack | src/main/java/spotify/util/SpotifyUtils.java:380-390 | reading the text back as a clock gives the whole seconds; it has three colon-separated fields (`h:mm:ss`) exactly from one hour on and two (`m:ss`) below, and every field after the first has two digits |
| SpotifyUtils.FormatTimeNegative | src/main/java/spotify/util/SpotifyUtils.java:380-390 | a negative duration formats with negative parts: -61 000 ms gives `-1:-1` |
| SpotifyUtils.ClockValueTwo | src/main/java/spotify/util/SpotifyUtils.java:387-388 | `m:ss` splits into its two fields and reads back as m·60 + s |
| SpotifyUtils.ClockValueThree | src/main/java/spotify/util/SpotifyUtils.java:384-385 | `h:mm:ss` splits into its three fields and reads back as (h·60 + m)·60 + s |
| SpotifyUtils.ToHours | src/main/java/spotify/util/SpotifyUtils.java:382 | `Duration.toHours`: whole seconds divided by 3600, truncated; `ClockParts` states its range |
| SpotifyUtils.ToMinutesPart | src/main/java/spotify/util/SpotifyUtils.java:383 | `Duration.toMinutesPart`: the minutes within the hour, truncated; `ClockParts` states its range |
| SpotifyUtils.ToSecondsPart | src/main/java/spotify/util/SpotifyUtils.java:384 | `Duration.toSecondsPart`: the seconds within the minute, truncated; `ClockParts` states its range |
| SpotifyUtils.Pad2 | src/main/java/spotify/util/SpotifyUtils.java:386-388 | the `%02d` field: a leading zero below 10; `FormatTimeReadsBack` reads it back |
| SpotifyUtils.FormatTime | src/main/java/spotify/util/SpotifyUtils.java:380-390 | `h:mm:ss` for an hour or more, else `m:ss`; `FormatTimeReadsBack` states the field count, the two-digit fields and the value read back, and `FormatTimeNegative` the negative case |
| SpotifyUtils.Area | src/main/java/spotify/util/SpotifyUtils.java:402 | width·height as a Java `int`, wrapped to 32 bits |
| SpotifyUtils.LargestIndex | src/main/java/spotify/util/SpotifyUtils.java:398-409 | the first index of maximal area |
| SpotifyUtils.SmallestIndex | src/main/java/spotify/util/SpotifyUtils.java:417-428 | the first index of minimal area |
| SpotifyUtils.FindLargestImage | src/main/java/spotify/util/SpotifyUtils.java:398-409 | null for a null or empty array, otherwise the URL of the first image of maximal area |
| SpotifyUtils.FindSmallestImage | src/main/java/spotify/util/SpotifyUtils.java:417-428 | null for a null or empty array, otherwise the URL of the first image of minimal area |
| BotUtils.RemoveNullStrings | src/main/java/spotify/util/BotUtils.java:150-152 | removes exactly the null and "null" (any case) elements, in place |
| BotUtils.NullStringsRemoved | src/main/java/spotify/util/BotUtils.java:150-152 | no null or "null" element is left, and every other element keeps its number of occurrences |
| BotUtils.NoNullStringsUnchanged | src/main/java/spotify/util/BotUtils.java:150-152 | a collection without null strings is left as it is |
| BotUtils.RemoveNulls | src/main/java/spotify/util/BotUtils.java:159-161 | removes exactly the null elements, in place |
| BotUtils.NullsRemoved | src/main/java/spotify/util/BotUtils.java:159-161 | no null is left and every value keeps its number of occurrences |
| BotUtils.NullsRemovedInOrder | src/main/java/spotify/util/BotUtils.java:159-161 | what is left is the non-null values in their original order |
| BotUtils.Values | src/main/java/spotify/util/BotUtils.java:159-161 | the non-null values are no more than the elements |
| BotUtils.FormatTimeReadsBack | src/main/java/spotify/util/BotUtils.java:355-365 | the text has two colon-separated fields, the second of two digits; below one hour `m:ss` reads back as the whole seconds, from one hour on `h:mm` as the whole minutes |
| BotUtils.FormatTimeDropsSeconds | src/main/java/spotify/util/BotUtils.java:355-365 | the `h:mm` form is the `h:mm:ss` form of `SpotifyUtils` without its seconds; below one hour the two agree |
| BotUtils.FormatTime | src/main/java/spotify/util/BotUtils.java:355-365 | `h:mm` for an hour or more, else `m:ss`; `FormatTimeReadsBack` and `FormatTimeDropsSeconds` state what it reads back as |
| SpotifyLog.TruncateToEllipsis | src/main/java/spotify/util/SpotifyLogger.java:159-164 | a message of at most 160 characters is kept; a longer one becomes its first 160 characters and `...` (163 in all) |
| SpotifyLog.TruncateIdempotent | src/main/java/spotify/util/SpotifyLogger.java:159-164 | truncating twice is truncating once |
| SpotifyLog.TruncationTestOnBmpText | src/main/java/spotify/util/SpotifyLogger.java:160-162 | on text within the Basic Multilingual Plane the truncation is Java's: kept whole when its UTF-16 length is at most 160, else its first 160 characters and `...` |
| Lang.Utf16Length | src/main/java/spotify/util/SpotifyLogger.java:160 | `String.length()`: one unit per character, two for a character above U+FFFF |
| Lang.Utf16LengthOfBmp | src/main/java/spotify/util/SpotifyLogger.java:160 | on Basic Multilingual Plane text the Java length is the number of characters |
| SpotifyLog.LineIsNotTruncated | src/main/java/spotify/util/SpotifyLogger.java:149-151 | the printed line is exactly 157 hyphens and is not truncated |
| SpotifyLog.WriteExternal | src/main/java/spotify/util/SpotifyLogger.java:179-196 | the write succeeds exactly when the file exists or can be created and is writable; it then adds the lines `readAllLines` reads back from `logMessage + '\n'`; otherwise an `IOException` |
| SpotifyLog.Stamped | src/main/java/spotify/util/SpotifyLogger.java:186 | the `[time] message` line, the time being a parameter |
| SpotifyLog.LinesFrom | src/main/java/spotify/util/SpotifyLogger.java:189-190 | the lines `readAllLines` finds in a written message: at least one, cut at "\n", "\r" and "\r\n" |
| SpotifyLog.ReadBackLines | src/main/java/spotify/util/SpotifyLogger.java:189-190 | the lines one written message occupies in the file |
| SpotifyLog.LinesFromOneLine | src/main/java/spotify/util/SpotifyLogger.java:189-190 | a message without line terminators occupies exactly one line |
| SpotifyLog.LinesFromSplitsAtNewline | src/main/java/spotify/util/SpotifyLogger.java:189-190 | a '\n' inside a message ends one line of the file and starts the next |
| SpotifyLog.NormalizedLimit | src/main/java/spotify/util/SpotifyLogger.java:210-214 | null means 50, a negative limit means `Integer.MAX_VALUE`, any other is kept |
| SpotifyLog.Tail | src/main/java/spotify/util/SpotifyLogger.java:218 | the last min(limit, n) lines, in file order |
| SpotifyLog.TailOfShortLog | src/main/java/spotify/util/SpotifyLogger.java:218 | a log no longer than the limit is returned whole |
| SpotifyLog.TailOfTail | src/main/java/spotify/util/SpotifyLogger.java:218 | two tails are the tail of the smaller limit |
| SpotifyLog.TailAfterAppend | src/main/java/spotify/util/SpotifyLogger.java:218 | after an append, the tail ends with the new line |
| SpotifyLog.WrittenLineIsReadBack | src/main/java/spotify/util/SpotifyLogger.java:179-218 | a stamped message without line terminators is the last line `readLog` returns, behind the older lines that still fit the limit |
| SpotifyLog.MultiLineMessageIsSplit | src/main/java/spotify/util/SpotifyLogger.java:186-190 | a message `a\nb` is read back as the two lines `a` and `b`, not as one |
| SpotifyLog.SpotifyLogger.constructor | src/main/java/spotify/util/SpotifyLogger.java:43-47 | the external log is enabled by the setting |
| SpotifyLog.SpotifyLogger.LogAtLevel | src/main/java/spotify/util/SpotifyLogger.java:119-144 | truncates only when asked; logs at the level; writes to the file only when asked and enabled |
| SpotifyLog.SpotifyLogger.Info | src/main/java/spotify/util/SpotifyLogger.java:66-68 | truncated, at INFO, written to the file when enabled |
| SpotifyLog.SpotifyLogger.PrintLine | src/main/java/spotify/util/SpotifyLogger.java:149-151 | logs the 157-hyphen line at INFO |
| SpotifyLog.SpotifyLogger.ClearLog | src/main/java/spotify/util/SpotifyLogger.java:172-177 | false when external logging is disabled; otherwise deletes the file when it can |
| SpotifyLog.SpotifyLogger.ReadLog | src/main/java/spotify/util/SpotifyLogger.java:206-230 | empty when disabled; the missing, locked and unreadable file errors; otherwise the last min(limit, n) lines |
| SpotifyLog.SpotifyLogger.IsExternalLoggingEnabled | src/main/java/spotify/util/SpotifyLogger.java:168-170 | whether the settings enabled the external log |
| BotLog.TruncateKeepingLength | src/main/java/spotify/util/BotLogger.java:133-138 | keeps messages of at most 157 characters; a longer one keeps its length, with its last three characters replaced by `...` |
| BotLog.TruncateKeepingLengthIdempotent | src/main/java/spotify/util/BotLogger.java:133-138 | truncating twice is truncating once |
| BotLog.TruncationsCompared | src/main/java/spotify/util/BotLogger.java:133-138 | up to 157 characters both truncations agree; past 163 this one returns the longer string |
| BotLog.LineIsNotShortened | src/main/java/spotify/util/BotLogger.java:123-125 | the 157-hyphen line is not changed |
| BotLog.BotLogger.LogAtLevel | src/main/java/spotify/util/BotLogger.java:95-118 | truncates only when asked; logs at the level; always writes to the file |
| BotLog.BotLogger.constructor | src/main/java/spotify/util/BotLogger.java:27 | starts with the given `./log.txt` file and an empty console |
| BotLog.BotLogger.Info | src/main/java/spotify/util/BotLogger.java:55-57 | truncated, at INFO, written to the file |
| BotLog.BotLogger.PrintLine | src/main/java/spotify/util/BotLogger.java:123-125 | logs the 157-hyphen line |
| BotLog.BotLogger.ClearLog | src/main/java/spotify/util/BotLogger.java:142-145 | deletes the file when it can |
| BotLog.BotLogger.ReadLog | src/main/java/spotify/util/BotLogger.java:173-194 | the missing, locked and unreadable file errors; otherwise the last min(limit, n) lines, 50 for null, all for a negative limit |
| Playlists.IssuedPrefix | src/main/java/spotify/services/PlaylistService.java:228-238 | the requests issued are a prefix of those planned; they stop at the first that throws, and that exception is the result |
| Playlists.IssueAfterSuccesses | src/main/java/spotify/services/PlaylistService.java:229-237 | requests that succeed are followed by the rest of the plan |
| Playlists.IssueStopsAt | src/main/java/spotify/services/PlaylistService.java:229-237 | the first failing request is the last one sent |
| Playlists.Issue | src/main/java/spotify/services/PlaylistService.java:229-237 | specification of sending requests one by one until the first failure; `IssuedPrefix`, `IssueAfterSuccesses` and `IssueStopsAt` state its outcome |
| Playlists.TrackUrisRoundTrip | src/main/java/spotify/services/PlaylistService.java:122-124 | the id of `"spotify:track:" + id` is `id` again |
| Playlists.TrackUris | src/main/java/spotify/services/PlaylistService.java:122-124 | one `spotify:track:` URI per id, in order; `TrackUrisRoundTrip` gives the ids back |
| Playlists.RemovedEntriesOfBatches | src/main/java/spotify/services/PlaylistService.java:229-236 | the entries of all removal requests, in order, are the item URIs |
| Playlists.RemovalBatches | src/main/java/spotify/services/PlaylistService.java:26 | ceil(n / 100) requests of 1 to 100 entries each, together the item URIs in order |
| Playlists.RemovalRequests | src/main/java/spotify/services/PlaylistService.java:228-236 | one removal request per batch, in order; `RemovalBatches` and `RemovedEntriesOfBatches` state its batches and entries |
| Playlists.PlaylistService.constructor | src/main/java/spotify/services/PlaylistService.java:24-29 | no request sent yet |
| Playlists.PlaylistService.Send | src/main/java/spotify/services/PlaylistService.java:129 | one request sent; its exception is the result |
| Playlists.PlaylistService.AddSongsToPlaylistById | src/main/java/spotify/services/PlaylistService.java:119-131 | no request for no ids; otherwise one request with `"spotify:track:" + id` in order, and the position only when given |
| Playlists.PlaylistService.AddSongsToPlaylistByIdAtEnd | src/main/java/spotify/services/PlaylistService.java:66-68 | the same with no position |
| Playlists.PlaylistService.AddSongsToPlaylistByIdTop | src/main/java/spotify/services/PlaylistService.java:76-78 | the same at position 0 |
| Playlists.PlaylistService.AddTracksToPlaylist | src/main/java/spotify/services/PlaylistService.java:107-110 | forwards the tracks' ids in order |
| Playlists.PlaylistService.AddTracksToPlaylistAtEnd | src/main/java/spotify/services/PlaylistService.java:86-88 | the same with no position |
| Playlists.PlaylistService.AddTracksToPlaylistTop | src/main/java/spotify/services/PlaylistService.java:96-98 | the same at position 0 |
| Playlists.PlaylistService.RemoveItemsFromPlaylist | src/main/java/spotify/services/PlaylistService.java:228-238 | one request per batch of 100, stopping at the first that throws |
| Playlists.PlaylistService.AttachImageToPlaylist | src/main/java/spotify/services/PlaylistService.java:246-253 | no request for a null URL or a failed encoding; otherwise one upload |
| Playlists.DeletionEntries | src/main/java/spotify/services/PlaylistService.java:230-235 | the `{uri}` entries of a batch, in order |
| Playlists.TrackIds | src/main/java/spotify/services/PlaylistService.java:108 | the tracks' ids, one per track, in order |
| Albums.CreateAlbumGroupString | src/main/java/spotify/services/AlbumService.java:68-74 | the comma-join of the group names |
| Albums.AlbumGroupStringSplits | src/main/java/spotify/services/AlbumService.java:68-74 | the string is empty exactly for no groups, and otherwise splits back to the group names |
| Albums.WithOriginArtist | src/main/java/spotify/services/AlbumService.java:125-147 | one more artist, named by the artist id, after the original artists; the copied fields are kept; the uncopied ones are dropped |
| Albums.AppendStringToArtist | src/main/java/spotify/services/AlbumService.java:125-147 | the index loop builds exactly that album |
| Albums.AttachedShape | src/main/java/spotify/services/AlbumService.java:106-115 | same length and order; appears-on albums are tagged and the others kept; a null album group throws |
| Albums.Attached | src/main/java/spotify/services/AlbumService.java:106-115 | specification of the tagging loop; `AttachedShape` and `AttachedStopsAt` state its result |
| Albums.AttachOriginArtistIdForAppearsOnReleases | src/main/java/spotify/services/AlbumService.java:106-115 | the loop computes exactly that list |
| Albums.AttachedStopsAt | src/main/java/spotify/services/AlbumService.java:109 | a null album group throws `NullPointerException` |
| Albums.GetAllAlbumsOfArtists | src/main/java/spotify/services/AlbumService.java:45-60 | the loop computes the per-artist results from the group string |
| Albums.AlbumsOfArtistsConcatenates | src/main/java/spotify/services/AlbumService.java:54-59 | success exactly when every artist succeeds, and then the per-artist lists concatenated in artist order; otherwise the first failure |
| Albums.AlbumsOfArtists | src/main/java/spotify/services/AlbumService.java:54-59 | specification of the per-artist loop; `AlbumsOfArtistsConcatenates` and `AlbumsOfArtistsStopsAt` state its result |
| Albums.AlbumsOfArtistsStopsAt | src/main/java/spotify/services/AlbumService.java:55-57 | the first failing artist's exception is the result |
| Albums.FlattenSnoc | src/main/java/spotify/services/AlbumService.java:57 | adding a list appends its albums |
| Albums.PutNamesKeys | src/main/java/spotify/services/AlbumService.java:166-168 | every returned artist's id maps to its name (the last one wins), other keys are kept; a null artist throws |
| Albums.PutNames | src/main/java/spotify/services/AlbumService.java:166-168 | specification of the inner `put` loop; `PutNamesKeys` states its keys and values |
| Albums.LookupBatches | src/main/java/spotify/services/AlbumService.java:164-169 | the lookups go in batches of 1 to 50 ids that together are all the ids, ceil(n / 50) of them |
| Albums.LookUp | src/main/java/spotify/services/AlbumService.java:164-169 | specification of the batch loop; `LookUpArtistNames` computes it |
| Albums.ResolvedNames | src/main/java/spotify/services/AlbumService.java:158-169 | the id-to-name map built from the appears-on ids, or what stopped it |
| Albums.ViaArtistIdsShape | src/main/java/spotify/services/AlbumService.java:158-161 | the stream fails exactly when an appears-on album has no artists, with `IndexOutOfBoundsException`; otherwise it holds one id per appears-on album, in order, the k-th being that album's last artist name |
| Albums.AppearsOnReleases | src/main/java/spotify/services/AlbumService.java:158-159 | every element is an appears-on album of the input, and there are no more of them than inputs; `AppearsOnReleasesInOrder` states the rest |
| Albums.AppearsOnReleasesInOrder | src/main/java/spotify/services/AlbumService.java:158-159 | the filter's result is the appears-on albums of the input, at increasing input positions, with every appears-on position among them: the order is kept and none is dropped |
| Albums.ViaArtistIds | src/main/java/spotify/services/AlbumService.java:158-161 | the stream of last artist names; `ViaArtistIdsShape` states its failure and its contents |
| Albums.ResolveAlbum | src/main/java/spotify/services/AlbumService.java:171-183 | only the last artist of an appears-on album with a resolved name changes, to that id and `"(" + name + ")"`; everything else is untouched |
| Albums.LookUpArtistNames | src/main/java/spotify/services/AlbumService.java:163-169 | the batch loop computes exactly the name map |
| Albums.ResolveViaAppearsOnArtistNames | src/main/java/spotify/services/AlbumService.java:157-186 | on a lookup failure nothing changes; otherwise every album is rewritten in place as `ResolveAlbum` says |
| Tracks.GetTracksOfAlbums | src/main/java/spotify/services/TrackService.java:40-47 | the loop computes the album/track pairs |
| Tracks.TracksOfAlbumsPairs | src/main/java/spotify/services/TrackService.java:40-60 | one pair per album, in album order, each with that album's tracks; otherwise the first failure |
| Tracks.TracksOfAlbums | src/main/java/spotify/services/TrackService.java:40-47 | specification of the album loop; `TracksOfAlbumsPairs` and `TracksOfAlbumsStopsAt` state its result |
| Tracks.TracksOfAlbumsStopsAt | src/main/java/spotify/services/TrackService.java:42-45 | the first failing album's exception is the result |
| Tracks.GetAudioFeatures | src/main/java/spotify/services/TrackService.java:68-77 | null exactly on a `SpotifyApiException`; other exceptions propagate; otherwise the features as returned |
| Tracks.FirstMatch | src/main/java/spotify/services/TrackService.java:90-92 | none exactly when no name matches under `equalsIgnoreCase` with the given case tables; otherwise the first match |
| Tracks.SearchTrack | src/main/java/spotify/services/TrackService.java:87-96 | null for no results; a null result array or null name throws; otherwise the first name matching under `equalsIgnoreCase` with the given case tables, or the first result |
| Tracks.SearchPrefersFirstMatch | src/main/java/spotify/services/TrackService.java:90-93 | whatever the case tables, the result is the first result whose name matches |
| Tracks.ExactNameIsMatched | src/main/java/spotify/services/TrackService.java:90-93 | whatever the case tables, a result carrying exactly the searched name is a match |
| Lang.EqualsIgnoreCase | src/main/java/spotify/services/TrackService.java:91 | `equalsIgnoreCase` character by character: equal, equal upper-cased, or equal lower-cased after upper-casing |
| Lang.EqualsIgnoreCaseReflexiveSymmetric | src/main/java/spotify/services/TrackService.java:91 | `equalsIgnoreCase` is reflexive and symmetric whatever the case tables |
| ApiConfig.SpotifyApiProperties | src/main/java/spotify/config/SpotifyApiConfig.java:51-75 | an existing file is loaded (a read failure exits with 1); otherwise both environment variables give exactly client id and secret; otherwise `IllegalStateException` |
| ApiConfig.GetNotBlankProperty | src/main/java/spotify/config/SpotifyApiConfig.java:95-101 | the value exactly when present and not blank; otherwise `IllegalStateException` naming the key |
| ApiConfig.BotConfigFields | src/main/java/spotify/config/SpotifyApiConfig.java:83-93 | client id and secret must not be blank (the id is checked first); tokens are copied as they are, possibly null |
| ApiConfig.EnvironmentGivesNoTokens | src/main/java/spotify/config/SpotifyApiConfig.java:64-73 | credentials from the environment carry no tokens |
| ApiConfig.OAuth2.SetClientId | src/main/java/spotify/config/SpotifyApiConfig.java:113-115 | sets only the client id |
| ApiConfig.OAuth2.SetClientSecret | src/main/java/spotify/config/SpotifyApiConfig.java:121-123 | sets only the client secret |
| ApiConfig.OAuth2.SetAccessToken | src/main/java/spotify/config/SpotifyApiConfig.java:129-131 | sets only the access token |
| ApiConfig.OAuth2.SetRefreshToken | src/main/java/spotify/config/SpotifyApiConfig.java:137-139 | sets only the refresh token |
| ApiConfig.SpotifyBotConfig | src/main/java/spotify/config/SpotifyApiConfig.java:83-93 | a new config object with exactly those fields, or the first missing field's exception |
| ApiConfig.SpotifyApiConfig.UpdateTokens | src/main/java/spotify/config/SpotifyApiConfig.java:38-45 | both config fields are set; the two keys are set in order (a null value throws); the properties are stored when the file is writable |
| ApiConfig.StoredTokensReadBack | src/main/java/spotify/config/SpotifyApiConfig.java:38-93 | stored tokens are read back by the next start with the same credentials |
| SpringPort.FirstPort | src/main/java/spotify/spring/SpringPortConfig.java:26-30 | the parsed `server.port` when present, else the settings port |
| SpringPort.DefaultSettingsPort | src/main/java/spotify/api/SpotifyDependenciesSettings.java:21-23 | with no `server.port` and the settings' default port, the server port is 8080 |
| SpringPort.ServerPortIsUsed | src/main/java/spotify/spring/SpringPortConfig.java:26-30 | a decimal `server.port` is the port |
| SpringPort.MalformedServerPort | src/main/java/spotify/spring/SpringPortConfig.java:27-28 | a malformed `server.port` throws `NumberFormatException` |
| SpringPort.SpringPortConfig.GetPort | src/main/java/spotify/spring/SpringPortConfig.java:25-32 | computed on the first call and cached; later calls return the cached port |
| SpringPort.SpringPortConfig.Customize | src/main/java/spotify/spring/SpringPortConfig.java:34-36 | the factory port is exactly `getPort()` |
| SpringPort.GetPortTwice | src/main/java/spotify/spring/SpringPortConfig.java:25-32 | a second `getPort()` returns what the first returned |
| Lang.WrapIntIsJavaInt | src/main/java/spotify/api/SpotifyCall.java:96 | 32-bit wrap-around lands in `int` range, agrees modulo 2^32, and keeps values already in range |
| Lang.ParseIntToString | src/main/java/spotify/spring/SpringPortConfig.java:28 | `Integer.parseInt` reads back every printed `int` |
| Lang.ParseInt | src/main/java/spotify/spring/SpringPortConfig.java:28 | an optional sign and ASCII digits within `int` range parse; anything else, the empty string included, throws `NumberFormatException` carrying the input |
| Lang.SplitJoin | src/main/java/spotify/util/SpotifyUtils.java:98-100 | splitting a join on a separator not in the parts gives the parts back |
| Lang.RemoveWhereCounts | src/main/java/spotify/util/BotUtils.java:150-161 | `removeIf` drops every matching element and keeps every other with its count |

## Left out

- Real sleeping, the blocking `tryAcquire` of the login semaphore, opening the browser (`Desktop`) and `System.exit` are not performed. Sleeps are logged. The login wait is a scripted outcome: a callback arrives, or the timeout exits with status 182.
- Concurrent refreshes are not modelled. `refresh` runs sequentially.
- `SpotifyApiAuthorization.java` is not part of this model. It is an older authorization path that duplicates `updateTokens`.
- `isLiveRelease` and `isRemix` are left out. They use floating-point ratios, and `isLiveRelease` makes a network call.
- `strippedTitleIdentifier` and the EP, LIVE and REMIX regular expressions are inputs:
  - `IsExtendedPlay` takes "the title matches the EP pattern" and "no track is named like the release" as booleans;
  - `FindReleaseYear` does not check the ISO date format.
- `isWithinTimeoutWindow` and `currentTime` depend on the clock. The log time stamp is a parameter.
- `toBase64Image` is a parameter of the playlist service. `getIdFromSpotifyUrl`, `getFullUrlFromShortSpotifyUrl` and `normalizeFile` are library or network calls.
- `asAlbumSimplified`, `asTrack`, `formatAlbum`, `formatTrack` and the other formatting helpers are field copies or `String.format` over library builders.
- Charset detection, reading and writing the properties file, and slf4j dispatch are not modelled:
  - the log file is a value with flags for exists, creatable, writable, readable and deletable;
  - the properties file is a map plus a writable flag;
  - the console is a list of (level, message) entries.
- `UserService`, `ArtistService`, `SpotifyApiWrapper`, `SpotifyApiScopes`, `SpotifyApiLoggedInEvent` and `SpotifyDependenciesSettings` are thin wrappers or declarations. The settings' port and external-logging switch are parameters of the model; the default port 8080 appears only in `SpringPort.DefaultSettingsPort`.
- `BotUtils.buildScopes`, `createAlbumGroupToListOfTMap`, `getLastArtistName`, `anyArtistMatches`, `isExtendedPlay`, `getIdFromUri`, `findLargestImage`, `findSmallestImage`, `addToListIfNotBlank` and `findReleaseYear(Track)` are the same code as in `SpotifyUtils` (`isExtendedPlay` calls its own copy of `strippedTitleIdentifier`). They are modelled once, as `SpotifyUtils.BuildScopes`, `CreateAlbumGroupToListOfTMap`, `GetLastArtistName`, `AnyArtistMatches`, `IsExtendedPlay`, `GetIdFromUri`, `FindLargestImage`, `FindSmallestImage`, `AddToListIfNotBlank` and `FindTrackReleaseYear`.
- SpotifyUtils.PartitionList: requires a partition size above 0. With size 0 the Java loop never ends, and a negative size makes `subList` throw.
- SpotifyCall.Execute: the remote is a finite script. An attempt after the script is exhausted fails with an `IOException`, which the executor does not retry. The script is therefore a bound on the remote's patience, not a model of a server that never answers.
- SpotifyCall.ExecutePagingCursor: covers builders whose cursor type is `String`, the only kind this repository passes (`ArtistService.java:47-51`). For any other cursor type, the cast of the `after` cursor (`SpotifyCall.java:122-126`) throws `ClassCastException` in the builder's bridge method. Java then throws `UnsupportedOperationException` before the first follow-up request. The model does not capture that branch.
- Tracks.GetAudioFeatures: a lookup that returns a null array (which `Arrays.asList` would reject) is not modelled; the lookup returns a list.
- Image width and height and track durations are never null in the model, so the `NullPointerException` an unboxed null would raise is not modelled.
- Three exception classes are one constructor, `ApiException`, which carries the cause. They are:
  - `spotify.api.events.SpotifyApiException`, which `SpotifyCall` and `SpotifyApiManager` import (`SpotifyCall.java:19`, `SpotifyApiManager.java:27`);
  - `spotify.api.SpotifyApiException`, which `TrackService` catches (`TrackService.java:15`, `TrackService.java:73`);
  - `spotify.api.BotException`, which `AlbumService` declares (`AlbumService.java:21`).
  
  The `events` class is not part of this model, so the model cannot say whether it is the class `TrackService` catches. The model takes them to be one exception.
- Tracks.GetAudioFeatures: "null exactly on an API exception" rests on that merge. If `SpotifyCall.execute` throws a class that the catch at `TrackService.java:73` does not match, Java propagates the exception, while the model returns null.
- SpotifyCall.ExecutePaging: `execute` always returns a page, and a page's `offset` and `limit` are integers. The `NullPointerException` that a null `Paging` or a null `Integer` offset or limit raises at `SpotifyCall.java:95-100` is not modelled.
- SpotifyUtils.FindTrackReleaseYear: a track always has an album in the model. The `NullPointerException` that `findReleaseYear` raises on a track whose `getAlbum()` is null (`SpotifyUtils.java:370-371`) is not modelled.
- Albums.LookUp: the artist lookup returns a list. The `NullPointerException` that the `for` loop at `AlbumService.java:165-166` raises on a null `getSeveralArtists` array is not modelled; null entries in the array are.
- Manager.SpotifyApiManager.Authenticate: the 10-minute timeout is not measured. The script says whether a callback arrives in time.
- Tracks.SearchTrack: the Unicode case tables behind `Character.toUpperCase` and `Character.toLowerCase` are not written out. They are a parameter (`Lang.CaseTables`) of `NameMatches`, `FirstMatch` and `SearchTrack`, so the search's properties hold for any tables.
- SpotifyUtils.IsNullString: compares with "null" by ASCII case folding. Java's `equalsIgnoreCase` would also accept a non-ASCII character whose case mapping gives one of the letters n, u or l; the model does not contain the Unicode tables that say whether one exists.
- SpotifyLog.TruncateToEllipsis: lengths count Unicode code points, while Java's `length()` and `substring` count UTF-16 units. The two agree for text without characters above U+FFFF, as `SpotifyLog.TruncationTestOnBmpText` proves. For other text the Java cut comes earlier and can split a surrogate pair; the model does not capture that.
- BotLog.TruncateKeepingLength: lengths count Unicode code points, not UTF-16 units, as for `SpotifyLog.TruncateToEllipsis`.
- Lang.ParseInt: accepts ASCII digits only. `Integer.parseInt` accepts every character that `Character.digit` reads as a decimal digit (Arabic-Indic, full-width and others), so such a `server.port` parses in Java but throws `NumberFormatException` in `SpringPort.SpringPortConfig.GetPort`.
- The log file holds lines. Earlier content that does not end with a line terminator (written by something other than the loggers) is not modelled. Charset detection and decoding failures are a flag of the file.
- Null elements of the arrays the Web API returns are not modelled. These are the items of a page, the cursors, and the tracks and albums of a search or listing; null entries of `getSeveralArtists` are modelled and throw. The other elements are values, so the `NullPointerException` that `addToListIfNotBlank` or the service loops would raise on one is not modelled.
- A null `artists` array of an album is not modelled: the artists are a list. `appendStringToArtist` and `getLastArtistName` would throw `NullPointerException` on one.
- A null `uri` passed to `getIdFromUri` is not modelled: the parameter is a string, and Java would throw `NullPointerException`.
- A null `Paging` returned by the search in `searchTrack` is not modelled. The searcher returns the items, which may be null; a null paging would throw `NullPointerException` before the items are read.
- Manager.GenerateRedirectUri: `SpotifyHttpManager.makeUri` returning null for a malformed environment URI is not modelled. The accepted environment string is used as the URI.
