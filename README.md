# MusicalDNA personalization core in Dafny

MusicalDNA asks a listener a sequence of onboarding questions, has a language model turn the answers into a personality profile, and resolves that profile into a short list of Spotify songs. This project models the logic behind that flow, one Dafny module per source file, and proves its properties:

- `Questions` (`questions.dfy`, lib/questions.ts) is the question catalog and the adaptive sequencer `getNextQuestions`. The sequence starts with the four core questions. Then come up to five picks routed by the earlier answers, a random fill of heavy questions that leaves one slot free, one random free-text question, and a fill in pool order. The 47-question pool is a parameter. `Math.random` becomes explicit draws.
- `Llm` (`llm.dfy`, lib/llm.ts) covers three things:
  - the API-key check of the service constructor;
  - `extractJsonFromMarkdown`, stated through the match semantics of its two regular expressions;
  - the mapping of failures to the four user-facing messages.

  The chat completion and `JSON.parse` are parameters.
- `Spotify` (`spotify.dfy`, lib/spotify.ts) is the `SpotifyService` class. Its two fields form the access-token cache. The clock readings, the credentials, the token endpoint's reply and the Web API are parameters. Each method is proved against a function on a `TokenCache` value, and the cache's behaviour is proved about those functions.
- `MusicRecommendations` (`music.dfy`, lib/music-recommendations.ts) assembles the recommendations. Songs found through the model's search queries come first. Up to three Spotify-recommended songs follow. The list is de-duplicated by the lowercased key `title-artist` and cut to six. The module also holds the four energy/valence label functions.
- `Wrappers`, `Seqs` and `Strings` are small helpers:
  - `Option`/`Result`;
  - `filter`, `slice` and insertion-order `Set` de-duplication;
  - ASCII `trim`, `includes`, `toLowerCase` and number formatting.

The recommendation pipeline, as the code runs it:

- Songs found through the model's search queries come before the Spotify-recommended ones.
- Spotify recommendations are seeded with at most 3 genres and ask for 10 tracks, of which the first 3 are used.
- A search is made once per recommendation with the model's query as written, and its first track is taken as is, without looking at audio features.
- Every recommendation is searched, however many songs have already been found.
- A failure of the genre list or of the song-recommendation completion fails the whole request.

## Model

| member | source | states |
|---|---|---|
| `Questions.CoreDistinct` | lib/questions.ts:1257-1262 | The four core question ids are distinct. |
| `Questions.QuestionById` | lib/questions.ts:1264-1266 | `None` exactly when no question has the id. Otherwise the result is the first pool question with that id, and with unique ids it is that question. |
| `Questions.QuestionsByCategory` | lib/questions.ts:1268-1270 | Exactly the pool questions of the category, in pool order. |
| `Questions.QuestionsWithTags` | lib/questions.ts:1272-1274 | Exactly the pool questions sharing at least one tag with the list, in pool order. |
| `Questions.FreeResponseQuestions` | lib/questions.ts:1276-1278 | Exactly the `text` questions, in pool order. |
| `Questions.QuestionsByType` | lib/questions.ts:1280-1282 | Exactly the questions of the given type, in pool order. |
| `Questions.InsertByWeight` | lib/questions.ts:1285 | Inserting into a heaviest-first list keeps it heaviest first, one longer, headed by the new question or the old head. |
| `Questions.InsertByWeightPermutes` | lib/questions.ts:1285 | Inserting adds exactly the new question and loses nothing. |
| `Questions.SortByWeight` | lib/questions.ts:1285 | Heaviest first, and a permutation of the input. |
| `Questions.InsertByWeightStable` | lib/questions.ts:1285 | The inserted question goes ahead of every question of its own weight already in the list. |
| `Questions.SortByWeightStable` | lib/questions.ts:1285 | The sort is stable: for every weight, the questions of that weight come out in their input order. |
| `Questions.HighestWeightQuestions` | lib/questions.ts:1284-1286 | Reorders the pool array itself, heaviest first, and returns its first `count` entries. |
| `Questions.HighestWeightQuestionsAreHeaviest` | lib/questions.ts:1284-1286 | The result has `min(count, pool size)` pool questions, and no question left out is heavier than one returned. |
| `Questions.CategoryDistribution` | lib/questions.ts:1288-1294 | The keys are exactly the categories present, and each maps to the number of questions in that category. |
| `Questions.CategoryPicks` | lib/questions.ts:1512-1515 | `min(maxCount, #eligible)` unused questions of the categories, heaviest first. No eligible question left out is heavier than one picked. |
| `Questions.CategoryPicksPreferEarlier` | lib/questions.ts:1512-1515 | Among eligible questions of equal weight, earlier ones in the available list are picked first: for every weight, the picks are a prefix of the eligible questions of that weight. |
| `Questions.QuestionsFromCategories` | lib/questions.ts:1506-1518 | Exactly the ids of `CategoryPicks`, in order: at most `maxCount` ids, each unused and of a listed category. The list is non-empty whenever such a question is available and `maxCount > 0`. |
| `Questions.RandomOrder` | lib/questions.ts:1500 | Whatever the draws, the shuffle returns a permutation of its input. |
| `Questions.RandomOrderKeepsUniqueIds` | lib/questions.ts:1500 | Shuffling questions with unique ids keeps the ids unique. |
| `Questions.VarietyQuestions` | lib/questions.ts:1493-1504 | `min(count, #candidates)` ids of unused questions of weight at least 3, without repeats. |
| `Questions.SocialEnergyRoute` | lib/questions.ts:1387-1410 | A rule only for a non-empty answer, taking up to two questions. The categories are social, communication and celebration exactly when the answer mentions "party" or "friends", otherwise emotional, energy and routine. |
| `Questions.DecisionMakingRoute` | lib/questions.ts:1412-1441 | A rule whenever answered. Below 30, up to two questions from planning, perfectionism, attention and feedback. Above 70, up to two from adaptability, humor and spontaneity. From 30 to 70, one from decisions and goals. |
| `Questions.MusicDiscoveryRoute` | lib/questions.ts:1443-1466 | A rule only for a non-empty answer. Up to two questions from music and information exactly when the answer mentions "recommendations" or "social", otherwise one music question. |
| `Questions.CreativityLevelRoute` | lib/questions.ts:1468-1488 | One question. Above 60 it comes from humor, learning and technology, otherwise from routine and time. |
| `Questions.RoutePicks` | lib/questions.ts:1387-1488 | No rule, no picks. A rule's picks are exactly `QuestionsFromCategories` for its categories and count, each unused and of those categories. |
| `Questions.AllRoutePicks` | lib/questions.ts:1385-1488 | Every pick is an unused available question of a routed category. |
| `Questions.AllRoutePicksNonEmpty` | lib/questions.ts:1387-1488 | Some rule picks a question whenever an unused available question lies in a routed category. |
| `Questions.RoutedQuestions` | lib/questions.ts:1380-1491 | At most 5 distinct unused ids, each from a routed category. The list is non-empty when any such question is available. |
| `Seqs.DedupKeepsFirst` | lib/questions.ts:1490 | `[...new Set(...)]` keeps exactly the first occurrence of each id, in order, as the independent `FirstOccurrences` states. |
| `Questions.RoutedQuestionsInRuleOrder` | lib/questions.ts:1380-1491 | The routed list is the first five distinct ids of the social-energy, decision-making, music-discovery and creativity-level picks, concatenated in that order. |
| `Questions.FreeResponseIds` | lib/questions.ts:1312-1314 | Exactly the ids of the free-text questions. |
| `Questions.AvailableQuestions` | lib/questions.ts:1316-1318 | Exactly the unused, non-free-text pool questions, in pool order. |
| `Questions.AppendRouted` | lib/questions.ts:1325-1333 | Appends the routed ids in order until `totalQuestions` is reached, keeping the list distinct and `used` equal to its id set. |
| `Questions.PushWhileRoom` | lib/questions.ts:1342-1347 | Appends the longest prefix of the ids that fits in `totalQuestions` and adds it to `used`. |
| `Questions.AppendVariety` | lib/questions.ts:1335-1348 | Appends exactly the variety picks for `remainingSlots - 1`, leaves at least one slot free, and adds no free-text question. |
| `Questions.VarietyIfRoom` | lib/questions.ts:1335-1336 | The variety segment is appended only when more than one slot is left; otherwise the selection is unchanged, and a selection short of the total stays short. |
| `Questions.AppendFreeText` | lib/questions.ts:1350-1363 | Appends exactly the drawn unused free-text id, if any. If an unused text question exists, a text id ends up in the list. |
| `Questions.UnusedOfAfterFirst` | lib/questions.ts:1365-1373 | With unique ids, using the first unused pool question removes exactly that question from the unused ones. |
| `Questions.FillFromPool` | lib/questions.ts:1365-1374 | Appends exactly the ids of the unused pool questions in pool order, as many as fit in `totalQuestions`; the list ends full or with every pool question used. |
| `Questions.TakeCore` | lib/questions.ts:1301-1309 | The list holds the first `min(4, totalQuestions)` core questions, in order. |
| `Questions.CoreThenRouted` | lib/questions.ts:1311-1333 | The four core questions followed by exactly the routed picks that fit, distinct pool ids without free text; the questions left for later are unused, non-text pool questions. |
| `Questions.RouteAndVary` | lib/questions.ts:1311-1348 | The core questions and the routed picks that fit, followed by exactly the variety picks when more than one slot is left. With few routed picks a slot is still free. |
| `Questions.TextThenFill` | lib/questions.ts:1350-1374 | The chosen list, then exactly the drawn free-text id when a slot is left, then exactly the pool-order fill. A free-text question is guaranteed when a slot was left. |
| `Questions.FillAfterCore` | lib/questions.ts:1311-1375 | Exactly core and routed picks, then variety picks, then the drawn free-text id, then the pool-order fill. A free-text question is included when there is room, and the list ends full or with the pool exhausted. |
| `Questions.NextQuestions` | lib/questions.ts:1296-1378 | Empty for `totalQuestions <= 0`, never longer than `totalQuestions`, no id twice, all pool ids. The core prefix comes first. With more than four slots the list is exactly core, routed picks, variety picks, the drawn free-text id and the pool-order fill. A free-text question is included when slots remain after routing. The length is exactly `totalQuestions` when the pool is large enough. |
| `Llm.NewLlmService` | lib/llm.ts:27-41 | A missing or empty key fails with "not set". A key without the `sk-` prefix fails with "invalid". Any other key succeeds. |
| `Llm.FencedBlock` | lib/llm.ts:210-221 | Finds a block exactly when an opening fence is followed by a closing fence. |
| `Llm.FirstBlock` | lib/llm.ts:213-220 | The first opening fence and the next closing fence after it form the only block the search can return. |
| `Llm.FencedBlockBody` | lib/llm.ts:213-221 | The block found is the trimmed text between the first opening fence and the next closing fence. |
| `Llm.ExtractJsonFromMarkdown` | lib/llm.ts:209-224 | The result never starts or ends with whitespace and is no longer than the input. Without any fenced block it is the trimmed text. |
| `Llm.ExtractJsonBlock` | lib/llm.ts:210-216 | With a ```` ```json ```` block, the result is that block's trimmed body. |
| `Llm.ExtractCodeBlock` | lib/llm.ts:211-221 | Without a json block, the result is the trimmed body of the first plain ```` ``` ```` block. |
| `Llm.PlainReplyIsTrimmed` | lib/llm.ts:223 | A reply without any fence comes back trimmed. |
| `Llm.WrappedJsonRoundTrip` | lib/llm.ts:209-216 | Wrapping a fence-free, trimmed JSON body in a json block with newlines and extracting it gives the body back. |
| `Llm.ErrorMessage` | lib/llm.ts:102-123 | Status 429, 401 and 400 each give their own message. Any other status, or none, gives the operation's generic message. |
| `Llm.Complete` | lib/llm.ts:95-124 | Succeeds exactly when there is a non-empty reply whose cleaned text parses, and then yields the parse. Every failure is classified by the error's status. |
| `Llm.AnalyzePersonality` | lib/llm.ts:95-124 | Succeeds exactly when the reply has text whose cleaned JSON parses, and returns the parse. An API error gives the message for its status. Failures carry one of the four messages; an empty or unparsable reply always gives the generic one, and a specific message needs a client error with that status. |
| `Llm.GenerateSongRecommendations` | lib/llm.ts:175-206 | The same, with the song-recommendation generic message. |
| `Spotify.Refresh` | lib/spotify.ts:44-80 | Missing credentials give the "not configured" error and a failed request gives the authentication error, and in both cases the cache is unchanged. A granted token is stored with expiry `receivedAt + expires_in*1000 - 60000`. |
| `Spotify.Ensure` | lib/spotify.ts:36-42 | A usable token is kept as is. An absent, empty or expired one is refreshed. After success a token is cached, and after failure nothing changes. |
| `Spotify.FreshTokenIsReused` | lib/spotify.ts:36-42 | While the token is usable, no credentials or token reply are consulted. |
| `Spotify.GrantedTokenRetiredEarly` | lib/spotify.ts:73-76 | A granted token is used exactly until 60 s before its announced expiry. |
| `Spotify.ShortLivedTokenIsStale` | lib/spotify.ts:76 | A token granted for 60 s or less is stale on arrival. |
| `Spotify.EmptyTokenAlwaysRefreshes` | lib/spotify.ts:39 | An empty token string counts as no token. |
| `Spotify.Fetch` | lib/spotify.ts:82-111 | A token failure is passed on. Otherwise the request carries the cached token as bearer, and only a 2xx reply succeeds. |
| `Spotify.SearchResult` | lib/spotify.ts:117-128 | The delivered `tracks.items`, or `[]` when it is missing or anything failed. |
| `Spotify.Rewrap` | lib/spotify.ts:131-147 | A success passes through unchanged, and every failure becomes the operation's message. |
| `Spotify.SpotifyService.constructor` | lib/spotify.ts:32-33 | A new service has no token and needs a refresh at any time. |
| `Spotify.SpotifyService.RefreshToken` | lib/spotify.ts:44-80 | The new fields and the outcome are those of `Refresh` on the old fields. |
| `Spotify.SpotifyService.EnsureValidToken` | lib/spotify.ts:36-42 | The new fields and the outcome are those of `Ensure` on the old fields. |
| `Spotify.SpotifyService.MakeRequest` | lib/spotify.ts:82-111 | The new fields and the result are those of `Fetch`. |
| `Spotify.SpotifyService.SearchTracks` | lib/spotify.ts:113-129 | Never fails, and returns `SearchResult` of the `/search` request with `q`, `type=track` and `limit`. |
| `Spotify.SpotifyService.GetTrack` | lib/spotify.ts:131-138 | The fetched track, or "Failed to get track". |
| `Spotify.SpotifyService.GetArtist` | lib/spotify.ts:140-147 | The fetched artist, or "Failed to get artist". |
| `MusicRecommendations.EnergyDescription` | lib/music-recommendations.ts:151-155 | "high" iff energy > 0.7, "moderate" iff 0.4 < energy ≤ 0.7, "calm" otherwise. |
| `MusicRecommendations.ValenceDescription` | lib/music-recommendations.ts:157-161 | "upbeat" iff valence > 0.7, "balanced" iff 0.4 < valence ≤ 0.7, "mellow" otherwise. |
| `MusicRecommendations.MoodFromValence` | lib/music-recommendations.ts:163-169 | Five labels split at the strict thresholds 0.8, 0.6, 0.4 and 0.2, each label in both directions. |
| `MusicRecommendations.EnergyLevel` | lib/music-recommendations.ts:171-175 | High iff energy > 0.6, Medium iff 0.3 < energy ≤ 0.6, Low otherwise. |
| `MusicRecommendations.EnergyLevelMonotone` | lib/music-recommendations.ts:171-175 | More energy never gives a lower level. |
| `MusicRecommendations.MoodMonotone` | lib/music-recommendations.ts:163-169 | More valence never gives a sadder mood. |
| `MusicRecommendations.EnergyWordsAndLevels` | lib/music-recommendations.ts:151-175 | "high" implies High and Low implies "calm". Every energy in (0.3, 0.4] reads "calm" at level Medium, and every energy in (0.6, 0.7] reads "moderate" at level High. |
| `MusicRecommendations.SongFromTrack` | lib/music-recommendations.ts:67-81 | The first artist or "Unknown Artist", the embed link from the id, a preview only when non-empty, the first album image, and Spotify's link or one built from the id. The given reason, traits, mood and energy are copied. |
| `MusicRecommendations.FoundSongs` | lib/music-recommendations.ts:56-89 | After `n` recommendations, at most `n` songs. |
| `MusicRecommendations.HitIndicesAreHits` | lib/music-recommendations.ts:61-65 | The reference list of hits holds, ascending, exactly the positions whose search found a track. |
| `MusicRecommendations.FoundSongsFollowHits` | lib/music-recommendations.ts:61-86 | Exactly one song per recommendation whose search found a track, in recommendation order. Each is built from the first hit with that recommendation's reason, traits, mood and energy. |
| `MusicRecommendations.FindSpotifySongs` | lib/music-recommendations.ts:56-89 | The loop collects exactly `FoundSongs`. |
| `MusicRecommendations.QueryFor` | lib/music-recommendations.ts:95-102 | At most 3 seed genres, taken from the front. The energy, valence, danceability and acousticness targets are the profile's, and the limit is 10. |
| `MusicRecommendations.BasedSong` | lib/music-recommendations.ts:107-129 | Traits are the first three. Mood and energy level come from the profile's valence and energy, and the reason is the generated sentence. Id, title, artist and links come from the track as `SongFromTrack` states. |
| `MusicRecommendations.SpotifyBasedSongs` | lib/music-recommendations.ts:91-137 | `[]` on failure. Otherwise one song per track among the first three, in order. |
| `MusicRecommendations.GetSpotifyBasedRecommendations` | lib/music-recommendations.ts:91-137 | Returns `SpotifyBasedSongs` of the endpoint's reply: at most 3 songs, each with the first three traits. |
| `MusicRecommendations.Deduplicated` | lib/music-recommendations.ts:139-149 | The result is a subsequence of the input, and no two kept songs share a key. |
| `MusicRecommendations.DeduplicatedKeys` | lib/music-recommendations.ts:139-149 | Every key of the input is kept, and no other key appears. |
| `MusicRecommendations.DeduplicatedKeepsFirst` | lib/music-recommendations.ts:139-149 | A song is kept exactly when no earlier song has its key, in input order. |
| `MusicRecommendations.DeduplicatedIdempotent` | lib/music-recommendations.ts:139-149 | De-duplicating twice is de-duplicating once. |
| `MusicRecommendations.JoinedKeyCollides` | lib/music-recommendations.ts:142 | ("a-b", "c") and ("a", "b-c") share a key, so only the first is kept. |
| `MusicRecommendations.DeduplicateSongs` | lib/music-recommendations.ts:139-149 | The loop with a `seen` set returns exactly `Deduplicated`. |
| `MusicRecommendations.Recommendations` | lib/music-recommendations.ts:24-54 | Every failure gives "Failed to generate music recommendations". It succeeds exactly when the analysis, the genre list and the song-recommendation completion all succeed. On success the songs are the first six of the de-duplicated found songs followed by the Spotify-based songs, with distinct keys. |
| `MusicRecommendations.LlmSongsFirst` | lib/music-recommendations.ts:43-48 | The result starts with as many of the de-duplicated query-found songs as fit in six. |
| `MusicRecommendations.GetPersonalizedRecommendations` | lib/music-recommendations.ts:24-54 | Returns exactly `Recommendations`: success exactly when the analysis, the genre list and the song recommendations succeed, the one failure message otherwise, and on success the analysis with at most 6 songs. |

## Left out

- I/O stays outside the model: the user interface, the API routes, the OpenAI client and its prompts, `fetch`, and `console.error` logging. The replies they produce are parameters: `Completion`, `TokenReply`, `ApiReply` and the `search`/`recommend` functions. Because `search` is a function, two recommendations with the same query get the same tracks; the real `searchTracks` may answer differently from call to call, for example `[]` after a failed token refresh.
- `JSON.parse` is the `parse` parameter, and the shape of the parsed objects is not checked, because the source casts without checking.
- `spotifyService.getAvailableGenres` and `spotifyService.getRecommendations` are called but not defined in lib/spotify.ts. They are the parameters `genres` and `recommend`, each possibly failing, and no behaviour is invented for them.
- `Math.random` has no distribution in the model. The variety shuffle and the free-text pick are driven by arbitrary draws, and a draw `d` picks index `d % n`.
- Whitespace, `trim`, the regular-expression class `\s` and `toLowerCase` are ASCII only. No Unicode spaces or case mappings are modelled.
- Numbers are mathematical `real`s and `int`s. There is no IEEE rounding and no NaN, and `expires_in` is a whole number of seconds.
- URL construction and encoding in `makeRequest` are not modelled. A request carries its endpoint, its parameter list and its bearer token. The Basic authorization header with its base64 encoding is not modelled either.
- A non-2xx Web API reply keeps its status, status text and body as data instead of the formatted error string. Every caller discards that message.
- Requests are sequential. The `async` interleaving of concurrent calls sharing the token cache is not modelled.
- The unused `currentQuestionIndex` parameter of `getNextQuestions` is not modelled, and neither are the icons, labels, options and placeholders of the question pool.
- Questions.NextQuestions: requires a pool with unique ids whose core ids are non-text pool questions, as the shipped pool is. It also requires string answers for the two multiple-choice core questions and numbers for the two sliders, as the form stores them; other answer types would make JavaScript coerce or throw.
- Questions.HighestWeightQuestions: only the result of the engine's stable sort is modelled, not its algorithm. The array is overwritten with that result.
- Questions.CategoryDistribution: returns a map. The quirks of a plain JavaScript object as a dictionary, such as inherited keys, are not modelled.
- MusicRecommendations.FindSpotifySongs: the per-recommendation `catch` only matters when a track lacks its `artists` list. Tracks here always have one, and `searchTracks` never throws, so that path does not arise in the model. The search is the `search` parameter, so the result limit of 3 passed to `searchTracks` is not modelled; only the first track found is used.
- MusicRecommendations.GetSpotifyBasedRecommendations: the same holds for its `catch` around building songs. Only the failure of the recommendations call is modelled.
