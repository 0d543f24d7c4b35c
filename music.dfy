/**
 * The recommendation assembly of lib/music-recommendations.ts: songs found
 * by searching Spotify for the model's queries, followed by up to three
 * songs from Spotify's own recommendations, de-duplicated by a lowercased
 * "title-artist" key and cut to six. Track search, the recommendations
 * endpoint, the genre list and the two chat completions are parameters.
 */
module MusicRecommendations {
  import opened Wrappers
  import opened Seqs
  import opened Strings
  import opened Llm
  import opened Spotify

  datatype Song = Song(id: string, title: string, artist: string, embedUrl: string,
                       previewUrl: Option<string>, imageUrl: Option<string>, reason: string,
                       personalityMatch: seq<string>, mood: string, energy: Energy, spotifyUrl: string)

  datatype MusicRecommendationResult = MusicRecommendationResult(personalityAnalysis: PersonalityAnalysis, songs: seq<Song>)

  const UNKNOWN_ARTIST := "Unknown Artist"
  const EMBED_PREFIX := "https://open.spotify.com/embed/track/"
  const TRACK_PREFIX := "https://open.spotify.com/track/"
  const RECOMMENDATIONS_FAILED_MESSAGE := "Failed to generate music recommendations"

  /** Seed genres and tracks taken from the recommendations endpoint, songs returned. */
  const MAX_SEED_GENRES := 3
  const RECOMMENDATION_LIMIT := 10
  const MAX_SPOTIFY_BASED := 3
  const MAX_SONGS := 6

  // ---------------------------------------------------------------------
  // Labels for energy and valence
  // ---------------------------------------------------------------------

  /** `getEnergyDescription`. */
  function EnergyDescription(energy: real): (r: string)
    ensures r == "high" <==> energy > 0.7
    ensures r == "moderate" <==> 0.4 < energy <= 0.7
    ensures r == "calm" <==> energy <= 0.4
  {
    if energy > 0.7 then "high" else if energy > 0.4 then "moderate" else "calm"
  }

  /** `getValenceDescription`. */
  function ValenceDescription(valence: real): (r: string)
    ensures r == "upbeat" <==> valence > 0.7
    ensures r == "balanced" <==> 0.4 < valence <= 0.7
    ensures r == "mellow" <==> valence <= 0.4
  {
    if valence > 0.7 then "upbeat" else if valence > 0.4 then "balanced" else "mellow"
  }

  /** `getMoodFromValence`: five bands with strict lower bounds. */
  function MoodFromValence(valence: real): (r: string)
    ensures r == "Euphoric" <==> valence > 0.8
    ensures r == "Uplifting" <==> 0.6 < valence <= 0.8
    ensures r == "Balanced" <==> 0.4 < valence <= 0.6
    ensures r == "Melancholic" <==> 0.2 < valence <= 0.4
    ensures r == "Introspective" <==> valence <= 0.2
  {
    if valence > 0.8 then "Euphoric"
    else if valence > 0.6 then "Uplifting"
    else if valence > 0.4 then "Balanced"
    else if valence > 0.2 then "Melancholic"
    else "Introspective"
  }

  /** `getEnergyLevel`. */
  function EnergyLevel(energy: real): (r: Energy)
    ensures r == High <==> energy > 0.6
    ensures r == Medium <==> 0.3 < energy <= 0.6
    ensures r == Low <==> energy <= 0.3
  {
    if energy > 0.6 then High else if energy > 0.3 then Medium else Low
  }

  function EnergyRank(e: Energy): nat
  {
    match e
    case Low => 0
    case Medium => 1
    case High => 2
  }

  function MoodRank(mood: string): nat
  {
    if mood == "Euphoric" then 4
    else if mood == "Uplifting" then 3
    else if mood == "Balanced" then 2
    else if mood == "Melancholic" then 1
    else 0
  }

  /** More energy never gives a lower energy level. */
  lemma EnergyLevelMonotone(e1: real, e2: real)
    requires e1 <= e2
    ensures EnergyRank(EnergyLevel(e1)) <= EnergyRank(EnergyLevel(e2))
  {
  }

  /** More valence never gives a sadder mood. */
  lemma MoodMonotone(v1: real, v2: real)
    requires v1 <= v2
    ensures MoodRank(MoodFromValence(v1)) <= MoodRank(MoodFromValence(v2))
  {
  }

  /**
   * The level and the wording use different cut-offs: energy in (0.3, 0.4]
   * reads "calm" at level Medium, energy in (0.6, 0.7] reads "moderate" at
   * level High. Only the top and bottom words pin the level.
   */
  lemma EnergyWordsAndLevels(energy: real)
    ensures EnergyDescription(energy) == "high" ==> EnergyLevel(energy) == High
    ensures EnergyLevel(energy) == Low ==> EnergyDescription(energy) == "calm"
    ensures 0.3 < energy <= 0.4 ==> EnergyDescription(energy) == "calm" && EnergyLevel(energy) == Medium
    ensures 0.6 < energy <= 0.7 ==> EnergyDescription(energy) == "moderate" && EnergyLevel(energy) == High
  {
  }

  // ---------------------------------------------------------------------
  // Songs from Spotify tracks
  // ---------------------------------------------------------------------

  /**
   * The song object both tiers build from a track: the first artist's name
   * or "Unknown Artist", the embed link, the preview only when non-empty,
   * the first album image, and Spotify's link or one built from the id.
   */
  function SongFromTrack(track: Track, reason: string, personalityMatch: seq<string>, mood: string, energy: Energy): (r: Song)
    ensures r.id == track.id && r.title == track.name && r.embedUrl == EMBED_PREFIX + track.id
    ensures r.artist == (if |track.artists| > 0 && track.artists[0] != "" then track.artists[0] else UNKNOWN_ARTIST)
    ensures r.artist != ""
    ensures r.previewUrl.Some? <==> track.previewUrl.Some? && track.previewUrl.value != ""
    ensures r.previewUrl.Some? ==> r.previewUrl == track.previewUrl
    ensures r.imageUrl.Some? <==> |track.albumImages| > 0
    ensures r.imageUrl.Some? ==> r.imageUrl.value == track.albumImages[0]
    ensures r.spotifyUrl != ""
    ensures track.spotifyUrl.Some? && track.spotifyUrl.value != "" ==> r.spotifyUrl == track.spotifyUrl.value
    ensures track.spotifyUrl.None? || track.spotifyUrl.value == "" ==> r.spotifyUrl == TRACK_PREFIX + track.id
    ensures r.reason == reason && r.personalityMatch == personalityMatch && r.mood == mood && r.energy == energy
  {
    Song(track.id, track.name,
         if |track.artists| > 0 && track.artists[0] != "" then track.artists[0] else UNKNOWN_ARTIST,
         EMBED_PREFIX + track.id,
         if track.previewUrl.Some? && track.previewUrl.value != "" then track.previewUrl else None,
         if |track.albumImages| > 0 then Some(track.albumImages[0]) else None,
         reason, personalityMatch, mood, energy,
         if track.spotifyUrl.Some? && track.spotifyUrl.value != "" then track.spotifyUrl.value else TRACK_PREFIX + track.id)
  }

  /** The song for a model recommendation whose search returned `track` first. */
  function RecommendedSong(rec: SongRecommendation, track: Track): Song
  {
    SongFromTrack(track, rec.reason, rec.personalityMatch, rec.mood, rec.energy)
  }

  // ---------------------------------------------------------------------
  // findSpotifySongs
  // ---------------------------------------------------------------------

  /** The search for the `i`-th recommendation found at least one track. */
  predicate Hit(recs: seq<SongRecommendation>, search: string -> seq<Track>, i: nat)
    requires i < |recs|
  {
    search(recs[i].query) != []
  }

  /** The song made from the `i`-th recommendation and the first track its search found. */
  function HitSong(recs: seq<SongRecommendation>, search: string -> seq<Track>, i: nat): Song
    requires i < |recs| && Hit(recs, search, i)
  {
    RecommendedSong(recs[i], search(recs[i].query)[0])
  }

  /**
   * The songs `findSpotifySongs` has collected after the first `n`
   * recommendations, given `searchTracks(query, 3)` as `search`.
   */
  function FoundSongs(recs: seq<SongRecommendation>, search: string -> seq<Track>, n: nat): (songs: seq<Song>)
    requires n <= |recs|
    ensures |songs| <= n
  {
    if n == 0 then []
    else FoundSongs(recs, search, n - 1) + (if Hit(recs, search, n - 1) then [HitSong(recs, search, n - 1)] else [])
  }

  /** The positions among the first `n` recommendations whose search found something, in order. */
  function HitIndices(recs: seq<SongRecommendation>, search: string -> seq<Track>, n: nat): seq<nat>
    requires n <= |recs|
  {
    if n == 0 then []
    else HitIndices(recs, search, n - 1) + (if Hit(recs, search, n - 1) then [n - 1] else [])
  }

  /** `HitIndices` lists exactly the positions below `n` whose search found something, ascending. */
  lemma {:induction false} HitIndicesAreHits(recs: seq<SongRecommendation>, search: string -> seq<Track>, n: nat)
    requires n <= |recs|
    ensures var r := HitIndices(recs, search, n);
      && (forall k :: 0 <= k < |r| ==> r[k] < n && Hit(recs, search, r[k]))
      && (forall i :: 0 <= i < n && Hit(recs, search, i) ==> i in r)
      && (forall k, l :: 0 <= k < l < |r| ==> r[k] < r[l])
  {
    if n > 0 {
      HitIndicesAreHits(recs, search, n - 1);
    }
  }

  /**
   * One song per recommendation whose search found a track, in
   * recommendation order, built from the first hit and carrying the
   * recommendation's reason, traits, mood and energy.
   */
  lemma {:induction false} FoundSongsFollowHits(recs: seq<SongRecommendation>, search: string -> seq<Track>, n: nat)
    requires n <= |recs|
    ensures |FoundSongs(recs, search, n)| == |HitIndices(recs, search, n)|
    ensures forall k :: 0 <= k < |FoundSongs(recs, search, n)| ==>
      var i := HitIndices(recs, search, n)[k];
      i < n && Hit(recs, search, i) && FoundSongs(recs, search, n)[k] == HitSong(recs, search, i)
  {
    if n > 0 {
      FoundSongsFollowHits(recs, search, n - 1);
      var before, hitsBefore := FoundSongs(recs, search, n - 1), HitIndices(recs, search, n - 1);
      var songs, hits := FoundSongs(recs, search, n), HitIndices(recs, search, n);
      forall k | 0 <= k < |songs|
        ensures hits[k] < n && Hit(recs, search, hits[k])
        ensures songs[k] == HitSong(recs, search, hits[k])
      {
        if k < |before| {
          assert songs[k] == before[k] && hits[k] == hitsBefore[k];
        } else {
          assert hits[k] == n - 1;
        }
      }
    }
  }

  /** `findSpotifySongs`. */
  method FindSpotifySongs(recs: seq<SongRecommendation>, search: string -> seq<Track>) returns (songs: seq<Song>)
    ensures songs == FoundSongs(recs, search, |recs|)
  {
    songs := [];
    for i := 0 to |recs|
      invariant songs == FoundSongs(recs, search, i)
    {
      var searchResults := search(recs[i].query);
      if |searchResults| > 0 {
        songs := songs + [RecommendedSong(recs[i], searchResults[0])];
      }
    }
  }

  // ---------------------------------------------------------------------
  // getSpotifyBasedRecommendations
  // ---------------------------------------------------------------------

  /** The argument of `spotifyService.getRecommendations`. */
  datatype RecommendationQuery = RecommendationQuery(seedGenres: seq<string>, targetEnergy: real, targetValence: real,
                                                     targetDanceability: real, targetAcousticness: real, limit: nat)

  /** At most three seed genres and the four audio targets of the listener's preferences. */
  function QueryFor(analysis: PersonalityAnalysis): (q: RecommendationQuery)
    ensures |q.seedGenres| == Min(MAX_SEED_GENRES, |analysis.musicPreferences.genres|)
    ensures q.seedGenres == analysis.musicPreferences.genres[..|q.seedGenres|]
    ensures q.targetEnergy == analysis.musicPreferences.energy && q.targetValence == analysis.musicPreferences.valence
    ensures q.targetDanceability == analysis.musicPreferences.danceability
    ensures q.targetAcousticness == analysis.musicPreferences.acousticness
    ensures q.limit == RECOMMENDATION_LIMIT
  {
    var prefs := analysis.musicPreferences;
    RecommendationQuery(SliceTo(prefs.genres, MAX_SEED_GENRES), prefs.energy, prefs.valence,
                        prefs.danceability, prefs.acousticness, RECOMMENDATION_LIMIT)
  }

  /** The reason given for every Spotify-recommended song. */
  function BasedReason(analysis: PersonalityAnalysis): string
  {
    "This song matches your " + Lower(analysis.personalityType) + " personality with its "
    + EnergyDescription(analysis.musicPreferences.energy) + " energy and "
    + ValenceDescription(analysis.musicPreferences.valence) + " vibe."
  }

  /** The song for a Spotify-recommended track. */
  function BasedSong(analysis: PersonalityAnalysis, track: Track): (r: Song)
    ensures r.personalityMatch == SliceTo(analysis.traits, 3)
    ensures r.mood == MoodFromValence(analysis.musicPreferences.valence)
    ensures r.energy == EnergyLevel(analysis.musicPreferences.energy)
    ensures r.id == track.id && r.reason == BasedReason(analysis)
    // title, artist and the links are taken from the track exactly as for a model recommendation
    ensures r == SongFromTrack(track, r.reason, r.personalityMatch, r.mood, r.energy)
  {
    SongFromTrack(track, BasedReason(analysis), SliceTo(analysis.traits, 3),
                  MoodFromValence(analysis.musicPreferences.valence), EnergyLevel(analysis.musicPreferences.energy))
  }

  /**
   * What `getSpotifyBasedRecommendations` returns for the endpoint's reply:
   * nothing if the call failed, else one song per track among the first three.
   */
  function SpotifyBasedSongs(analysis: PersonalityAnalysis, reply: Result<seq<Track>, string>): (songs: seq<Song>)
    ensures reply.Failure? ==> songs == []
    ensures reply.Success? ==> |songs| == Min(MAX_SPOTIFY_BASED, |reply.value|)
    ensures forall k :: 0 <= k < |songs| ==> songs[k] == BasedSong(analysis, reply.value[k])
  {
    if reply.Failure? then []
    else
      var top := SliceTo(reply.value, MAX_SPOTIFY_BASED);
      seq(|top|, k requires 0 <= k < |top| => BasedSong(analysis, top[k]))
  }

  /** `getSpotifyBasedRecommendations`. */
  method GetSpotifyBasedRecommendations(analysis: PersonalityAnalysis, recommend: RecommendationQuery -> Result<seq<Track>, string>)
    returns (songs: seq<Song>)
    ensures songs == SpotifyBasedSongs(analysis, recommend(QueryFor(analysis)))
    ensures |songs| <= MAX_SPOTIFY_BASED
    ensures forall s :: s in songs ==> s.personalityMatch == SliceTo(analysis.traits, 3) && s.reason == BasedReason(analysis)
  {
    var recommendations := recommend(QueryFor(analysis));
    if recommendations.Failure? {
      return [];
    }
    var top := SliceTo(recommendations.value, MAX_SPOTIFY_BASED);
    songs := [];
    for i := 0 to |top|
      invariant |songs| == i
      invariant forall k :: 0 <= k < i ==> songs[k] == BasedSong(analysis, top[k])
    {
      songs := songs + [BasedSong(analysis, top[i])];
    }
  }

  // ---------------------------------------------------------------------
  // deduplicateSongs
  // ---------------------------------------------------------------------

  /** The de-duplication key: lowercased title and artist joined by a hyphen. */
  function Key(song: Song): string
  {
    Lower(song.title) + "-" + Lower(song.artist)
  }

  function Keys(songs: seq<Song>): set<string>
  {
    set i | 0 <= i < |songs| :: Key(songs[i])
  }

  predicate DistinctKeys(songs: seq<Song>)
  {
    forall i, j :: 0 <= i < j < |songs| ==> Key(songs[i]) != Key(songs[j])
  }

  lemma KeysCons(songs: seq<Song>)
    requires songs != []
    ensures Keys(songs) == {Key(songs[0])} + Keys(songs[1..])
  {
    forall x | x in Keys(songs) ensures x in {Key(songs[0])} + Keys(songs[1..]) {
      var i :| 0 <= i < |songs| && x == Key(songs[i]);
      if i > 0 {
        assert songs[1..][i - 1] == songs[i];
      }
    }
    forall x | x in Keys(songs[1..]) ensures x in Keys(songs) {
      var i :| 0 <= i < |songs[1..]| && x == Key(songs[1..][i]);
      assert songs[1..][i] == songs[i + 1];
    }
  }

  /** The filter with the `seen` set, started from a given `seen`. */
  function DedupFrom(songs: seq<Song>, seen: set<string>): (r: seq<Song>)
    ensures IsSubseq(r, songs)
    ensures |r| <= |songs|
    ensures DistinctKeys(r)
    ensures forall k :: 0 <= k < |r| ==> Key(r[k]) !in seen
  {
    if songs == [] then []
    else if Key(songs[0]) in seen then DedupFrom(songs[1..], seen)
    else [songs[0]] + DedupFrom(songs[1..], seen + {Key(songs[0])})
  }

  /** `deduplicateSongs` as a value. */
  function Deduplicated(songs: seq<Song>): (r: seq<Song>)
    ensures IsSubseq(r, songs) && DistinctKeys(r)
  {
    DedupFrom(songs, {})
  }

  /** Every key of the input survives except those already seen, and no other key appears. */
  lemma {:induction false} DedupFromKeys(songs: seq<Song>, seen: set<string>)
    ensures Keys(DedupFrom(songs, seen)) == Keys(songs) - seen
  {
    if songs != [] {
      DedupFromKeys(songs[1..], if Key(songs[0]) in seen then seen else seen + {Key(songs[0])});
      KeysCons(songs);
      if Key(songs[0]) !in seen {
        KeysCons(DedupFrom(songs, seen));
        assert DedupFrom(songs, seen)[1..] == DedupFrom(songs[1..], seen + {Key(songs[0])});
      }
    }
  }

  /** Every song's key is represented in the output. */
  lemma DeduplicatedKeys(songs: seq<Song>)
    ensures Keys(Deduplicated(songs)) == Keys(songs)
  {
    DedupFromKeys(songs, {});
  }

  /** Filtering a concatenation: the second part is filtered against everything the first part contributed. */
  lemma {:induction false} DedupAppend(a: seq<Song>, b: seq<Song>, seen: set<string>)
    ensures DedupFrom(a + b, seen) == DedupFrom(a, seen) + DedupFrom(b, seen + Keys(a))
  {
    if a == [] {
      assert a + b == b;
      assert Keys(a) == {};
      assert seen + Keys(a) == seen;
    } else {
      assert (a + b)[0] == a[0] && (a + b)[1..] == a[1..] + b;
      KeysCons(a);
      if Key(a[0]) in seen {
        DedupAppend(a[1..], b, seen);
        assert seen + Keys(a) == seen + Keys(a[1..]);
      } else {
        DedupAppend(a[1..], b, seen + {Key(a[0])});
        assert seen + Keys(a) == seen + {Key(a[0])} + Keys(a[1..]);
      }
    }
  }

  /** Independent statement of keep-the-first: a song stays iff no earlier song has its key. */
  function FirstByKey(songs: seq<Song>): seq<Song>
  {
    if songs == [] then []
    else
      var prefix := songs[..|songs| - 1];
      var last := songs[|songs| - 1];
      FirstByKey(prefix) + (if Key(last) in Keys(prefix) then [] else [last])
  }

  /** `deduplicateSongs` keeps exactly the first song of each key, in input order. */
  lemma {:induction false} DeduplicatedKeepsFirst(songs: seq<Song>)
    ensures Deduplicated(songs) == FirstByKey(songs)
  {
    if songs != [] {
      var prefix := songs[..|songs| - 1];
      var last := songs[|songs| - 1];
      assert songs == prefix + [last];
      DeduplicatedKeepsFirst(prefix);
      DedupAppend(prefix, [last], {});
      assert {} + Keys(prefix) == Keys(prefix);
    }
  }

  /** A list whose keys are already distinct and unseen passes through unchanged. */
  lemma {:induction false} DedupFromDistinct(songs: seq<Song>, seen: set<string>)
    requires DistinctKeys(songs) && Keys(songs) !! seen
    ensures DedupFrom(songs, seen) == songs
  {
    if songs != [] {
      KeysCons(songs);
      var rest := songs[1..];
      assert DistinctKeys(rest) by {
        forall i, j | 0 <= i < j < |rest| ensures Key(rest[i]) != Key(rest[j]) {
          assert rest[i] == songs[i + 1] && rest[j] == songs[j + 1];
        }
      }
      forall i | 0 <= i < |rest| ensures Key(rest[i]) != Key(songs[0]) {
        assert rest[i] == songs[i + 1];
      }
      assert Key(songs[0]) !in Keys(rest);
      DedupFromDistinct(rest, seen + {Key(songs[0])});
    }
  }

  /** De-duplicating twice is de-duplicating once. */
  lemma DeduplicatedIdempotent(songs: seq<Song>)
    ensures Deduplicated(Deduplicated(songs)) == Deduplicated(songs)
  {
    DedupFromDistinct(Deduplicated(songs), {});
  }

  /**
   * The key is the joined string, so a song titled "a-b" by "c" and one
   * titled "a" by "b-c" collide, and only the first is kept; so do two
   * songs whose names differ only in letter case.
   */
  lemma JoinedKeyCollides(s1: Song, s2: Song)
    requires s1.title == "a-b" && s1.artist == "c" && s2.title == "a" && s2.artist == "b-c"
    ensures Key(s1) == Key(s2)
    ensures Deduplicated([s1, s2]) == [s1]
  {
    assert Lower("a-b") == "a-b";
    assert Lower("c") == "c";
    assert Lower("a") == "a";
    assert Lower("b-c") == "b-c";
    assert Key(s1) == "a-b-c";
    assert Key(s2) == "a-b-c";
    assert [s1, s2][1..] == [s2];
    assert [s2][1..] == [];
    assert Key(s2) in {} + {Key(s1)};
    assert DedupFrom([s2], {} + {Key(s1)}) == DedupFrom([], {} + {Key(s1)});
    assert DedupFrom([s1, s2], {}) == [s1] + DedupFrom([s2], {} + {Key(s1)});
  }

  /** `deduplicateSongs`: one pass over `songs` with a set of the keys seen so far. */
  method DeduplicateSongs(songs: seq<Song>) returns (unique: seq<Song>)
    ensures unique == Deduplicated(songs)
  {
    var seen: set<string> := {};
    unique := [];
    for i := 0 to |songs|
      invariant unique + DedupFrom(songs[i..], seen) == Deduplicated(songs)
    {
      assert songs[i..][0] == songs[i] && songs[i..][1..] == songs[i + 1..];
      var key := Key(songs[i]);
      if key !in seen {
        seen := seen + {key};
        unique := unique + [songs[i]];
      }
    }
  }

  // ---------------------------------------------------------------------
  // getPersonalizedRecommendations
  // ---------------------------------------------------------------------

  /**
   * The whole pipeline as a value. `analysisReply` is the completion for
   * the personality prompt; `recommendationReply` gives the completion for
   * the song prompt built from the analysis and the genre list; `genres` is
   * what `getAvailableGenres` returned. Any failure becomes one message.
   */
  function Recommendations(analysisReply: Completion, parseAnalysis: string -> Option<PersonalityAnalysis>,
                           genres: Result<seq<string>, string>,
                           recommendationReply: (PersonalityAnalysis, seq<string>) -> Completion,
                           parseRecommendations: string -> Option<seq<SongRecommendation>>,
                           search: string -> seq<Track>, recommend: RecommendationQuery -> Result<seq<Track>, string>)
    : (r: Result<MusicRecommendationResult, string>)
    ensures r.Failure? ==> r.error == RECOMMENDATIONS_FAILED_MESSAGE
    // it succeeds exactly when the analysis, the genre list and the song recommendations all succeed
    ensures r.Success? <==>
      var analysis := AnalyzePersonality(analysisReply, parseAnalysis);
      analysis.Success? && genres.Success? &&
      GenerateSongRecommendations(recommendationReply(analysis.value, genres.value), parseRecommendations).Success?
    ensures r.Success? ==>
      var analysis := AnalyzePersonality(analysisReply, parseAnalysis);
      var recs := GenerateSongRecommendations(recommendationReply(analysis.value, genres.value), parseRecommendations);
      analysis.Success? && genres.Success? && recs.Success? &&
      r.value.personalityAnalysis == analysis.value &&
      r.value.songs == SliceTo(Deduplicated(FoundSongs(recs.value, search, |recs.value|) +
                                            SpotifyBasedSongs(analysis.value, recommend(QueryFor(analysis.value)))), MAX_SONGS)
    ensures r.Success? ==> |r.value.songs| <= MAX_SONGS && DistinctKeys(r.value.songs)
  {
    var analysis := AnalyzePersonality(analysisReply, parseAnalysis);
    if analysis.Failure? || genres.Failure? then Failure(RECOMMENDATIONS_FAILED_MESSAGE)
    else
      var recs := GenerateSongRecommendations(recommendationReply(analysis.value, genres.value), parseRecommendations);
      if recs.Failure? then Failure(RECOMMENDATIONS_FAILED_MESSAGE)
      else
        var all := FoundSongs(recs.value, search, |recs.value|) + SpotifyBasedSongs(analysis.value, recommend(QueryFor(analysis.value)));
        var unique := Deduplicated(all);
        assert DistinctKeys(SliceTo(unique, MAX_SONGS)) by {
          var top := SliceTo(unique, MAX_SONGS);
          forall i, j | 0 <= i < j < |top| ensures Key(top[i]) != Key(top[j]) {
            assert top[i] == unique[i] && top[j] == unique[j];
          }
        }
        Success(MusicRecommendationResult(analysis.value, SliceTo(unique, MAX_SONGS)))
  }

  /**
   * The songs found through the model's queries come first: the result
   * starts with as many of their de-duplicated list as fit in six.
   */
  lemma LlmSongsFirst(found: seq<Song>, based: seq<Song>)
    ensures var top := SliceTo(Deduplicated(found + based), MAX_SONGS);
      var n := Min(MAX_SONGS, |Deduplicated(found)|);
      n <= |top| && top[..n] == Deduplicated(found)[..n]
  {
    DedupAppend(found, based, {});
  }

  /** `getPersonalizedRecommendations`; the Spotify recommendations are requested whatever the search found. */
  method GetPersonalizedRecommendations(analysisReply: Completion, parseAnalysis: string -> Option<PersonalityAnalysis>,
                                        genres: Result<seq<string>, string>,
                                        recommendationReply: (PersonalityAnalysis, seq<string>) -> Completion,
                                        parseRecommendations: string -> Option<seq<SongRecommendation>>,
                                        search: string -> seq<Track>, recommend: RecommendationQuery -> Result<seq<Track>, string>)
    returns (r: Result<MusicRecommendationResult, string>)
    ensures r == Recommendations(analysisReply, parseAnalysis, genres, recommendationReply, parseRecommendations, search, recommend)
    ensures r.Failure? ==> r.error == RECOMMENDATIONS_FAILED_MESSAGE
    ensures r.Success? <==>
      var analysis := AnalyzePersonality(analysisReply, parseAnalysis);
      analysis.Success? && genres.Success? &&
      GenerateSongRecommendations(recommendationReply(analysis.value, genres.value), parseRecommendations).Success?
    ensures r.Success? ==> |r.value.songs| <= MAX_SONGS && r.value.personalityAnalysis == AnalyzePersonality(analysisReply, parseAnalysis).value
  {
    var personalityAnalysis := AnalyzePersonality(analysisReply, parseAnalysis);
    if personalityAnalysis.Failure? || genres.Failure? {
      return Failure(RECOMMENDATIONS_FAILED_MESSAGE);
    }
    var songRecommendations := GenerateSongRecommendations(recommendationReply(personalityAnalysis.value, genres.value),
                                                           parseRecommendations);
    if songRecommendations.Failure? {
      return Failure(RECOMMENDATIONS_FAILED_MESSAGE);
    }
    var songs := FindSpotifySongs(songRecommendations.value, search);
    var spotifyBasedSongs := GetSpotifyBasedRecommendations(personalityAnalysis.value, recommend);
    var allSongs := songs + spotifyBasedSongs;
    var uniqueSongs := DeduplicateSongs(allSongs);
    r := Success(MusicRecommendationResult(personalityAnalysis.value, SliceTo(uniqueSongs, MAX_SONGS)));
  }
}
