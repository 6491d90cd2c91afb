/**
 * How a user's play request is turned into something playable: the two
 * substring classifiers, the Spotify-to-search rewrite and the fixed
 * dispatch order (YouTube link, then Spotify track link, then free-text
 * search). The music cog and the track-info helpers repeat the same code;
 * it is defined once here. The network libraries behind it (pytube and
 * spotipy) are the fields of a `Services` value, total functions the model
 * knows nothing about.
 */
module Sources {
  import opened Wrappers

  // ---------------------------------------------------------------------
  // Substring containment, Python's `needle in haystack`
  // ---------------------------------------------------------------------

  ghost predicate OccursAt(s: string, sub: string, i: int)
  {
    0 <= i && i + |sub| <= |s| && s[i..i + |sub|] == sub
  }

  /** Scans `s` left to right for a copy of `sub`. */
  function Contains(s: string, sub: string): (r: bool)
    decreases |s|
  {
    if |sub| > |s| then false
    else if s[..|sub|] == sub then true
    else Contains(s[1..], sub)
  }

  /** The scan finds `sub` exactly when `sub` occurs at some position of `s`. */
  lemma {:induction false} ContainsIff(s: string, sub: string)
    ensures Contains(s, sub) <==> exists i :: OccursAt(s, sub, i)
    decreases |s|
  {
    if |sub| > |s| {
      forall i ensures !OccursAt(s, sub, i) { }
    } else if s[..|sub|] == sub {
      assert OccursAt(s, sub, 0);
    } else {
      ContainsIff(s[1..], sub);
      if exists i :: OccursAt(s[1..], sub, i) {
        var i :| OccursAt(s[1..], sub, i);
        assert s[i + 1..i + 1 + |sub|] == s[1..][i..i + |sub|];
        assert OccursAt(s, sub, i + 1);
      }
      if exists i :: OccursAt(s, sub, i) {
        var i :| OccursAt(s, sub, i);
        assert i != 0;
        assert s[1..][i - 1..i - 1 + |sub|] == s[i..i + |sub|];
        assert OccursAt(s[1..], sub, i - 1);
      }
    }
  }

  const YouTubeMarker: string := "https://www.youtube.com/"
  const SpotifyMarker: string := "open.spotify.com/track/"

  /** A request is a YouTube link when it contains the YouTube marker anywhere. */
  function IsYtUrl(userInput: string): (r: bool)
  {
    Contains(userInput, YouTubeMarker)
  }

  /** A request is a Spotify track link when it contains the Spotify marker anywhere. */
  function IsSpotifyUrl(userInput: string): (r: bool)
  {
    Contains(userInput, SpotifyMarker)
  }

  lemma IsYtUrlIff(userInput: string)
    ensures IsYtUrl(userInput) <==> exists i :: OccursAt(userInput, YouTubeMarker, i)
  {
    ContainsIff(userInput, YouTubeMarker);
  }

  lemma IsSpotifyUrlIff(userInput: string)
    ensures IsSpotifyUrl(userInput) <==> exists i :: OccursAt(userInput, SpotifyMarker, i)
  {
    ContainsIff(userInput, SpotifyMarker);
  }

  /** The classification is by substring only: a marker in the middle of free text still counts. */
  lemma MarkerAnywhereClassifies(before: string, after: string)
    ensures IsYtUrl(before + YouTubeMarker + after)
    ensures IsSpotifyUrl(before + SpotifyMarker + after)
  {
    var y := before + YouTubeMarker + after;
    assert y[|before|..|before| + |YouTubeMarker|] == YouTubeMarker;
    assert OccursAt(y, YouTubeMarker, |before|);
    IsYtUrlIff(y);
    var p := before + SpotifyMarker + after;
    assert p[|before|..|before| + |SpotifyMarker|] == SpotifyMarker;
    assert OccursAt(p, SpotifyMarker, |before|);
    IsSpotifyUrlIff(p);
  }

  /** An input shorter than a marker cannot contain it. */
  lemma ShortInputIsSearch(userInput: string)
    requires |userInput| < |SpotifyMarker|
    ensures !IsYtUrl(userInput) && !IsSpotifyUrl(userInput)
  {
    IsYtUrlIff(userInput);
    IsSpotifyUrlIff(userInput);
  }

  // ---------------------------------------------------------------------
  // Classification and resolution
  // ---------------------------------------------------------------------

  /** Which branch of the resolver handles a request. */
  datatype Kind = YouTubeLink | SpotifyTrack | SearchText

  /** YouTube is tested first, so it wins when both markers are present. */
  function Classify(userInput: string): (k: Kind)
    ensures k == YouTubeLink <==> IsYtUrl(userInput)
    ensures k == SpotifyTrack <==> !IsYtUrl(userInput) && IsSpotifyUrl(userInput)
    ensures k == SearchText <==> !IsYtUrl(userInput) && !IsSpotifyUrl(userInput)
  {
    if IsYtUrl(userInput) then YouTubeLink
    else if IsSpotifyUrl(userInput) then SpotifyTrack
    else SearchText
  }

  /** A YouTube video as pytube exposes it; `audio` is the first audio-only stream, if any. */
  datatype Video = Video(title: string, length: nat, thumbnailUrl: string, audio: Option<string>)

  /** A Spotify catalogue entry: the track name and its artists in catalogue order. */
  datatype Track = Track(name: string, artists: seq<string>)

  /**
   * The network services the resolver calls: open a YouTube link, look up a
   * Spotify track, run a YouTube search (results in rank order). A failing
   * call is `None`; an empty search is `[]`.
   */
  datatype Services = Services(
    youtube: string -> Option<Video>,
    spotifyTrack: string -> Option<Track>,
    search: string -> seq<Video>)

  /** `f"{track['name']} {track['artists'][0]['name']}"`; a track with no artists fails. */
  function SearchTerms(track: Track): (r: Option<string>)
    ensures r.Some? <==> |track.artists| > 0
    ensures r.Some? ==> |r.value| == |track.name| + 1 + |track.artists[0]|
    ensures r.Some? ==> r.value[..|track.name|] == track.name
    ensures r.Some? ==> r.value[|track.name|] == ' '
    ensures r.Some? ==> r.value[|track.name| + 1..] == track.artists[0]
  {
    if |track.artists| == 0 then None else Some(track.name + " " + track.artists[0])
  }

  /** `Search(q).results[0]`: the top-ranked result; an empty result list fails. */
  function FirstResult(results: seq<Video>): (r: Option<Video>)
    ensures r.Some? <==> |results| > 0
    ensures r.Some? ==> r.value == results[0]
  {
    if |results| == 0 then None else Some(results[0])
  }

  /** The video a request resolves to, dispatching on its classification. */
  function Resolve(userInput: string, svc: Services): (r: Option<Video>)
  {
    match Classify(userInput)
    case YouTubeLink => svc.youtube(userInput)
    case SpotifyTrack =>
      (match svc.spotifyTrack(userInput)
       case None => None
       case Some(track) =>
         (match SearchTerms(track)
          case None => None
          case Some(terms) => FirstResult(svc.search(terms))))
    case SearchText => FirstResult(svc.search(userInput))
  }

  /** `.streams.filter(only_audio=True).first().url`: the stream handed to the player. */
  function AudioStream(userInput: string, svc: Services): (r: Option<string>)
  {
    match Resolve(userInput, svc)
    case None => None
    case Some(video) => video.audio
  }

  /** A YouTube link is opened directly: the Spotify lookup and the search are never consulted. */
  lemma YouTubeWins(userInput: string, svc: Services, other: Services)
    requires IsYtUrl(userInput)
    requires other.youtube == svc.youtube
    ensures Resolve(userInput, svc) == svc.youtube(userInput)
    ensures Resolve(userInput, other) == Resolve(userInput, svc)
  {
  }

  /**
   * A Spotify track link is never opened as a video: it resolves to the
   * first search result for "name artist", whatever the YouTube service does.
   */
  lemma SpotifyGoesThroughSearch(userInput: string, svc: Services, track: Track)
    requires !IsYtUrl(userInput) && IsSpotifyUrl(userInput)
    requires svc.spotifyTrack(userInput) == Some(track) && |track.artists| > 0
    ensures Resolve(userInput, svc) == FirstResult(svc.search(track.name + " " + track.artists[0]))
    ensures forall y: string -> Option<Video> ::
              Resolve(userInput, svc.(youtube := y)) == Resolve(userInput, svc)
  {
  }

  /** Anything else is searched for verbatim. */
  lemma SearchTextIsSearchedVerbatim(userInput: string, svc: Services)
    requires !IsYtUrl(userInput) && !IsSpotifyUrl(userInput)
    ensures Resolve(userInput, svc) == FirstResult(svc.search(userInput))
  {
  }

  /** Every failure of a service call surfaces as "no video", never as a different video. */
  lemma ResolveFails(userInput: string, svc: Services)
    ensures Classify(userInput) == YouTubeLink && svc.youtube(userInput).None? ==> Resolve(userInput, svc).None?
    ensures Classify(userInput) == SpotifyTrack && svc.spotifyTrack(userInput).None? ==> Resolve(userInput, svc).None?
    ensures Classify(userInput) == SearchText && svc.search(userInput) == [] ==> Resolve(userInput, svc).None?
  {
  }
}
