/**
 * The track-information helpers used by the music commands: the
 * `M:SS` duration formatter, the record describing a requested song and
 * the choice of the audio stream that gets saved to disk.
 */
module TrackInfo {
  import opened Wrappers
  import opened Sources

  // ---------------------------------------------------------------------
  // Decimal rendering, as Python's f-string prints an int
  // ---------------------------------------------------------------------

  predicate IsDigit(c: char)
  {
    '0' <= c <= '9'
  }

  function DigitChar(d: nat): (c: char)
    requires d < 10
    ensures IsDigit(c) && (c - '0') as nat == d
  {
    ('0' as int + d) as char
  }

  /** Decimal digits of `n`, most significant first, without leading zeros. */
  function Decimal(n: nat): (r: string)
    ensures |r| >= 1
    ensures forall i :: 0 <= i < |r| ==> IsDigit(r[i])
    ensures r[0] == '0' <==> n == 0
    decreases n
  {
    if n < 10 then [DigitChar(n)] else Decimal(n / 10) + [DigitChar(n % 10)]
  }

  /** Reads a string of decimal digits as a number. */
  function DecimalValue(s: string): (r: nat)
  {
    if |s| == 0 then 0
    else DecimalValue(s[..|s| - 1]) * 10 + (if IsDigit(s[|s| - 1]) then (s[|s| - 1] - '0') as nat else 0)
  }

  lemma {:induction false} DecimalRoundTrip(n: nat)
    ensures DecimalValue(Decimal(n)) == n
    decreases n
  {
    var r := Decimal(n);
    if n < 10 {
      assert r[..|r| - 1] == [];
    } else {
      DecimalRoundTrip(n / 10);
      assert r[..|r| - 1] == Decimal(n / 10);
      assert DecimalValue(r) == (n / 10) * 10 + n % 10;
    }
  }

  /** `f'{i}'` for any int: a minus sign before the digits of a negative number. */
  function IntToString(i: int): (r: string)
  {
    if i < 0 then "-" + Decimal(-i) else Decimal(i)
  }

  /** Reads an optionally signed decimal. */
  function SignedValue(s: string): (r: int)
  {
    if |s| > 0 && s[0] == '-' then -(DecimalValue(s[1..]) as int) else DecimalValue(s)
  }

  lemma IntRoundTrip(i: int)
    ensures SignedValue(IntToString(i)) == i
  {
    if i < 0 {
      assert IntToString(i)[1..] == Decimal(-i);
      DecimalRoundTrip(-i);
    } else {
      assert IsDigit(Decimal(i)[0]);
      DecimalRoundTrip(i);
    }
  }

  /** `f'{x:02d}'` for `0 <= x < 100`: exactly two digits, zero-padded. */
  function TwoDigits(x: nat): (r: string)
    requires x < 100
    ensures |r| == 2 && IsDigit(r[0]) && IsDigit(r[1])
    ensures DecimalValue(r) == x
  {
    var r := [DigitChar(x / 10), DigitChar(x % 10)];
    assert r[..1] == [r[0]] && r[..1][..0] == [];
    assert DecimalValue(r[..1]) == x / 10;
    r
  }

  // ---------------------------------------------------------------------
  // format_time
  // ---------------------------------------------------------------------

  /**
   * `divmod(seconds, 60)` then `f'{minutes}:{seconds:02d}'`. Python's divmod
   * floors, like Dafny's `/` and `%` with a positive divisor, so the
   * remainder is always in 0..59.
   */
  function FormatTime(seconds: int): (r: string)
  {
    IntToString(seconds / 60) + ":" + TwoDigits(seconds % 60)
  }

  /** The text before the last three characters: the minutes field of `M:SS`. */
  function MinutesField(t: string): (r: string)
    requires |t| >= 3
  {
    t[..|t| - 3]
  }

  /** The last two characters: the seconds field of `M:SS`. */
  function SecondsField(t: string): (r: string)
    requires |t| >= 2
  {
    t[|t| - 2..]
  }

  /** The output has the `M:SS` layout: a minutes field, one colon, two digits below 60. */
  lemma FormatTimeShape(seconds: int)
    ensures |FormatTime(seconds)| >= 4
    ensures FormatTime(seconds)[|FormatTime(seconds)| - 3] == ':'
    ensures forall i :: 0 <= i < |FormatTime(seconds)| && i != |FormatTime(seconds)| - 3 ==> FormatTime(seconds)[i] != ':'
    ensures IsDigit(SecondsField(FormatTime(seconds))[0]) && IsDigit(SecondsField(FormatTime(seconds))[1])
    ensures DecimalValue(SecondsField(FormatTime(seconds))) < 60
    ensures seconds >= 0 ==> MinutesField(FormatTime(seconds)) == Decimal(seconds / 60)
  {
    var t := FormatTime(seconds);
    var m := IntToString(seconds / 60);
    var ss := TwoDigits(seconds % 60);
    assert t == m + ":" + ss;
    assert t[..|m|] == m && t[|m| + 1..] == ss;
    forall i | 0 <= i < |t| && i != |t| - 3 ensures t[i] != ':' {
      if i < |m| {
        assert t[i] == m[i];
        if seconds / 60 < 0 && i == 0 {
          assert m[0] == '-';
        } else if seconds / 60 < 0 {
          assert m[i] == Decimal(-(seconds / 60))[i - 1];
        }
      } else {
        assert t[i] == ss[i - |m| - 1];
      }
    }
  }

  /** Reading the output back as `m:ss` gives `m * 60 + ss == seconds`, for every integer. */
  lemma FormatTimeRoundTrip(seconds: int)
    ensures |FormatTime(seconds)| >= 4
    ensures SignedValue(MinutesField(FormatTime(seconds))) * 60 + DecimalValue(SecondsField(FormatTime(seconds))) == seconds
  {
    var t := FormatTime(seconds);
    var m := IntToString(seconds / 60);
    var ss := TwoDigits(seconds % 60);
    assert t == m + ":" + ss;
    assert MinutesField(t) == m;
    assert SecondsField(t) == ss;
    IntRoundTrip(seconds / 60);
  }

  /** There is no hour field: an hour is sixty minutes, and minutes are never capped. */
  lemma FormatTimeNoHours(seconds: int)
    requires seconds >= 3600
    ensures DecimalValue(MinutesField(FormatTime(seconds))) >= 60
  {
    FormatTimeShape(seconds);
    DecimalRoundTrip(seconds / 60);
  }

  lemma FormatTimeExamples()
    ensures FormatTime(3600) == "60:00"
    ensures FormatTime(61) == "1:01"
    ensures FormatTime(0) == "0:00"
  {
    assert Decimal(60) == Decimal(6) + ['0'];
  }

  // ---------------------------------------------------------------------
  // get_song_info and download
  // ---------------------------------------------------------------------

  /** The dictionary `get_song_info` builds for a queued request. */
  datatype SongInfo = SongInfo(
    songName: string,
    songDuration: string,
    requestAuthor: string,
    thumbnailUrl: string,
    url: string)

  /**
   * Resolves the request (YouTube link, Spotify track link, or search) and
   * describes the video; any failure along the way gives no record.
   */
  function GetSongInfo(url: string, requestAuthor: string, svc: Services): (r: Option<SongInfo>)
    ensures r.Some? <==> Resolve(url, svc).Some?
    ensures r.Some? ==> r.value.url == url && r.value.requestAuthor == requestAuthor
    ensures r.Some? ==> r.value.songName == Resolve(url, svc).value.title
    ensures r.Some? ==> r.value.songDuration == FormatTime(Resolve(url, svc).value.length)
    ensures r.Some? ==> r.value.thumbnailUrl == Resolve(url, svc).value.thumbnailUrl
  {
    match Resolve(url, svc)
    case None => None
    case Some(yt) => Some(SongInfo(yt.title, FormatTime(yt.length), requestAuthor, yt.thumbnailUrl, url))
  }

  /**
   * Saves the first audio-only stream of the resolved video and returns the
   * path `save` gives it; a failed resolution or a video without an audio
   * stream gives no path. The file write itself is the parameter `save`.
   */
  function Download(url: string, svc: Services, save: string -> string): (r: Option<string>)
    ensures r.Some? <==> AudioStream(url, svc).Some?
    ensures r.Some? ==> r.value == save(AudioStream(url, svc).value)
  {
    match Resolve(url, svc)
    case None => None
    case Some(yt) =>
      (match yt.audio
       case None => None
       case Some(stream) => Some(save(stream)))
  }

  /** The song record names the request as the user typed it, not the page it resolved to. */
  lemma SongInfoKeepsRequest(url: string, author: string, svc: Services, video: Video)
    requires Resolve(url, svc) == Some(video)
    ensures GetSongInfo(url, author, svc) == Some(SongInfo(video.title, FormatTime(video.length), author, video.thumbnailUrl, url))
  {
  }

  /** The record and the download both see the same video: they share one dispatch. */
  lemma DownloadAndInfoAgree(url: string, author: string, svc: Services, save: string -> string)
    ensures Download(url, svc, save).Some? ==> GetSongInfo(url, author, svc).Some?
  {
  }
}
