/**
 * The full-screen player: its URL helper with the fixed server address, the
 * `m:ss` time labels, the progress bar and the seek on it, the play-mode
 * button, and the lyrics panel that loads the current track's lyrics. The
 * lyrics reply is a parameter; None stands for a call that threw.
 */
module FullPlayer {
  import opened Wrappers
  import opened Text
  import FileUrl
  import MusicList
  import PlayerContext

  const ApiBaseUrl := "http://localhost:8180"

  /** `getFullUrl` here: the server's fixed address in front of every relative path. */
  function FullUrl(path: Option<string>): (r: Option<string>)
    ensures r == FileUrl.FullUrl(path, true, Some(ApiBaseUrl))
  {
    if path.None? || path.value == "" then None
    else if FileUrl.HasScheme(path.value) then path
    else Some(ApiBaseUrl + path.value)
  }

  /** The player's URLs are always absolute, and never prefixed twice. */
  lemma FullUrlAbsolute(path: Option<string>)
    ensures FullUrl(path).Some? ==> FileUrl.HasScheme(FullUrl(path).value)
    ensures FullUrl(FullUrl(path)) == FullUrl(path)
  {
    assert FileUrl.HasScheme(ApiBaseUrl) by {
      assert ApiBaseUrl[..7] == "http://";
    }
    if path.Some? && path.value != "" && !FileUrl.HasScheme(path.value) {
      FileUrl.SchemeOfPrefix(ApiBaseUrl, path.value);
    }
    FileUrl.FullUrlIdempotent(path, true, Some(ApiBaseUrl));
  }

  /** `audioUrl`: '' without a path, otherwise the full URL of the path. */
  function AudioUrl(path: Option<string>): (r: string)
    ensures (path.None? || path.value == "") <==> r == ""
    ensures r != "" ==> FullUrl(path) == Some(r)
  {
    var u := FullUrl(path);
    if u.Some? then u.value else ""
  }

  /** JavaScript's `Math.trunc` on a real. */
  function Trunc(x: real): (t: int)
    ensures x >= 0.0 ==> t == x.Floor
    ensures x < 0.0 ==> t == -((-x).Floor)
  {
    if x >= 0.0 then x.Floor else -((-x).Floor)
  }

  /**
   * `formatTime`: `0:00` for a missing or zero time; otherwise the whole
   * minutes, a colon, and the floor of the remainder modulo 60 (JavaScript's
   * `%`, which keeps the sign of the time) padded to two characters.
   */
  function FormatTime(seconds: Option<real>): (r: string)
    ensures (seconds.None? || seconds.value == 0.0) ==> r == "0:00"
    ensures seconds.Some? && seconds.value > 0.0 ==> ReadsAs(r, seconds.value.Floor)
  {
    if seconds.None? || seconds.value == 0.0 then "0:00"
    else
      var s := seconds.value;
      var shown := TimeLabel(Minutes(s), SecondsPart(s));
      assert s > 0.0 ==> ReadsAs(shown, s.Floor) by {
        if s > 0.0 {
          MinutesAndSeconds(s);
          TimeLabelReadsBack(Minutes(s), SecondsPart(s));
        }
      }
      shown
  }

  /** `Math.floor(seconds / 60)`: the whole minutes in `s` seconds. */
  function Minutes(s: real): (r: int)
    ensures (60 * r) as real <= s < (60 * r + 60) as real
  {
    (s / 60.0).Floor
  }

  /** `Math.floor(seconds % 60)`: below sixty, and not negative for a time that is not. */
  function SecondsPart(s: real): (r: int)
    ensures s >= 0.0 ==> 0 <= r < 60
  {
    (s - 60.0 * Trunc(s / 60.0) as real).Floor
  }

  /** `${mins}:${secs.toString().padStart(2, '0')}`: the minutes' numeral, a colon, the padded seconds. */
  function TimeLabel(mins: int, secs: int): (r: string)
    ensures var m := IntToString(mins); |r| >= |m| + 3 && r[..|m|] == m && r[|m|] == ':'
  {
    IntToString(mins) + ":" + MusicList.Pad2(secs)
  }

  /** For a positive time the minutes are whole and the seconds below sixty. */
  lemma MinutesAndSeconds(s: real)
    requires s > 0.0
    ensures Minutes(s) >= 0 && 0 <= SecondsPart(s) < 60
    ensures Minutes(s) * 60 + SecondsPart(s) == s.Floor
  {
    var q := (s / 60.0).Floor;
    assert q as real <= s / 60.0 < q as real + 1.0;
    assert 60.0 * q as real <= s < 60.0 * q as real + 60.0;
    var rest := s - 60.0 * q as real;
    assert (q * 60) as real + rest == s;
    assert (q * 60 + rest.Floor) as real <= s < (q * 60 + rest.Floor + 1) as real;
  }

  /**
   * `r` reads as `total` seconds: some minutes in digits, a colon, and two
   * digits of seconds below sixty.
   */
  predicate ReadsAs(r: string, total: int) {
    |r| >= 4 && r[|r| - 3] == ':' && AllDigits(r[..|r| - 3]) && AllDigits(r[|r| - 2..]) &&
    DecimalValue(r[|r| - 2..]) < 60 && DecimalValue(r[..|r| - 3]) * 60 + DecimalValue(r[|r| - 2..]) == total
  }

  /** A label of whole minutes and seconds below sixty reads back as the seconds in all. */
  lemma TimeLabelReadsBack(mins: int, secs: int)
    requires mins >= 0 && 0 <= secs < 60
    ensures ReadsAs(TimeLabel(mins, secs), mins * 60 + secs)
  {
    MusicList.Pad2Digits(secs);
    var m := NatToString(mins);
    var p := MusicList.Pad2(secs);
    var r := m + ":" + p;
    assert r[..|m|] == m;
    assert r[|m| + 1..] == p;
  }

  /** The icon of the play-mode button; loop and any unknown mode share the repeat icon. */
  function ModeIcon(mode: string): (icon: string)
    ensures icon == (if mode == "shuffle" then "fa-random" else "fa-repeat")
  {
    match mode
    case "loop" => "fa-repeat"
    case "shuffle" => "fa-random"
    case "single" => "fa-repeat"
    case _ => "fa-repeat"
  }

  /** The tooltip of the play-mode button; an unknown mode reads as list loop. */
  function ModeTitle(mode: string): (title: string)
    ensures mode == "shuffle" ==> title == "随机播放"
    ensures mode == "single" ==> title == "单曲循环"
    ensures mode != "shuffle" && mode != "single" ==> title == "列表循环"
  {
    match mode
    case "loop" => "列表循环"
    case "shuffle" => "随机播放"
    case "single" => "单曲循环"
    case _ => "列表循环"
  }

  /** The small `1` badge on the button marks single-track repeat. */
  function SingleBadge(mode: string): (b: bool)
    ensures b <==> mode == "single"
  {
    mode == "single"
  }

  /**
   * The three modes the button cycles through look different: the icon with
   * its badge tells them apart, and so does the tooltip; an unknown mode
   * looks exactly like loop, which the next press turns it into.
   */
  lemma ModesDistinguishable(a: string, b: string)
    requires a in PlayerContext.Modes && b in PlayerContext.Modes && a != b
    ensures (ModeIcon(a), SingleBadge(a)) != (ModeIcon(b), SingleBadge(b))
    ensures ModeTitle(a) != ModeTitle(b)
  {
  }

  lemma UnknownModeLooksLikeLoop(mode: string)
    requires mode !in PlayerContext.Modes
    ensures ModeIcon(mode) == ModeIcon("loop") && ModeTitle(mode) == ModeTitle("loop") && !SingleBadge(mode)
    ensures PlayerContext.NextMode(mode) == PlayerContext.NextMode("loop") || PlayerContext.NextMode(mode) == "loop"
  {
  }

  /** `progress`: the played share of the track in percent, 0 while the duration is unknown. */
  function Progress(currentTime: real, duration: real): (p: real)
    ensures duration > 0.0 && 0.0 <= currentTime <= duration ==> 0.0 <= p <= 100.0
    ensures duration > 0.0 && currentTime == duration ==> p == 100.0
    ensures duration <= 0.0 ==> p == 0.0
  {
    if duration > 0.0 then (currentTime / duration) * 100.0 else 0.0
  }

  /**
   * The seek target for a click at the given share of the bar's width (the
   * share is computed from the page's layout): none while the duration is 0.
   */
  function SeekTarget(duration: real, share: real): (t: Option<real>)
    ensures t.None? <==> duration == 0.0
    ensures t.Some? && duration > 0.0 && 0.0 <= share <= 1.0 ==> 0.0 <= t.value <= duration
  {
    if duration == 0.0 then None else Some(share * duration)
  }

  /** After a seek the bar shows the share that was clicked. */
  lemma SeekShowsShare(duration: real, share: real)
    requires duration > 0.0
    ensures Progress(SeekTarget(duration, share).value, duration) == share * 100.0
  {
    assert (share * duration) / duration == share;
  }

  /** `handleSeek`: a click on the bar seeks the player unless the duration is 0. */
  method HandleSeek(player: PlayerContext.Player, share: real)
    modifies player
    ensures player.duration == 0.0 ==> unchanged(player)
    ensures player.duration != 0.0 && player.hasAudio ==> player.currentTime == share * player.duration
    ensures player.Queue() == old(player.Queue()) && player.duration == old(player.duration)
  {
    var t := SeekTarget(player.duration, share);
    if t.Some? {
      player.SeekTo(t.value);
    }
  }

  /** A lyrics reply: `response.lyrics` and `response.data.lyrics`, None where absent. */
  datatype LyricsReply = LyricsReply(lyrics: Option<string>, dataLyrics: Option<string>)

  /** `response?.lyrics || response.data?.lyrics || ''`; a missing response throws and gives ''. */
  function ReplyLyrics(reply: Option<LyricsReply>): (text: string)
    ensures reply.None? ==> text == ""
    ensures reply.Some? && reply.value.lyrics.Some? && reply.value.lyrics.value != "" ==> text == reply.value.lyrics.value
    ensures reply.Some? && (reply.value.lyrics.None? || reply.value.lyrics.value == "") ==>
      text == (if reply.value.dataLyrics.Some? then reply.value.dataLyrics.value else "")
  {
    if reply.None? then ""
    else if reply.value.lyrics.Some? && reply.value.lyrics.value != "" then reply.value.lyrics.value
    else if reply.value.dataLyrics.Some? && reply.value.dataLyrics.value != "" then reply.value.dataLyrics.value
    else ""
  }

  /** The lyrics shown are always one of the reply's two fields, or nothing. */
  lemma ReplyLyricsSource(reply: Option<LyricsReply>)
    ensures var t := ReplyLyrics(reply);
      t == "" || (reply.Some? && (reply.value.lyrics == Some(t) || reply.value.dataLyrics == Some(t)))
  {
  }

  /**
   * An upload of a track's lyrics, `POST /lyrics/{id}/lyrics` with
   * `{lyrics: text}`; an absent text is left out of the JSON body.
   */
  datatype LyricsUpload = LyricsUpload(musicId: string, lyrics: Option<string>)

  /** The lyrics state of the player. */
  class LyricsPanel {
    var lyrics: string
    var loading: bool

    constructor ()
      ensures lyrics == "" && !loading
    {
      lyrics, loading := "", false;
    }

    /**
     * `fetchLyrics`: without a track id nothing happens; otherwise the reply's
     * lyrics are shown (none when the call fails) and loading ends.
     */
    method FetchLyrics(musicId: Option<string>, reply: Option<LyricsReply>)
      modifies this
      ensures (musicId.None? || musicId.value == "") ==> lyrics == old(lyrics) && loading == old(loading)
      ensures musicId.Some? && musicId.value != "" ==> lyrics == ReplyLyrics(reply) && !loading
    {
      if musicId.None? || musicId.value == "" {
        return;
      }
      loading := true;
      lyrics := ReplyLyrics(reply);
      loading := false;
    }

    /** The effect on a track change: the new track's lyrics, or none without a track id. */
    method OnMusicChanged(musicId: Option<string>, reply: Option<LyricsReply>)
      modifies this
      ensures (musicId.None? || musicId.value == "") ==> lyrics == "" && loading == old(loading)
      ensures musicId.Some? && musicId.value != "" ==> lyrics == ReplyLyrics(reply) && !loading
    {
      if musicId.Some? && musicId.value != "" {
        FetchLyrics(musicId, reply);
      } else {
        lyrics := "";
      }
    }

    /** `handleSaveLyrics`: the saved text is shown, then replaced by the server's copy when there is a track. */
    method HandleSaveLyrics(newLyrics: string, musicId: Option<string>, reply: Option<LyricsReply>)
      modifies this
      ensures (musicId.None? || musicId.value == "") ==> lyrics == newLyrics && loading == old(loading)
      ensures musicId.Some? && musicId.value != "" ==> lyrics == ReplyLyrics(reply) && !loading
    {
      lyrics := newLyrics;
      FetchLyrics(musicId, reply);
    }

    /**
     * `applyLyrics` as written: the text is shown (empty for none), then the
     * call to `api.musics.saveLyrics`, a member the API object does not
     * have, throws a TypeError, so nothing reaches the server.
     */
    method ApplyLyricsAsWritten(text: Option<string>) returns (sent: seq<LyricsUpload>)
      modifies this
      ensures lyrics == (if text.Some? then text.value else "") && loading == old(loading)
      ensures sent == []
    {
      lyrics := if text.Some? then text.value else "";
      sent := [];
    }

    /**
     * `applyLyrics`, calling `api.lyrics.saveLyrics(currentMusic.id, text)`:
     * the text is shown (empty for none) and uploaded for the current track;
     * without a current track, reading its id throws and nothing is sent.
     */
    method ApplyLyrics(musicId: Option<string>, text: Option<string>) returns (sent: seq<LyricsUpload>)
      modifies this
      ensures lyrics == (if text.Some? then text.value else "") && loading == old(loading)
      ensures |sent| <= 1
      ensures sent != [] <==> musicId.Some?
      ensures sent != [] ==> sent[0] == LyricsUpload(musicId.value, text)
    {
      lyrics := if text.Some? then text.value else "";
      sent := if musicId.Some? then [LyricsUpload(musicId.value, text)] else [];
    }
  }
}
