/**
 * The track table of an album or a listing: the `mm:ss` duration column,
 * the totals in the header, the favourite button and the play buttons,
 * which hand the list to the shared player.
 */
module MusicList {
  import opened Wrappers
  import opened Text
  import opened Numeric
  import PlayerContext

  /** A row: a field the server left out is None; a missing `favorited` is false. */
  datatype Row = Row(id: string, path: string, duration: Option<int>, size: Option<int>, favorited: bool)

  /** `n.toString().padStart(2, '0')`: at least two characters, ending with the numeral. */
  function Pad2(n: int): (r: string)
    ensures |r| >= 2 && |r| >= |IntToString(n)|
    ensures r[|r| - |IntToString(n)|..] == IntToString(n)
  {
    PadStart(IntToString(n), 2, '0')
  }

  /**
   * `formatDuration`: `00:00` for a missing or zero duration, otherwise the
   * whole minutes and the remaining seconds, each padded to two digits.
   */
  function FormatDuration(seconds: Option<int>): (r: string)
    ensures (seconds.None? || seconds.value == 0) ==> r == "00:00"
    ensures seconds.Some? && 0 < seconds.value < 6000 ==>
      |r| == 5 && r[2] == ':' && AllDigits(r[..2]) && AllDigits(r[3..]) &&
      DecimalValue(r[3..]) < 60 && DecimalValue(r[..2]) * 60 + DecimalValue(r[3..]) == seconds.value
  {
    if seconds.None? || seconds.value == 0 then "00:00"
    else
      var s := seconds.value;
      var shown := Pad2(s / 60) + ":" + Pad2(TruncRem(s, 60));
      assert 0 < s < 6000 ==>
        |shown| == 5 && shown[2] == ':' && AllDigits(shown[..2]) && AllDigits(shown[3..]) &&
        DecimalValue(shown[3..]) < 60 && DecimalValue(shown[..2]) * 60 + DecimalValue(shown[3..]) == s by {
        if 0 < s < 6000 {
          TruncMatchesEuclid(s, 60);
          Pad2Digits(s / 60);
          Pad2Digits(s % 60);
          assert shown[..2] == Pad2(s / 60);
          assert shown[3..] == Pad2(s % 60);
        }
      }
      shown
  }

  /** Below 100 a number pads to two digits that read back as the number. */
  lemma Pad2Digits(n: int)
    requires 0 <= n < 100
    ensures |Pad2(n)| == 2 && AllDigits(Pad2(n)) && DecimalValue(Pad2(n)) == n
  {
    var t := NatToString(n);
    if n < 10 {
      assert t == [DigitChar(n)];
      var p := Pad2(n);
      assert p == ['0', DigitChar(n)];
      assert p[..1] == ['0'] && p[..1][..0] == [];
    } else {
      assert NatToString(n / 10) == [DigitChar(n / 10)];
      assert |t| == 2;
    }
  }

  function DurationOf(r: Row): int {
    if r.duration.Some? then r.duration.value else 0
  }

  function SizeOf(r: Row): int {
    if r.size.Some? then r.size.value else 0
  }

  /** The queue entry for a row. */
  function TrackOf(r: Row): PlayerContext.Track {
    PlayerContext.Track(r.id, r.path)
  }

  function Tracks(rows: seq<Row>): (ts: seq<PlayerContext.Track>)
    ensures |ts| == |rows| && forall i :: 0 <= i < |rows| ==> ts[i] == TrackOf(rows[i])
  {
    seq(|rows|, i requires 0 <= i < |rows| => TrackOf(rows[i]))
  }

  /** The favourite mark of a row after its button was accepted. */
  function Flipped(r: Row): (f: Row)
    ensures f.favorited == !r.favorited && f.(favorited := r.favorited) == r
  {
    r.(favorited := !r.favorited)
  }

  class Table {
    var rows: seq<Row>

    /** The table starts from the rows it is given, or none. */
    constructor (musics: Option<seq<Row>>)
      ensures rows == if musics.Some? then musics.value else []
    {
      rows := if musics.Some? then musics.value else [];
    }

    /** The header: total duration and total size, a missing value counting as zero. */
    function Totals(): (t: (int, int))
      reads this
      ensures t.0 == Sum(rows, DurationOf) && t.1 == Sum(rows, SizeOf)
      ensures forall i :: 0 <= i < |rows| && rows[i].duration.None? ==>
        Sum(rows, DurationOf) == Sum(rows[..i], DurationOf) + Sum(rows[i + 1..], DurationOf)
    {
      forall i | 0 <= i < |rows| && rows[i].duration.None?
        ensures Sum(rows, DurationOf) == Sum(rows[..i], DurationOf) + Sum(rows[i + 1..], DurationOf)
      {
        assert rows == rows[..i] + [rows[i]] + rows[i + 1..];
        SumAppend(rows[..i] + [rows[i]], rows[i + 1..], DurationOf);
        SumAppend(rows[..i], [rows[i]], DurationOf);
        assert Sum([rows[i]], DurationOf) == Sum([], DurationOf) + DurationOf(rows[i]);
      }
      (Sum(rows, DurationOf), Sum(rows, SizeOf))
    }

    /**
     * `handleLike`: once the server accepts the favourite, the rows with that
     * id flip their mark and every other row stays as it was.
     */
    method HandleLike(id: string, accepted: bool)
      modifies this
      ensures |rows| == |old(rows)|
      ensures forall i :: 0 <= i < |rows| ==>
        rows[i] == (if accepted && old(rows)[i].id == id then Flipped(old(rows)[i]) else old(rows)[i])
    {
      if accepted {
        var prev := rows;
        rows := seq(|prev|, i requires 0 <= i < |prev| => if prev[i].id == id then Flipped(prev[i]) else prev[i]);
      }
    }

    /** `handlePlay`: the whole list goes to the player, starting at the clicked row. */
    method HandlePlay(player: PlayerContext.Player, index: int)
      modifies player
      ensures |rows| > 0 ==> player.playlist == Tracks(rows) && player.currentIndex == index && player.isPlaying
      ensures |rows| == 0 ==> player.Queue() == old(player.Queue())
      ensures |rows| > 0 && 0 <= index < |rows| ==> player.Valid()
    {
      player.SetPlaylistAndPlay(Tracks(rows), Some(index));
    }

    /** `handlePlayAll`: a non-empty list goes to the player from its first row; an empty one does nothing. */
    method HandlePlayAll(player: PlayerContext.Player)
      modifies player
      ensures |rows| > 0 ==> player.playlist == Tracks(rows) && player.currentIndex == 0 && player.isPlaying && player.Valid()
      ensures |rows| == 0 ==> unchanged(player)
    {
      if |rows| > 0 {
        player.SetPlaylistAndPlay(Tracks(rows), Some(0));
      }
    }
  }

  /** Two accepted favourite clicks on a row leave the table as it was. */
  method LikeTwice(t: Table, id: string)
    modifies t
    ensures t.rows == old(t.rows)
  {
    t.HandleLike(id, true);
    t.HandleLike(id, true);
  }

  /** The album column is shown exactly when there is no album heading. */
  function ShowAlbumColumn(albumName: Option<string>): (b: bool)
    ensures b <==> albumName.None? || albumName.value == ""
  {
    !(albumName.Some? && albumName.value != "")
  }
}
