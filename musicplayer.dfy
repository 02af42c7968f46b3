/** `comps/musicplayer.py`: the playback state of the player, a play flag and
    a volume kept within 0..100, over a `Song` list. */
module MusicPlayer {
  import opened Python
  import Song

  /** The volumes `set_volume` accepts. */
  predicate ValidVolume(v: int) {
    0 <= v <= 100
  }

  /** The words `__str__` uses for the play flag. */
  function Liveness(playing: bool): (r: string)
    ensures r == "Alive" <==> playing
  {
    if playing then "Alive" else "Not alive"
  }

  class MusicPlayer {
    /** `song`, the list being played. */
    const song: Song.Song
    /** `_is_playing`. */
    var isPlaying: bool
    /** `_volume`. */
    var volume: int
    /** `_timestamp`. */
    var timestamp: int

    /** The volume has only ever been set through the range check. */
    ghost predicate Valid()
      reads this
    {
      ValidVolume(volume)
    }

    /** `MusicPlayer(song)`: playing, at full volume, at time 0. */
    constructor (song: Song.Song)
      ensures this.song == song
      ensures isPlaying && volume == 100 && timestamp == 0
      ensures Valid()
    {
      this.song := song;
      isPlaying := true;
      new;
      var v := SetVolume(100);
      volume := v.value;
      timestamp := SetTimestamp(0);
    }

    /** `bool(player)`: the play flag. */
    function Bool(): (r: bool)
      reads this
      ensures r <==> isPlaying
    {
      isPlaying
    }

    /** `set_volume(v)`: PlayerError, and no change, outside 0..100;
        otherwise the volume becomes `v`, which is returned. */
    method SetVolume(v: int) returns (r: Result<int>)
      modifies this`volume
      ensures ValidVolume(v) ==> volume == v && r == Ok(v)
      ensures !ValidVolume(v) ==> volume == old(volume) && r == Err(PlayerError)
      ensures old(Valid()) ==> Valid()
    {
      if !(0 <= v <= 100) {
        return Err(PlayerError);
      }
      volume := v;
      r := Ok(volume);
    }

    /** `set_timestamp(t)`: returns `t` and changes nothing. */
    method SetTimestamp(t: int) returns (r: int)
      ensures r == t
    {
      r := t;
    }

    /** `play()`: flips the play flag and returns its new value. */
    method Play() returns (r: bool)
      modifies this`isPlaying
      ensures isPlaying == !old(isPlaying) && r == isPlaying
      ensures old(Valid()) ==> Valid()
    {
      isPlaying := !isPlaying;
      r := isPlaying;
    }

    /** Two calls of `play()` restore the play flag. */
    method PlayTwice() returns (first: bool, second: bool)
      modifies this`isPlaying
      ensures first == !old(isPlaying) && second == old(isPlaying)
      ensures isPlaying == old(isPlaying)
    {
      first := Play();
      second := Play();
    }

    /** `str(player)`: `<MusicPlayer(Playing - <current song> - Alive)>` when
        playing and `... - Not alive)>` otherwise; the lookup of the current
        song can raise. */
    function Str(): (r: Result<string>)
      reads this, song
      ensures r.Ok? <==> song.CurrentSong().Ok?
      ensures r.Ok? ==> r.value == "<MusicPlayer(Playing - " + song.CurrentSong().value + " - "
                                  + Liveness(isPlaying) + ")>"
    {
      match song.CurrentSong()
      case Err(e) => Err(e)
      case Ok(current) =>
        Ok("<MusicPlayer(Playing - " + current + " - " + Liveness(isPlaying) + ")>")
    }
  }
}
