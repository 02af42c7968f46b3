/** `comps/song.py`: the older playlist, `Song`, built through the
    `SingleToneSong` metaclass so that only the first construction creates an
    object. */
module Song {
  import opened Python
  import opened Text
  import Cursor

  class Song {
    /** `_songs`, never reassigned by the class. */
    const songs: seq<string>
    /** `_playing_index`, also exposed as `song_index`. */
    var index: int

    /** The cursor is on a song of the list. */
    ghost predicate Valid()
      reads this
    {
      0 <= index < |songs|
    }

    /** `Song.__init__`: every new song list starts at its first song. */
    constructor (songs: seq<string>)
      ensures this.songs == songs && index == 0
      ensures |songs| > 0 ==> Valid()
    {
      this.songs := songs;
      index := 0;
    }

    /** `current_song`: the song under the cursor. */
    function CurrentSong(): (r: Result<string>)
      reads this
      ensures Valid() ==> r == Ok(songs[index])
      ensures index >= |songs| ==> r == Err(IndexError)
      ensures -|songs| <= index < 0 ==> r == Ok(songs[|songs| + index])
      ensures index < -|songs| ==> r == Err(IndexError)
    {
      At(songs, index)
    }

    /** `_reset_song_index(direction)`: corrects the already stepped cursor. */
    method ResetSongIndex(direction: string) returns (r: int)
      modifies this`index
      ensures index == Cursor.Adjust(direction, old(index), |songs|)
      ensures r == index
    {
      if direction == "up" {
        if index + 1 > |songs| {
          index := 0;
          return index;
        }
      } else if direction == "down" {
        if index < 0 {
          index := |songs| - 1;
          return index;
        }
      }
      return index;
    }

    /** `next()`: one song forward, from the last song back to the first. */
    method Next() returns (r: Result<string>)
      modifies this`index
      ensures index == Cursor.Next(old(index), |songs|)
      ensures r == At(songs, index)
      ensures old(Valid()) ==> Valid() && r == Ok(songs[index])
      ensures old(Valid()) && old(index) == |songs| - 1 ==> r == Ok(songs[0])
    {
      index := index + 1;
      var i := ResetSongIndex("up");
      r := At(songs, i);
      if old(Valid()) {
        Cursor.NextWraps(old(index), |songs|);
      }
    }

    /** `prev()`: one song back, from the first song to the last. */
    method Prev() returns (r: Result<string>)
      modifies this`index
      ensures index == Cursor.Prev(old(index), |songs|)
      ensures r == At(songs, index)
      ensures old(Valid()) ==> Valid() && r == Ok(songs[index])
      ensures old(Valid()) && old(index) == 0 ==> index == |songs| - 1 && r == Ok(songs[|songs| - 1])
    {
      index := index - 1;
      var i := ResetSongIndex("down");
      r := At(songs, i);
      if old(Valid()) {
        Cursor.PrevWraps(old(index), |songs|);
      }
    }

    /** `user_pick(i)`: IndexError for a negative index with the cursor
        untouched; otherwise the cursor is set to `i` before the lookup. */
    method UserPick(i: int) returns (r: Result<string>)
      modifies this`index
      ensures i < 0 ==> r == Err(IndexError) && index == old(index)
      ensures i >= 0 ==> index == i
      ensures 0 <= i < |songs| ==> r == Ok(songs[i]) && Valid()
      ensures i >= |songs| ==> r == Err(IndexError)
    {
      if i < 0 {
        return Err(IndexError);
      }
      index := i;
      r := At(songs, index);
    }

    /** `without_extension()`: the current song up to its last `.`. */
    function WithoutExtension(): (r: Result<string>)
      reads this
      ensures r.Ok? <==> CurrentSong().Ok? && '.' in CurrentSong().value
      ensures r.Ok? ==> |r.value| < |CurrentSong().value|
      ensures r.Ok? ==> CurrentSong().value == r.value + "." + CurrentSong().value[|r.value| + 1..]
      ensures r.Ok? ==> '.' !in CurrentSong().value[|r.value| + 1..]
      ensures !CurrentSong().Ok? ==> r == CurrentSong()
      ensures CurrentSong().Ok? && r.Err? ==> r.error == ValueError
    {
      match CurrentSong()
      case Err(e) => Err(e)
      case Ok(song) =>
        var name := StripExtension(song);
        if name.Ok? then
          assert song == song[..|name.value|] + [song[|name.value|]] + song[|name.value| + 1..];
          name
        else
          name
    }
  }

  /** `SingleToneSong._instances`, restricted to its one user, `Song`: the
      instance created by the first construction, if any. */
  class SongRegistry {
    var instance: Option<Song>

    constructor ()
      ensures instance == None
    {
      instance := None;
    }

    /** `SingleToneSong.__call__`, i.e. `Song(songs)`: the first call creates
        and records a song list; every later call returns that same object
        and ignores its argument. */
    method Call(songs: seq<string>) returns (s: Song)
      modifies this
      ensures old(instance).Some? ==> s == old(instance).value && instance == old(instance)
      ensures old(instance).None? ==> fresh(s) && s.songs == songs && s.index == 0
      ensures instance == Some(s)
    {
      if instance.None? {
        var created := new Song(songs);
        instance := Some(created);
      }
      s := instance.value;
    }

    /** Two constructions yield one object, holding the first list. */
    method ConstructTwice(first: seq<string>, second: seq<string>) returns (a: Song, b: Song)
      requires instance == None
      modifies this
      ensures a == b && a.songs == first && a.index == 0
    {
      a := Call(first);
      b := Call(second);
    }
  }
}
