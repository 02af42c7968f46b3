/** `comps/disk.py`: a `Disk` is an immutable tuple of song file names with a
    cursor on the song that is playing. */
module Disk {
  import opened Python
  import opened Text
  import Cursor

  /** Where `Disk(songs, last_song)` puts the cursor: at 0 when `last_song`
      is falsy, otherwise at `songs.index(last_song)`, which raises
      ValueError for a value that is not in the tuple. */
  function StartIndex(songs: seq<string>, lastSong: Json): (r: Result<int>)
    ensures !Truthy(lastSong) ==> r == Ok(0)
    ensures Truthy(lastSong) ==> (r.Ok? <==> lastSong.Str? && lastSong.s in songs)
    ensures Truthy(lastSong) && r.Ok? ==>
              0 <= r.value < |songs| && songs[r.value] == lastSong.s && lastSong.s !in songs[..r.value]
    ensures r.Err? ==> r.error == ValueError
  {
    if !Truthy(lastSong) then Ok(0)
    else
      match lastSong
      case Str(s) =>
        (match IndexOf(songs, s)
         case Some(i) => Ok(i)
         case None => Err(ValueError))
      case _ => Err(ValueError)
  }

  class Disk {
    /** `_songs`, never reassigned. */
    const songs: seq<string>
    /** `_playing_index`, also exposed as `song_index`. */
    var index: int
    /** `n`, the position of the iteration `__iter__` starts. */
    var n: nat

    /** The cursor is on a song of the disk. */
    ghost predicate Valid()
      reads this
    {
      0 <= index < |songs|
    }

    constructor Init(songs: seq<string>, index: int)
      ensures this.songs == songs && this.index == index && n == 0
    {
      this.songs := songs;
      this.index := index;
      n := 0;
    }

    /** `Disk(songs, last_song)`, with `Null` for an omitted `last_song`. */
    static method Create(songs: seq<string>, lastSong: Json) returns (r: Result<Disk>)
      ensures r.Err? <==> StartIndex(songs, lastSong).Err?
      ensures r.Err? ==> r.error == ValueError
      ensures r.Ok? ==> fresh(r.value) && r.value.songs == songs
      ensures r.Ok? ==> r.value.index == StartIndex(songs, lastSong).value
      ensures r.Ok? && |songs| > 0 ==> r.value.Valid()
    {
      var start := StartIndex(songs, lastSong);
      if start.Err? {
        return Err(start.error);
      }
      var d := new Disk.Init(songs, start.value);
      r := Ok(d);
    }

    /** `disk[i]`, Python indexing on the tuple. */
    function GetItem(i: int): (r: Result<string>)
      ensures r.Ok? <==> -|songs| <= i < |songs|
      ensures 0 <= i < |songs| ==> r == Ok(songs[i])
      ensures i < 0 && r.Ok? ==> r == Ok(songs[|songs| + i])
      ensures r.Err? ==> r.error == IndexError
    {
      At(songs, i)
    }

    /** `song in disk`: the song is at some position of the tuple. */
    function Contains(song: string): (r: bool)
      ensures r <==> exists i :: 0 <= i < |songs| && GetItem(i) == Ok(song)
    {
      if song in songs then
        var i :| 0 <= i < |songs| && songs[i] == song;
        assert GetItem(i) == Ok(song);
        true
      else
        false
    }

    /** `len(disk)`: exactly the indices from `-len` to `len - 1` are valid
        subscripts. */
    function Len(): (r: nat)
      ensures forall i :: GetItem(i).Ok? <==> -(r as int) <= i < r
    {
      |songs|
    }

    /** `song_mp3`: the file name under the cursor. */
    function SongMp3(): (r: Result<string>)
      reads this
      ensures Valid() ==> r == Ok(songs[index])
      ensures index >= |songs| ==> r == Err(IndexError)
      ensures -|songs| <= index < 0 ==> r == Ok(songs[|songs| + index])
      ensures index < -|songs| ==> r == Err(IndexError)
    {
      GetItem(index)
    }

    /** `song_name`: the current file name without its extension. */
    function SongName(): (r: Result<string>)
      reads this
      ensures r.Ok? <==> SongMp3().Ok? && '.' in SongMp3().value
      ensures r.Ok? ==> |r.value| < |SongMp3().value|
      ensures r.Ok? ==> SongMp3().value == r.value + "." + SongMp3().value[|r.value| + 1..]
      ensures r.Ok? ==> '.' !in SongMp3().value[|r.value| + 1..]
      ensures !SongMp3().Ok? ==> r == SongMp3()
      ensures SongMp3().Ok? && r.Err? ==> r.error == ValueError
    {
      match SongMp3()
      case Err(e) => Err(e)
      case Ok(song) =>
        var name := StripExtension(song);
        if name.Ok? then
          assert song == song[..|name.value|] + [song[|name.value|]] + song[|name.value| + 1..];
          name
        else
          name
    }

    /** `_move_song_index(direction)`: corrects the already stepped cursor. */
    method MoveSongIndex(direction: string) returns (r: int)
      modifies this`index
      ensures index == Cursor.Adjust(direction, old(index), |songs|)
      ensures r == index
    {
      if direction == "up" {
        if index + 1 > |songs| {
          index := 0;
          return index;
        }
      } else if direction == "down" {
        if index < 0 {
          index := |songs| - 1;
          return index;
        }
      }
      return index;
    }

    /** `next()`: steps the cursor forward with wrap-around and returns the
        song there. */
    method Next() returns (r: Result<string>)
      modifies this`index
      ensures index == Cursor.Next(old(index), |songs|)
      ensures r == GetItem(index)
      ensures old(Valid()) ==> Valid() && r == Ok(songs[index])
      ensures |songs| > 0 && old(index) >= -1 ==> Valid()
    {
      index := index + 1;
      var i := MoveSongIndex("up");
      r := GetItem(i);
      if old(Valid()) {
        Cursor.NextWraps(old(index), |songs|);
      }
    }

    /** `prev()`: steps the cursor back with wrap-around and returns the song
        there. */
    method Prev() returns (r: Result<string>)
      modifies this`index
      ensures index == Cursor.Prev(old(index), |songs|)
      ensures r == At(songs, index)
      ensures old(Valid()) ==> Valid() && r == Ok(songs[index])
    {
      index := index - 1;
      var i := MoveSongIndex("down");
      r := At(songs, i);
      if old(Valid()) {
        Cursor.PrevWraps(old(index), |songs|);
      }
    }

    /** `user_pick(i)`: a negative index raises IndexError and leaves the
        cursor alone; any other index is stored first and then looked up, so
        an index past the end is stored although the lookup raises. */
    method UserPick(i: int) returns (r: Result<string>)
      modifies this`index
      ensures i < 0 ==> r == Err(IndexError) && index == old(index)
      ensures i >= 0 ==> index == i
      ensures 0 <= i < |songs| ==> r == Ok(songs[i]) && Valid()
      ensures i >= |songs| ==> r == Err(IndexError)
    {
      if i < 0 {
        return Err(IndexError);
      }
      index := i;
      r := At(songs, index);
    }

    /** `__iter__`: restarts the iteration and returns the disk itself. */
    method Iter() returns (it: Disk)
      modifies this`n
      ensures it == this && n == 0
    {
      n := 0;
      it := this;
    }

    /** `__next__`: the next song of the iteration, or None where Python
        raises StopIteration. */
    method IterNext() returns (r: Option<string>)
      modifies this`n
      ensures old(n) < |songs| ==> r == Some(songs[old(n)]) && n == old(n) + 1
      ensures old(n) >= |songs| ==> r == None && n == old(n)
    {
      if n < |songs| {
        var cur := songs[n];
        n := n + 1;
        r := Some(cur);
      } else {
        r := None;
      }
    }

    /** `for song in disk`: iterating the disk yields its songs in order and
        does not move the cursor. */
    method Songs() returns (items: seq<string>)
      modifies this`n
      ensures items == songs
    {
      var it := Iter();
      items := [];
      while true
        invariant 0 <= n <= |songs| && items == songs[..n]
        decreases |songs| - n
      {
        var next := it.IterNext();
        if next.None? {
          break;
        }
        items := items + [next.value];
      }
    }
  }
}
