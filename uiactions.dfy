/** `window/uiactions.py`: the glue between the window, the player and the
    configuration file. */
module UiActions {
  import opened Python
  import opened Text
  import MusicPlayer
  import Disk
  import JsonWrapper

  /** The player these actions drive: one with a mute flag beside its volume.
      Muting does not touch the volume. */
  class MutingPlayer {
    /** `is_muted`. */
    var isMuted: bool
    /** `volume`. */
    var volume: int

    constructor (isMuted: bool, volume: int)
      ensures this.isMuted == isMuted && this.volume == volume
    {
      this.isMuted := isMuted;
      this.volume := volume;
    }

    /** `mute()`. */
    method Mute()
      modifies this`isMuted
      ensures isMuted
    {
      isMuted := true;
    }

    /** `unmute()`. */
    method Unmute()
      modifies this`isMuted
      ensures !isMuted
    {
      isMuted := false;
    }

    /** `set_volume(v)`, with the range check of `MusicPlayer.set_volume`. */
    method SetVolume(v: int) returns (r: Result<int>)
      modifies this`volume
      ensures MusicPlayer.ValidVolume(v) ==> volume == v && r == Ok(v)
      ensures !MusicPlayer.ValidVolume(v) ==> volume == old(volume) && r == Err(PlayerError)
    {
      if !(0 <= v <= 100) {
        return Err(PlayerError);
      }
      volume := v;
      r := Ok(volume);
    }
  }

  /** `get_disk(config)`: the disk over `songsList`, resumed at
      `last_song['song']` when the stored `last_song` is truthy and at the
      first song otherwise. */
  method GetDisk(config: JsonWrapper.Handler, songsList: seq<string>) returns (r: Result<Disk.Disk>)
    ensures config.stored.None? ==> r == Err(FileNotFoundError)
    ensures config.stored.Some? && !Truthy(LastSong(config.stored.value)) ==>
              r.Ok? && fresh(r.value) && r.value.songs == songsList && r.value.index == 0
    ensures config.stored.Some? && Truthy(LastSong(config.stored.value)) ==>
              var song := Subscript(LastSong(config.stored.value), "song");
              && (song.Err? ==> r == Err(song.error))
              && (song.Ok? ==> (r.Ok? <==> Disk.StartIndex(songsList, song.value).Ok?))
              && (song.Ok? && r.Ok? ==>
                    fresh(r.value) && r.value.songs == songsList
                    && r.value.index == Disk.StartIndex(songsList, song.value).value)
  {
    var lastSong := config.Get("last_song", Null);
    if lastSong.Err? {
      return Err(lastSong.error);
    }
    if Truthy(lastSong.value) {
      var song := Subscript(lastSong.value, "song");
      if song.Err? {
        return Err(song.error);
      }
      r := Disk.Disk.Create(songsList, song.value);
    } else {
      r := Disk.Disk.Create(songsList, Null);
    }
  }

  /** `config.get('last_song')`, whose default is None. */
  function LastSong(data: JsonWrapper.Store): Json {
    if "last_song" in data then data["last_song"] else Null
  }

  /** `set_lyrics_delay(key, delay, config)`: stores the number `delay` spells
      under `key`, editing a present key and adding an absent one; a delay
      that `parse` (Python's `float`) rejects changes nothing and raises
      nothing. The membership test comes first, so a missing file raises. */
  method SetLyricsDelay(key: string, delay: string, parse: string -> Option<int>, config: JsonWrapper.Handler)
    returns (o: Outcome)
    modifies config`stored
    ensures old(config.stored).None? ==> o == Fail(FileNotFoundError) && config.stored == old(config.stored)
    ensures old(config.stored).Some? && parse(delay).None? ==> o == Pass && config.stored == old(config.stored)
    ensures old(config.stored).Some? && parse(delay).Some? ==>
              o == Pass && config.stored == Some(old(config.stored).value[key := Num(parse(delay).value)])
  {
    var present := config.Contains(key);
    if present.Err? {
      return Fail(present.error);
    }
    var value := parse(delay);
    if value.None? {
      return Pass;
    }
    if present.value {
      o := config.Edit(key, Num(value.value));
    } else {
      o := config.Add(key, Num(value.value));
    }
  }

  /** `mute_setup(player, config)`: flips the mute flag and then records the
      new flag under `is_muted`; the write raises HandlerError when the key
      is not stored, after the flag has flipped. */
  method MuteSetup(player: MutingPlayer, config: JsonWrapper.Handler) returns (o: Outcome)
    modifies player`isMuted, config`stored
    ensures player.isMuted == !old(player.isMuted)
    ensures old(config.stored).None? ==> o == Fail(FileNotFoundError) && config.stored == old(config.stored)
    ensures old(config.stored).Some? && "is_muted" !in old(config.stored).value ==>
              o == Fail(HandlerError) && config.stored == old(config.stored)
    ensures old(config.stored).Some? && "is_muted" in old(config.stored).value ==>
              o == Pass && config.stored == Some(old(config.stored).value["is_muted" := Bool(player.isMuted)])
  {
    if player.isMuted {
      player.Unmute();
      o := config.Edit("is_muted", Bool(false));
    } else {
      player.Mute();
      o := config.Edit("is_muted", Bool(true));
    }
  }

  /** `edit_volume(config, player, volume)`: writes `volume` to the
      configuration, then, only when the player is not muted, hands the
      stored value to the player's range-checked `set_volume`. An
      out-of-range volume therefore stays in the configuration while the
      player keeps its volume and PlayerError is raised. */
  method EditVolume(config: JsonWrapper.Handler, player: MutingPlayer, volume: int) returns (o: Outcome)
    modifies config`stored, player`volume
    ensures old(config.stored).None? ==>
              o == Fail(FileNotFoundError) && config.stored == old(config.stored) && player.volume == old(player.volume)
    ensures old(config.stored).Some? && "volume" !in old(config.stored).value ==>
              o == Fail(HandlerError) && config.stored == old(config.stored) && player.volume == old(player.volume)
    ensures old(config.stored).Some? && "volume" in old(config.stored).value ==>
              && config.stored == Some(old(config.stored).value["volume" := Num(volume)])
              && (player.isMuted ==> o == Pass && player.volume == old(player.volume))
              && (!player.isMuted && MusicPlayer.ValidVolume(volume) ==> o == Pass && player.volume == volume)
              && (!player.isMuted && !MusicPlayer.ValidVolume(volume) ==>
                    o == Fail(PlayerError) && player.volume == old(player.volume))
  {
    o := config.Edit("volume", Num(volume));
    if o.Fail? {
      return;
    }
    if !player.isMuted {
      var current := config.Get("volume", Null);
      assert current == Ok(Num(volume));
      var applied := player.SetVolume(current.value.n);
      if applied.Err? {
        return Fail(applied.error);
      }
    }
  }

  /** One filter of a file dialog: `"<Title> files (*.<type>);;"`. */
  function FileTypeField(fileType: string): string {
    Title(fileType) + " files (*." + fileType + ");;"
  }

  /** The filter string for `fileTypes`: one field per type, in order. */
  function FileTypesFilter(fileTypes: seq<string>): string {
    if fileTypes == [] then "" else FileTypeField(fileTypes[0]) + FileTypesFilter(fileTypes[1..])
  }

  /** The filter of two lists one after the other is the two filters one
      after the other. */
  lemma {:induction false} FileTypesFilterAppend(a: seq<string>, b: seq<string>)
    ensures FileTypesFilter(a + b) == FileTypesFilter(a) + FileTypesFilter(b)
  {
    if a == [] {
      assert a + b == b;
    } else {
      assert (a + b)[0] == a[0];
      assert (a + b)[1..] == a[1..] + b;
      FileTypesFilterAppend(a[1..], b);
    }
  }

  /** `make_file_types(file_types)`: concatenates the field of every type, in
      input order; no types give `""`. */
  method MakeFileTypes(fileTypes: seq<string>) returns (types: string)
    ensures types == FileTypesFilter(fileTypes)
    ensures fileTypes == [] ==> types == ""
  {
    types := "";
    for i := 0 to |fileTypes|
      invariant types == FileTypesFilter(fileTypes[..i])
    {
      FileTypesFilterAppend(fileTypes[..i], [fileTypes[i]]);
      assert fileTypes[..i + 1] == fileTypes[..i] + [fileTypes[i]];
      types := types + FileTypeField(fileTypes[i]);
    }
    assert fileTypes[..|fileTypes|] == fileTypes;
  }

  /** Title-casing the two types of the dialog's example. */
  lemma TitleOfExampleTypes()
    ensures Title("srt") == "Srt" && Title("py") == "Py"
  {
    var srt := Title("srt");
    assert srt[0] == 'S' && srt[1] == 'r' && srt[2] == 't';
    var py := Title("py");
    assert py[0] == 'P' && py[1] == 'y';
  }

  /** The two types of the dialog's example. */
  lemma FileTypesExample()
    ensures FileTypesFilter(["srt", "py"]) == "Srt files (*.srt);;Py files (*.py);;"
  {
    TitleOfExampleTypes();
    assert ["srt", "py"][1..] == ["py"];
    assert ["py"][1..] == [];
  }
}
