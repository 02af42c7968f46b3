/** `actions/actions.py`: the play button's state logic and the extension
    stripper for song file names. */
module Actions {
  import opened Python
  import opened Text
  import MusicPlayer

  /** The two images the play button shows (`PLAY_BTN`, `PAUSE_BTN`). */
  datatype Icon = PlayBtn | PauseBtn

  /** `play_btn_switcher(player, ...)`: the icon is chosen from the play
      state BEFORE the call (the play image while playing), and the play
      state is then toggled once. */
  method PlayBtnSwitcher(player: MusicPlayer.MusicPlayer) returns (img: Icon)
    modifies player`isPlaying
    ensures img == (if old(player.isPlaying) then PlayBtn else PauseBtn)
    ensures player.isPlaying == !old(player.isPlaying)
  {
    img := if player.Bool() then PlayBtn else PauseBtn;
    var _ := player.Play();
  }

  /** Two presses of the button show both images and restore the state. */
  method SwitchTwice(player: MusicPlayer.MusicPlayer) returns (first: Icon, second: Icon)
    modifies player`isPlaying
    ensures first != second
    ensures player.isPlaying == old(player.isPlaying)
  {
    first := PlayBtnSwitcher(player);
    second := PlayBtnSwitcher(player);
  }

  /** `clear_song_extension(song)`: `song` is the result, a `.` and an
      extension without `.`; ValueError when `song` has no `.`. */
  function ClearSongExtension(song: string): (r: Result<string>)
    ensures r.Ok? <==> '.' in song
    ensures r.Err? ==> r.error == ValueError
    ensures r.Ok? ==> exists ext :: '.' !in ext && song == r.value + "." + ext
  {
    var name := StripExtension(song);
    if name.Ok? then
      var ext := song[|name.value| + 1..];
      assert song == name.value + "." + ext;
      name
    else
      name
  }

  /** The extension is the part after the LAST dot: the split of the result
      is unique. */
  lemma ExtensionIsLast(song: string, name: string, ext: string)
    requires '.' !in ext && song == name + "." + ext
    ensures ClearSongExtension(song) == Ok(name)
  {
    assert song[|name|] == '.';
    assert song[|name| + 1..] == ext;
    var r := StripExtension(song).value;
    assert song[..|name|] == name;
    assert |r| == |name|;
  }

  /** Earlier dots and spaces stay in the name. */
  lemma ClearSongExtensionExample()
    ensures ClearSongExtension("Austronaut.in. the ocean.FLAC") == Ok("Austronaut.in. the ocean")
  {
    ExtensionIsLast("Austronaut.in. the ocean.FLAC", "Austronaut.in. the ocean", "FLAC");
  }
}
