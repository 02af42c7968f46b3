/** `lyricshandler/search.py`: builders of the search URL for a song title, on
    a lyrics site and on YouTube. Opening the browser is not modelled. */
module Search {
  import opened Python
  import opened Text

  /** The base URL of `LyricsSearch`. */
  const LyricsUrl := "https://www.rentanadviser.com/subtitles/subtitles4songs.aspx?q="
  /** The base URL of `YoutubeSearch`. */
  const YoutubeUrl := "https://www.youtube.com/results?search_query="

  /** The characters of `s` before its first `c`; all of `s` without one. */
  function TakeUntil(s: string, c: char): (r: string)
    ensures |r| <= |s| && r == s[..|r|] && c !in r
    ensures |r| < |s| ==> s[|r|] == c
  {
    if s == [] || s[0] == c then ""
    else [s[0]] + TakeUntil(s[1..], c)
  }

  /** The name `song_name()` derives from a title: the part before the first
      `(`, with surrounding whitespace stripped. */
  function SearchName(title: string): string {
    Strip(TakeUntil(title, '('))
  }

  /** A name has no `(` and no surrounding whitespace, so deriving it again
      from the name changes nothing. */
  lemma SearchNameIdempotent(title: string)
    ensures '(' !in SearchName(title)
    ensures SearchName(SearchName(title)) == SearchName(title)
  {
    var prefix := TakeUntil(title, '(');
    var name := Strip(prefix);
    if '(' in name {
      StripIsInfix(prefix, '(');
      assert false;
    }
    TakeUntilAbsent(name, '(');
    StripIdempotent(prefix);
  }

  lemma TakeUntilAbsent(s: string, c: char)
    requires c !in s
    ensures TakeUntil(s, c) == s
  {
  }

  /** The loop of `song_name()`: the title's characters up to the first `(`,
      appended one at a time. */
  method NamePrefix(title: string) returns (name: string)
    ensures name == TakeUntil(title, '(')
  {
    name := "";
    var i := 0;
    while i < |title|
      invariant 0 <= i <= |title|
      invariant TakeUntil(title, '(') == name + TakeUntil(title[i..], '(')
    {
      TakeUntilStep(title, i, '(');
      if title[i] == '(' {
        break;
      }
      name := name + [title[i]];
      i := i + 1;
    }
  }

  /** One step of the scan: the prefix from position `i` on. */
  lemma TakeUntilStep(s: string, i: nat, c: char)
    requires i < |s|
    ensures TakeUntil(s[i..], c) == if s[i] == c then "" else [s[i]] + TakeUntil(s[i + 1..], c)
  {
    assert s[i..][0] == s[i];
    assert s[i..][1..] == s[i + 1..];
  }

  /** The text `LyricsSearch.query()` appends: the name with every space
      written `%20`, stripped. */
  function LyricsQuery(name: string): string {
    Strip(Join(Split(name, ' '), "%20"))
  }

  /** The text `YoutubeSearch.query()` appends: the name with every space
      written `+`. */
  function YoutubeQuery(name: string): string {
    Join(Split(name, ' '), "+")
  }

  /** Both queries encode every space of the name, and nothing else: a
      query holds no space, and is the name with each space replaced. */
  lemma QueriesEncodeSpaces(name: string)
    ensures ' ' !in LyricsQuery(name) && ' ' !in YoutubeQuery(name)
    ensures YoutubeQuery(name) == Replace(name, ' ', "+")
    ensures LyricsQuery(name) == Strip(Replace(name, ' ', "%20"))
  {
    ReplacedHasNo(name, ' ', "+");
    ReplacedHasNo(name, ' ', "%20");
    if ' ' in LyricsQuery(name) {
      StripIsInfix(Join(Split(name, ' '), "%20"), ' ');
    }
    JoinSplitReplace(name, ' ', "+");
    JoinSplitReplace(name, ' ', "%20");
  }

  /** A name without spaces is appended as it is. */
  lemma SpacelessNameIsItsQuery(name: string)
    requires ' ' !in name
    ensures YoutubeQuery(name) == name
  {
    ReplaceAbsent(name, ' ', "+");
    QueriesEncodeSpaces(name);
  }

  lemma {:induction false} ReplaceAbsent(s: string, c: char, sep: string)
    requires c !in s
    ensures Replace(s, c, sep) == s
  {
    if s != [] {
      assert c !in s[1..];
      ReplaceAbsent(s[1..], c, sep);
    }
  }

  class LyricsSearch {
    /** `url`, extended by every `query()`. */
    var url: string
    /** `_song_title`, read through `song_title`. */
    const songTitle: string
    /** `_song_name`. */
    var songName: string

    /** `LyricsSearch(song_title)`. */
    constructor (songTitle: string)
      ensures url == LyricsUrl && this.songTitle == songTitle && songName == ""
    {
      url := LyricsUrl;
      this.songTitle := songTitle;
      songName := "";
    }

    /** `str(search)`: the title. */
    function Str(): (r: string)
      reads this
      ensures r == songTitle
    {
      songTitle
    }

    /** `song_name()`: resets the name and derives it anew from the title,
        so repeated calls agree; returns the builder itself. */
    method SongName() returns (self: LyricsSearch)
      modifies this`songName
      ensures self == this && songName == SearchName(songTitle)
      ensures Str() == songTitle && url == old(url)
    {
      songName := "";
      var prefix := NamePrefix(songTitle);
      songName := Strip(prefix);
      self := this;
    }

    /** `query()`: appends the encoded name to the URL, again on every call. */
    method Query() returns (self: LyricsSearch)
      modifies this`url
      ensures self == this && url == old(url + LyricsQuery(songName))
    {
      var q := LyricsQuery(songName);
      url := url + q;
      self := this;
    }
  }

  class YoutubeSearch {
    /** `url`, extended by every `query()`. */
    var url: string
    /** `_song_title`, read through `song_title`. */
    const songTitle: string
    /** `_song_name`. */
    var songName: string

    /** `YoutubeSearch(song_title)`. */
    constructor (songTitle: string)
      ensures url == YoutubeUrl && this.songTitle == songTitle && songName == ""
    {
      url := YoutubeUrl;
      this.songTitle := songTitle;
      songName := "";
    }

    /** `str(search)`: the derived name, not the title. */
    function Str(): (r: string)
      reads this
      ensures r == songName
    {
      songName
    }

    /** `song_name()`: resets the name and derives it anew from the title;
        returns the builder itself. */
    method SongName() returns (self: YoutubeSearch)
      modifies this`songName
      ensures self == this && songName == SearchName(songTitle)
      ensures Str() == SearchName(songTitle) && url == old(url)
    {
      songName := "";
      var prefix := NamePrefix(songTitle);
      songName := Strip(prefix);
      self := this;
    }

    /** `query()`: appends the encoded name to the URL, again on every call. */
    method Query() returns (self: YoutubeSearch)
      modifies this`url
      ensures self == this && url == old(url) + YoutubeQuery(songName)
    {
      var q := YoutubeQuery(songName);
      url := url + q;
      self := this;
    }
  }

  /** What `search_for` returns. */
  datatype Searcher = Youtube(youtube: YoutubeSearch) | Lyrics(lyrics: LyricsSearch)

  /** `search_for(site, song_title)`: a fresh builder for `'youtube'` or
      `'lyrics'`; any other site raises KeyError. */
  method SearchFor(site: string, songTitle: string) returns (r: Result<Searcher>)
    ensures site == "youtube" ==> r.Ok? && r.value.Youtube? && fresh(r.value.youtube)
                                  && r.value.youtube.songTitle == songTitle && r.value.youtube.url == YoutubeUrl
                                  && r.value.youtube.songName == ""
    ensures site == "lyrics" ==> r.Ok? && r.value.Lyrics? && fresh(r.value.lyrics)
                                 && r.value.lyrics.songTitle == songTitle && r.value.lyrics.url == LyricsUrl
                                 && r.value.lyrics.songName == ""
    ensures site != "youtube" && site != "lyrics" ==> r == Err(KeyError)
  {
    var youtube := new YoutubeSearch(songTitle);
    var lyrics := new LyricsSearch(songTitle);
    if site == "youtube" {
      r := Ok(Youtube(youtube));
    } else if site == "lyrics" {
      r := Ok(Lyrics(lyrics));
    } else {
      r := Err(KeyError);
    }
  }

  /** A full chain on a fresh YouTube builder: the URL is the base followed
      by the encoded name, and a second `query()` appends it again. */
  method YoutubeChain(songTitle: string) returns (once: string, twice: string)
    ensures once == YoutubeUrl + YoutubeQuery(SearchName(songTitle))
    ensures twice == once + YoutubeQuery(SearchName(songTitle))
  {
    var s := new YoutubeSearch(songTitle);
    var _ := s.SongName();
    var _ := s.Query();
    once := s.url;
    var _ := s.Query();
    twice := s.url;
  }

  /** The same chain on a fresh lyrics builder. */
  method LyricsChain(songTitle: string) returns (once: string)
    ensures once == LyricsUrl + LyricsQuery(SearchName(songTitle))
  {
    var t := new LyricsSearch(songTitle);
    var _ := t.SongName();
    var _ := t.Query();
    once := t.url;
  }

  /** Without `song_name()` the query appends nothing. */
  method QueryBeforeName(songTitle: string) returns (bare: string)
    ensures bare == LyricsUrl
  {
    var s := new LyricsSearch(songTitle);
    var _ := s.Query();
    bare := s.url;
  }
}
