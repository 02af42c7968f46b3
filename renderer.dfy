/** `lyricshandler/renderer.py`: the lyric line shown at a playback time,
    found by a scan of the parsed subtitle lines. Times are integer
    milliseconds. */
module Renderer {
  import opened Python

  /** One parsed subtitle: shown from `start` up to, not including, `end`. */
  datatype LyricLine = LyricLine(start: int, end: int, content: string)

  /** The half-open test `start <= t < end`. */
  predicate Covers(line: LyricLine, t: int) {
    line.start <= t < line.end
  }

  /** The position of the first line, in sequence order, that covers `t`. */
  function FirstMatch(lines: seq<LyricLine>, t: int): (r: Option<nat>)
    ensures r.None? <==> forall i :: 0 <= i < |lines| ==> !Covers(lines[i], t)
    ensures r.Some? ==> r.value < |lines| && Covers(lines[r.value], t)
    ensures r.Some? ==> forall i :: 0 <= i < r.value ==> !Covers(lines[i], t)
  {
    if lines == [] then None
    else if Covers(lines[0], t) then Some(0)
    else
      match FirstMatch(lines[1..], t)
      case None => None
      case Some(i) => Some(i + 1)
  }

  /** Lines that are in time order and do not overlap. */
  predicate Ordered(lines: seq<LyricLine>) {
    forall i, j :: 0 <= i < j < |lines| ==> lines[i].end <= lines[j].start
  }

  /** A `Renderer`: the parsed lines of its lyrics file and `_index`, which
      nothing here changes. */
  datatype Renderer = Renderer(lyrics: seq<LyricLine>, index: int) {

    /** `get_line(t)`: the content of the first line covering `t`, or None
        when no line does (before the first line, in a gap, after the
        last). */
    function GetLine(t: int): (r: Option<string>)
      ensures r.None? <==> forall i :: 0 <= i < |lyrics| ==> !Covers(lyrics[i], t)
      ensures r.Some? ==> exists i :: 0 <= i < |lyrics| && Covers(lyrics[i], t) && r.value == lyrics[i].content
                                      && forall j :: 0 <= j < i ==> !Covers(lyrics[j], t)
    {
      match FirstMatch(lyrics, t)
      case None => None
      case Some(i) => Some(lyrics[i].content)
    }
  }

  /** In time-ordered lyrics, a time inside a line shows that line: its start
      included, its end excluded. */
  lemma OrderedShowsCoveringLine(r: Renderer, i: nat, t: int)
    requires Ordered(r.lyrics) && i < |r.lyrics| && Covers(r.lyrics[i], t)
    ensures r.GetLine(t) == Some(r.lyrics[i].content)
  {
  }

  /** The start of a line is shown and its end is not, unless another line
      covers it. */
  lemma StartInclusiveEndExclusive(r: Renderer, i: nat)
    requires Ordered(r.lyrics) && i < |r.lyrics| && r.lyrics[i].start < r.lyrics[i].end
    ensures r.GetLine(r.lyrics[i].start) == Some(r.lyrics[i].content)
    ensures (forall j :: 0 <= j < |r.lyrics| ==> r.lyrics[j].start != r.lyrics[i].end) ==>
              r.GetLine(r.lyrics[i].end) == None
  {
    OrderedShowsCoveringLine(r, i, r.lyrics[i].start);
    var e := r.lyrics[i].end;
    if forall j :: 0 <= j < |r.lyrics| ==> r.lyrics[j].start != e {
      forall j | 0 <= j < |r.lyrics|
        ensures !Covers(r.lyrics[j], e)
      {
        if j > i {
          assert e <= r.lyrics[j].start;
        } else if j < i {
          assert r.lyrics[j].end <= r.lyrics[i].start;
        }
      }
    }
  }

  /** The first lines of the lyrics the renderer is exercised with. */
  function Sample(): Renderer {
    Renderer([
      LyricLine(1100, 6000, "You say you know just who I am"),
      LyricLine(6100, 8500, "But you can't imagine"),
      LyricLine(8600, 13400, "What waits for you across the line"),
      LyricLine(13500, 16700, "You thought you had me"),
      LyricLine(16800, 24100, "But I'm still here standing"),
      LyricLine(24200, 30400, "And I'm tired of backing down"),
      LyricLine(30500, 34300, "And I'm here now feeling the pain")], 0)
  }

  /** Before the first line, at a start, inside a line, at an end and in a
      gap between two lines. */
  lemma SampleLookups()
    ensures Sample().GetLine(0) == None
    ensures Sample().GetLine(1100) == Some("You say you know just who I am")
    ensures Sample().GetLine(14500) == Some("You thought you had me")
    ensures Sample().GetLine(24100) == None
    ensures Sample().GetLine(6050) == None
  {
    var l := Sample().lyrics;
    assert Covers(l[0], 1100);
    assert Covers(l[3], 14500) && !Covers(l[0], 14500) && !Covers(l[1], 14500) && !Covers(l[2], 14500);
  }
}
