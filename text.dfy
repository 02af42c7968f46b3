/** The Python string built-ins the core uses, on ASCII text: slicing in
    reverse, `index`, `strip`, `split`, `join` and `title`. */
module Text {
  import opened Python

  /** `s[::-1]`. */
  function Reverse<T>(s: seq<T>): (r: seq<T>)
    ensures |r| == |s|
    ensures forall i :: 0 <= i < |s| ==> r[i] == s[|s| - 1 - i]
  {
    seq(|s|, i requires 0 <= i < |s| => s[|s| - 1 - i])
  }

  lemma ReverseKeepsMembers<T>(s: seq<T>, x: T)
    ensures x in s <==> x in Reverse(s)
  {
    var r := Reverse(s);
    if x in s {
      var k :| 0 <= k < |s| && s[k] == x;
      assert r[|s| - 1 - k] == x;
    }
    if x in r {
      var k :| 0 <= k < |r| && r[k] == x;
      assert s[|s| - 1 - k] == x;
    }
  }

  /** `s.index(x)`: the first position of `x`; None where Python raises
      ValueError. */
  function IndexOf<T(==)>(s: seq<T>, x: T): (r: Option<nat>)
    ensures r.None? <==> x !in s
    ensures r.Some? ==> r.value < |s| && s[r.value] == x && x !in s[..r.value]
  {
    if s == [] then None
    else if s[0] == x then Some(0)
    else
      match IndexOf(s[1..], x)
      case None => None
      case Some(i) =>
        assert s[..i + 1] == [s[0]] + s[1..][..i];
        Some(i + 1)
  }

  /** Reading the tail of a reversed sequence backwards gives a head of the
      original. */
  lemma ReverseOfReversedTail<T>(s: seq<T>, i: nat)
    requires i < |s|
    ensures Reverse(Reverse(s)[i + 1..]) == s[..|s| - 1 - i]
  {
    var r := Reverse(s);
    var u := r[i + 1..];
    var t := Reverse(u);
    var n := |s| - 1 - i;
    assert |u| == n && |t| == n;
    forall j | 0 <= j < n
      ensures t[j] == s[j]
    {
      var k := n - 1 - j;
      assert t[j] == u[k];
      assert u[k] == r[i + 1 + k];
      assert r[i + 1 + k] == s[|s| - 1 - (i + 1 + k)];
    }
    assert t == s[..n];
  }

  /** The idiom `s[::-1][s[::-1].index('.') + 1:][::-1]` of the source: `s`
      up to, and without, its last `.`. A string with no `.` raises
      ValueError. */
  function StripExtension(s: string): (r: Result<string>)
    ensures r.Ok? <==> '.' in s
    ensures r.Err? ==> r.error == ValueError
    ensures r.Ok? ==> |r.value| < |s| && s[..|r.value|] == r.value && s[|r.value|] == '.'
    ensures r.Ok? ==> '.' !in s[|r.value| + 1..]
  {
    var reverse := Reverse(s);
    ReverseKeepsMembers(s, '.');
    match IndexOf(reverse, '.')
    case None => Err(ValueError)
    case Some(i) =>
      ReverseOfReversedTail(s, i);
      var k := |s| - 1 - i;
      assert s[k] == reverse[i];
      assert forall m :: k < m < |s| ==> s[m] == reverse[..i][|s| - 1 - m];
      Ok(Reverse(reverse[i + 1..]))
  }

  /** The ASCII characters `str.strip()` removes: those `str.isspace()`
      holds for, which are `string.whitespace` and the four separators
      U+001C to U+001F. */
  predicate IsSpace(c: char) {
    c == ' ' || c == '\t' || c == '\n' || c == '\r' || c == '\U{000B}' || c == '\U{000C}'
    || ('\U{001C}' <= c <= '\U{001F}')
  }

  /** `s.lstrip()`. */
  function LStrip(s: string): (r: string)
    ensures |r| <= |s| && r == s[|s| - |r|..]
    ensures forall i :: 0 <= i < |s| - |r| ==> IsSpace(s[i])
    ensures r != [] ==> !IsSpace(r[0])
  {
    if s != [] && IsSpace(s[0]) then LStrip(s[1..]) else s
  }

  /** `s.rstrip()`. */
  function RStrip(s: string): (r: string)
    ensures |r| <= |s| && r == s[..|r|]
    ensures forall i :: |r| <= i < |s| ==> IsSpace(s[i])
    ensures r != [] ==> !IsSpace(r[|r| - 1])
  {
    if s != [] && IsSpace(s[|s| - 1]) then RStrip(s[..|s| - 1]) else s
  }

  /** `r` is the slice `s[a..b]`, and everything of `s` outside it is
      whitespace. */
  predicate TrimmedSlice(s: string, r: string, a: int, b: int) {
    && 0 <= a <= b <= |s| && r == s[a..b]
    && (forall i :: 0 <= i < a ==> IsSpace(s[i]))
    && (forall i :: b <= i < |s| ==> IsSpace(s[i]))
  }

  /** `s.strip()`: `s` without leading and trailing whitespace, and with
      nothing else removed. */
  function Strip(s: string): (r: string)
    ensures r != [] ==> !IsSpace(r[0]) && !IsSpace(r[|r| - 1])
    ensures |r| <= |s|
    ensures exists a, b :: TrimmedSlice(s, r, a, b)
  {
    var l := LStrip(s);
    var r := RStrip(l);
    assert TrimmedSlice(s, r, |s| - |l|, |s| - |l| + |r|);
    r
  }

  /** Stripping a string that has no whitespace at either end changes
      nothing; in particular stripping is idempotent. */
  lemma StripKeepsTrimmed(s: string)
    requires s != [] ==> !IsSpace(s[0]) && !IsSpace(s[|s| - 1])
    ensures Strip(s) == s
  {
    assert LStrip(s) == s;
  }

  /** Stripping adds no character. */
  lemma StripIsInfix(s: string, c: char)
    requires c in Strip(s)
    ensures c in s
  {
    var l := LStrip(s);
    assert c in l;
  }

  lemma StripIdempotent(s: string)
    ensures Strip(Strip(s)) == Strip(s)
  {
    StripKeepsTrimmed(Strip(s));
  }

  /** `s.split(c)` for a one-character separator `c`: the pieces between
      successive occurrences of `c`, empty pieces included. */
  function Split(s: string, c: char): (r: seq<string>)
    ensures |r| >= 1
    ensures forall i :: 0 <= i < |r| ==> c !in r[i]
  {
    if s == [] then [""]
    else
      var rest := Split(s[1..], c);
      if s[0] == c then [""] + rest
      else [[s[0]] + rest[0]] + rest[1..]
  }

  /** The total length of `parts`. */
  function Lengths(parts: seq<string>): nat {
    if parts == [] then 0 else |parts[0]| + Lengths(parts[1..])
  }

  /** `sep.join(parts)`: every piece once, with a separator between two
      neighbours, starting with the first piece. */
  function Join(parts: seq<string>, sep: string): (r: string)
    ensures parts != [] ==> |r| + |sep| == Lengths(parts) + |parts| * |sep|
    ensures parts == [] ==> r == ""
    ensures parts != [] ==> |parts[0]| <= |r| && r[..|parts[0]|] == parts[0]
  {
    if parts == [] then ""
    else if |parts| == 1 then parts[0]
    else parts[0] + sep + Join(parts[1..], sep)
  }

  /** Joining the pieces of a split with the separator gives back the
      original string. */
  lemma {:induction false} JoinSplit(s: string, c: char)
    ensures Join(Split(s, c), [c]) == s
  {
    if s != [] {
      var rest := Split(s[1..], c);
      JoinSplit(s[1..], c);
      if s[0] == c {
        assert ([""] + rest)[1..] == rest;
      } else {
        var parts := [[s[0]] + rest[0]] + rest[1..];
        if |rest| > 1 {
          assert parts[1..] == rest[1..];
          assert Join(rest, [c]) == rest[0] + [c] + Join(rest[1..], [c]);
        }
      }
    }
  }

  /** The separator is the only source of a character absent from all
      pieces. */
  lemma {:induction false} JoinAvoids(parts: seq<string>, sep: string, c: char)
    requires forall i :: 0 <= i < |parts| ==> c !in parts[i]
    requires c !in sep
    ensures c !in Join(parts, sep)
  {
    if |parts| > 1 {
      JoinAvoids(parts[1..], sep, c);
    }
  }

  /** `s` with every `c` replaced by `sep`, character by character. */
  function Replace(s: string, c: char, sep: string): string {
    if s == [] then ""
    else (if s[0] == c then sep else [s[0]]) + Replace(s[1..], c, sep)
  }

  /** `sep.join(s.split(c))` is the replacement of every `c` by `sep`. */
  lemma {:induction false} JoinSplitReplace(s: string, c: char, sep: string)
    ensures Join(Split(s, c), sep) == Replace(s, c, sep)
  {
    if s != [] {
      var rest := Split(s[1..], c);
      JoinSplitReplace(s[1..], c, sep);
      if s[0] == c {
        assert ([""] + rest)[1..] == rest;
      } else {
        var parts := [[s[0]] + rest[0]] + rest[1..];
        if |rest| > 1 {
          assert parts[1..] == rest[1..];
          assert Join(rest, sep) == rest[0] + sep + Join(rest[1..], sep);
        }
      }
    }
  }

  /** Replacing every `c` in `s` by `sep` (`sep.join(s.split(c))`) leaves no
      `c` when `sep` has none. */
  lemma ReplacedHasNo(s: string, c: char, sep: string)
    requires c !in sep
    ensures c !in Join(Split(s, c), sep)
  {
    JoinAvoids(Split(s, c), sep, c);
  }

  predicate IsLetter(c: char) {
    'a' <= c <= 'z' || 'A' <= c <= 'Z'
  }

  function Upper(c: char): char {
    if 'a' <= c <= 'z' then (c as int - 32) as char else c
  }

  function Lower(c: char): char {
    if 'A' <= c <= 'Z' then (c as int + 32) as char else c
  }

  /** What `str.title()` makes of the character `c` at a position preceded by
      a letter (`afterLetter`) or not: letters are lower-cased inside a run of
      letters and upper-cased at its start; other characters are kept. */
  function TitleCase(c: char, afterLetter: bool): char {
    if !IsLetter(c) then c else if afterLetter then Lower(c) else Upper(c)
  }

  /** `s.title()` on the rest of a string whose previous character was a
      letter (`afterLetter`) or not. */
  function TitleFrom(s: string, afterLetter: bool): (r: string)
    ensures |r| == |s|
    ensures |s| > 0 ==> r[0] == TitleCase(s[0], afterLetter)
    ensures forall i :: 0 < i < |s| ==> r[i] == TitleCase(s[i], IsLetter(s[i - 1]))
  {
    if s == [] then []
    else [TitleCase(s[0], afterLetter)] + TitleFrom(s[1..], IsLetter(s[0]))
  }

  /** `s.title()` for ASCII text: the first letter of every run of letters is
      upper case and the others are lower case. */
  function Title(s: string): (r: string)
    ensures |r| == |s|
    ensures forall i :: 0 <= i < |s| ==>
              r[i] == TitleCase(s[i], i > 0 && IsLetter(s[i - 1]))
  {
    TitleFrom(s, false)
  }

  /** Changing case keeps letters letters, and doing it twice is doing it
      once. */
  lemma TitleCaseStable(c: char, afterLetter: bool)
    ensures IsLetter(TitleCase(c, afterLetter)) == IsLetter(c)
    ensures TitleCase(TitleCase(c, afterLetter), afterLetter) == TitleCase(c, afterLetter)
  {
  }

  /** Title-casing twice is title-casing once. */
  lemma TitleIdempotent(s: string)
    ensures Title(Title(s)) == Title(s)
  {
    var t := Title(s);
    forall i | 0 <= i < |s|
      ensures Title(t)[i] == t[i]
    {
      var after := i > 0 && IsLetter(s[i - 1]);
      TitleCaseStable(s[i], after);
      if i > 0 {
        TitleCaseStable(s[i - 1], i > 1 && IsLetter(s[i - 2]));
      }
    }
  }
}
