/** `window/languages.py`: the message tables of the interface, one per
    language, the load-time check that they agree in size, and the report of
    their key differences. The message texts themselves are parameters. */
module Languages {
  import opened Python
  import opened Text

  type Lang = string
  type Field = string

  /** `LANGUAGE`: the language codes in the mapping's order, and each code's
      messages. */
  datatype Tables = Tables(order: seq<Lang>, messages: map<Lang, map<Field, string>>)

  /** The order lists every code of the mapping exactly once. */
  predicate WellFormed(t: Tables) {
    && (forall i, j :: 0 <= i < j < |t.order| ==> t.order[i] != t.order[j])
    && (forall i :: 0 <= i < |t.order| ==> t.order[i] in t.messages)
    && (forall l :: l in t.messages ==> l in t.order)
  }

  /** The module's `LANGUAGE`, English then Greek. */
  function Language(en: map<Field, string>, gr: map<Field, string>): (t: Tables)
    ensures WellFormed(t)
  {
    Tables(["en", "gr"], map["en" := en, "gr" := gr])
  }

  /** `get_available_languages()`: the codes, in the mapping's order. */
  function GetAvailableLanguages(t: Tables): (r: seq<Lang>)
    ensures WellFormed(t) ==> forall l :: l in r <==> l in t.messages
  {
    t.order
  }

  lemma AvailableLanguagesAreEnglishAndGreek(en: map<Field, string>, gr: map<Field, string>)
    ensures GetAvailableLanguages(Language(en, gr)) == ["en", "gr"]
  {
  }

  /** `get_message(lang, field, *args)`: the entry, one space, and the
      arguments separated by single spaces; KeyError for an unknown language
      or field. */
  function GetMessage(t: Tables, lang: Lang, field: Field, args: seq<string>): (r: Result<string>)
    ensures r.Ok? <==> lang in t.messages && field in t.messages[lang]
    ensures r.Err? ==> r.error == KeyError
    ensures r.Ok? ==> |r.value| > |t.messages[lang][field]|
                      && r.value[..|t.messages[lang][field]| + 1] == t.messages[lang][field] + " "
    ensures r.Ok? ==> r.value == t.messages[lang][field] + " " + Join(args, " ")
  {
    if lang !in t.messages || field !in t.messages[lang] then Err(KeyError)
    else
      var entry := t.messages[lang][field];
      var text := entry + " " + Join(args, " ");
      assert text[..|entry| + 1] == entry + " ";
      Ok(text)
  }

  /** Without arguments the message is the entry and one trailing space. */
  lemma GetMessageWithoutArgs(t: Tables, lang: Lang, field: Field)
    requires lang in t.messages && field in t.messages[lang]
    ensures GetMessage(t, lang, field, []) == Ok(t.messages[lang][field] + " ")
  {
    assert t.messages[lang][field] + " " + Join([], " ") == t.messages[lang][field] + " ";
  }

  /** Arguments without spaces can be read back from the message: the text
      after the entry and its space splits into exactly the arguments. */
  lemma GetMessageArgsRecoverable(t: Tables, lang: Lang, field: Field, args: seq<string>)
    requires lang in t.messages && field in t.messages[lang]
    requires args != [] && forall i :: 0 <= i < |args| ==> ' ' !in args[i]
    ensures var entry := t.messages[lang][field];
            Split(GetMessage(t, lang, field, args).value[|entry| + 1..], ' ') == args
  {
    var entry := t.messages[lang][field];
    var text := GetMessage(t, lang, field, args).value;
    assert text[|entry| + 1..] == Join(args, " ");
    SplitJoin(args, ' ');
  }

  /** Splitting `p + [c] + s` at `c`, when `p` has no `c`, yields `p` and
      then the pieces of `s`. */
  lemma {:induction false} SplitAfterPiece(p: string, c: char, s: string)
    requires c !in p
    ensures Split(p + [c] + s, c) == [p] + Split(s, c)
  {
    if p == [] {
      assert p + [c] + s == [c] + s;
      assert ([c] + s)[1..] == s;
    } else {
      assert (p + [c] + s)[1..] == p[1..] + [c] + s;
      SplitAfterPiece(p[1..], c, s);
      assert [p[0]] + p[1..] == p;
    }
  }

  /** A string without `c` is one piece. */
  lemma {:induction false} SplitAbsent(p: string, c: char)
    requires c !in p
    ensures Split(p, c) == [p]
  {
    if p != [] {
      SplitAbsent(p[1..], c);
      assert [p[0]] + p[1..] == p;
    }
  }

  /** Splitting undoes joining, for non-empty lists of pieces without the
      separator. */
  lemma {:induction false} SplitJoin(parts: seq<string>, c: char)
    requires parts != [] && forall i :: 0 <= i < |parts| ==> c !in parts[i]
    ensures Split(Join(parts, [c]), c) == parts
  {
    if |parts| == 1 {
      SplitAbsent(parts[0], c);
    } else {
      SplitJoin(parts[1..], c);
      SplitAfterPiece(parts[0], c, Join(parts[1..], [c]));
      assert [parts[0]] + parts[1..] == parts;
    }
  }

  /** The distinct table sizes, `set(len(v) for v in LANGUAGE.values())`. */
  function Counts(t: Tables): (r: set<nat>)
    ensures forall l :: l in t.messages ==> |t.messages[l]| in r
  {
    set l | l in t.messages :: |t.messages[l]|
  }

  /** Every count is the size of some language's table. */
  lemma CountsAreSizes(t: Tables, c: nat)
    requires c in Counts(t)
    ensures exists l :: l in t.messages && |t.messages[l]| == c
  {
  }

  /** A set has more than one element exactly when it holds two different
      ones. */
  lemma MoreThanOne<T>(s: set<T>)
    ensures |s| > 1 <==> exists x, y :: x in s && y in s && x != y
  {
    if |s| > 1 {
      var x :| x in s;
      assert s == (s - {x}) + {x};
      assert |s - {x}| > 0;
      var y :| y in s - {x};
      assert x in s && y in s && x != y;
    }
    if exists x, y :: x in s && y in s && x != y {
      var x, y :| x in s && y in s && x != y;
      SubsetCardinality({x, y}, s);
    }
  }

  /** The check run when the module is loaded: LanguageError exactly when
      two languages have different numbers of entries. */
  function LoadCheck(t: Tables): (o: Outcome)
    ensures o.Fail? <==> exists a, b :: a in t.messages && b in t.messages && |t.messages[a]| != |t.messages[b]|
    ensures o.Fail? ==> o.error == LanguageError
  {
    MoreThanOne(Counts(t));
    if |Counts(t)| > 1 then
      var x, y :| x in Counts(t) && y in Counts(t) && x != y;
      var a :| a in t.messages && |t.messages[a]| == x;
      var b :| b in t.messages && |t.messages[b]| == y;
      Fail(LanguageError)
    else
      assert forall a, b :: a in t.messages && b in t.messages ==>
               |t.messages[a]| in Counts(t) && |t.messages[b]| in Counts(t);
      Pass
  }

  /** `combinations(order, 2)` starting with `x`. */
  function PairsWith(x: Lang, rest: seq<Lang>): (r: seq<(Lang, Lang)>)
    ensures |r| == |rest|
    ensures forall k :: 0 <= k < |rest| ==> r[k] == (x, rest[k])
  {
    if rest == [] then [] else [(x, rest[0])] + PairsWith(x, rest[1..])
  }

  /** `combinations(order, 2)`: the pairs of positions `i < j`, in order. */
  function Pairs(order: seq<Lang>): (r: seq<(Lang, Lang)>)
    ensures 2 * |r| == |order| * (|order| - 1)
  {
    if order == [] then []
    else
      var n := |order|;
      var rest := Pairs(order[1..]);
      assert 2 * |rest| == (n - 1) * (n - 2);
      assert 2 * (n - 1) + (n - 1) * (n - 2) == n * (n - 1);
      PairsWith(order[0], order[1..]) + rest
  }

  /** Every pair of `Pairs(order)` is two codes at positions `i < j`, and
      every such two codes form a pair of it. */
  lemma {:induction false} PairsMembers(order: seq<Lang>, a: Lang, b: Lang)
    ensures (a, b) in Pairs(order) <==> exists i, j :: 0 <= i < j < |order| && order[i] == a && order[j] == b
  {
    if order != [] {
      var rest := order[1..];
      PairsMembers(rest, a, b);
      if (a, b) in Pairs(order) {
        if (a, b) in PairsWith(order[0], rest) {
          var k :| 0 <= k < |rest| && PairsWith(order[0], rest)[k] == (a, b);
          assert order[0] == a && order[k + 1] == b;
        } else {
          var i, j :| 0 <= i < j < |rest| && rest[i] == a && rest[j] == b;
          assert order[i + 1] == a && order[j + 1] == b;
        }
      }
      if exists i, j :: 0 <= i < j < |order| && order[i] == a && order[j] == b {
        var i, j :| 0 <= i < j < |order| && order[i] == a && order[j] == b;
        if i == 0 {
          assert PairsWith(order[0], rest)[j - 1] == (a, b);
        } else {
          assert rest[i - 1] == a && rest[j - 1] == b;
        }
      }
    }
  }

  /** `set(a) ^ set(b)`. */
  function SymDiff(a: set<Field>, b: set<Field>): (r: set<Field>)
    ensures r == {} <==> a == b
  {
    (a - b) + (b - a)
  }

  /** One entry of `df`: `{'between': (d1, d2), 'values': get_dif}`. */
  datatype Diff = Diff(between: (Lang, Lang), values: set<Field>)

  /** Every pair's codes are in the mapping. */
  predicate InTables(t: Tables, pairs: seq<(Lang, Lang)>) {
    forall k :: 0 <= k < |pairs| ==> pairs[k].0 in t.messages && pairs[k].1 in t.messages
  }

  /** The entries of `df` for `pairs`, in order: one per pair whose key sets
      differ. */
  function Diffs(t: Tables, pairs: seq<(Lang, Lang)>): seq<Diff>
    requires InTables(t, pairs)
  {
    if pairs == [] then []
    else
      var last := pairs[|pairs| - 1];
      var d := SymDiff(t.messages[last.0].Keys, t.messages[last.1].Keys);
      Diffs(t, pairs[..|pairs| - 1]) + (if d != {} then [Diff(last, d)] else [])
  }

  /** No entry is produced exactly when every pair has the same key sets. */
  lemma {:induction false} DiffsEmpty(t: Tables, pairs: seq<(Lang, Lang)>)
    requires InTables(t, pairs)
    ensures Diffs(t, pairs) == [] <==>
              forall k :: 0 <= k < |pairs| ==> t.messages[pairs[k].0].Keys == t.messages[pairs[k].1].Keys
  {
    if pairs != [] {
      var init := pairs[..|pairs| - 1];
      assert InTables(t, init);
      DiffsEmpty(t, init);
      assert forall k :: 0 <= k < |init| ==> init[k] == pairs[k];
    }
  }

  /** The text `find_diff` makes of `df`; `show` stands for Python's
      formatting of one entry, whose set part has no fixed order. */
  function DiffsText(df: seq<Diff>, show: Diff -> string): (r: string)
    ensures |r| >= 7 * |df|
  {
    if df == [] then ""
    else DiffsText(df[..|df| - 1], show) + "\n\nDiff:\n" + "- " + show(df[|df| - 1]) + "\n"
  }

  /** The codes of the mapping, paired, are in the mapping. */
  lemma PairsInTables(t: Tables)
    requires WellFormed(t)
    ensures InTables(t, Pairs(t.order))
  {
    var pairs := Pairs(t.order);
    forall k | 0 <= k < |pairs|
      ensures pairs[k].0 in t.messages && pairs[k].1 in t.messages
    {
      PairsMembers(t.order, pairs[k].0, pairs[k].1);
      var i, j :| 0 <= i < j < |t.order| && t.order[i] == pairs[k].0 && t.order[j] == pairs[k].1;
    }
  }

  /** Every pair has equal key sets exactly when every two languages do. */
  lemma AllPairsAgree(t: Tables)
    requires WellFormed(t)
    ensures InTables(t, Pairs(t.order))
    ensures (forall k :: 0 <= k < |Pairs(t.order)| ==>
               t.messages[Pairs(t.order)[k].0].Keys == t.messages[Pairs(t.order)[k].1].Keys)
            <==> (forall i, j :: 0 <= i < j < |t.order| ==>
                    t.messages[t.order[i]].Keys == t.messages[t.order[j]].Keys)
  {
    PairsInTables(t);
    var pairs := Pairs(t.order);
    if forall k :: 0 <= k < |pairs| ==> t.messages[pairs[k].0].Keys == t.messages[pairs[k].1].Keys {
      forall i, j | 0 <= i < j < |t.order|
        ensures t.messages[t.order[i]].Keys == t.messages[t.order[j]].Keys
      {
        PairsMembers(t.order, t.order[i], t.order[j]);
        var k :| 0 <= k < |pairs| && pairs[k] == (t.order[i], t.order[j]);
      }
    }
    if forall i, j :: 0 <= i < j < |t.order| ==> t.messages[t.order[i]].Keys == t.messages[t.order[j]].Keys {
      forall k | 0 <= k < |pairs|
        ensures t.messages[pairs[k].0].Keys == t.messages[pairs[k].1].Keys
      {
        PairsMembers(t.order, pairs[k].0, pairs[k].1);
      }
    }
  }

  /** The first loop of `find_diff()`: the entries of `df`, pair by pair. */
  method CollectDiffs(t: Tables, data: seq<(Lang, Lang)>) returns (df: seq<Diff>)
    requires InTables(t, data)
    ensures df == Diffs(t, data)
  {
    df := [];
    for i := 0 to |data|
      invariant InTables(t, data[..i]) && df == Diffs(t, data[..i])
    {
      assert data[..i + 1][..i] == data[..i];
      var (d1, d2) := data[i];
      var getDif := SymDiff(t.messages[d1].Keys, t.messages[d2].Keys);
      if getDif != {} {
        df := df + [Diff((d1, d2), getDif)];
      }
    }
    assert data[..|data|] == data;
  }

  /** The second loop of `find_diff()`: one block per entry. */
  method WriteDiffs(df: seq<Diff>, show: Diff -> string) returns (text: string)
    ensures text == DiffsText(df, show)
    ensures text == "" <==> df == []
  {
    text := "";
    for i := 0 to |df|
      invariant text == DiffsText(df[..i], show)
    {
      assert df[..i + 1][..i] == df[..i];
      text := text + "\n\nDiff:\n";
      text := text + "- " + show(df[i]) + "\n";
    }
    assert df[..|df|] == df;
  }

  /** `find_diff()`: collects the entry of every pair of languages whose key
      sets differ, then writes one block per entry. The text is empty
      exactly when all languages have the same keys. */
  method FindDiff(t: Tables, show: Diff -> string) returns (text: string)
    requires WellFormed(t)
    ensures InTables(t, Pairs(t.order)) && text == DiffsText(Diffs(t, Pairs(t.order)), show)
    ensures text == "" <==> forall i, j :: 0 <= i < j < |t.order| ==>
                              t.messages[t.order[i]].Keys == t.messages[t.order[j]].Keys
  {
    var data := Pairs(t.order);
    PairsInTables(t);
    var df := CollectDiffs(t, data);
    text := WriteDiffs(df, show);
    DiffsEmpty(t, data);
    AllPairsAgree(t);
  }

  /** Two tables of one entry each under different keys pass the load check,
      although their keys differ. */
  lemma CountOnlyCheck()
    ensures var t := Language(map["init_app_msg" := "Initializing application"],
                              map["logs" := "Logs"]);
            && LoadCheck(t) == Pass
            && InTables(t, Pairs(t.order)) && Diffs(t, Pairs(t.order)) != []
  {
    var t := Language(map["init_app_msg" := "Initializing application"], map["logs" := "Logs"]);
    assert |t.messages["en"]| == 1 && |t.messages["gr"]| == 1;
    assert LoadCheck(t) == Pass;
    PairsInTables(t);
    assert t.order[1..] == ["gr"];
    assert Pairs(t.order[1..]) == [];
    assert Pairs(t.order) == [("en", "gr")];
    DiffsEmpty(t, Pairs(t.order));
    assert "logs" !in t.messages["en"];
  }
}
