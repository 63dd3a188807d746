/** Theme attribution: every record first carries the one theme of the page it came from;
    then, record by record, its theme list is overwritten with the themes of all records
    sharing its problem id, read from the list as it stands at that moment. */
module ThemeAggregation {
  import opened ProblemTypes

  /** `_get_all_problem_themes_data`: the theme lists of every record whose problem id is
      `id`, concatenated in list order, duplicates kept. */
  function ThemesOf(problems: seq<ProblemData>, id: string): seq<ThemeData> {
    if |problems| == 0 then []
    else ThemesOf(problems[..|problems| - 1], id) + OwnThemes(problems[|problems| - 1], id)
  }

  /** The themes one record contributes to the list of `id`. */
  function OwnThemes(p: ProblemData, id: string): seq<ThemeData> {
    if p.problemId == id then p.themes else []
  }

  lemma ThemesOfSingle(p: ProblemData, id: string)
    ensures ThemesOf([p], id) == OwnThemes(p, id)
  {
    assert [p][..0] == [];
  }

  lemma ThemesOfPair(p: ProblemData, q: ProblemData, id: string)
    ensures ThemesOf([p, q], id) == OwnThemes(p, id) + OwnThemes(q, id)
  {
    ThemesOfAppend([p], [q], id);
    ThemesOfSingle(p, id);
    ThemesOfSingle(q, id);
    assert [p] + [q] == [p, q];
  }

  /** Independent count: the summed lengths of the matching records' theme lists. */
  function MatchingThemeCount(problems: seq<ProblemData>, id: string): nat {
    if problems == [] then 0
    else (if problems[0].problemId == id then |problems[0].themes| else 0) + MatchingThemeCount(problems[1..], id)
  }

  lemma {:induction false} ThemesOfAppend(a: seq<ProblemData>, b: seq<ProblemData>, id: string)
    ensures ThemesOf(a + b, id) == ThemesOf(a, id) + ThemesOf(b, id)
  {
    if b != [] {
      var b' := b[..|b| - 1];
      assert (a + b)[|a + b| - 1] == b[|b| - 1];
      assert (a + b)[..|a + b| - 1] == a + b';
      ThemesOfAppend(a, b', id);
      assert ThemesOf(a + b, id) == ThemesOf(a + b', id) + OwnThemes(b[|b| - 1], id);
    } else {
      assert a + b == a;
    }
  }

  /** The result holds no deduplication: its length is the sum of the matching lists'. */
  lemma {:induction false} ThemesOfLength(problems: seq<ProblemData>, id: string)
    ensures |ThemesOf(problems, id)| == MatchingThemeCount(problems, id)
  {
    if problems != [] {
      ThemesOfAppend([problems[0]], problems[1..], id);
      assert [problems[0]] + problems[1..] == problems;
      ThemesOfSingle(problems[0], id);
      ThemesOfLength(problems[1..], id);
    }
  }

  /** A theme is collected exactly when some record with that problem id carries it. */
  lemma {:induction false} ThemesOfMembership(problems: seq<ProblemData>, id: string, t: ThemeData)
    ensures t in ThemesOf(problems, id) <==>
            exists j :: 0 <= j < |problems| && problems[j].problemId == id && t in problems[j].themes
  {
    if problems != [] {
      var init := problems[..|problems| - 1];
      ThemesOfMembership(init, id, t);
      if exists j :: 0 <= j < |init| && init[j].problemId == id && t in init[j].themes {
        var j :| 0 <= j < |init| && init[j].problemId == id && t in init[j].themes;
        assert problems[j] == init[j];
      }
      if exists j :: 0 <= j < |problems| && problems[j].problemId == id && t in problems[j].themes {
        var j :| 0 <= j < |problems| && problems[j].problemId == id && t in problems[j].themes;
        if j < |init| { assert init[j] == problems[j]; }
      }
    }
  }

  lemma {:induction false} ThemesOfNoMatch(problems: seq<ProblemData>, id: string)
    requires forall j :: 0 <= j < |problems| ==> problems[j].problemId != id
    ensures ThemesOf(problems, id) == []
  {
    if problems != [] {
      ThemesOfNoMatch(problems[..|problems| - 1], id);
    }
  }

  /** The page attribution step: every record of a page gets exactly the page's theme. */
  function WithTheme(records: seq<ProblemData>, theme: ThemeData): (r: seq<ProblemData>)
    ensures |r| == |records|
    ensures forall i :: 0 <= i < |r| ==> r[i] == records[i].(themes := [theme])
  {
    seq(|records|, i requires 0 <= i < |records| => records[i].(themes := [theme]))
  }

  /** One iteration of the overwrite loop: record i takes the themes of its id as the list
      currently holds them. */
  function MergeStep(s: seq<ProblemData>, i: nat): seq<ProblemData>
    requires i < |s|
  {
    s[i := s[i].(themes := ThemesOf(s, s[i].problemId))]
  }

  /** The list after the first k iterations of the overwrite loop. */
  function MergedUpTo(s: seq<ProblemData>, k: nat): (r: seq<ProblemData>)
    requires k <= |s|
    ensures |r| == |s|
  {
    if k == 0 then s else MergeStep(MergedUpTo(s, k - 1), k - 1)
  }

  /** The list after the whole overwrite loop. */
  function Merged(s: seq<ProblemData>): (r: seq<ProblemData>)
    ensures |r| == |s|
  {
    MergedUpTo(s, |s|)
  }

  /** Records from k on are untouched by the first k iterations. */
  lemma {:induction false} MergedUpToAhead(s: seq<ProblemData>, k: nat, j: nat)
    requires k <= j < |s|
    ensures MergedUpTo(s, k)[j] == s[j]
  {
    if k > 0 {
      MergedUpToAhead(s, k - 1, j);
    }
  }

  /** Record j is written once, by iteration j, and never again. */
  lemma {:induction false} MergedUpToBehind(s: seq<ProblemData>, k: nat, j: nat)
    requires j < k <= |s|
    ensures MergedUpTo(s, k)[j] == MergedUpTo(s, j + 1)[j]
  {
    if k > j + 1 {
      MergedUpToBehind(s, k - 1, j);
    }
  }

  /** The loop changes nothing but `themes`. */
  lemma MergedKeepsRest(s: seq<ProblemData>, j: nat)
    requires j < |s|
    ensures Merged(s)[j] == s[j].(themes := Merged(s)[j].themes)
  {
    MergedUpToBehind(s, |s|, j);
    MergedUpToAhead(s, j, j);
  }

  /** After the loop, record i holds the themes of its id among the already overwritten
      records before it, followed by those of the records from i on as they were. */
  lemma MergedThemes(s: seq<ProblemData>, i: nat)
    requires i < |s|
    ensures Merged(s)[i].themes == ThemesOf(Merged(s)[..i], s[i].problemId) + ThemesOf(s[i..], s[i].problemId)
  {
    var m := MergedUpTo(s, i);
    var id := s[i].problemId;
    MergedUpToBehind(s, |s|, i);
    MergedUpToAhead(s, i, i);
    assert Merged(s)[i].themes == ThemesOf(m, id);
    assert m[..i] == Merged(s)[..i] by {
      forall j | 0 <= j < i ensures m[j] == Merged(s)[j] {
        MergedUpToBehind(s, i, j);
        MergedUpToBehind(s, |s|, j);
      }
    }
    assert m[i..] == s[i..] by {
      forall j | i <= j < |s| ensures m[j] == s[j] {
        MergedUpToAhead(s, i, j);
      }
    }
    assert m[..i] + m[i..] == m;
    ThemesOfAppend(m[..i], m[i..], id);
  }

  /** Dropping leading records that do not carry `id` leaves its themes unchanged. */
  lemma ThemesOfDropUnmatched(s: seq<ProblemData>, i: nat, id: string)
    requires i <= |s|
    requires forall j :: 0 <= j < i ==> s[j].problemId != id
    ensures ThemesOf(s, id) == ThemesOf(s[i..], id)
  {
    ThemesOfNoMatch(s[..i], id);
    assert s[..i] + s[i..] == s;
    ThemesOfAppend(s[..i], s[i..], id);
  }

  /** The overwritten records before i carry the ids they started with. */
  lemma MergedPrefixUnmatched(s: seq<ProblemData>, i: nat, id: string)
    requires i <= |s|
    requires forall j :: 0 <= j < i ==> s[j].problemId != id
    ensures ThemesOf(Merged(s)[..i], id) == []
  {
    var m := Merged(s)[..i];
    forall j | 0 <= j < i ensures m[j].problemId != id {
      MergedKeepsRest(s, j);
    }
    ThemesOfNoMatch(m, id);
  }

  /** The first record with a given id ends with the themes of all records sharing that
      id, in list order. */
  lemma FirstOccurrenceGetsAllThemes(s: seq<ProblemData>, i: nat)
    requires i < |s|
    requires forall j :: 0 <= j < i ==> s[j].problemId != s[i].problemId
    ensures Merged(s)[i].themes == ThemesOf(s, s[i].problemId)
  {
    MergedThemes(s, i);
    MergedPrefixUnmatched(s, i, s[i].problemId);
    ThemesOfDropUnmatched(s, i, s[i].problemId);
  }

  /** When no two records share a problem id, the loop changes nothing. */
  lemma DistinctIdsKeepThemes(s: seq<ProblemData>)
    requires forall i, j :: 0 <= i < j < |s| ==> s[i].problemId != s[j].problemId
    ensures Merged(s) == s
  {
    var r := Merged(s);
    forall i | 0 <= i < |s| ensures r[i] == s[i] {
      FirstOccurrenceGetsAllThemes(s, i);
      OnlyRecordWithId(s, i);
      MergedKeepsRest(s, i);
    }
  }

  /** The themes of `id` around one record: those before it, its own, those after it. */
  lemma ThemesOfAround(s: seq<ProblemData>, i: nat, id: string)
    requires i < |s|
    ensures ThemesOf(s, id) == ThemesOf(s[..i], id) + OwnThemes(s[i], id) + ThemesOf(s[i + 1..], id)
  {
    assert s == s[..i] + [s[i]] + s[i + 1..];
    ThemesOfAppend(s[..i] + [s[i]], s[i + 1..], id);
    ThemesOfAppend(s[..i], [s[i]], id);
    ThemesOfSingle(s[i], id);
  }

  /** A record whose id no other record has collects just its own themes. */
  lemma OnlyRecordWithId(s: seq<ProblemData>, i: nat)
    requires i < |s|
    requires forall j :: 0 <= j < |s| && j != i ==> s[j].problemId != s[i].problemId
    ensures ThemesOf(s, s[i].problemId) == s[i].themes
  {
    var id := s[i].problemId;
    ThemesOfNoMatch(s[..i], id);
    ThemesOfNoMatch(s[i + 1..], id);
    NothingAround(s, i);
  }

  /** With nothing collected before and after record i, its own themes are all. */
  lemma NothingAround(s: seq<ProblemData>, i: nat)
    requires i < |s|
    requires ThemesOf(s[..i], s[i].problemId) == []
    requires ThemesOf(s[i + 1..], s[i].problemId) == []
    ensures ThemesOf(s, s[i].problemId) == s[i].themes
  {
    var id := s[i].problemId;
    ThemesOfAround(s, i, id);
    var before, own, after := ThemesOf(s[..i], id), OwnThemes(s[i], id), ThemesOf(s[i + 1..], id);
    assert before + own + after == own;
  }

  /** One problem seen under two themes: the first record ends with both themes, the second,
      computed after the first was overwritten, with the first theme, then the second twice. */
  lemma TwoThemesOneProblem(p: ProblemData, t1: ThemeData, t2: ThemeData)
    ensures var s := [p.(themes := [t1]), p.(themes := [t2])];
            && Merged(s)[0].themes == [t1, t2]
            && Merged(s)[1].themes == [t1, t2, t2]
  {
    var id := p.problemId;
    var a, b := p.(themes := [t1]), p.(themes := [t2]);
    var s := [a, b];
    ThemesOfPair(a, b, id);
    assert ThemesOf(s, id) == [t1] + [t2] == [t1, t2];
    var a1 := p.(themes := [t1, t2]);
    var s1 := MergeStep(s, 0);
    assert s1 == [a1, b];
    ThemesOfPair(a1, b, id);
    assert ThemesOf(s1, id) == [t1, t2] + [t2] == [t1, t2, t2];
    assert MergedUpTo(s, 1) == s1;
    assert Merged(s) == MergeStep(s1, 1);
  }
}
