/** Reading the bank's index pages: the subject list of the front page, the theme list of
    a subject, and the optional restriction to named subjects. Markup selection is left to
    the HTML library; what reaches this module is each element's stripped text and the
    attribute the scraper reads from it. */
module IndexParsing {
  import opened Wrappers
  import opened Text
  import opened OrderedDict

  /** An exam card of the front page: its stripped text and its `id` attribute, if any. */
  datatype ExamCard = ExamCard(text: string, id: Option<string>)

  /** An item of a subject's theme menu: its stripped text and its `class` attribute, if any.
      `None` means the attribute is absent; an attribute present without a value, on which
      the header test would raise, is not modelled. */
  datatype ThemeItem = ThemeItem(text: string, cls: Option<string>)

  /** The subject hash: the `id` attribute without its first two characters, the empty
      string when the attribute is missing or shorter than that. */
  function SubjectHash(id: Option<string>): (r: string)
    ensures id.Some? && |id.value| >= 2 ==> id.value[..2] + r == id.value
    ensures id.None? || |id.value| <= 2 ==> r == []
  {
    var s := id.GetOr("");
    if |s| <= 2 then [] else s[2..]
  }

  /** The (name, hash) pair each exam card yields, in page order. */
  function SubjectPairs(cards: seq<ExamCard>): (r: seq<(string, string)>)
    ensures |r| == |cards|
    ensures forall i :: 0 <= i < |cards| ==> r[i] == (cards[i].text, SubjectHash(cards[i].id))
  {
    seq(|cards|, i requires 0 <= i < |cards| => (cards[i].text, SubjectHash(cards[i].id)))
  }

  /** `get_subject_ids`: a dict from subject name to subject hash built by a comprehension. */
  function SubjectIds(cards: seq<ExamCard>): Dict<string> {
    FromPairs(SubjectPairs(cards))
  }

  /** Every card's name is a key, nothing else is, and two cards with the same name leave
      the hash of the later one. */
  lemma SubjectIdsLastWins(cards: seq<ExamCard>, name: string, i: nat)
    requires i < |cards| && cards[i].text == name
    requires forall j :: i < j < |cards| ==> cards[j].text != name
    ensures UniqueKeys(SubjectIds(cards))
    ensures Get(SubjectIds(cards), name) == Some(SubjectHash(cards[i].id))
  {
    var ps := SubjectPairs(cards);
    FromPairsLastWins(ps, name);
    LastValueAt(ps, name, i);
  }

  /** A name no card carries is not a key. */
  lemma SubjectIdsOnlyCardNames(cards: seq<ExamCard>, name: string)
    requires forall j :: 0 <= j < |cards| ==> cards[j].text != name
    ensures name !in Keys(SubjectIds(cards))
  {
    var ps := SubjectPairs(cards);
    FromPairsKeys(ps, name);
  }

  /** The last pair with key `k` sits at index i. */
  lemma {:induction false} LastValueAt<V>(ps: seq<(string, V)>, k: string, i: nat)
    requires i < |ps| && ps[i].0 == k
    requires forall j :: i < j < |ps| ==> ps[j].0 != k
    ensures LastValue(ps, k) == Some(ps[i].1)
  {
    if i < |ps| - 1 {
      var init := ps[..|ps| - 1];
      LastValueAt(init, k, i);
    }
  }

  /** A menu item that is a group header rather than a theme. */
  predicate IsHeader(item: ThemeItem) {
    Contains(item.cls.GetOr(""), "dropdown-header")
  }

  /** The menu items that are themes, in menu order. */
  function NonHeaderItems(items: seq<ThemeItem>): (r: seq<ThemeItem>)
    ensures |r| <= |items|
    ensures forall x :: x in r <==> x in items && !IsHeader(x)
  {
    if |items| == 0 then []
    else
      var init := NonHeaderItems(items[..|items| - 1]);
      var last := items[|items| - 1];
      assert items == items[..|items| - 1] + [last];
      if IsHeader(last) then init else init + [last]
  }

  /** The filter keeps menu order and multiplicity: filtering a + b is filtering a, then b. */
  lemma {:induction false} NonHeaderItemsAppend(a: seq<ThemeItem>, b: seq<ThemeItem>)
    ensures NonHeaderItems(a + b) == NonHeaderItems(a) + NonHeaderItems(b)
  {
    if |b| == 0 {
      assert a + b == a;
    } else {
      var b' := b[..|b| - 1];
      assert (a + b)[..|a + b| - 1] == a + b';
      assert (a + b)[|a + b| - 1] == b[|b| - 1];
      NonHeaderItemsAppend(a, b');
    }
  }

  /** A header item is dropped; any other item is kept once. */
  lemma NonHeaderItemsOne(x: ThemeItem)
    ensures NonHeaderItems([x]) == if IsHeader(x) then [] else [x]
  {
    assert [x][..0] == [];
  }

  /** `get_theme_names_and_ids` after the header filter: each text split at its first
      space into codifier id and theme name, assigned into a dict one after the other. A
      text without a space makes the two-name unpacking raise. */
  function ThemeIndex(items: seq<ThemeItem>): Result<Dict<string>, Raised> {
    if |items| == 0 then Success([])
    else
      var d :- ThemeIndex(items[..|items| - 1]);
      var text := items[|items| - 1].text;
      match SplitFirst(text, ' ')
      case None => Failure(ThemeTextWithoutSpace(text))
      case Some(p) => Success(Set(d, p.0, p.1))
  }

  /** The (codifier id, name) pair of every item, when all of them contain a space. */
  function ThemePairs(items: seq<ThemeItem>): (r: seq<(string, string)>)
    requires forall i :: 0 <= i < |items| ==> ' ' in items[i].text
    ensures |r| == |items|
    ensures forall i :: 0 <= i < |items| ==> r[i].0 + " " + r[i].1 == items[i].text && ' ' !in r[i].0
  {
    seq(|items|, i requires 0 <= i < |items| => SplitFirst(items[i].text, ' ').value)
  }

  /** One step of the assignment loop fails exactly when the loop had failed already or
      the new text has no space. */
  lemma ThemeIndexStep(items: seq<ThemeItem>)
    requires |items| > 0
    ensures ThemeIndex(items).Failure? <==>
              ThemeIndex(items[..|items| - 1]).Failure? || ' ' !in items[|items| - 1].text
  {
  }

  /** Every text, from the first, holds a space. */
  predicate AllSpaced(items: seq<ThemeItem>) {
    |items| == 0 || (AllSpaced(items[..|items| - 1]) && ' ' in items[|items| - 1].text)
  }

  lemma {:induction false} AllSpacedEverywhere(items: seq<ThemeItem>)
    ensures AllSpaced(items) <==> forall i :: 0 <= i < |items| ==> ' ' in items[i].text
  {
    if |items| > 0 {
      var init := items[..|items| - 1];
      AllSpacedEverywhere(init);
      assert forall i :: 0 <= i < |init| ==> items[i] == init[i];
    }
  }

  lemma {:induction false} ThemeIndexFailsUnlessSpaced(items: seq<ThemeItem>)
    ensures ThemeIndex(items).Failure? <==> !AllSpaced(items)
  {
    if |items| > 0 {
      ThemeIndexFailsUnlessSpaced(items[..|items| - 1]);
      ThemeIndexStep(items);
    }
  }

  /** Theme parsing fails exactly when some item's text has no space. */
  lemma ThemeIndexFails(items: seq<ThemeItem>)
    ensures ThemeIndex(items).Failure? <==> exists i :: 0 <= i < |items| && ' ' !in items[i].text
  {
    ThemeIndexFailsUnlessSpaced(items);
    AllSpacedEverywhere(items);
  }

  /** The error names the first text without a space. */
  lemma {:induction false} ThemeIndexFirstError(items: seq<ThemeItem>, i: nat)
    requires i < |items| && ' ' !in items[i].text
    requires forall j :: 0 <= j < i ==> ' ' in items[j].text
    ensures ThemeIndex(items) == Failure(ThemeTextWithoutSpace(items[i].text))
  {
    var init := items[..|items| - 1];
    if i < |items| - 1 {
      ThemeIndexFirstError(init, i);
    } else {
      assert forall j :: 0 <= j < |init| ==> ' ' in init[j].text by {
        forall j | 0 <= j < |init| ensures ' ' in init[j].text {
          assert init[j] == items[j];
        }
      }
      ThemeIndexFails(init);
    }
  }

  /** One more item with a space extends a successful parse by one assignment. */
  lemma ThemeIndexExtend(items: seq<ThemeItem>, k: nat, d: Dict<string>, p: (string, string))
    requires k < |items| && ThemeIndex(items[..k]) == Success(d)
    requires SplitFirst(items[k].text, ' ') == Some(p)
    ensures ThemeIndex(items[..k + 1]) == Success(Set(d, p.0, p.1))
  {
    assert items[..k + 1][..k] == items[..k];
  }

  /** After a successful prefix, the first item without a space is the error of the whole
      parse. */
  lemma ThemeIndexStopsAt(items: seq<ThemeItem>, k: nat)
    requires k < |items| && ThemeIndex(items[..k]).Success? && ' ' !in items[k].text
    ensures ThemeIndex(items) == Failure(ThemeTextWithoutSpace(items[k].text))
  {
    ThemeIndexFails(items[..k]);
    forall j | 0 <= j < k ensures ' ' in items[j].text {
      assert items[..k][j] == items[j];
    }
    ThemeIndexFirstError(items, k);
  }

  /** When every text has a space, the result is the dict built from the split pairs, so
      a later item with the same codifier id overwrites the name of an earlier one. */
  lemma {:induction false} ThemeIndexPairs(items: seq<ThemeItem>)
    requires forall i :: 0 <= i < |items| ==> ' ' in items[i].text
    ensures ThemeIndex(items) == Success(FromPairs(ThemePairs(items)))
  {
    if |items| > 0 {
      var init := items[..|items| - 1];
      ThemeIndexPairs(init);
      assert ThemePairs(items)[..|items| - 1] == ThemePairs(init);
    }
  }

  /** The dict comprehension of `parse_and_save_all_problems`: the entries whose subject
      name is listed, in their order. */
  function KeepNamed(d: Dict<string>, names: seq<string>): (r: Dict<string>)
    ensures |r| <= |d|
    ensures forall e :: e in r <==> e in d && e.0 in names
  {
    if |d| == 0 then []
    else
      var init := KeepNamed(d[..|d| - 1], names);
      var last := d[|d| - 1];
      assert d == d[..|d| - 1] + [last];
      if last.0 in names then init + [last] else init
  }

  /** The subject restriction: an absent or empty list of names keeps every subject. */
  function FilterSubjects(d: Dict<string>, names: seq<string>): (r: Dict<string>)
    ensures names == [] ==> r == d
    ensures names != [] ==> forall e :: e in r <==> e in d && e.0 in names
  {
    if names == [] then d else KeepNamed(d, names)
  }

  /** Filtering keeps relative order: it distributes over concatenation. */
  lemma {:induction false} KeepNamedAppend(a: Dict<string>, b: Dict<string>, names: seq<string>)
    ensures KeepNamed(a + b, names) == KeepNamed(a, names) + KeepNamed(b, names)
  {
    if |b| == 0 {
      assert a + b == a;
    } else {
      var b' := b[..|b| - 1];
      assert (a + b)[..|a + b| - 1] == a + b';
      assert (a + b)[|a + b| - 1] == b[|b| - 1];
      KeepNamedAppend(a, b', names);
    }
  }

  /** Filtering a dict with unique keys leaves a dict with unique keys. */
  lemma {:induction false} KeepNamedUnique(d: Dict<string>, names: seq<string>)
    requires UniqueKeys(d)
    ensures UniqueKeys(KeepNamed(d, names))
  {
    if |d| > 0 {
      var init := d[..|d| - 1];
      var last := d[|d| - 1];
      assert UniqueKeys(init) by {
        forall i, j | 0 <= i < j < |init| ensures init[i].0 != init[j].0 {
          assert init[i] == d[i] && init[j] == d[j];
        }
      }
      KeepNamedUnique(init, names);
      var r := KeepNamed(init, names);
      if last.0 in names {
        forall i | 0 <= i < |r| ensures r[i].0 != last.0 {
          assert r[i] in init;
          var j :| 0 <= j < |init| && init[j] == r[i];
          assert d[j] == init[j];
        }
        assert Keys(r + [last]) == Keys(r) + [last.0];
      }
    }
  }
}
