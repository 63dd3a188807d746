/** The pairwise walk of `_parse_subject_problems_from_html`: which cards of a page become
    records. A card without an `id` is an orphan fragment; the card after it is taken
    instead and the pair that starts with that card is skipped. */
module CardPairing {
  import opened Wrappers
  import opened ProblemTypes
  import opened RecordBuilder

  /** The positions of the cards that become records, when the walk reaches the pair
      (cards[k], cards[k + 1]) with no skip pending. */
  function Emitted(cards: seq<Card>, k: nat): (r: seq<nat>)
    ensures forall j :: 0 <= j < |r| ==> k <= r[j] < |cards|
    decreases |cards| - k
  {
    if k + 1 >= |cards| then []
    else if cards[k].id.None? then [k + 1] + Emitted(cards, k + 2)
    else [k] + Emitted(cards, k + 1)
  }

  /** Emitted positions strictly increase: no card is emitted twice and document order
      is kept. */
  lemma {:induction false} EmittedIncreasing(cards: seq<Card>, k: nat)
    ensures forall i, j :: 0 <= i < j < |Emitted(cards, k)| ==> Emitted(cards, k)[i] < Emitted(cards, k)[j]
    decreases |cards| - k
  {
    if k + 1 < |cards| {
      if cards[k].id.None? {
        EmittedIncreasing(cards, k + 2);
      } else {
        EmittedIncreasing(cards, k + 1);
      }
    }
  }

  /** Each emitted position is either a card with an id that starts a pair, or the card
      right after an orphan. */
  predicate Justified(cards: seq<Card>, e: nat) {
    (e + 1 < |cards| && cards[e].id.Some?) || (1 <= e < |cards| && cards[e - 1].id.None?)
  }

  lemma {:induction false} EmittedJustified(cards: seq<Card>, k: nat)
    ensures forall j :: 0 <= j < |Emitted(cards, k)| ==> Justified(cards, Emitted(cards, k)[j])
    decreases |cards| - k
  {
    if k + 1 < |cards| {
      if cards[k].id.None? {
        EmittedJustified(cards, k + 2);
      } else {
        EmittedJustified(cards, k + 1);
      }
    }
  }

  /** The last card is emitted only when the card before it is an orphan. */
  lemma LastCardOnlyAfterOrphan(cards: seq<Card>)
    requires |cards| >= 2 && |cards| - 1 in Emitted(cards, 0)
    ensures cards[|cards| - 2].id.None?
  {
    EmittedJustified(cards, 0);
    var j :| 0 <= j < |Emitted(cards, 0)| && Emitted(cards, 0)[j] == |cards| - 1;
    assert Justified(cards, Emitted(cards, 0)[j]);
  }

  /** The converse of `EmittedJustified` for cards with an id: a card with an id that starts
      a pair at or after `k` is always taken, so only the last card of a page can be lost. */
  lemma {:induction false} NothingDroppedBeforeLast(cards: seq<Card>, k: nat, e: nat)
    requires k <= e && e + 1 < |cards| && cards[e].id.Some?
    ensures e in Emitted(cards, k)
    decreases |cards| - k
  {
    if cards[k].id.None? {
      if e > k + 1 {
        NothingDroppedBeforeLast(cards, k + 2, e);
      }
    } else if e > k {
      NothingDroppedBeforeLast(cards, k + 1, e);
    }
  }

  /** A page never yields as many records as it has cards. */
  lemma {:induction false} EmittedFewerThanCards(cards: seq<Card>, k: nat)
    requires k < |cards|
    ensures |Emitted(cards, k)| <= |cards| - 1 - k
    decreases |cards| - k
  {
    if k + 1 < |cards| {
      if cards[k].id.None? {
        if k + 2 < |cards| { EmittedFewerThanCards(cards, k + 2); }
      } else {
        EmittedFewerThanCards(cards, k + 1);
      }
    }
  }

  /** When every card has an id, the records come from exactly the cards k .. |cards| - 2
      in order: the last card of the page is never emitted. */
  lemma {:induction false} EmittedAllIds(cards: seq<Card>, k: nat)
    requires forall i :: 0 <= i < |cards| ==> cards[i].id.Some?
    requires k < |cards|
    ensures Emitted(cards, k) == seq(|cards| - 1 - k, i requires 0 <= i < |cards| - 1 - k => k + i)
    decreases |cards| - k
  {
    if k + 1 < |cards| {
      EmittedAllIds(cards, k + 1);
    }
  }

  /** Fewer than two cards give no pair and so no record; two cards that both have ids
      give one record, from the first. */
  lemma EmittedSmallPages(a: Card, b: Card)
    ensures Emitted([], 0) == [] && Emitted([a], 0) == []
    ensures a.id.Some? && b.id.Some? ==> Emitted([a, b], 0) == [0]
  {
  }

  /** `acc` in front of the records of `rest`, unless `rest` failed. */
  function Prepend(acc: seq<ProblemData>, rest: Result<seq<ProblemData>, Raised>): (r: Result<seq<ProblemData>, Raised>)
    ensures r.Success? <==> rest.Success?
    ensures r.Success? ==> r.value == acc + rest.value
    ensures r.Failure? ==> r == rest
  {
    match rest
    case Success(v) => Success(acc + v)
    case Failure(e) => rest
  }

  /** The records of the cards at `positions`, built in order; the first card without an
      id stops the page with its KeyError. */
  function BuildAll(ctx: PageContext, cards: seq<Card>, positions: seq<nat>): (r: Result<seq<ProblemData>, Raised>)
    requires forall j :: 0 <= j < |positions| ==> positions[j] < |cards|
    ensures r.Failure? <==> exists j :: 0 <= j < |positions| && cards[positions[j]].id.None?
    ensures r.Success? ==> |r.value| == |positions|
  {
    if positions == [] then Success([])
    else
      var tail := positions[1..];
      assert forall j :: 0 <= j < |tail| ==> tail[j] == positions[j + 1];
      match BuildRecord(ctx, cards[positions[0]])
      case Failure(e) => Failure(e)
      case Success(rec) =>
        var rest := BuildAll(ctx, cards, tail);
        assert rest.Failure? ==> exists j :: 0 <= j < |tail| && cards[tail[j]].id.None?;
        Prepend([rec], rest)
  }

  /** When the page does not fail, record j is the record of the card at position j. */
  lemma {:induction false} BuildAllRecords(ctx: PageContext, cards: seq<Card>, positions: seq<nat>)
    requires forall j :: 0 <= j < |positions| ==> positions[j] < |cards|
    requires BuildAll(ctx, cards, positions).Success?
    ensures forall j :: 0 <= j < |positions| ==>
              BuildAll(ctx, cards, positions).value[j] == BuildRecord(ctx, cards[positions[j]]).value
  {
    if positions != [] {
      var tail := positions[1..];
      assert forall j :: 0 <= j < |tail| ==> tail[j] == positions[j + 1];
      var rec := BuildRecord(ctx, cards[positions[0]]).value;
      var rest := BuildAll(ctx, cards, tail);
      assert rest.Success? && BuildAll(ctx, cards, positions).value == [rec] + rest.value;
      BuildAllRecords(ctx, cards, tail);
      forall j | 0 <= j < |positions|
        ensures BuildAll(ctx, cards, positions).value[j] == BuildRecord(ctx, cards[positions[j]]).value
      {
        if j > 0 {
          assert tail[j - 1] == positions[j];
        }
      }
    }
  }

  /** The records of one listing page. */
  function ParsePage(ctx: PageContext, cards: seq<Card>): (r: Result<seq<ProblemData>, Raised>)
    ensures r.Failure? <==> exists j :: 0 <= j < |Emitted(cards, 0)| && cards[Emitted(cards, 0)[j]].id.None?
    ensures r.Success? ==> |r.value| == |Emitted(cards, 0)|
  {
    BuildAll(ctx, cards, Emitted(cards, 0))
  }

  /** An orphan followed by the card "q001" yields one record, that of the second card,
      with problem id "001". */
  lemma OrphanThenCard(ctx: PageContext, orphan: string, html: string)
    ensures var cards := [Card(None, orphan, []), Card(Some("q001"), html, [])];
            && Emitted(cards, 0) == [1]
            && ParsePage(ctx, cards).Success?
            && |ParsePage(ctx, cards).value| == 1
            && ParsePage(ctx, cards).value[0].problemId == "001"
            && ParsePage(ctx, cards).value[0].conditionHtml == html
  {
    ProblemIdExamples();
  }

  /** Two orphans in a row stop the page: the card taken after the first orphan has no
      id itself, so building its record raises. */
  lemma TwoOrphansFail(ctx: PageContext, a: string, b: string, c: Card)
    ensures ParsePage(ctx, [Card(None, a, []), Card(None, b, []), c]) == Failure(MissingIdAttribute)
  {
    var cards := [Card(None, a, []), Card(None, b, []), c];
    assert Emitted(cards, 0) == [1];
  }
}
