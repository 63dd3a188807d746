/** The problem table of the older store and its two insertion routines. A problem counts
    as already stored when some row has the same `problem_id`; nothing else is compared. */
module ProblemStore {
  import opened Wrappers

  /** A row of `fipibank_problems`, without the autoincremented key. */
  datatype ProblemRow = ProblemRow(
    problemId: string,
    subject: string,
    url: string,
    giaType: string,
    conditionHtml: string,
    conditionImageUrls: Option<string>)

  /** `select ... where problem_id == id` finds a row. */
  predicate Stored(rows: seq<ProblemRow>, id: string) {
    exists j :: 0 <= j < |rows| && rows[j].problemId == id
  }

  /** The batch members whose id no stored row has, in batch order. The batch itself is
      not consulted: two new members with one id both survive. */
  function Unstored(rows: seq<ProblemRow>, batch: seq<ProblemRow>): (r: seq<ProblemRow>)
    ensures |r| <= |batch|
    ensures forall p :: p in r <==> p in batch && !Stored(rows, p.problemId)
  {
    if |batch| == 0 then []
    else
      var init := Unstored(rows, batch[..|batch| - 1]);
      var last := batch[|batch| - 1];
      assert batch == batch[..|batch| - 1] + [last];
      if Stored(rows, last.problemId) then init else init + [last]
  }

  class ProblemTable {
    var rows: seq<ProblemRow>

    constructor (rows: seq<ProblemRow>)
      ensures this.rows == rows
    {
      this.rows := rows;
    }

    /** The existence query: a scan of the stored rows for the id. */
    method Exists(id: string) returns (found: bool)
      ensures found <==> Stored(rows, id)
    {
      found := false;
      var j := 0;
      while j < |rows|
        invariant 0 <= j <= |rows|
        invariant found <==> exists i :: 0 <= i < j && rows[i].problemId == id
      {
        if rows[j].problemId == id {
          found := true;
        }
        j := j + 1;
      }
    }

    /** `save_multiple_problems`: each member checked against the stored rows, the
        survivors added together and committed. */
    method SaveMultipleProblems(batch: seq<ProblemRow>)
      modifies this
      ensures rows == old(rows) + Unstored(old(rows), batch)
    {
      var newProblems := [];
      var k := 0;
      while k < |batch|
        invariant 0 <= k <= |batch|
        invariant rows == old(rows)
        invariant newProblems == Unstored(rows, batch[..k])
      {
        var found := Exists(batch[k].problemId);
        if !found {
          newProblems := newProblems + [batch[k]];
        }
        assert batch[..k + 1][..k] == batch[..k];
        k := k + 1;
      }
      assert batch[..k] == batch;
      rows := rows + newProblems;
    }

    /** `save_problem`: the existence check runs; a stored id ends the call with nothing
        done. For a new id the statement is built with `insert(problem_data)`, whose
        argument is a row object where SQLAlchemy expects a table or mapped class, so
        building it raises before anything is executed. Either way the session is closed
        without a commit and the table keeps its rows. */
    method SaveProblem(problem: ProblemRow) returns (r: Result<(), Raised>)
      ensures rows == old(rows)
      ensures r.Failure? <==> !Stored(rows, problem.problemId)
      ensures r.Failure? ==> r.error == InsertTargetNotTable
    {
      var found := Exists(problem.problemId);
      if !found {
        return Failure(InsertTargetNotTable);
      }
      return Success(());
    }
  }

  /** Saving the same batch a second time adds nothing. */
  lemma SaveTwiceAddsNothing(rows: seq<ProblemRow>, batch: seq<ProblemRow>)
    ensures Unstored(rows + Unstored(rows, batch), batch) == []
  {
    var after := rows + Unstored(rows, batch);
    forall p | p in batch ensures Stored(after, p.problemId) {
      if Stored(rows, p.problemId) {
        var j :| 0 <= j < |rows| && rows[j].problemId == p.problemId;
        assert after[j] == rows[j];
      } else {
        assert p in Unstored(rows, batch);
        var j :| 0 <= j < |Unstored(rows, batch)| && Unstored(rows, batch)[j] == p;
        assert after[|rows| + j] == p;
      }
    }
    AllStoredNothingNew(after, batch);
  }

  /** A batch whose every id is stored adds nothing. */
  lemma {:induction false} AllStoredNothingNew(rows: seq<ProblemRow>, batch: seq<ProblemRow>)
    requires forall p :: p in batch ==> Stored(rows, p.problemId)
    ensures Unstored(rows, batch) == []
  {
    if |batch| > 0 {
      var init := batch[..|batch| - 1];
      assert forall p :: p in init ==> p in batch;
      AllStoredNothingNew(rows, init);
      assert batch[|batch| - 1] in batch;
    }
  }

  /** Stored rows are never lost: every id stored before is stored after. */
  lemma StoredStaysStored(rows: seq<ProblemRow>, batch: seq<ProblemRow>, id: string)
    requires Stored(rows, id)
    ensures Stored(rows + Unstored(rows, batch), id)
  {
    var j :| 0 <= j < |rows| && rows[j].problemId == id;
    assert (rows + Unstored(rows, batch))[j] == rows[j];
  }

  /** Two new records with one id in the same batch are both inserted. */
  lemma BatchDuplicatesBothInserted(rows: seq<ProblemRow>, p: ProblemRow, q: ProblemRow)
    requires p.problemId == q.problemId && !Stored(rows, p.problemId)
    ensures Unstored(rows, [p, q]) == [p, q]
  {
    assert [p, q][..1] == [p];
    assert [p][..0] == [];
  }

  /** The key is the problem id alone: a record of another subject whose id is already
      stored is skipped. */
  lemma OtherSubjectSkipped(stored: ProblemRow, p: ProblemRow)
    requires p.problemId == stored.problemId && p.subject != stored.subject
    ensures Unstored([stored], [p]) == []
  {
    assert [stored][0].problemId == p.problemId;
  }

  /** Filtering keeps batch order: it distributes over concatenation. */
  lemma {:induction false} UnstoredAppend(rows: seq<ProblemRow>, a: seq<ProblemRow>, b: seq<ProblemRow>)
    ensures Unstored(rows, a + b) == Unstored(rows, a) + Unstored(rows, b)
  {
    if |b| == 0 {
      assert a + b == a;
    } else {
      var b' := b[..|b| - 1];
      assert (a + b)[..|a + b| - 1] == a + b';
      assert (a + b)[|a + b| - 1] == b[|b| - 1];
      UnstoredAppend(rows, a, b');
    }
  }
}
