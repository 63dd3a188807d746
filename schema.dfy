/** The relational schema of the current store: its tables as sequences of rows, the key
    and uniqueness declarations as a predicate over them, and the seeding of the exam
    kinds. Only what is declared is assumed: codifier themes and problem ids are not
    declared unique, and neither are subject names. */
module Schema {
  import opened Wrappers
  import Fipi

  /** `GiaTypeEnum`. */
  datatype GiaTypeEnum = Oge | Ege {
    function Value(): (r: string)
      ensures Fipi.ValidGiaType(r)
    {
      match this
      case Oge => "oge"
      case Ege => "ege"
    }
  }

  /** The enum's values are exactly the exam kinds the scraper accepts, one member per
      value. */
  lemma GiaTypeValuesAreExamKinds(value: string)
    ensures Fipi.ValidGiaType(value) <==> exists g: GiaTypeEnum :: g.Value() == value
    ensures forall g: GiaTypeEnum, h: GiaTypeEnum :: g.Value() == h.Value() ==> g == h
  {
    if value == "oge" {
      assert Oge.Value() == value;
    } else if value == "ege" {
      assert Ege.Value() == value;
    }
  }

  datatype GiaTypeRow = GiaTypeRow(id: int, name: string)
  datatype SubjectRow = SubjectRow(id: int, name: string, hash: string)
  datatype ThemeRow = ThemeRow(id: int, subjectId: Option<int>, codifierId: string, name: string)
  datatype ProblemRow = ProblemRow(id: int, problemId: string, url: string, conditionHtml: string, examNumber: Option<int>)
  datatype FileRow = FileRow(id: int, problemRowId: Option<int>, fileUrl: string)
  /** A row of an association table: the problem's row id and the other row's id. */
  datatype Link = Link(problemRowId: int, targetId: int)

  datatype Tables = Tables(
    giaTypes: seq<GiaTypeRow>,
    subjects: seq<SubjectRow>,
    themes: seq<ThemeRow>,
    problems: seq<ProblemRow>,
    files: seq<FileRow>,
    problemGiaTypes: seq<Link>,
    problemSubjects: seq<Link>,
    problemThemes: seq<Link>)

  predicate DistinctLinks(links: seq<Link>) {
    forall i, j :: 0 <= i < j < |links| ==> links[i] != links[j]
  }

  /** The declared primary keys and unique columns. */
  predicate KeysHold(t: Tables) {
    && (forall i, j :: 0 <= i < j < |t.giaTypes| ==> t.giaTypes[i].id != t.giaTypes[j].id && t.giaTypes[i].name != t.giaTypes[j].name)
    && (forall i, j :: 0 <= i < j < |t.subjects| ==> t.subjects[i].id != t.subjects[j].id && t.subjects[i].hash != t.subjects[j].hash)
    && (forall i, j :: 0 <= i < j < |t.themes| ==> t.themes[i].id != t.themes[j].id)
    && (forall i, j :: 0 <= i < j < |t.problems| ==> t.problems[i].id != t.problems[j].id)
    && (forall i, j :: 0 <= i < j < |t.files| ==> t.files[i].id != t.files[j].id)
    && DistinctLinks(t.problemGiaTypes)
    && DistinctLinks(t.problemSubjects)
    && DistinctLinks(t.problemThemes)
  }

  const SeedRows: seq<GiaTypeRow> := [GiaTypeRow(0, Oge.Value()), GiaTypeRow(1, Ege.Value())]

  /** The tables after `GiaType.insert_data`: the exam-kind table emptied and refilled with
      its two rows; no other table is touched. */
  function Seeded(t: Tables): (r: Tables)
    ensures r.giaTypes == [GiaTypeRow(0, "oge"), GiaTypeRow(1, "ege")]
    ensures r.(giaTypes := t.giaTypes) == t
  {
    t.(giaTypes := SeedRows)
  }

  class Database {
    var tables: Tables

    constructor (tables: Tables)
      ensures this.tables == tables
    {
      this.tables := tables;
    }

    /** `GiaType.insert_data`: delete every exam-kind row, add the two seeds, commit. */
    method InsertGiaTypeData()
      modifies this
      ensures tables == Seeded(old(tables))
    {
      tables := tables.(giaTypes := []);
      tables := tables.(giaTypes := tables.giaTypes + [GiaTypeRow(0, GiaTypeEnum.Oge.Value())]);
      tables := tables.(giaTypes := tables.giaTypes + [GiaTypeRow(1, GiaTypeEnum.Ege.Value())]);
    }
  }

  /** Seeding keeps the declared keys, whatever the exam-kind table held before. */
  lemma SeedKeepsKeys(t: Tables)
    requires KeysHold(t.(giaTypes := []))
    ensures KeysHold(Seeded(t))
  {
  }

  /** Seeding twice leaves what seeding once left. */
  lemma SeedIdempotent(t: Tables)
    ensures Seeded(Seeded(t)) == Seeded(t)
  {
  }

  /** A problem, gia-type, subject or theme link can be stored only once. */
  lemma LinkOnlyOnce(links: seq<Link>, l: Link)
    requires DistinctLinks(links) && l in links
    ensures !DistinctLinks(links + [l])
  {
    var i :| 0 <= i < |links| && links[i] == l;
    assert (links + [l])[i] == (links + [l])[|links|];
  }

  /** Nothing in the declarations stops two themes of one subject from sharing a codifier
      id, two problems from sharing a problem id, or two subjects from sharing a name. */
  lemma UndeclaredUniquenessAdmitted()
    ensures var t := Tables(
              [], [SubjectRow(1, "s", "h1"), SubjectRow(2, "s", "h2")],
              [ThemeRow(1, Some(1), "1.1", "a"), ThemeRow(2, Some(1), "1.1", "b")],
              [ProblemRow(1, "0A1B", "u", "c", None), ProblemRow(2, "0A1B", "u", "c", None)],
              [], [], [], []);
            KeysHold(t)
  {
  }
}
