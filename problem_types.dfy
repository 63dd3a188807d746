/** The records the scraper passes between its stages. */
module ProblemTypes {
  import opened Wrappers

  datatype ThemeData = ThemeData(codifierId: string, name: string)

  /** One parsed problem; `themes` is the only field the pipeline overwrites. */
  datatype ProblemData = ProblemData(
    problemId: string,
    subjectName: string,
    subjectHash: string,
    url: string,
    conditionHtml: string,
    giaType: string,
    fileUrls: seq<string>,
    themes: seq<ThemeData>)

  /** A `div.qblock` element of a listing page, in document order: its `id` attribute (None
      when the element has none), its markup, and the paths captured from the
      `ShowPictureQ...('...')` calls of its script tags, in order of appearance. */
  datatype Card = Card(id: Option<string>, html: string, scriptCaptures: seq<string>)
}
