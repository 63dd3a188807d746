# FipiBankClassification ingestion core, in Dafny

This project models the part of FipiBankClassification that collects exam problems from the
FIPI open question bank. That part has two stages:

- the scraper `FipiBankClient`, in two revisions: the current one under `src/parse/` and an
  older one under `parse/`;
- the storage helpers that follow it.

The scraper reads the subjects from the bank's front page. For each subject it reads the
menu of codifier themes and fetches one listing page per theme. It then turns every card of
a listing page into a `ProblemData` record. The card walk repairs cards split into an
orphan fragment and its continuation. Each record is tagged with the theme of its page, and
the theme lists of records that share a problem id are merged.

The storage side has three parts:

- the existence-checked batch insert of the older store;
- the schema of the current store, with the seeding of its exam-kind table;
- the 2024 informatics exam specifier.

Two small utilities are modelled as well: `chunks` and the `Singleton` metaclass.

Modules:

| file | module | what it holds |
|---|---|---|
| `wrappers.dfy` | `Wrappers` | `Option`, `Result`, and `Raised`, the exceptions the code raises |
| `text.dfy` | `Text` | `lstrip`, `removeprefix`, `removesuffix`, `split(maxsplit=1)`, comma join and split |
| `ordered_dict.dfy` | `OrderedDict` | Python dicts as insertion-ordered association lists |
| `problem_types.dfy` | `ProblemTypes` | `ThemeData`, `ProblemData`, and a listing-page card |
| `fipi.dfy` | `Fipi` | exam kinds, endpoints, page size, listing query |
| `record_builder.dfy` | `RecordBuilder` | `_get_problem_data_from_tag` |
| `card_pairing.dfy` | `CardPairing` | the pairwise walk of `_parse_subject_problems_from_html` |
| `theme_aggregation.dfy` | `ThemeAggregation` | `_get_all_problem_themes_data` and the in-place theme overwrite |
| `index_parsing.dfy` | `IndexParsing` | `get_subject_ids`, `get_theme_names_and_ids`, the subject filter |
| `pipeline.dfy` | `Pipeline` | the subject loop of `parse_and_save_all_problems`, as written and corrected |
| `fipi_client.dfy` | `Client` | the class `FipiBankClient`: its fields, its methods, and their loops |
| `cli.dfy` | `Cli` | the 1-based subject selection of `main` |
| `problem_store.dfy` | `ProblemStore` | `save_problem`, `save_multiple_problems` |
| `schema.dfy` | `Schema` | the tables, their keys, `GiaType.insert_data` |
| `specifiers.dfy` | `Specifiers` | `_to_list`, `_format_list`, `informatics_specifier_2024` |
| `chunks.dfy` | `Chunks` | `chunks` |
| `singleton.dfy` | `Singleton` | `Singleton.__call__` |

The two scraper revisions share one model. `Fipi.Revision` names the revision, and the model
differs between them in exactly two places:

- the page size: 2**14 in the current revision, 2**12 in the older one;
- the trailing `"','"` of a captured picture path, which only the current revision strips.

The client is a class. Its fields are the exam kind and the three endpoint URLs. Each of its
methods is proved equal to a specification function in the modules above, and the lemmas
about those functions carry the properties.

Behaviours of the code that the model reproduces and a reader may not expect:

- A page of N cards does not yield one record per card with an id. The last card is dropped
  unless the card before it is an orphan (`CardPairing.EmittedAllIds`,
  `CardPairing.LastCardOnlyAfterOrphan`).
- A second orphan in a row is not stitched; building its record raises
  (`CardPairing.TwoOrphansFail`).
- The merge does not reduce a subject to one record per problem id. Every parsed record is
  kept, and a later record with the same id gets its themes computed from the already
  overwritten list, so it repeats themes (`ThemeAggregation.TwoThemesOneProblem`).
- The batch insert of `database/methods.py` checks only `problem_id` against stored rows. It
  does not look up or create subjects, themes or exam kinds.

The older scraper imports `ThemeData` from `parse/problem_data.py`, which does not define it,
and its `ProblemData` has no `themes` field. The model gives both revisions the record of
`src/problem_types.py`.

## Model

| member | source | states |
|---|---|---|
| Fipi.PageSizeLimit | parse/__main__.py:24 | the page size is 16384 (2**14) in the current revision and 4096 (2**12) in the older one |
| Fipi.EndpointsFor | src/parse/__main__.py:47-49 | index and questions URLs both extend the base URL, by "/index.php" and "/questions.php" |
| Fipi.EndpointsDistinguishKinds | src/parse/__main__.py:47 | two exam kinds with the same endpoints are the same kind |
| Fipi.ListingParams | src/parse/__main__.py:191-196 | four parameters in order: search=1, pagesize=the revision's limit, proj=hash, theme=a string |
| Fipi.ListingThemeNamesIds | src/parse/__main__.py:195 | `theme` is empty when no ids are given, and splitting it at commas gives back exactly the ids otherwise |
| RecordBuilder.ProblemIdOf | src/parse/__main__.py:160 | the problem id never starts with 'q', and some number of 'q's in front of it gives the id attribute back |
| RecordBuilder.TrimCapture | src/parse/__main__.py:172 | trimming never lengthens a captured path |
| RecordBuilder.QuestionUrl | src/parse/__main__.py:176 | the URL starts with questions URL + "?search=1&proj=" + hash + "&qid=" |
| RecordBuilder.BuildRecord | src/parse/__main__.py:157-186 | fails with a missing-id error exactly when the card has no id; otherwise the id, URL, subject, exam kind and condition HTML come from the card and context, themes are empty, and there is one file URL per capture, in order, each the joined trimmed capture |
| RecordBuilder.BuildRecordFrom | src/parse/__main__.py:168-186 | a card with an id whose file URLs are its joined trimmed captures, in order, builds exactly that record |
| RecordBuilder.QuestionUrlIdentifiesProblem | src/parse/__main__.py:176 | two problem ids of one subject with the same URL are equal |
| RecordBuilder.CurrentTrimUndoesDecoration | src/parse/__main__.py:171-173 | the current revision recovers p from "../../" + p + "','" |
| RecordBuilder.LegacyTrimKeepsSuffix | parse/__main__.py:165 | the older revision leaves p + "','" from "../../" + p + "','" |
| RecordBuilder.TrimRemovesOnePrefix | src/parse/__main__.py:172 | only one leading "../../" is removed |
| RecordBuilder.ProblemIdExamples | src/parse/__main__.py:160 | "q001" gives "001"; "qq7q" gives "7q" |
| CardPairing.Emitted | src/parse/__main__.py:207-219 | every position the walk takes lies on the page, at or after the pair it starts from |
| CardPairing.EmittedIncreasing | src/parse/__main__.py:207-219 | taken positions strictly increase: no card twice, document order kept |
| CardPairing.EmittedJustified | src/parse/__main__.py:213-219 | every taken card starts a pair and has an id, or follows an orphan |
| CardPairing.LastCardOnlyAfterOrphan | src/parse/__main__.py:209-217 | the last card is taken only when the card before it has no id |
| CardPairing.NothingDroppedBeforeLast | src/parse/__main__.py:209-219 | every card with an id that is not the last card is taken: only the last card can be lost |
| CardPairing.EmittedFewerThanCards | src/parse/__main__.py:209 | a page of n cards yields at most n − 1 records |
| CardPairing.EmittedAllIds | src/parse/__main__.py:209-223 | when every card has an id, the taken cards are exactly positions 0 .. n − 2, in order |
| CardPairing.EmittedSmallPages | parse/__main__.py:201 | zero or one card yields nothing; two cards with ids yield the first |
| CardPairing.BuildAll | src/parse/__main__.py:220-223 | fails exactly when some taken card has no id; otherwise one record per taken card |
| CardPairing.BuildAllRecords | src/parse/__main__.py:220-223 | on success, record j is the record built from the card at taken position j, in order |
| CardPairing.ParsePage | src/parse/__main__.py:200-224 | fails exactly when a card the walk takes has no id; otherwise one record per taken card |
| CardPairing.OrphanThenCard | src/parse/__main__.py:213-217 | an orphan followed by card "q001" yields one record, with id "001" and that card's HTML |
| CardPairing.TwoOrphansFail | parse/__main__.py:205-214 | two orphans in a row raise the missing-id error |
| ThemeAggregation.ThemesOfAppend | src/parse/__main__.py:231-233 | collecting over a + b is collecting over a, then over b |
| ThemeAggregation.ThemesOfLength | src/parse/__main__.py:226-234 | the collected length is the sum of the matching records' theme counts: no deduplication |
| ThemeAggregation.ThemesOfMembership | src/parse/__main__.py:231-233 | a theme is collected exactly when a record with that id carries it |
| ThemeAggregation.ThemesOfNoMatch | src/parse/__main__.py:232 | no record with the id gives no themes |
| ThemeAggregation.WithTheme | src/parse/__main__.py:118-121 | every record of a page gets exactly the page's one theme and nothing else changes |
| ThemeAggregation.MergedUpToAhead | src/parse/__main__.py:125-129 | records after the current one are not yet touched |
| ThemeAggregation.MergedUpToBehind | src/parse/__main__.py:125-129 | record j is written by iteration j only |
| ThemeAggregation.MergedKeepsRest | src/parse/__main__.py:129 | the overwrite changes only `themes` |
| ThemeAggregation.MergedThemes | src/parse/__main__.py:125-129 | record i ends with the themes of its id over the already overwritten records before it, then over the untouched ones from it on |
| ThemeAggregation.FirstOccurrenceGetsAllThemes | src/parse/__main__.py:125-129 | the first record with an id ends with the themes of all records with that id, in list order |
| ThemeAggregation.DistinctIdsKeepThemes | src/parse/__main__.py:125-129 | with distinct ids the overwrite loop changes nothing |
| ThemeAggregation.OnlyRecordWithId | src/parse/__main__.py:226-234 | a record whose id is unique collects exactly its own themes |
| ThemeAggregation.ThemesOfDropUnmatched | src/parse/__main__.py:231-233 | leading records with other ids do not contribute |
| ThemeAggregation.TwoThemesOneProblem | src/parse/__main__.py:118-129 | one problem on the pages of themes t1 and t2 ends as [t1, t2] and [t1, t2, t2] |
| IndexParsing.SubjectHash | src/parse/__main__.py:55 | the hash is the id attribute after its first two characters; it is empty when the attribute is missing or has at most two characters |
| IndexParsing.SubjectPairs | src/parse/__main__.py:55 | one (stripped text, hash) pair per exam card, in page order |
| IndexParsing.SubjectIdsLastWins | src/parse/__main__.py:55 | the dict has unique keys, and a name maps to the hash of its last card |
| IndexParsing.SubjectIdsOnlyCardNames | src/parse/__main__.py:55 | a name no card carries is not a key |
| IndexParsing.NonHeaderItems | src/parse/__main__.py:63-67 | exactly the items whose class does not contain "dropdown-header" are kept |
| IndexParsing.NonHeaderItemsAppend | src/parse/__main__.py:63-67 | the filter keeps menu order and multiplicity: filtering a + b is filtering a, then b |
| IndexParsing.NonHeaderItemsOne | src/parse/__main__.py:63-67 | a header item is dropped and any other item is kept once |
| IndexParsing.ThemePairs | src/parse/__main__.py:69-70 | each text is id + " " + name, with no space in the id |
| IndexParsing.ThemeIndexStep | src/parse/__main__.py:68-71 | one more item fails exactly when the loop had failed or its text has no space |
| IndexParsing.ThemeIndexExtend | src/parse/__main__.py:68-71 | after a successful prefix, an item with a space sets its split id to its name in the dict so far |
| IndexParsing.ThemeIndexStopsAt | src/parse/__main__.py:70 | after a successful prefix, the first item without a space is the error of the whole parse |
| IndexParsing.ThemeIndexFails | src/parse/__main__.py:70 | the theme parse fails exactly when some text has no space |
| IndexParsing.ThemeIndexFirstError | src/parse/__main__.py:68-70 | the error names the first text without a space |
| IndexParsing.ThemeIndexPairs | src/parse/__main__.py:68-72 | otherwise the result is the dict of the split pairs, so a later codifier id overwrites an earlier one |
| IndexParsing.KeepNamed | parse/__main__.py:72-77 | an entry is kept exactly when its name is requested |
| IndexParsing.FilterSubjects | src/parse/__main__.py:77-82 | no names keeps every subject; otherwise exactly the requested ones |
| IndexParsing.KeepNamedAppend | src/parse/__main__.py:78-82 | the filter keeps relative order |
| IndexParsing.KeepNamedUnique | src/parse/__main__.py:78-82 | filtering keeps keys unique |
| OrderedDict.Set | src/parse/__main__.py:71 | `data[k] = v`: k now maps to v, other keys are unchanged, a new key goes last |
| OrderedDict.FromPairsLastWins | src/parse/__main__.py:55 | a dict built from pairs maps each key to its last value |
| Text.SplitFirst | src/parse/__main__.py:70 | no result exactly when there is no separator; otherwise head + sep + tail is the text, with no separator in the head |
| Text.LStrip | src/parse/__main__.py:160 | the result does not start with c, and some copies of c in front of it give the input back |
| Pipeline.ConcatFails | src/parse/__main__.py:107-130 | a loop of parses fails exactly when one step does, with the first failure, every earlier step having succeeded |
| Pipeline.ConcatFailureSticks | src/parse/__main__.py:112-122 | after a failure, longer runs end with the same failure |
| Pipeline.PageResultsAt | src/parse/__main__.py:112-121 | the k-th step of the zip loop is the k-th page parsed and tagged with the k-th theme |
| Pipeline.AsWrittenResultsAt | src/parse/__main__.py:110-114 | as written, subject j is parsed from the pages that start at the front of the fetched list |
| Pipeline.CorrectedResultsAt | src/parse/__main__.py:110-114 | corrected, subject j is parsed from the pages that start at its own offset |
| Pipeline.PagesFor | src/parse/__main__.py:92-99 | one page per theme of the subject |
| Pipeline.FetchedUpTo | src/parse/__main__.py:88-101 | the fetched pages of the first j subjects number their themes' total |
| Pipeline.FetchedAt | src/parse/__main__.py:88-101 | subject j's k-th theme page sits at j's offset + k in the fetched list |
| Pipeline.OffsetMonotone | src/parse/__main__.py:89-99 | offsets grow with the subject index |
| Pipeline.AsWrittenPairsFirstSubjectPages | src/parse/__main__.py:112-114 | as written, every subject's k-th theme is paired with the page fetched for the first subject's k-th theme |
| Pipeline.CorrectedPairsOwnPages | src/parse/__main__.py:112-114 | corrected, subject j's k-th theme is paired with the page fetched for subject j and that theme |
| Pipeline.FirstSubjectAgrees | src/parse/__main__.py:107-114 | the first subject is parsed the same in both loops, and a one-subject run is the same |
| Pipeline.SubjectKeepsEveryRecord | src/parse/__main__.py:125-130 | a subject contributes one record per parsed record: no deduplication |
| Pipeline.TwoCardPage | src/parse/__main__.py:209-223 | a page of two cards with ids yields the first card's record only |
| Pipeline.SingleThemeSubject | src/parse/__main__.py:111-130 | a one-theme subject whose page has two cards with ids yields one record tagged with that theme |
| Pipeline.SecondSubjectReadsFirstSubjectPages | src/parse/__main__.py:112-114 | as written, in a two-subject example the second subject records the first subject's problem |
| Pipeline.SecondSubjectReadsOwnPagesCorrected | src/parse/__main__.py:112-114 | corrected, the second subject records its own problem |
| Pipeline.MenusParsedFails | src/parse/__main__.py:89-91 | the fan-out fails exactly when one subject's theme menu does |
| Pipeline.MenusParsedFailureSticks | src/parse/__main__.py:88-91 | a failed menu ends the fan-out with that failure |
| Pipeline.SubjectProblemsReadsZippedPages | src/parse/__main__.py:112-114 | a subject's records depend only on the first page per theme it is zipped with |
| Pipeline.CorrectedSubjectOwnPages | src/parse/__main__.py:107-130 | corrected, over the fetched pages, subject j is parsed from exactly the pages fetched for its own themes |
| Pipeline.CorrectedResultsOwnPages | src/parse/__main__.py:107-130 | corrected, the subject loop over the fetched pages is the reference loop that gives every subject its own pages |
| Pipeline.RunCorrectedUsesOwnPages | src/parse/__main__.py:74-130 | the corrected run fails with the fan-out error exactly when some selected subject's menu fails; otherwise it is the reference loop over every subject's own pages |
| Client.FipiBankClient.Blank | src/parse/__main__.py:30-32 | before `__init__`, the URL class attributes are empty |
| Client.FipiBankClient.Open | src/parse/__main__.py:34-36 | construction fails with a ValueError exactly for kinds other than "oge"/"ege"; otherwise the client holds the kind and that kind's URLs |
| Client.FipiBankClient.SetGiaType | src/parse/__main__.py:44-49 | fails exactly for an invalid kind and keeps the URLs; otherwise sets the kind's URLs; never changes the stored kind |
| Client.FipiBankClient.ThemeNamesAndIds | src/parse/__main__.py:57-72 | the loop's dict is the theme parse of the non-header items |
| Client.FipiBankClient.ProblemDataFromTag | src/parse/__main__.py:157-186 | the loop over captures builds the card's record |
| Client.FipiBankClient.TrimmedPath | src/parse/__main__.py:171-173 | the prefix and, in the current revision, suffix removal give the revision's trimmed capture |
| Client.FipiBankClient.ParseSubjectProblemsFromHtml | src/parse/__main__.py:200-224 | the skip-flag loop yields the page's records |
| Client.FipiBankClient.AllProblemThemesData | src/parse/__main__.py:226-234 | the extend loop collects the themes of the id |
| Client.FipiBankClient.MergeThemes | src/parse/__main__.py:125-129 | the in-place overwrite on an array leaves the merged list |
| Client.FipiBankClient.TagWithTheme | src/parse/__main__.py:118-121 | the in-place tagging leaves every record with the page's theme |
| Client.FipiBankClient.PageRecordsOf | src/parse/__main__.py:115-121 | one page parsed and tagged |
| Client.FipiBankClient.AttributePages | src/parse/__main__.py:111-122 | the zip loop's list is the attributed pages, or the first failure |
| Client.FipiBankClient.AttributePageAt | src/parse/__main__.py:112-122 | one zip step extends the loop's list by the next page, or ends in the loop's first failure |
| Client.FipiBankClient.ParseSubject | src/parse/__main__.py:110-130 | attribution, then the in-place merge |
| Client.FipiBankClient.CollectPages | src/parse/__main__.py:92-99 | one page per theme, in theme order |
| Client.FipiBankClient.FetchSubject | src/parse/__main__.py:89-99 | fails exactly when the subject's menu does; otherwise its themes and its pages |
| Client.FipiBankClient.FetchPages | src/parse/__main__.py:88-101 | fails exactly when some menu does, with the first failure; otherwise every subject's pages in order, and each hash mapped to its themes |
| Client.FipiBankClient.ParseAllProblems | src/parse/__main__.py:74-130 | the whole run as written: filter, fan-out, subject loop |
| Client.FipiBankClient.SubjectLoop | src/parse/__main__.py:107-130 | the subject loop as written |
| Client.FipiBankClient.ParseSubjectAt | src/parse/__main__.py:110-122 | subject j parsed from its own pages |
| Client.FipiBankClient.SubjectLoopOwnPages | src/parse/__main__.py:107-130 | the corrected subject loop |
| Client.FipiBankClient.AppendSubjectAt | src/parse/__main__.py:107-130 | one subject step of the corrected loop extends the list by subject j, or ends in the loop's failure |
| Client.FipiBankClient.ParseAllProblemsOwnPages | src/parse/__main__.py:74-130 | the whole run with the corrected subject loop |
| Client.ThemesByHashLookup | src/parse/__main__.py:91 | every subject's hash is in `subject_themes_data` and maps to its themes |
| Client.PendingStep | src/parse/__main__.py:209-223 | one pair of the walk: the taken card's record is appended, and the rest follows |
| Cli.SelectSubjects | src/parse/__main__.py:294-297 | at most one subject per number, each from the list |
| Cli.SelectAllInRange | src/parse/__main__.py:294-297 | with every number in range, the k-th selected subject is the one listed under the k-th number |
| Cli.SelectIgnoresOutOfRange | src/parse/__main__.py:296 | an out-of-range number changes nothing |
| Cli.SelectMembership | src/parse/__main__.py:295-297 | a subject is selected exactly when some in-range number names it |
| Cli.SelectRepeats | src/parse/__main__.py:294-297 | typing the same in-range number twice selects that subject twice |
| ProblemStore.Unstored | database/methods.py:24-29 | a record survives exactly when it is in the batch and its id is not stored |
| ProblemStore.ProblemTable.Exists | database/methods.py:26-28 | the query finds a row exactly when some stored row has the id |
| ProblemStore.ProblemTable.SaveMultipleProblems | database/methods.py:22-31 | the stored rows followed by the survivors, in batch order |
| ProblemStore.ProblemTable.SaveProblem | database/methods.py:9-19 | the table is unchanged; the call raises exactly when the id is not stored, where `insert` is given a row object |
| ProblemStore.ProblemTable.constructor | database/models.py:18-27 | a table holding the given rows |
| ProblemStore.SaveTwiceAddsNothing | database/methods.py:22-31 | saving the same batch again adds nothing |
| ProblemStore.AllStoredNothingNew | database/methods.py:26-29 | a batch of stored ids adds nothing |
| ProblemStore.StoredStaysStored | database/methods.py:30 | stored ids stay stored |
| ProblemStore.BatchDuplicatesBothInserted | database/methods.py:24-30 | two new records with one id in one batch are both inserted |
| ProblemStore.OtherSubjectSkipped | database/methods.py:26 | a record of another subject with a stored id is skipped |
| ProblemStore.UnstoredAppend | database/methods.py:25-29 | the filter keeps batch order |
| Schema.GiaTypeEnum.Value | src/database/models.py:17-19 | each value is an exam kind the scraper accepts |
| Schema.GiaTypeValuesAreExamKinds | src/database/models.py:17-19 | a string is a value of some member exactly when it is an exam kind the scraper accepts, and distinct members have distinct values |
| Schema.Seeded | src/database/models.py:33-38 | the exam-kind table becomes exactly (0, "oge"), (1, "ege"), and no other table changes |
| Schema.Database.InsertGiaTypeData | src/database/models.py:33-38 | delete, add the two rows, commit: the seeded tables |
| Schema.Database.constructor | src/database/models.py:113-118 | a store holding the given tables |
| Schema.SeedKeepsKeys | src/database/models.py:29-30 | seeding keeps every declared key |
| Schema.SeedIdempotent | src/database/models.py:33-38 | seeding twice equals seeding once |
| Schema.LinkOnlyOnce | src/database/models.py:99-110 | a problem–theme (or other) link already present cannot be stored again |
| Schema.UndeclaredUniquenessAdmitted | src/database/models.py:45-62 | duplicate subject names, codifier ids within a subject, and problem ids satisfy the declared keys |
| Specifiers.ToList | src/specifiers/subject_specifiers.py:63-68 | a string gives [s], a list itself, anything else the ValueError |
| Specifiers.FormatList | specifiers/subject_specifiers.py:101-102 | fails exactly when an entry is neither; otherwise same length and entry i is `_to_list` of entry i |
| Specifiers.Range | specifiers/subject_specifiers.py:116 | `range(lo, hi)` |
| Specifiers.ZipProblems | src/specifiers/subject_specifiers.py:85-90 | as long as the shortest input, entry i built from the i-th of each |
| Specifiers.InformaticsSpecifier2024Shape | specifiers/subject_specifiers.py:105-121 | 27 problems numbered 1..27, each with `_to_list` of its content and requirement entries |
| Specifiers.InformaticsExam27 | src/specifiers/subject_specifiers.py:75-92 | exam 27 checks content ["3.2", "3.16"] and requirement ["2.10"] |
| Chunks.Chunks | utils/__main__.py:7-8 | a zero step raises; a negative step gives no chunks |
| Chunks.ChunkCountCovers | utils/__main__.py:8 | ceil(len / n) chunks; empty input gives none |
| Chunks.ChunkLengths | utils/__main__.py:8 | every chunk but the last has n elements; the last has 1..n |
| Chunks.ConcatPrefix | utils/__main__.py:8 | the first k chunks are the first k·n elements |
| Chunks.ChunksConcat | utils/__main__.py:8 | the chunks concatenated give the input back |
| Singleton.Step | misc/singleton.py:4-8 | a truthy stored instance is returned and kept; otherwise the new one is stored and returned |
| Singleton.SingletonClass.Call | misc/singleton.py:4-8 | one call is one step |
| Singleton.SingletonClass.constructor | misc/singleton.py:2 | a class not called yet has no instance |
| Singleton.CachedStaysCached | misc/singleton.py:5-6 | once cached, every later call returns the cached instance |
| Singleton.FirstInstanceReturnedAlways | misc/singleton.py:4-8 | every call returns the first instance when it is truthy |
| Singleton.FalsyRebuiltEveryCall | misc/singleton.py:5 | falsy instances are rebuilt on every call |

## Left out

- Network access is not modelled. This covers `_get` with its retries and random sleeps, the
  aiohttp session, and `parse/make_request.py`.
- What the requests would return becomes a parameter of the client methods:
  - the exam cards of the front page;
  - `menus`, the parsed theme dict (or error) of each subject's index page;
  - `pageOf`, the cards of each listing page.
- `Client.FipiBankClient.ParseAllProblems` and `ParseAllProblemsOwnPages` take each subject's
  menu already parsed (`menus`) rather than its raw menu items. The parse of one menu is
  modelled separately by `ThemeNamesAndIds`.
- The asyncio fan-out (TaskGroup, gather) is modelled as a sequential loop. The page order is
  the order in which the tasks were created.
- `Pipeline.MenusParsed` gives a failing menu's bare error for both revisions. The current
  revision's `asyncio.TaskGroup` would wrap it in an ExceptionGroup; only the older
  revision's `gather` re-raises it unwrapped.
- HTML parsing by selectolax, including `insert_before`, is not modelled. A card is its id
  attribute, its HTML and its script captures. Moving the orphan's markup into the next card
  is library behaviour; the model keeps the next card's HTML as given.
- `css_first("div.qblock")` on a card is taken to find the card itself.
- The picture-path regular expression is not modelled; its captures are input.
- `urljoin` is an uninterpreted function of the client.
- `get_subject_ids` on an `id` attribute without a value is not modelled: the library returns
  None there, and slicing it raises.
- The theme-menu filter on a `class` attribute without a value is not modelled. The library
  returns None there, and the `"dropdown-header" not in ...` test raises TypeError, which would
  fail the whole menu parse. `IndexParsing.ThemeItem.cls` is None only for an absent attribute,
  which the code reads as "".
- `ProblemStore.ProblemTable.SaveProblem`: the raise for a new id follows SQLAlchemy's
  `insert()`, which accepts a table or mapped class and rejects a row object. The library's
  coercion is not modelled; the raise is its single constructor `InsertTargetNotTable`.
- `save_subject_problems` is not part of this model, and neither is
  `database/methods/insert.py`.
- The SQLAlchemy engine, sessions, `register_models`, foreign keys and string lengths are not
  modelled. The schema is its key declarations over rows.
- The command line's prompting and echoing are not modelled, and neither is its parsing of the
  typed numbers (a ValueError there exits). The selection starts from the parsed integers.
- The web UI is not modelled.
- The `__main__` query block of `specifiers/subject_specifiers.py` is not modelled, and neither
  is its unused theme-id table.
- Printing, timing and tqdm are not modelled.
- `Singleton` keeps `_instance` on the class that was called. The model gives each class its
  own slot, so subclasses that inherit an already set attribute are not modelled.
- `RecordBuilder.TrimCapture`: its own contract only bounds the length. What it removes is
  stated by `CurrentTrimUndoesDecoration`, `LegacyTrimKeepsSuffix` and `TrimRemovesOnePrefix`.

## Findings

| source | as written | input that shows it | evidently intended | confidence | as-written member | corrected member |
|---|---|---|---|---|---|---|
| src/parse/__main__.py:112-114 (also parse/__main__.py:106-108) | each subject zips `pages_htmls` from its first page, so every subject after the first is parsed from pages fetched for earlier subjects and tagged with its own themes | subjects A (hash h1) and B (hash h2), one theme "1.1" each; A's page holds cards q1, q9 and B's page holds q2, q9: B records problem "1" | subject j is zipped with its own pages, which start after the pages of the subjects before it | high; not executed | Pipeline.SecondSubjectReadsFirstSubjectPages | Pipeline.CorrectedPairsOwnPages |

The corrected loop is `Pipeline.AllProblemsCorrected`, run by
`Client.FipiBankClient.ParseAllProblemsOwnPages`. The proof that it pairs each theme with its
own page is `Pipeline.CorrectedPairsOwnPages` and `Pipeline.RunCorrectedUsesOwnPages`. The
example run is `Pipeline.SecondSubjectReadsOwnPagesCorrected`.
