# DataHerb registry core, modelled in Dafny

This project models the in-memory core of the DataHerb Python package (`dataherb`). The modelled parts are:

- **The registry (`Flora`).** It is an ordered list of datasets (`Herb`s). It is loaded from a local JSON file or a remote URL. `add` refuses duplicate ids, `save` writes the metadata of every Herb, and there is a keyword search and a first-match lookup by id.
- **The Herb.** It covers construction, the datapackage fetch, the fuzzy search score and the text description. A data file of a Herb (`Leaf`) adds its download URL and its metadata.
- **Ranking and id filtering** (`dataherb/core/search.py`).
- **`flatten_dict`** (`dataherb/utils/data.py`).
- **The dataset metadata builder and its validation report** (`dataherb/parse/model_yaml.py`). The `MetaData` class of `dataherb/parse/model.py` is a copy of the same template, leaf generation and `append_leaf`. It is modelled once, by the same members.
- **The YAML front matter** of the MkDocs page written for a Herb (`dataherb/serve/save_mkdocs.py`).

Python's dynamic values are `Json.Value`. A dict is an insertion-ordered sequence of members, as Python dicts are:

- `d[k] = v` (`Json.Assign`) keeps an existing key in its place and appends a new one.
- `d.get(k)` (`Json.Get`) gives `Null` (Python `None`) for a missing key.
- `Json.Truthy` is Python truthiness.
- `Json.Elements` is what a `for` loop visits: list items, dict keys, or the characters of a string.

Every exception the code raises, and every builtin failure it runs into, is a constructor of `Errors.Exception`. Operations that can raise return a `Result` or an `Outcome`.

The outside world enters only as parameters:

- the HTTP helper (`Base.Fetch`: URL to status and JSON body);
- a local file's JSON document (`Registry.LocalFiles`);
- `os.path.isfile`, `os.stat` sizes and the first row of a CSV file (`ModelYaml.IsFile`, `Stat`, `CsvHeader`);
- the fuzzy scorer `token_set_ratio` (`Base.Scorer`, uninterpreted, returning a `real`);
- the YAML loader and dumper.

Each file follows one source module:

- `prelude.dfy`: `Wrappers` (Option, Result, Outcome, and `Traverse`, a map that stops at the first failure) and `Errors`.
- `json.dfy`: values, dict lookup and assignment, `str` and `repr`.
- `data.dfy`: `flatten_dict`.
- `base.dfy`: `Herb`, scoring and `Leaf`.
- `search.dfy`: ranking and id lookup.
- `flora.dfy`: the registry.
- `model_yaml.dfy`: the metadata template, leaves and validation.
- `save_mkdocs.dfy`: the front matter.

Each loop of the source is a Dafny method with invariants. The method is proved equal to a specification function, and that function's properties are proved as lemmas. Some examples:

- `FlattenDict` against `Flattened`;
- `SearchByKeywords` against `AtLeast(SortDesc(Scored(..)))`;
- `ValidateFields` against `FieldsCheck`;
- `GenerateMarkdownListMeta` against `ListMeta`.

Objects whose fields the code updates are classes:

- `Herb`: `update_datapackage` writes the metadata.
- `Flora`: `add` appends, and `save` writes a ghost map from path to saved document.
- `MetaData`: `append_leaf` grows the template.

Where the docstrings and the code differ, the model follows the code:

- The docstring of `search_by_keywords_in_flora` promises the "top 10". The code returns every entry over the threshold, and so does the model.

## Model

| member | source | states |
|---|---|---|
| Registry.Open | dataherb/flora.py:20-31 | a non-string argument raises; for a string, the registry opens exactly when loading succeeds, keeps the string as `flora_config`, and holds one fresh Herb per descriptor, in order, whose metadata is the loaded metadata and whose `id` and `name` are that metadata's; a load failure is the result |
| Registry.GetFlora | dataherb/flora.py:33-56 | the local document when the file exists, otherwise the remote one, where a status other than 200 raises; a document that cannot be iterated raises; otherwise one fresh Herb per descriptor, in order, whose metadata is the loaded metadata and whose `id` and `name` are that metadata's |
| Registry.BuildHerbs | dataherb/flora.py:53-54 | the comprehension succeeds iff every descriptor builds a Herb, and then gives one fresh Herb per descriptor, in order, carrying its loaded metadata, id and name; otherwise the first descriptor's failure is the result |
| Registry.BuildHerb | dataherb/flora.py:54 | `Herb(herb)` fails on a descriptor that is not a dict and on a failed datapackage fetch; otherwise the fresh Herb holds the built metadata and its id and name |
| Registry.LoadedMetaMeaning | dataherb/flora.py:53-54 | loading succeeds iff every descriptor is a dict whose Herb can be built, and then gives one metadata per descriptor, in descriptor order |
| Registry.LoadedMetaStep | dataherb/flora.py:54 | each more descriptor appends its Herb's metadata, or its failure becomes the result |
| Registry.LoadKeepsDuplicates | dataherb/flora.py:33-56 | no duplicate check at load time: a document listing one descriptor twice loads both |
| Registry.ReloadSaved | dataherb/flora.py:90-98 | loading the saved list of metadata (each with a truthy datapackage) gives back exactly that list |
| Registry.Flora.constructor | dataherb/flora.py:25-31 | the registry keeps the config string and the Herbs it was given, and nothing is saved yet |
| Registry.Flora.Save | dataherb/flora.py:80-98 | an empty registry fails on `flora[0]` and writes nothing; a Herb whose `str` raises in the loop's debug message makes the save fail with that error, and nothing is written; otherwise the list of every Herb's metadata, in registry order, is written to the given path or to `flora_config` |
| Registry.DescriptionsMeaning | dataherb/flora.py:91-93 | the loop's `str(h)` succeeds for the whole registry iff it does for every Herb; otherwise the first Herb whose `str` raises gives the error, a TypeError or AttributeError |
| Registry.SerializeHerbs | dataherb/flora.py:90-93 | the loop gives every Herb's metadata, in registry order, when every Herb's `str` can be formatted, and otherwise stops with the failure of the first Herb whose `str` raises |
| Registry.NamelessContributorBlocksSave | dataherb/core/base.py:116-117 | a Herb whose one contributor has no string "name" makes the descriptions of `save` fail with the join's TypeError |
| Registry.Flora.Add | dataherb/flora.py:58-78 | a MetaData or dict becomes a new Herb (a failed build raises), a Herb is used as is, anything else raises; an id already present raises and nothing changes; otherwise the Herb is appended iff its id is new, and unique ids stay unique; the save that follows writes the registry to `flora_config`, or raises the `str(h)` failure of `save`, and then the appended Herb stays and nothing is written |
| Registry.HasId | dataherb/flora.py:73-75 | the scan finds the id iff some Herb of the registry has it |
| Registry.Flora.Search | dataherb/flora.py:100-112 | the result is the ranking of the registry against the keywords with threshold 50, a lone string keyword wrapped into a list |
| Registry.ScoredUnwrapped | dataherb/flora.py:109-110 | wrapping a lone string keyword into a list changes no score |
| Registry.Flora.HerbMeta | dataherb/flora.py:114-131 | the metadata of the first Herb, in registry order, whose id matches, or None when none does |
| Registry.Flora.HerbById | dataherb/flora.py:133-153 | the first Herb, in registry order, whose id matches, or None |
| Base.InitialMetaMeaning | dataherb/core/base.py:24-33 | construction keeps every key but "datapackage"; a truthy datapackage keeps the descriptor as is; otherwise construction succeeds iff the fetch answers 200, and then stores the fetched body under "datapackage" |
| Base.InitialMetaIdempotent | dataherb/core/base.py:26-29 | building a Herb again from the metadata of a built Herb gives the same metadata, when the fetched datapackage was truthy |
| Base.Herb.constructor | dataherb/core/base.py:24-33 | the metadata is kept, and `datapackage_uri`, `datapackage`, `name`, `description`, `repository` and `id` are the descriptor's values (None when missing) |
| Base.Herb.UpdateDatapackage | dataherb/core/base.py:35-55 | on status 200 the body becomes `datapackage_meta` and the metadata's "datapackage", and is returned; on any other status the call fails and nothing changes |
| Base.NewHerb | dataherb/core/base.py:19-33 | `Herb(meta)` succeeds iff the initial metadata can be built; the new Herb holds that metadata and the descriptor's id and name |
| Base.Herb.SearchScore | dataherb/core/base.py:57-89 | the method computes `Score` of the Herb's metadata: the maximum of the scorer over keyword and flattened search-field pairs, or 0 |
| Base.KeywordsScores | dataherb/core/base.py:79-83 | the nested loops produce the scores of every keyword, in order, against every flattened value, in order |
| Base.RowScoresHas | dataherb/core/base.py:81-83 | every value's score against a keyword is in that keyword's row |
| Base.RowScoresFrom | dataherb/core/base.py:81-83 | every score in a keyword's row is the score of one of the values |
| Base.PairScoresHas | dataherb/core/base.py:79-83 | every (keyword, value) pair's score is among the collected scores |
| Base.PairScoresFrom | dataherb/core/base.py:79-83 | every collected score is the score of some (keyword, value) pair |
| Base.MaxIsUpperBound | dataherb/core/base.py:86-87 | `max` is at least every element |
| Base.MaxIsAttained | dataherb/core/base.py:86-87 | `max` is one of the elements |
| Base.ScoreIsBestPair | dataherb/core/base.py:79-89 | no pair scores above the score, some pair reaches it when there are keywords and values, and it is 0 when there are no keywords or no values |
| Base.ScoreBounded | dataherb/core/base.py:82-89 | with a scorer in [0, 100] the score is in [0, 100] |
| Base.ScoreIgnoresOtherKeys | dataherb/core/base.py:73-77 | setting a key that is not a search key leaves the score unchanged |
| Base.SearchFieldsIgnore | dataherb/core/base.py:73-75 | setting a key outside the search keys leaves the search fields unchanged |
| Base.SearchFieldsFromKeys | dataherb/core/base.py:73-75 | the search fields are exactly the metadata members whose key is a search key |
| Base.AuthorNames | dataherb/core/base.py:116-117 | the names exist iff every contributor is a dict with a string name; a contributor that is not a dict raises first, then a name that is not a string; the names are the contributors' names, in order |
| Base.HerbStringDefined | dataherb/core/base.py:114-123 | `str(herb)` succeeds iff the contributors are a list of dicts with string names, or iterate to nothing (empty string or dict) |
| Base.HerbStringShape | dataherb/core/base.py:118-123 | the description starts with the id line and ends with the contributor names joined by ", " |
| Base.LeafUrlMeaning | dataherb/core/base.py:137-139 | the URL is the raw-content host, the repository and "/master/" followed by the path; different paths give different URLs |
| Base.Leaf.constructor | dataherb/core/base.py:133-146 | URL as above; format, name, description and path are the leaf's values; decode defaults to "utf-8" |
| Base.Leaf.Metadata | dataherb/core/base.py:210-220 | a result exists iff the format is None or "json", and it is the leaf's own mapping |
| Json.Assign | dataherb/core/base.py:53 | after `d[k] = v`, `k` holds `v`, every other key keeps its value, and the key order is the old one with a new key at the end |
| Json.AssignUnique | dataherb/core/base.py:53 | assigning keeps every key unique |
| Search.SearchByKeywords | dataherb/core/search.py:1-34 | the loop scores every Herb once, in order; the result is the stable descending sort of those entries, filtered to a score of at least `min_score`; the `keys` parameter is accepted and never used (search.py:26 passes no keys), so the model has no such parameter |
| Search.ScoredStep | dataherb/core/search.py:22-28 | each loop step appends one entry for the next Herb |
| Search.ScoredEntries | dataherb/core/search.py:22-28 | entry i carries Herb i's id, Herb i itself and its `search_score` |
| Search.ScoreOfWrapped | dataherb/core/search.py:17-18 | wrapping the keywords in a list before scoring changes no score |
| Search.InsertContents | dataherb/core/search.py:30 | inserting adds exactly the inserted entry |
| Search.InsertSorted | dataherb/core/search.py:30 | inserting into a non-increasing sequence keeps it non-increasing |
| Search.InsertLowerBound | dataherb/core/search.py:30 | inserting adds one entry and keeps a lower bound shared by all entries |
| Search.InsertStable | dataherb/core/search.py:30 | the inserted entry goes after all entries of its score |
| Search.SortDescSorted | dataherb/core/search.py:30 | the sort is non-increasing in score |
| Search.SortDescPermutation | dataherb/core/search.py:30 | the sort is a permutation of its input |
| Search.SortDescStable | dataherb/core/search.py:30 | entries of equal score keep their relative order |
| Search.AtLeastContents | dataherb/core/search.py:32 | the filter keeps every entry scoring at least the threshold as often as it occurs, and no other |
| Search.AtLeastFrom | dataherb/core/search.py:32 | every kept entry is an input entry scoring at least the threshold |
| Search.AtLeastSorted | dataherb/core/search.py:32 | filtering keeps a non-increasing order |
| Search.AtLeastStable | dataherb/core/search.py:32 | filtering keeps the order of equal-score entries |
| Search.RankingMeaning | dataherb/core/search.py:30-34 | the result is non-increasing, every entry reaches the threshold, each qualifying entry appears exactly as often as in the input, and ties keep registry order; there is no top-10 truncation |
| Search.RankingEmpty | dataherb/core/search.py:32-34 | the result is empty exactly when no entry reaches the threshold |
| Search.SearchByIds | dataherb/core/search.py:37-58 | a lone id is wrapped into a list; the result is one match per Herb whose id is asked for, in registry order |
| Search.IdMatchesConcat | dataherb/core/search.py:52-56 | the id filter keeps registry order: the matches of a concatenation are the matches of its parts, concatenated |
| Search.IdMatchesMeaning | dataherb/core/search.py:52-58 | every match is a registry Herb with its own id, which is asked for; every Herb with an asked-for id is matched; two such Herbs give two matches |
| Search.FirstMatchMeaning | dataherb/flora.py:141-150 | the first match is a Herb whose id is asked for with no earlier such Herb, and there is none iff no Herb's id is asked for |
| Search.IdMatchesHead | dataherb/flora.py:122-129 | the head of the id search is the first match, and the search is empty iff there is none |
| Data.FlattenDict | dataherb/utils/data.py:1-32 | the result is `Flattened(x, sep)`, with "__" when no separator is given |
| Data.Flatten | dataherb/utils/data.py:18-28 | one call performs exactly the writes of its subtree, in traversal order, on the shared dict |
| Data.FlattenMembers | dataherb/utils/data.py:19-21 | the dict loop recurses into each value under `name + key + sep`, in key order |
| Data.FlattenItems | dataherb/utils/data.py:22-26 | the list loop recurses into item i under `name + str(i) + sep` |
| Data.ApplyWritesConcat | dataherb/utils/data.py:28 | writing two batches one after the other is writing their concatenation |
| Data.ApplyWritesUntouched | dataherb/utils/data.py:28 | a key no write touches keeps its value; the keys are the old ones plus the written ones |
| Data.LastWriteWins | dataherb/utils/data.py:28 | when two leaves share a key, the later one's value is stored |
| Data.ApplyWritesShape | dataherb/utils/data.py:16-28 | the result has unique keys, only old or written members, and at most one new key per write |
| Data.WritesArePaths | dataherb/utils/data.py:18-28 | the writes are exactly the scalars in traversal order, each under its path key `(s1+sep+...+sn+sep)[:-2]` |
| Data.MemberWritesArePaths | dataherb/utils/data.py:19-21 | a dict's writes are its members' leaves under their keys |
| Data.ItemWritesArePaths | dataherb/utils/data.py:22-26 | a list's writes are its items' leaves under their decimal positions |
| Data.KeyedUnder | dataherb/utils/data.py:21 | descending one segment extends the name by the segment and the separator |
| Data.LeafPathsAreScalars | dataherb/utils/data.py:19-28 | every leaf is a non-dict, non-list value; empty dicts and lists give no leaf |
| Data.TrailIsJoin | dataherb/utils/data.py:28 | with a two-character separator, cutting two characters off the trail gives the segments joined by the separator |
| Data.FlattenedShape | dataherb/utils/data.py:16-32 | the flat dict has unique keys, holds only scalars, and has no more keys than leaves |
| Data.FlattenedValue | dataherb/utils/data.py:28 | a leaf whose key no later leaf shares is stored with its own value |
| Data.FlattenedHasKey | dataherb/utils/data.py:18-28 | a key is present iff it is the path key of some leaf |
| Data.FlattenedScalar | dataherb/utils/data.py:27-30 | a top-level scalar is stored under the key "" |
| Data.FlattenedKeyIsJoin | dataherb/utils/data.py:21-28 | with a two-character separator, a nested leaf's key is its path joined by the separator |
| ModelYaml.MetaData.constructor | dataherb/parse/model_yaml.py:43-54 | the template is the five-key initial template |
| ModelYaml.TemplateShape | dataherb/parse/model.py:30-46 | the template has exactly the keys name, description, contributors, data and references, in that order, with `data` empty |
| ModelYaml.LastSegmentMeaning | dataherb/parse/model_yaml.py:95 | the last segment has no dot, ends the path, and is the whole path or follows a dot |
| ModelYaml.FileFormatMeaning | dataherb/parse/model.py:94-97 | the format is the last segment when it is shorter than 10 characters and "" otherwise; a path without a dot is its own segment |
| ModelYaml.CsvFieldsMeaning | dataherb/parse/model_yaml.py:83-87 | a CSV leaf has one field per header column, named after the column, with an empty description |
| ModelYaml.GenerateLeaf | dataherb/parse/model_yaml.py:89-117 | a leaf is generated iff the file can be stat'ed and, for CSV, its header read; otherwise it fails naming the path |
| ModelYaml.LeafRecordKeys | dataherb/parse/model_yaml.py:107-115 | the record has the seven documented keys in display order |
| ModelYaml.LeafRecordUnique | dataherb/parse/model_yaml.py:107-115 | the record's keys are distinct |
| ModelYaml.LeafRecordValues | dataherb/parse/model_yaml.py:107-115 | each key of the record holds the value given for it |
| ModelYaml.GeneratedLeafShape | dataherb/parse/model.py:88-125 | a generated leaf has exactly the seven keys; name, description and updated_at default to ""; path, format and size are the file's; CSV files get one field per column and other files two blank fields |
| ModelYaml.WithLeafMeaning | dataherb/parse/model.py:127-133 | appending adds exactly the leaf at the end of `data`, and keeps the other keys and the key order |
| ModelYaml.MetaData.AppendLeaf | dataherb/parse/model_yaml.py:119-123 | the template becomes the one with the generated leaf appended; when generation or the `data` access fails, the template is unchanged |
| ModelYaml.PathCheck | dataherb/parse/model_yaml.py:211-235 | reports the path; success iff the path is truthy and names a file, otherwise error; never warning |
| ModelYaml.PresenceCheck | dataherb/parse/model_yaml.py:245-295 | reports the value; success iff it is truthy, otherwise the given status with "KEY is missing" |
| ModelYaml.FormatCheck | dataherb/parse/model_yaml.py:238-255 | a falsy format is an error, a truthy one a success |
| ModelYaml.DescriptionCheck | dataherb/parse/model_yaml.py:258-275 | a falsy description is a warning, a truthy one a success |
| ModelYaml.SizeCheck | dataherb/parse/model_yaml.py:278-295 | a falsy size (0 included) is a warning, a truthy one a success |
| ModelYaml.CountMissingPositive | dataherb/parse/model_yaml.py:312-318 | a counter is positive iff some field lacks that key's value |
| ModelYaml.CountMissingBound | dataherb/parse/model_yaml.py:312-318 | no counter exceeds the number of fields |
| ModelYaml.CountMissingStep | dataherb/parse/model_yaml.py:314-318 | each field adds one to the counter exactly when its value for the key is falsy |
| ModelYaml.FieldsCheck | dataherb/parse/model_yaml.py:298-338 | the report exists iff the fields can be iterated and, when truthy, are all dicts; otherwise it fails with the matching error; falsy fields are a warning |
| ModelYaml.FieldsCheckRules | dataherb/parse/model_yaml.py:319-336 | on present fields: error iff some field has no name; success iff every field has a name and a description; otherwise warning |
| ModelYaml.ValidateFields | dataherb/parse/model_yaml.py:298-338 | the counting loop gives the intended fields report |
| ModelYaml.FieldsCheckAsWrittenRaises | dataherb/parse/model_yaml.py:324-336 | as written, the report raises exactly where the intended one is an error or a warning on present fields, and agrees everywhere else |
| ModelYaml.BlankFieldsReport | dataherb/parse/model_yaml.py:324-330 | two blank fields raise as written; intended, they are an error with 2 names and 2 descriptions missing |
| ModelYaml.GeneratedLeafRaisesAsWritten | dataherb/parse/model_yaml.py:102-105 | every generated non-CSV leaf makes the validation as written raise |
| ModelYaml.Summary | dataherb/parse/model_yaml.py:200-208 | the report of one leaf has the path, format, description, size and fields checks, or the failure of reading the leaf; the fields check is the corrected one (see Findings) |
| ModelYaml.SummariesMeaning | dataherb/parse/model_yaml.py:185-191 | one report per leaf, in leaf order; validation fails iff some leaf's report does |
| ModelYaml.MetaData.Validate | dataherb/parse/model_yaml.py:156-193 | a missing folder or file fails; otherwise the loaded document's `data` leaves are reported in order, with the corrected fields check (see Findings) |
| Mkdocs.GenerateMarkdownListMeta | dataherb/serve/save_mkdocs.py:30-43 | the loop builds the list block `ListMeta` |
| Mkdocs.ItemLinesStep | dataherb/serve/save_mkdocs.py:37-38 | each step appends the next item's line |
| Mkdocs.ListMetaMeaning | dataherb/serve/save_mkdocs.py:35-41 | falsy gives ""; a truthy iterable gives `name:`, the item lines and a final newline; only a truthy non-iterable fails |
| Mkdocs.ItemLinesAt | dataherb/serve/save_mkdocs.py:37-38 | each item's `\n  - "item"` line sits after the lines of the items before it |
| Mkdocs.ItemLinesCount | dataherb/serve/save_mkdocs.py:37-38 | items without newlines give exactly one line each |
| Mkdocs.ListMetaLines | dataherb/serve/save_mkdocs.py:36-39 | with a name and items without newlines, the block has one newline per item plus one |
| Mkdocs.FrontMatterDefined | dataherb/serve/save_mkdocs.py:80 | the front matter fails exactly on truthy tags that cannot be iterated |
| Mkdocs.FrontMatterDelimited | dataherb/serve/save_mkdocs.py:82-94 | the front matter starts with `---` and the quoted title, and ends with the closing `---` on its own line |
| Mkdocs.FrontMatterSections | dataherb/serve/save_mkdocs.py:83-91 | the description line comes only with a truthy description, the keywords block only with truthy tags, and the category last |
| Mkdocs.FrontMatterAsWrittenUnclosed | dataherb/serve/save_mkdocs.py:89-94 | as written, a truthy category not ending in a newline leaves the closing `---` on the category's line |
| Mkdocs.CategoryCounterexample | dataherb/serve/save_mkdocs.py:89-94 | the metadata `{"name": "n", "category": "c"}` shows the unclosed header |
| Mkdocs.SaveOneMarkdownAlt | dataherb/serve/save_mkdocs.py:65-99 | the page text is the front matter of the Herb's metadata with the corrected category line (see Findings), or the failure of the keywords block |
| Mkdocs.TitledCopy | dataherb/serve/save_mkdocs.py:52-53 | the copy has `title` equal to the name, every other key as in the metadata, and `title` last when it is new |
| Mkdocs.SaveOneMarkdown | dataherb/serve/save_mkdocs.py:45-63 | the page is `---`, the dump of the titled copy and the closing `---`; the Herb's metadata itself is not changed |
| Wrappers.TraverseMeaning | dataherb/parse/model_yaml.py:188-189 | a loop that maps each element succeeds iff every element does, keeps element order, and otherwise fails with the first element's failure |

## Left out

- HTTP (`dataherb/fetch/remote.py`) is the `Fetch` parameter. Reading a local registry file (`Path.exists` plus `json.load`) is the `LocalFiles` parameter. Malformed JSON text, and exceptions inside these helpers, are not modelled: the parameters always return a value.
- The text formats are not modelled. `Save` records the list of metadata values it writes, not the JSON text or its `sort_keys` key order. `yaml.load` and `yaml.dump` are parameters. Their output is not modelled.
- File writes of `save_one_markdown` and `save_one_markdown_alt` are left out. The methods return the text they would write.
- Logging (loguru) is left out, except that the messages are still built: the `str(h)` that `save` formats for every Herb is modelled, with its failures. So is `click.ClickException`, which the code builds but never raises.
- `parse_structure`, `create`, `save_all`, `create_mkdocs_*`, `slugify`, `Herb.download`, and `Leaf.download`/`data`/`content`/`__str__` are left out. They are file-system walking, pandas or HTTP, or raise `NotImplementedError`.
- `parse_csv` reads the file through the `CsvHeader` parameter. `os.stat` and `os.path.isfile`/`exists` are the `Stat`, `IsFile` and folder-exists parameters. `IsFile` takes a string and always answers, so `PathCheck` does not model the TypeError that `os.path.isfile` raises on a truthy path that is not a string, such as a list.
- Aliasing is not modelled. A Herb keeps a reference to the caller's dict, and `update_datapackage` changes that dict; `metadata` returns the same object, and `append_leaf` changes the list in place. The model holds values, so a caller's later view of a shared object is not modelled. Each entity's own state is modelled.
- Scores are `real` values. Float rounding is not modelled, and neither is the int `0` of an empty score list being a different Python type from a float score.
- Python equality is modelled as structural equality of values. Python's `1 == 1.0 == True` and its order-insensitive dict equality are not modelled; they matter for `id in ids` and `id == herb.id`. Tuples and sets are not values of the model, so only lists escape the one-element wrapping of keywords and ids.
- `Json.Repr` does not escape quotes or backslashes inside strings, and there are no float values. The front matter likewise writes titles and items with quotes unescaped, as the code does.
- `validate`'s `except FileExistsError` guards nothing that raises it and is left out. Its `SystemExit` for a missing file is the `MetadataFileMissing` error.
- `ModelYaml.Summary`, `ModelYaml.MetaData.Validate` and `Mkdocs.SaveOneMarkdownAlt` use the corrected definitions of the Findings rows, not the code as written. As written, `validate` raises TypeError at model_yaml.py:328 or :335 for every leaf with a field that lacks a name or a description. As written, `save_one_markdown_alt` writes `category: c---` with no line break. The as-written behaviour is modelled by `FieldsCheckAsWritten` and `FrontMatterAsWritten`, and the lemmas of the Findings rows relate the two.
- `Base.NewHerb`: its contract names the metadata, id and name of the new Herb, not its other fields. The constructor's contract states those.

## Findings

| source | as written | input that shows it | evidently intended | confidence | as-written member | corrected member |
|---|---|---|---|---|---|---|
| dataherb/parse/model_yaml.py:328-329 | the error and warning messages of `_validate__fields` call `len()` on the integer counters (lines 328-329 and 335), which raises `TypeError` | a leaf whose `fields` are two blank fields, as `_generate_leaf` writes for every file that is not CSV | the counters themselves in the message, with error status when a name is missing and warning when only descriptions are | high, not executed | ModelYaml.FieldsCheckAsWrittenRaises | ModelYaml.FieldsCheckRules |
| dataherb/serve/save_mkdocs.py:89-94 | the category line `category: C` has no newline, so the closing `---` joins it and the front matter is never closed | the metadata `{"name": "n", "category": "c"}` | a newline after the category, so the closing `---` has a line of its own | medium, not executed | Mkdocs.CategoryCounterexample | Mkdocs.FrontMatterDelimited |
