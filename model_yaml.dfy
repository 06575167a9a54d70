/**
 * dataherb/parse/model_yaml.py (and its near-duplicate dataherb/parse/model.py): the metadata
 * template of a dataset folder, the generation of one data-file entry ("leaf"), and the
 * validation report of the leaves of an existing metadata file.
 */
module ModelYaml {

  import opened Wrappers
  import opened Errors
  import opened Json

  /** `os.stat(path).st_size`, or None when the file cannot be read. */
  type Stat = string -> Option<int>

  /** The first row of a CSV file, or None when it cannot be read or is empty. */
  type CsvHeader = string -> Option<seq<string>>

  /** `os.path.isfile`. */
  type IsFile = Value -> bool

  // ----- Template and leaves -----

  /** The template a new MetaData starts with. */
  const InitialTemplate: seq<Member> := [
    Member("name", Str("")),
    Member("description", Str("")),
    Member("contributors", List([Dict([Member("name", Str("")), Member("github", Str(""))])])),
    Member("data", List([])),
    Member("references", List([Dict([Member("name", Str("")), Member("link", Str(""))])]))
  ]

  /** The template has exactly the five documented keys, with an empty list of leaves. */
  lemma {:induction false} TemplateShape()
    ensures Keys(InitialTemplate) == ["name", "description", "contributors", "data", "references"]
    ensures UniqueKeys(InitialTemplate)
    ensures Get(InitialTemplate, "data") == List([])
  {
    assert InitialTemplate[1..][1..][1..] == [InitialTemplate[3], InitialTemplate[4]];
  }

  /** `path.split(".")[-1]`: the text after the last dot, or the whole path when there is none. */
  function LastSegment(path: string): string {
    if path == [] || path[|path| - 1] == '.' then ""
    else LastSegment(path[..|path| - 1]) + [path[|path| - 1]]
  }

  /** The format of a data file: its last dot-segment, cleared when 10 or more characters long. */
  function FileFormat(path: string): string {
    var f := LastSegment(path);
    if |f| >= 10 then "" else f
  }

  /**
   * The last segment holds no dot, ends the path, and is either the whole path or preceded by a
   * dot; the format is that segment when it is shorter than 10 characters and empty otherwise.
   */
  lemma {:induction false} LastSegmentMeaning(path: string)
    ensures var f := LastSegment(path);
      && '.' !in f
      && |f| <= |path|
      && path[|path| - |f|..] == f
      && (|f| == |path| || path[|path| - |f| - 1] == '.')
  {
    if path != [] && path[|path| - 1] != '.' {
      var p, c := path[..|path| - 1], path[|path| - 1];
      var f := LastSegment(p);
      LastSegmentMeaning(p);
      assert LastSegment(path) == f + [c];
      assert path == p + [c];
      assert path[|path| - |f| - 1..] == p[|p| - |f|..] + [c];
      if |f| < |p| {
        assert path[|path| - |f| - 2] == p[|p| - |f| - 1];
      }
    }
  }

  lemma {:induction false} FileFormatMeaning(path: string)
    ensures |FileFormat(path)| < 10
    ensures |LastSegment(path)| < 10 ==> FileFormat(path) == LastSegment(path)
    ensures |LastSegment(path)| >= 10 ==> FileFormat(path) == ""
    ensures '.' !in path ==> FileFormat(path) == if |path| < 10 then path else ""
  {
    LastSegmentMeaning(path);
  }

  /** `{"name": "", "description": ""}`. */
  const BlankField: Value := Dict([Member("name", Str("")), Member("description", Str(""))])

  /** `parse_csv`: one field per header column, named after it, with an empty description. */
  function CsvFields(columns: seq<string>): seq<Value> {
    seq(|columns|, i requires 0 <= i < |columns| => Dict([Member("name", Str(columns[i])), Member("description", Str(""))]))
  }

  /** `_generate_leaf(path, meta_input)`. */
  function GenerateLeaf(path: string, metaInput: seq<Member>, stat: Stat, header: CsvHeader): (r: Result<seq<Member>, Exception>)
    ensures r.Ok? <==> stat(path).Some? && (FileFormat(path) == "csv" ==> header(path).Some?)
    ensures r.Err? ==> r.error == FileUnreadable(path)
  {
    var fileFormat := FileFormat(path);
    if stat(path).None? then Err(FileUnreadable(path))
    else if fileFormat == "csv" && header(path).None? then Err(FileUnreadable(path))
    else
      var fields := if fileFormat == "csv" then CsvFields(header(path).value) else [BlankField, BlankField];
      Ok(LeafRecord(GetOr(metaInput, "name", Str("")), GetOr(metaInput, "description", Str("")), Str(path),
                    Str(fileFormat), Int(stat(path).value), GetOr(metaInput, "updated_at", Str("")), List(fields)))
  }

  /** The dict display of `_generate_leaf`. */
  function LeafRecord(name: Value, description: Value, path: Value, format: Value, size: Value,
                      updatedAt: Value, fields: Value): seq<Member>
  {
    [Member("name", name), Member("description", description), Member("path", path), Member("format", format),
     Member("size", size), Member("updated_at", updatedAt), Member("fields", fields)]
  }

  const LeafKeys: seq<string> := ["name", "description", "path", "format", "size", "updated_at", "fields"]

  /** The record has the seven documented keys, in the order of the dict display. */
  lemma {:induction false} LeafRecordKeys(name: Value, description: Value, path: Value, format: Value, size: Value,
                                           updatedAt: Value, fields: Value)
    ensures Keys(LeafRecord(name, description, path, format, size, updatedAt, fields)) == LeafKeys
  {
    KeysAt(LeafRecord(name, description, path, format, size, updatedAt, fields));
  }

  lemma LeafRecordUnique(name: Value, description: Value, path: Value, format: Value, size: Value,
                         updatedAt: Value, fields: Value)
    ensures UniqueKeys(LeafRecord(name, description, path, format, size, updatedAt, fields))
  {
    var r := LeafRecord(name, description, path, format, size, updatedAt, fields);
    forall i, j | 0 <= i < j < |r| ensures r[i].key != r[j].key {
      assert r[i].key == LeafKeys[i] && r[j].key == LeafKeys[j];
      assert |LeafKeys[i]| != |LeafKeys[j]| || LeafKeys[i][0] != LeafKeys[j][0] || LeafKeys[i][1] != LeafKeys[j][1];
    }
  }

  /** Each documented key of the record holds the value given for it. */
  lemma {:induction false} LeafRecordValues(name: Value, description: Value, path: Value, format: Value, size: Value,
                                             updatedAt: Value, fields: Value)
    ensures var r := LeafRecord(name, description, path, format, size, updatedAt, fields);
      && Get(r, "name") == name && Get(r, "description") == description && Get(r, "path") == path
      && Get(r, "format") == format && Get(r, "size") == size && Get(r, "updated_at") == updatedAt
      && Get(r, "fields") == fields
  {
    var r := LeafRecord(name, description, path, format, size, updatedAt, fields);
    LeafRecordUnique(name, description, path, format, size, updatedAt, fields);
    GetAt(r, 0); GetAt(r, 1); GetAt(r, 2); GetAt(r, 3); GetAt(r, 4); GetAt(r, 5); GetAt(r, 6);
  }

  /**
   * A generated leaf has exactly the seven documented keys, the inputs' values or "" for the
   * missing ones, one field per column for CSV files and two blank fields otherwise.
   */
  lemma {:induction false} GeneratedLeafShape(path: string, metaInput: seq<Member>, stat: Stat, header: CsvHeader)
    ensures var r := GenerateLeaf(path, metaInput, stat, header);
      r.Ok? ==>
        && Keys(r.value) == LeafKeys
        && Get(r.value, "name") == GetOr(metaInput, "name", Str(""))
        && Get(r.value, "description") == GetOr(metaInput, "description", Str(""))
        && Get(r.value, "updated_at") == GetOr(metaInput, "updated_at", Str(""))
        && Get(r.value, "path") == Str(path)
        && Get(r.value, "format") == Str(FileFormat(path))
        && Get(r.value, "size") == Int(stat(path).value)
        && (FileFormat(path) != "csv" ==> Get(r.value, "fields") == List([BlankField, BlankField]))
        && (FileFormat(path) == "csv" ==> Get(r.value, "fields") == List(CsvFields(header(path).value)))
  {
    var fileFormat := FileFormat(path);
    if GenerateLeaf(path, metaInput, stat, header).Ok? {
      var fields := if fileFormat == "csv" then CsvFields(header(path).value) else [BlankField, BlankField];
      var name, description, updatedAt := GetOr(metaInput, "name", Str("")), GetOr(metaInput, "description", Str("")),
                                          GetOr(metaInput, "updated_at", Str(""));
      assert GenerateLeaf(path, metaInput, stat, header).value
          == LeafRecord(name, description, Str(path), Str(fileFormat), Int(stat(path).value), updatedAt, List(fields));
      LeafRecordKeys(name, description, Str(path), Str(fileFormat), Int(stat(path).value), updatedAt, List(fields));
      LeafRecordValues(name, description, Str(path), Str(fileFormat), Int(stat(path).value), updatedAt, List(fields));
    }
  }


  /** A CSV leaf names its fields after the header columns, in order, with empty descriptions. */
  lemma {:induction false} CsvFieldsMeaning(columns: seq<string>)
    ensures |CsvFields(columns)| == |columns|
    ensures forall i :: 0 <= i < |columns| ==>
              && CsvFields(columns)[i].Dict?
              && Get(CsvFields(columns)[i].members, "name") == Str(columns[i])
              && Get(CsvFields(columns)[i].members, "description") == Str("")
  {
  }

  /** The template with `leaf` appended to its leaves, or what `template["data"].append` raises. */
  function WithLeaf(template: seq<Member>, leaf: Result<seq<Member>, Exception>): Result<seq<Member>, Exception> {
    if "data" !in Keys(template) then Err(MissingKey("data"))
    else if !Get(template, "data").List? then Err(NotAList)
    else match leaf
      case Err(e) => Err(e)
      case Ok(l) => Ok(Assign(template, "data", List(Get(template, "data").items + [Dict(l)])))
  }

  /**
   * Appending a leaf adds exactly that leaf at the end of the leaves and changes no other key,
   * nor the order of the keys.
   */
  lemma {:induction false} WithLeafMeaning(template: seq<Member>, leaf: seq<Member>)
    requires "data" in Keys(template) && Get(template, "data").List?
    ensures var r := WithLeaf(template, Ok(leaf));
      && r.Ok?
      && Get(r.value, "data") == List(Get(template, "data").items + [Dict(leaf)])
      && |Get(r.value, "data").items| == |Get(template, "data").items| + 1
      && Keys(r.value) == Keys(template)
      && forall k :: k != "data" ==> Get(r.value, k) == Get(template, k)
  {
  }

  // ----- Validation -----

  datatype Status = Success | Warning | Error

  /** One `{"value": ..., "message": ..., "status": ...}` entry of a leaf's report. */
  datatype Check = Check(value: Value, message: string, status: Status)

  /** `LeafValidation.summary(d)`: one check per key. */
  datatype LeafSummary = LeafSummary(path: Check, format: Check, description: Check, size: Check, fields: Check)

  /** `_validate__path`: an error when the path is missing or is not a file. */
  function PathCheck(d: seq<Member>, isFile: IsFile): (r: Check)
    ensures r.value == Get(d, "path")
    ensures r.status == Success <==> Truthy(Get(d, "path")) && isFile(Get(d, "path"))
    ensures r.status != Warning
  {
    var p := Get(d, "path");
    if !Truthy(p) then Check(p, "path is missing", Error)
    else if !isFile(p) then Check(p, PyStr(p) + " was not found", Error)
    else Check(p, PyStr(p) + " was found", Success)
  }

  /**
   * `_validate__format`, `_validate__description` and `_validate__size`: the entry's own value,
   * with `absent` as the status when it is falsy (so a size of 0 counts as missing).
   */
  function PresenceCheck(d: seq<Member>, key: string, absent: Status): (r: Check)
    ensures r.value == Get(d, key)
    ensures r.status == if Truthy(Get(d, key)) then Success else absent
    ensures !Truthy(Get(d, key)) ==> r.message == key + " is missing"
  {
    var v := Get(d, key);
    if !Truthy(v) then Check(v, key + " is missing", absent)
    else Check(v, PyStr(v) + " exists", Success)
  }

  /** A missing format is an error. */
  function FormatCheck(d: seq<Member>): (r: Check)
    ensures r.status == if Truthy(Get(d, "format")) then Success else Error
  {
    PresenceCheck(d, "format", Error)
  }

  /** A missing description is only a warning. */
  function DescriptionCheck(d: seq<Member>): (r: Check)
    ensures r.status == if Truthy(Get(d, "description")) then Success else Warning
  {
    PresenceCheck(d, "description", Warning)
  }

  /** A missing size is only a warning. */
  function SizeCheck(d: seq<Member>): (r: Check)
    ensures r.status == if Truthy(Get(d, "size")) then Success else Warning
  {
    PresenceCheck(d, "size", Warning)
  }

  /** A field dict whose value under `key` is falsy (absent, empty or null). */
  predicate Missing(f: Value, key: string) {
    f.Dict? && !Truthy(Get(f.members, key))
  }

  /** How many of the fields have a falsy value under `key`. */
  function CountMissing(fields: seq<Value>, key: string): nat {
    if fields == [] then 0
    else CountMissing(fields[..|fields| - 1], key) + (if Missing(fields[|fields| - 1], key) then 1 else 0)
  }

  lemma {:induction false} CountMissingPositive(fields: seq<Value>, key: string)
    ensures CountMissing(fields, key) > 0 <==> exists i :: 0 <= i < |fields| && Missing(fields[i], key)
  {
    if fields != [] {
      var p := fields[..|fields| - 1];
      var last := |fields| - 1;
      CountMissingPositive(p, key);
      if CountMissing(fields, key) > 0 {
        if CountMissing(p, key) > 0 {
          var i :| 0 <= i < |p| && Missing(p[i], key);
          assert p[i] == fields[i];
        } else {
          assert Missing(fields[last], key);
        }
      } else {
        forall i | 0 <= i < |fields| ensures !Missing(fields[i], key) {
          if i < last {
            assert p[i] == fields[i];
          }
        }
      }
    }
  }

  /** No more fields are missing `key` than there are fields. */
  lemma {:induction false} CountMissingBound(fields: seq<Value>, key: string)
    ensures CountMissing(fields, key) <= |fields|
  {
    if fields != [] {
      CountMissingBound(fields[..|fields| - 1], key);
    }
  }

  /** One more field of the prefix `items[..i]`: its count and the dict-ness of the prefix. */
  lemma CountMissingStep(items: seq<Value>, i: nat, key: string)
    requires i < |items| && AllDicts(items[..i]) && items[i].Dict?
    ensures AllDicts(items[..i + 1])
    ensures CountMissing(items[..i + 1], key)
            == CountMissing(items[..i], key) + (if Truthy(Get(items[i].members, key)) then 0 else 1)
  {
    assert items[..i + 1][..i] == items[..i];
  }

  /** The fields of a leaf, when `len` and iteration apply to them. */
  predicate AllDicts(items: seq<Value>) {
    forall i :: 0 <= i < |items| ==> items[i].Dict?
  }

  /** The fields report's value: `"N fields in total"`. */
  function TotalValue(n: nat): Value {
    Str(NatToString(n) + " fields in total")
  }

  function CompleteMessage(n: nat): string {
    NatToString(n) + " fields: all names and descriptions filled in."
  }

  /** The message the name-missing branch evidently means: `"N fields: k names missing; m descriptions missing."`. */
  function NamesMissingMessage(n: nat, names: nat, descriptions: nat): string {
    NatToString(n) + " fields: " + NatToString(names) + " names missing; "
      + NatToString(descriptions) + " descriptions missing."
  }

  /** The message the description-missing branch evidently means: `"N fields: m descriptions missing."`. */
  function DescriptionsMissingMessage(n: nat, descriptions: nat): string {
    NatToString(n) + " fields: " + NatToString(descriptions) + " descriptions missing."
  }

  /**
   * `_validate__fields` with the report messages it evidently means to produce. It fails only
   * where iteration or `.get` does not apply, and missing fields are a warning.
   */
  function FieldsCheck(d: seq<Member>): (r: Result<Check, Exception>)
    ensures var v := Get(d, "fields");
      r.Ok? <==> Elements(v).Some? && (!Truthy(v) || AllDicts(Elements(v).value))
    ensures r.Err? ==> r.error == if Elements(Get(d, "fields")).None? then NotIterable else NotADict
    ensures r.Ok? && !Truthy(Get(d, "fields")) ==> r.value.status == Warning
  {
    var v := Get(d, "fields");
    match Elements(v)
    case None => Err(NotIterable)
    case Some(items) =>
      var n := |items|;
      if !Truthy(v) then Ok(Check(TotalValue(n), "fields is missing", Warning))
      else if !AllDicts(items) then Err(NotADict)
      else
        var names := CountMissing(items, "name");
        var descriptions := CountMissing(items, "description");
        if names == 0 && descriptions == 0 then Ok(Check(TotalValue(n), CompleteMessage(n), Success))
        else if names > 0 then Ok(Check(TotalValue(n), NamesMissingMessage(n, names, descriptions), Error))
        else Ok(Check(TotalValue(n), DescriptionsMissingMessage(n, descriptions), Warning))
  }

  /** `_validate__fields` as written: the two incomplete branches call `len()` on an int counter. */
  function FieldsCheckAsWritten(d: seq<Member>): Result<Check, Exception> {
    var v := Get(d, "fields");
    match Elements(v)
    case None => Err(NotIterable)
    case Some(items) =>
      var n := |items|;
      if !Truthy(v) then Ok(Check(TotalValue(n), "fields is missing", Warning))
      else if !AllDicts(items) then Err(NotADict)
      else if CountMissing(items, "name") == 0 && CountMissing(items, "description") == 0 then
        Ok(Check(TotalValue(n), CompleteMessage(n), Success))
      else Err(LenOfInt)
  }


  /**
   * On present fields, any field without a name is an error, which takes precedence over fields
   * without a description alone, which are a warning; complete fields succeed.
   */
  lemma {:induction false} FieldsCheckRules(d: seq<Member>)
    ensures var v := Get(d, "fields");
      FieldsCheck(d).Ok? && Truthy(v) ==>
        var items := Elements(v).value;
        && (FieldsCheck(d).value.status == Error <==> exists i :: 0 <= i < |items| && Missing(items[i], "name"))
        && (FieldsCheck(d).value.status == Success <==>
              forall i :: 0 <= i < |items| ==> !Missing(items[i], "name") && !Missing(items[i], "description"))
  {
    var v := Get(d, "fields");
    if Elements(v).Some? && Truthy(v) && AllDicts(Elements(v).value) {
      var items := Elements(v).value;
      CountMissingPositive(items, "name");
      CountMissingPositive(items, "description");
    }
  }


  /**
   * The report as written agrees with the intended one on complete and on missing fields, and
   * raises instead of reporting whenever some field lacks a name or a description.
   */
  lemma {:induction false} FieldsCheckAsWrittenRaises(d: seq<Member>)
    ensures FieldsCheck(d).Ok? && FieldsCheck(d).value.status != Success && Truthy(Get(d, "fields")) ==>
              FieldsCheckAsWritten(d) == Err(LenOfInt)
    ensures !(FieldsCheck(d).Ok? && FieldsCheck(d).value.status != Success && Truthy(Get(d, "fields"))) ==>
              FieldsCheckAsWritten(d) == FieldsCheck(d)
  {
  }

  /** Two blank fields: both names and both descriptions are missing. */
  lemma {:induction false} BlankFieldsReport(d: seq<Member>)
    requires Get(d, "fields") == List([BlankField, BlankField])
    ensures FieldsCheckAsWritten(d) == Err(LenOfInt)
    ensures FieldsCheck(d) == Ok(Check(TotalValue(2), NamesMissingMessage(2, 2, 2), Error))
  {
    var items := [BlankField, BlankField];
    assert Elements(Get(d, "fields")) == Some(items);
    assert items[..1] == [BlankField] && [BlankField][..0] == [];
    assert Get(BlankField.members, "name") == Str("") && Get(BlankField.members, "description") == Str("");
    assert CountMissing([BlankField], "name") == 1;
    assert CountMissing([BlankField], "description") == 1;
    assert CountMissing(items, "name") == 2;
    assert CountMissing(items, "description") == 2;
    assert AllDicts(items);
  }

  /** A freshly generated leaf of a file that is not CSV cannot be validated as written. */
  lemma {:induction false} GeneratedLeafRaisesAsWritten(path: string, metaInput: seq<Member>, stat: Stat, header: CsvHeader)
    requires FileFormat(path) != "csv" && stat(path).Some?
    ensures GenerateLeaf(path, metaInput, stat, header).Ok?
    ensures FieldsCheckAsWritten(GenerateLeaf(path, metaInput, stat, header).value) == Err(LenOfInt)
    ensures FieldsCheck(GenerateLeaf(path, metaInput, stat, header).value)
              == Ok(Check(TotalValue(2), NamesMissingMessage(2, 2, 2), Error))
  {
    GeneratedLeafShape(path, metaInput, stat, header);
    BlankFieldsReport(GenerateLeaf(path, metaInput, stat, header).value);
  }

  /** `_validate__fields`, counting missing names and descriptions in one pass. */
  method ValidateFields(d: seq<Member>) returns (r: Result<Check, Exception>)
    ensures r == FieldsCheck(d)
  {
    var v := Get(d, "fields");
    var elements := Elements(v);
    if elements.None? {
      return Err(NotIterable);
    }
    var items := elements.value;
    var n := |items|;
    if !Truthy(v) {
      return Ok(Check(TotalValue(n), "fields is missing", Warning));
    }
    var nameMissingCounter := 0;
    var descriptionMissingCounter := 0;
    var i := 0;
    while i < |items|
      invariant 0 <= i <= |items|
      invariant AllDicts(items[..i])
      invariant nameMissingCounter == CountMissing(items[..i], "name")
      invariant descriptionMissingCounter == CountMissing(items[..i], "description")
    {
      var field := items[i];
      if !field.Dict? {
        return Err(NotADict);
      }
      CountMissingStep(items, i, "name");
      CountMissingStep(items, i, "description");
      if !Truthy(Get(field.members, "name")) {
        nameMissingCounter := nameMissingCounter + 1;
      }
      if !Truthy(Get(field.members, "description")) {
        descriptionMissingCounter := descriptionMissingCounter + 1;
      }
      i := i + 1;
    }
    assert items[..|items|] == items;
    if nameMissingCounter == 0 && descriptionMissingCounter == 0 {
      r := Ok(Check(TotalValue(n), CompleteMessage(n), Success));
    } else if nameMissingCounter > 0 {
      r := Ok(Check(TotalValue(n), NamesMissingMessage(n, nameMissingCounter, descriptionMissingCounter), Error));
    } else {
      r := Ok(Check(TotalValue(n), DescriptionsMissingMessage(n, descriptionMissingCounter), Warning));
    }
  }

  /** The report of one leaf entry, or what building it raises. */
  function SummaryOf(d: Value, isFile: IsFile): Result<LeafSummary, Exception> {
    if !d.Dict? then Err(NotADict)
    else match FieldsCheck(d.members)
      case Err(e) => Err(e)
      case Ok(fields) =>
        Ok(LeafSummary(PathCheck(d.members, isFile), FormatCheck(d.members),
                       DescriptionCheck(d.members), SizeCheck(d.members), fields))
  }

  /** `LeafValidation.summary(d)`. */
  method Summary(d: Value, isFile: IsFile) returns (r: Result<LeafSummary, Exception>)
    ensures r == SummaryOf(d, isFile)
  {
    if !d.Dict? {
      return Err(NotADict);
    }
    var path := PathCheck(d.members, isFile);
    var format := FormatCheck(d.members);
    var description := DescriptionCheck(d.members);
    var size := SizeCheck(d.members);
    var fields := ValidateFields(d.members);
    if fields.Err? {
      return Err(fields.error);
    }
    return Ok(LeafSummary(path, format, description, size, fields.value));
  }

  /** `LeafValidation().summary` as a function value. */
  function Reporter(isFile: IsFile): Value -> Result<LeafSummary, Exception> {
    d => SummaryOf(d, isFile)
  }

  /** The reports of the leaves, in order, or the first failure. */
  function Summaries(leaves: seq<Value>, isFile: IsFile): Result<seq<LeafSummary>, Exception> {
    Traverse(leaves, Reporter(isFile))
  }

  /** Validation reports on every leaf, in leaf order, and fails when one leaf's report does. */
  lemma {:induction false} SummariesMeaning(leaves: seq<Value>, isFile: IsFile)
    ensures Summaries(leaves, isFile).Ok? <==> forall i :: 0 <= i < |leaves| ==> SummaryOf(leaves[i], isFile).Ok?
    ensures Summaries(leaves, isFile).Ok? ==>
              && |Summaries(leaves, isFile).value| == |leaves|
              && forall i :: 0 <= i < |leaves| ==> Ok(Summaries(leaves, isFile).value[i]) == SummaryOf(leaves[i], isFile)
  {
    TraverseMeaning(leaves, Reporter(isFile));
  }

  /** The metadata file inside the metadata folder. */
  const MetadataPath := ".dataherb/metadata.yml"

  /** `validate()` as a function of the file system and of what the YAML loader returns. */
  function ValidationReport(folderExists: string -> bool, isFile: IsFile, loadYaml: string -> Value)
    : Result<seq<LeafSummary>, Exception>
  {
    if !folderExists(".dataherb") then Err(FolderMissing(".dataherb"))
    else if !isFile(Str(MetadataPath)) then Err(MetadataFileMissing(MetadataPath))
    else
      var documents := loadYaml(MetadataPath);
      if !documents.Dict? then Err(NotADict)
      else if "data" !in Keys(documents.members) then Err(MissingKey("data"))
      else match Elements(Get(documents.members, "data"))
        case None => Err(NotIterable)
        case Some(leaves) => Summaries(leaves, isFile)
  }

  class MetaData {
    const dataherbFolder: string := ".dataherb"
    const metadataFile: string := "metadata.yml"
    /** `template`: the metadata document being built. */
    var template: seq<Member>

    /** `MetaData()`. */
    constructor ()
      ensures template == InitialTemplate
    {
      template := InitialTemplate;
    }

    /** `append_leaf(dataset_file, meta_input)`: on failure the template is unchanged. */
    method AppendLeaf(datasetFile: string, metaInput: seq<Member>, stat: Stat, header: CsvHeader)
      returns (r: Outcome<Exception>)
      modifies this
      ensures var w := WithLeaf(old(template), GenerateLeaf(datasetFile, metaInput, stat, header));
        && (r.Pass? <==> w.Ok?)
        && (r.Pass? ==> template == w.value)
        && (r.Fail? ==> template == old(template) && w == Err(r.error))
    {
      if "data" !in Keys(template) {
        return Fail(MissingKey("data"));
      }
      var existingLeaves := Get(template, "data");
      if !existingLeaves.List? {
        return Fail(NotAList);
      }
      var leaf := GenerateLeaf(datasetFile, metaInput, stat, header);
      if leaf.Err? {
        return Fail(leaf.error);
      }
      template := Assign(template, "data", List(existingLeaves.items + [Dict(leaf.value)]));
      return Pass;
    }

    /** `validate()`: one report per leaf of the metadata file, in leaf order. */
    method Validate(folderExists: string -> bool, isFile: IsFile, loadYaml: string -> Value)
      returns (r: Result<seq<LeafSummary>, Exception>)
      ensures r == ValidationReport(folderExists, isFile, loadYaml)
    {
      var path := dataherbFolder + "/" + metadataFile;
      assert path == MetadataPath;
      if !folderExists(dataherbFolder) {
        return Err(FolderMissing(dataherbFolder));
      }
      if !isFile(Str(path)) {
        return Err(MetadataFileMissing(path));
      }
      var documents := loadYaml(path);
      if !documents.Dict? {
        return Err(NotADict);
      }
      if "data" !in Keys(documents.members) {
        return Err(MissingKey("data"));
      }
      var data := Elements(Get(documents.members, "data"));
      if data.None? {
        return Err(NotIterable);
      }
      var leaves := data.value;
      var dataSummary: seq<LeafSummary> := [];
      assert leaves[..0] == [];
      for i := 0 to |leaves|
        invariant Summaries(leaves[..i], isFile) == Ok(dataSummary)
      {
        TraverseStep(leaves, i, Reporter(isFile));
        var s := Summary(leaves[i], isFile);
        if s.Err? {
          TraverseFailurePersists(leaves, i + 1, Reporter(isFile));
          return Err(s.error);
        }
        dataSummary := dataSummary + [s.value];
      }
      assert leaves[..|leaves|] == leaves;
      return Ok(dataSummary);
    }
  }
}
