/**
 * dataherb/core/base.py: a Herb is one dataset of the registry, built from its descriptor
 * (metadata dict); a Leaf is one data file of a Herb.
 */
module Base {

  import opened Wrappers
  import opened Errors
  import opened Json
  import Data

  /** What the HTTP helper answers: a status code and the body decoded as JSON. */
  datatype Response = Response(status: int, body: Value)

  /** `get_data_from_url`, as an oracle from the requested URL to the response. */
  type Fetch = Value -> Response

  /** `fuzz.token_set_ratio(value, keyword)`, left uninterpreted. */
  type Scorer = (Value, Value) -> real

  /** The scorer's documented range. */
  ghost predicate ScorerBounded(scorer: Scorer) {
    forall a, b :: 0.0 <= scorer(a, b) <= 100.0
  }

  // ----- Construction -----

  /**
   * The metadata a Herb holds once `__init__` is done: the descriptor itself when it embeds a
   * truthy datapackage, otherwise the descriptor with the fetched datapackage stored under
   * "datapackage"; a status other than 200 makes the construction fail.
   */
  function InitialMeta(meta: seq<Member>, fetch: Fetch): Result<seq<Member>, Exception> {
    if Truthy(Get(meta, "datapackage")) then Ok(meta)
    else
      var resp := fetch(Get(meta, "datapackage_uri"));
      if resp.status != 200 then Err(DatapackageDownload(resp.status))
      else Ok(Assign(meta, "datapackage", resp.body))
  }

  /**
   * Construction only touches "datapackage": every other key keeps its value, so `name`,
   * `description`, `repository` and `id` are the descriptor's; a descriptor with a truthy
   * datapackage is kept as it is, and one without fails exactly when the fetch is not a 200.
   */
  lemma {:induction false} InitialMetaMeaning(meta: seq<Member>, fetch: Fetch)
    ensures var r := InitialMeta(meta, fetch);
      && (r.Ok? ==> forall k :: k != "datapackage" ==> Get(r.value, k) == Get(meta, k))
      && (Truthy(Get(meta, "datapackage")) ==> r == Ok(meta))
      && (!Truthy(Get(meta, "datapackage")) ==>
            var resp := fetch(Get(meta, "datapackage_uri"));
            && (r.Ok? <==> resp.status == 200)
            && (r.Ok? ==> Get(r.value, "datapackage") == resp.body)
            && (r.Err? ==> r.error == DatapackageDownload(resp.status)))
  {
  }

  /**
   * Building a Herb from the metadata of a Herb (as a saved registry is reloaded) gives the same
   * metadata again, provided the fetched datapackage was truthy.
   */
  lemma {:induction false} InitialMetaIdempotent(meta: seq<Member>, fetch: Fetch)
    requires InitialMeta(meta, fetch).Ok?
    requires !Truthy(Get(meta, "datapackage")) ==> Truthy(fetch(Get(meta, "datapackage_uri")).body)
    ensures InitialMeta(InitialMeta(meta, fetch).value, fetch) == InitialMeta(meta, fetch)
  {
    var m := InitialMeta(meta, fetch).value;
    if !Truthy(Get(meta, "datapackage")) {
      assert Get(m, "datapackage") == fetch(Get(meta, "datapackage_uri")).body;
    }
  }

  class Herb {
    /** `herb_meta_json`; the `metadata` property returns it. */
    var metaJson: seq<Member>
    /** `datapackage_meta`, set by `update_datapackage` (Null before). */
    var datapackageMeta: Value
    const datapackageUri: Value
    /** Read once in `__init__`; `update_datapackage` does not change it. */
    const datapackage: Value
    const name: Value
    const description: Value
    const repository: Value
    const id: Value

    /** The field assignments of `__init__`; the fetch it may trigger is `UpdateDatapackage`. */
    constructor (meta: seq<Member>)
      ensures metaJson == meta && datapackageMeta == Null
      ensures datapackageUri == Get(meta, "datapackage_uri") && datapackage == Get(meta, "datapackage")
      ensures name == Get(meta, "name") && description == Get(meta, "description")
      ensures repository == Get(meta, "repository") && id == Get(meta, "id")
    {
      metaJson := meta;
      datapackageMeta := Null;
      datapackageUri := Get(meta, "datapackage_uri");
      datapackage := Get(meta, "datapackage");
      name := Get(meta, "name");
      description := Get(meta, "description");
      repository := Get(meta, "repository");
      id := Get(meta, "id");
    }

    /**
     * `update_datapackage`: fetches `datapackage_uri`; on a 200 stores the body as
     * `datapackage_meta` and under "datapackage" in the metadata. On any other status the
     * error message reads the missing attribute `self.url` and raises.
     */
    method UpdateDatapackage(fetch: Fetch) returns (r: Result<Value, Exception>)
      modifies this
      ensures var resp := fetch(datapackageUri);
        if resp.status == 200 then
          && r == Ok(resp.body)
          && datapackageMeta == resp.body
          && metaJson == Assign(old(metaJson), "datapackage", resp.body)
        else
          && r == Err(DatapackageDownload(resp.status))
          && datapackageMeta == old(datapackageMeta)
          && metaJson == old(metaJson)
    {
      var fileContent := fetch(datapackageUri);
      if fileContent.status != 200 {
        return Err(DatapackageDownload(fileContent.status));
      }
      datapackageMeta := fileContent.body;
      metaJson := Assign(metaJson, "datapackage", datapackageMeta);
      return Ok(datapackageMeta);
    }

    /**
     * `search_score(keywords, keys)`: the best scorer value over every (keyword, value) pair,
     * where the values are the flattened search fields of the metadata.
     */
    method SearchScore(keywords: Value, keys: Option<seq<string>>, scorer: Scorer) returns (maxScore: real)
      ensures maxScore == Score(metaJson, keywords, keys, scorer)
    {
      var ks := if keys.None? then DefaultSearchKeys else keys.value;
      var kws := AsList(keywords);
      var herbForSearch := SearchFields(metaJson, ks);
      var flat := Data.FlattenDict(Dict(herbForSearch), None);
      assert flat == ScoredValues(metaJson, keys);
      var keywordsScores := KeywordsScores(kws, flat, scorer);
      maxScore := 0.0;
      if keywordsScores != [] {
        maxScore := Max(keywordsScores);
      }
    }

    /** The `id` and `name` fields agree with the metadata, as `__init__` reads them from it. */
    predicate Named()
      reads this
    {
      id == Get(metaJson, "id") && name == Get(metaJson, "name")
    }

    /** `str(herb)`. */
    function Describe(): Result<string, Exception>
      reads this
    {
      HerbString(metaJson)
    }
  }

  /** `Herb(meta_dict)`: builds the Herb and fetches its datapackage when the descriptor has none. */
  method NewHerb(meta: seq<Member>, fetch: Fetch) returns (r: Result<Herb, Exception>)
    ensures r.Ok? <==> InitialMeta(meta, fetch).Ok?
    ensures r.Err? ==> InitialMeta(meta, fetch) == Err(r.error)
    ensures r.Ok? ==> && fresh(r.value)
                      && r.value.metaJson == InitialMeta(meta, fetch).value
                      && r.value.id == Get(meta, "id")
                      && r.value.name == Get(meta, "name")
                      && r.value.Named()
  {
    var h := new Herb(meta);
    if !Truthy(h.datapackage) {
      var u := h.UpdateDatapackage(fetch);
      if u.Err? {
        return Err(u.error);
      }
    }
    return Ok(h);
  }

  // ----- Scoring -----

  /** The default search keys. */
  const DefaultSearchKeys: seq<string> := ["name", "id", "repository", "tags", "description"]

  /** A value that is not a list is wrapped into a one-element list. */
  function AsList(v: Value): seq<Value> {
    if v.List? then v.items else [v]
  }

  /** `{key: val for key, val in meta.items() if key in keys}`. */
  function SearchFields(meta: seq<Member>, keys: seq<string>): seq<Member> {
    if meta == [] then []
    else (if meta[0].key in keys then [meta[0]] else []) + SearchFields(meta[1..], keys)
  }

  /** The scores of one keyword against each value, in order. */
  function RowScores(keyword: Value, vals: seq<Member>, scorer: Scorer): seq<real> {
    if vals == [] then []
    else RowScores(keyword, vals[..|vals| - 1], scorer) + [scorer(vals[|vals| - 1].val, keyword)]
  }

  /** `keywords_scores`: keyword by keyword, each against every value. */
  function PairScores(keywords: seq<Value>, vals: seq<Member>, scorer: Scorer): seq<real> {
    if keywords == [] then []
    else PairScores(keywords[..|keywords| - 1], vals, scorer) + RowScores(keywords[|keywords| - 1], vals, scorer)
  }

  /** The nested loops of `search_score`: every keyword against every flattened value. */
  method KeywordsScores(kws: seq<Value>, flat: seq<Member>, scorer: Scorer) returns (keywordsScores: seq<real>)
    ensures keywordsScores == PairScores(kws, flat, scorer)
  {
    keywordsScores := [];
    var i := 0;
    while i < |kws|
      invariant 0 <= i <= |kws|
      invariant keywordsScores == PairScores(kws[..i], flat, scorer)
    {
      ghost var before := keywordsScores;
      var j := 0;
      while j < |flat|
        invariant 0 <= j <= |flat|
        invariant keywordsScores == before + RowScores(kws[i], flat[..j], scorer)
      {
        RowScoresStep(kws[i], flat, j, scorer);
        assert before + RowScores(kws[i], flat[..j], scorer) + [scorer(flat[j].val, kws[i])]
            == before + (RowScores(kws[i], flat[..j], scorer) + [scorer(flat[j].val, kws[i])]);
        keywordsScores := keywordsScores + [scorer(flat[j].val, kws[i])];
        j := j + 1;
      }
      assert flat[..|flat|] == flat;
      PairScoresStep(kws, flat, i, scorer);
      i := i + 1;
    }
    assert kws[..|kws|] == kws;
  }

  lemma {:induction false} RowScoresStep(keyword: Value, vals: seq<Member>, j: nat, scorer: Scorer)
    requires j < |vals|
    ensures RowScores(keyword, vals[..j + 1], scorer) == RowScores(keyword, vals[..j], scorer) + [scorer(vals[j].val, keyword)]
  {
    assert vals[..j + 1][..j] == vals[..j];
  }

  lemma {:induction false} PairScoresStep(keywords: seq<Value>, vals: seq<Member>, i: nat, scorer: Scorer)
    requires i < |keywords|
    ensures PairScores(keywords[..i + 1], vals, scorer) == PairScores(keywords[..i], vals, scorer) + RowScores(keywords[i], vals, scorer)
  {
    assert keywords[..i + 1][..i] == keywords[..i];
  }

  /** Python's `max` of a non-empty list. */
  function Max(s: seq<real>): real
    requires s != []
  {
    if |s| == 1 then s[0]
    else
      var m := Max(s[..|s| - 1]);
      if s[|s| - 1] > m then s[|s| - 1] else m
  }

  /** `0` when there are no scores, their maximum otherwise. */
  function MaxOrZero(s: seq<real>): real {
    if s == [] then 0.0 else Max(s)
  }

  /** The flattened search fields that are scored. */
  function ScoredValues(meta: seq<Member>, keys: Option<seq<string>>): seq<Member> {
    var ks := if keys.Some? then keys.value else DefaultSearchKeys;
    Data.Flattened(Dict(SearchFields(meta, ks)), Data.DefaultSep)
  }

  /** `search_score` as a function of the metadata. */
  function Score(meta: seq<Member>, keywords: Value, keys: Option<seq<string>>, scorer: Scorer): real {
    MaxOrZero(PairScores(AsList(keywords), ScoredValues(meta, keys), scorer))
  }

  lemma {:induction false} MaxIsUpperBound(s: seq<real>)
    requires s != []
    ensures forall x :: x in s ==> x <= Max(s)
  {
    if |s| > 1 {
      var p := s[..|s| - 1];
      MaxIsUpperBound(p);
      assert s == p + [s[|s| - 1]];
    }
  }

  lemma {:induction false} MaxIsAttained(s: seq<real>) returns (i: nat)
    requires s != []
    ensures i < |s| && s[i] == Max(s)
  {
    if |s| == 1 {
      i := 0;
    } else if s[|s| - 1] > Max(s[..|s| - 1]) {
      i := |s| - 1;
    } else {
      i := MaxIsAttained(s[..|s| - 1]);
    }
  }

  lemma {:induction false} RowScoresHas(keyword: Value, vals: seq<Member>, scorer: Scorer, b: nat)
    requires b < |vals|
    ensures scorer(vals[b].val, keyword) in RowScores(keyword, vals, scorer)
    decreases |vals|
  {
    if b < |vals| - 1 {
      var p := vals[..|vals| - 1];
      RowScoresHas(keyword, p, scorer, b);
      assert p[b] == vals[b];
    }
  }

  lemma {:induction false} RowScoresFrom(keyword: Value, vals: seq<Member>, scorer: Scorer, x: real) returns (b: nat)
    requires x in RowScores(keyword, vals, scorer)
    ensures b < |vals| && x == scorer(vals[b].val, keyword)
    decreases |vals|
  {
    var p := vals[..|vals| - 1];
    if x == scorer(vals[|vals| - 1].val, keyword) {
      b := |vals| - 1;
    } else {
      b := RowScoresFrom(keyword, p, scorer, x);
      assert p[b] == vals[b];
    }
  }

  /** Every (keyword, value) pair has its score among `PairScores`. */
  lemma {:induction false} PairScoresHas(keywords: seq<Value>, vals: seq<Member>, scorer: Scorer, a: nat, b: nat)
    requires a < |keywords| && b < |vals|
    ensures scorer(vals[b].val, keywords[a]) in PairScores(keywords, vals, scorer)
    decreases |keywords|
  {
    var n := |keywords| - 1;
    if a == n {
      RowScoresHas(keywords[n], vals, scorer, b);
    } else {
      PairScoresHas(keywords[..n], vals, scorer, a, b);
      assert keywords[..n][a] == keywords[a];
    }
  }

  /** Every entry of `PairScores` is the score of some (keyword, value) pair. */
  lemma {:induction false} PairScoresFrom(keywords: seq<Value>, vals: seq<Member>, scorer: Scorer, x: real) returns (a: nat, b: nat)
    requires x in PairScores(keywords, vals, scorer)
    ensures a < |keywords| && b < |vals| && x == scorer(vals[b].val, keywords[a])
    decreases |keywords|
  {
    var n := |keywords| - 1;
    var p := keywords[..n];
    if x in PairScores(p, vals, scorer) {
      a, b := PairScoresFrom(p, vals, scorer, x);
      assert p[a] == keywords[a];
    } else {
      a := n;
      b := RowScoresFrom(keywords[n], vals, scorer, x);
    }
  }

  /**
   * The score is the maximum over all (keyword, value) pairs: no pair scores higher, some pair
   * reaches it, and it is 0 when there is no keyword or no value.
   */
  lemma {:induction false} ScoreIsBestPair(meta: seq<Member>, keywords: Value, keys: Option<seq<string>>, scorer: Scorer)
    ensures var kws, vals := AsList(keywords), ScoredValues(meta, keys);
      var s := Score(meta, keywords, keys, scorer);
      && (forall a, b :: 0 <= a < |kws| && 0 <= b < |vals| ==> scorer(vals[b].val, kws[a]) <= s)
      && (kws == [] || vals == [] ==> s == 0.0)
      && (kws != [] && vals != [] ==>
            exists a, b :: 0 <= a < |kws| && 0 <= b < |vals| && scorer(vals[b].val, kws[a]) == s)
  {
    var kws, vals := AsList(keywords), ScoredValues(meta, keys);
    var ps := PairScores(kws, vals, scorer);
    if kws == [] || vals == [] {
      if ps != [] {
        var a, b := PairScoresFrom(kws, vals, scorer, ps[0]);
      }
    } else {
      PairScoresHas(kws, vals, scorer, 0, 0);
      MaxIsUpperBound(ps);
      forall a, b | 0 <= a < |kws| && 0 <= b < |vals|
        ensures scorer(vals[b].val, kws[a]) <= Max(ps)
      {
        PairScoresHas(kws, vals, scorer, a, b);
      }
      var i := MaxIsAttained(ps);
      var a, b := PairScoresFrom(kws, vals, scorer, ps[i]);
    }
  }

  /** With a scorer in [0, 100] the score is in [0, 100] as well. */
  lemma {:induction false} ScoreBounded(meta: seq<Member>, keywords: Value, keys: Option<seq<string>>, scorer: Scorer)
    requires ScorerBounded(scorer)
    ensures 0.0 <= Score(meta, keywords, keys, scorer) <= 100.0
  {
    ScoreIsBestPair(meta, keywords, keys, scorer);
    var kws, vals := AsList(keywords), ScoredValues(meta, keys);
    if kws != [] && vals != [] {
      var a, b :| 0 <= a < |kws| && 0 <= b < |vals| && scorer(vals[b].val, kws[a]) == Score(meta, keywords, keys, scorer);
    }
  }

  lemma {:induction false} SearchFieldsIgnore(meta: seq<Member>, keys: seq<string>, k: string, v: Value)
    requires k !in keys
    ensures SearchFields(Assign(meta, k, v), keys) == SearchFields(meta, keys)
  {
    if meta != [] && meta[0].key != k {
      SearchFieldsIgnore(meta[1..], keys, k, v);
      assert Assign(meta, k, v)[1..] == Assign(meta[1..], k, v);
    } else if meta != [] {
      assert Assign(meta, k, v)[1..] == meta[1..];
    }
  }

  /** Only the search keys are scored: setting any other key leaves the score unchanged. */
  lemma {:induction false} ScoreIgnoresOtherKeys(meta: seq<Member>, keywords: Value, keys: Option<seq<string>>, scorer: Scorer, k: string, v: Value)
    requires k !in (if keys.Some? then keys.value else DefaultSearchKeys)
    ensures Score(Assign(meta, k, v), keywords, keys, scorer) == Score(meta, keywords, keys, scorer)
  {
    SearchFieldsIgnore(meta, if keys.Some? then keys.value else DefaultSearchKeys, k, v);
  }

  /** Every scored field comes from the metadata under one of the search keys. */
  lemma {:induction false} SearchFieldsFromKeys(meta: seq<Member>, keys: seq<string>)
    ensures forall m :: m in SearchFields(meta, keys) <==> m in meta && m.key in keys
  {
    if meta != [] {
      SearchFieldsFromKeys(meta[1..], keys);
      assert meta == [meta[0]] + meta[1..];
    }
  }

  // ----- __str__ -----

  /** Every contributor is a dict whose "name" is a string. */
  predicate WellFormedAuthors(authors: seq<Value>) {
    forall i :: 0 <= i < |authors| ==> authors[i].Dict? && Get(authors[i].members, "name").Str?
  }

  /**
   * The contributor names, or what the list comprehension (a contributor that is not a dict)
   * or the join (a name that is not a string) raises, in that order.
   */
  function AuthorNames(authors: seq<Value>): (r: Result<seq<string>, Exception>)
    ensures r.Ok? <==> WellFormedAuthors(authors)
    ensures r.Err? ==> r.error == if exists i :: 0 <= i < |authors| && !authors[i].Dict? then NotADict else NotAString
    ensures r.Ok? ==>
              && |r.value| == |authors|
              && forall i :: 0 <= i < |authors| ==> r.value[i] == Get(authors[i].members, "name").s
  {
    if exists i :: 0 <= i < |authors| && !authors[i].Dict? then Err(NotADict)
    else if exists i :: 0 <= i < |authors| && !Get(authors[i].members, "name").Str? then Err(NotAString)
    else Ok(seq(|authors|, i requires 0 <= i < |authors| && authors[i].Dict? => Get(authors[i].members, "name").s))
  }

  /** The first line of a Herb's description. */
  function IdLine(meta: seq<Member>): string {
    "DataHerb ID: " + PyStr(Get(meta, "id")) + "\n"
  }

  /** The name and description lines and the contributors label; there is no line break after the name. */
  function MiddleLines(meta: seq<Member>): string {
    "name: " + PyStr(Get(meta, "name"))
      + "description: " + PyStr(Get(meta, "description")) + "\n"
      + "contributors: "
  }

  /** The contributor names `__str__` joins: iterating the contributors and reading their names. */
  function ContributorNames(meta: seq<Member>): Result<seq<string>, Exception> {
    match Elements(GetOr(meta, "contributors", List([])))
    case None => Err(NotIterable)
    case Some(authors) => AuthorNames(authors)
  }

  /** `Herb.__str__` of a Herb with this metadata; only the contributor names can raise. */
  function HerbString(meta: seq<Member>): Result<string, Exception> {
    match ContributorNames(meta)
    case Err(e) => Err(e)
    case Ok(names) => Ok(IdLine(meta) + MiddleLines(meta) + Data.Join(names, ", "))
  }

  lemma {:induction false} HerbStringFailure(meta: seq<Member>)
    ensures HerbString(meta).Ok? <==> ContributorNames(meta).Ok?
    ensures HerbString(meta).Err? ==> HerbString(meta).error == ContributorNames(meta).error
  {
  }

  /**
   * The description can be produced exactly when the contributors are a list of dicts with
   * string names, or an empty dict or string (which iterate to nothing).
   */
  lemma {:induction false} HerbStringDefined(meta: seq<Member>)
    ensures var cs := GetOr(meta, "contributors", List([]));
      HerbString(meta).Ok? <==> (cs.List? && WellFormedAuthors(cs.items)) || cs == Dict([]) || cs == Str("")
  {
    var cs := GetOr(meta, "contributors", List([]));
    if cs.Dict? && cs.members != [] {
      assert !Elements(cs).value[0].Dict?;
    } else if cs.Str? && cs.s != "" {
      assert !Elements(cs).value[0].Dict?;
    }
  }

  /** A description starts with the id line and ends with the comma-separated contributor names. */
  lemma {:induction false} HerbStringShape(meta: seq<Member>)
    requires HerbString(meta).Ok?
    ensures var names := AuthorNames(Elements(GetOr(meta, "contributors", List([]))).value).value;
      var r := HerbString(meta).value;
      var tail := Data.Join(names, ", ");
      && |IdLine(meta)| + |tail| <= |r|
      && r[..|IdLine(meta)|] == IdLine(meta)
      && r[|r| - |tail|..] == tail
  {
    var names := AuthorNames(Elements(GetOr(meta, "contributors", List([]))).value).value;
    var a, m, t := IdLine(meta), MiddleLines(meta), Data.Join(names, ", ");
    assert (a + m + t)[..|a|] == a;
    assert (a + m + t)[|a + m|..] == t;
  }

  // ----- Leaf -----

  const RawHost := "https://raw.githubusercontent.com/"

  /** The download URL of a data file: the raw-content URL of its path on the master branch. */
  function LeafUrl(repository: Value, path: Value): string {
    RawHost + PyStr(repository) + "/master/" + PyStr(path)
  }

  /**
   * The URL names the repository and the path: it has the raw-content host in front and the
   * path at its end, and for one repository different paths give different URLs.
   */
  lemma {:induction false} LeafUrlMeaning(repository: Value, path: Value, path': Value)
    ensures var u := LeafUrl(repository, path);
      && |RawHost + PyStr(repository) + "/master/"| <= |u|
      && u[..|RawHost + PyStr(repository) + "/master/"|] == RawHost + PyStr(repository) + "/master/"
      && u[|RawHost + PyStr(repository) + "/master/"|..] == PyStr(path)
    ensures PyStr(path) != PyStr(path') ==> LeafUrl(repository, path) != LeafUrl(repository, path')
  {
    var pre := RawHost + PyStr(repository) + "/master/";
    assert LeafUrl(repository, path) == pre + PyStr(path);
    assert LeafUrl(repository, path') == pre + PyStr(path');
    if LeafUrl(repository, path) == LeafUrl(repository, path') {
      assert PyStr(path) == LeafUrl(repository, path)[|pre|..];
    }
  }

  /** A data file of a Herb. */
  class Leaf {
    const leafMeta: seq<Member>
    const herb: Herb
    const url: string
    const format: Value
    const decode: Value
    const name: Value
    const description: Value
    const path: Value

    /** `Leaf(leaf_meta_json, herb)`. */
    constructor (leafMeta: seq<Member>, herb: Herb)
      ensures this.leafMeta == leafMeta && this.herb == herb
      ensures url == LeafUrl(herb.repository, Get(leafMeta, "path"))
      ensures format == Get(leafMeta, "format") && decode == GetOr(leafMeta, "decode", Str("utf-8"))
      ensures name == Get(leafMeta, "name") && description == Get(leafMeta, "description")
      ensures path == Get(leafMeta, "path")
    {
      this.leafMeta := leafMeta;
      this.herb := herb;
      url := LeafUrl(herb.repository, Get(leafMeta, "path"));
      format := Get(leafMeta, "format");
      decode := GetOr(leafMeta, "decode", Str("utf-8"));
      name := Get(leafMeta, "name");
      description := Get(leafMeta, "description");
      path := Get(leafMeta, "path");
    }

    /** `metadata(format=None)`: the leaf's own mapping for the JSON format, None otherwise. */
    function Metadata(fmt: Value): (r: Option<seq<Member>>)
      ensures r.Some? <==> fmt == Null || fmt == Str("json")
      ensures r.Some? ==> r.value == leafMeta
    {
      var f := if fmt == Null then Str("json") else fmt;
      if f == Str("json") then Some(leafMeta) else None
    }
  }
}
