/**
 * dataherb/flora.py: the registry, an ordered list of Herbs loaded from a local JSON file or a
 * remote URL and saved back as the list of the Herbs' metadata.
 */
module Registry {

  import opened Wrappers
  import opened Errors
  import opened Json
  import opened Base
  import opened Search

  /** `Path(p).exists()` followed by `json.load`: the document of an existing local file. */
  type LocalFiles = string -> Option<Value>

  /** What `add` accepts: a MetaData object, a descriptor dict, a Herb, or anything else. */
  datatype HerbInput =
    | FromMetaData(metadata: seq<Member>)
    | FromDict(meta: seq<Member>)
    | FromHerb(herb: Herb)
    | Unsupported

  /** The descriptor `add` builds a Herb from, when it builds one. */
  function InputMeta(input: HerbInput): seq<Member>
    requires input.FromMetaData? || input.FromDict?
  {
    if input.FromMetaData? then input.metadata else input.meta
  }

  /** `[h.metadata for h in herbs]`. */
  function Serialize(herbs: seq<Herb>): (r: seq<seq<Member>>)
    reads herbs
    ensures |r| == |herbs|
  {
    if herbs == [] then []
    else Serialize(herbs[..|herbs| - 1]) + [herbs[|herbs| - 1].metaJson]
  }

  /** No two Herbs of the registry share an id. */
  ghost predicate UniqueIds(herbs: seq<Herb>) {
    forall i, j :: 0 <= i < j < |herbs| ==> herbs[i].id != herbs[j].id
  }

  /** Appending a Herb whose id is new keeps the ids unique. */
  lemma {:induction false} AppendKeepsUniqueIds(herbs: seq<Herb>, herb: Herb)
    requires forall i :: 0 <= i < |herbs| ==> herbs[i].id != herb.id
    ensures UniqueIds(herbs) ==> UniqueIds(herbs + [herb])
  {
    var all := herbs + [herb];
    assert forall i :: 0 <= i < |herbs| ==> all[i] == herbs[i];
  }

  // ----- Loading -----

  /** The registry document: the local file when it exists, otherwise the remote one. */
  function FloraDocument(config: string, files: LocalFiles, fetch: Fetch): Result<Value, Exception> {
    if files(config).Some? then Ok(files(config).value)
    else
      var resp := fetch(Str(config));
      if resp.status != 200 then Err(FloraDownload(resp.status)) else Ok(resp.body)
  }

  /** `Herb(d)` for one registry descriptor: only a dict can be read with `.get`. */
  function DescriptorMeta(d: Value, fetch: Fetch): Result<seq<Member>, Exception> {
    if !d.Dict? then Err(NotADict) else InitialMeta(d.members, fetch)
  }

  /** `DescriptorMeta` as a function value. */
  function Builder(fetch: Fetch): Value -> Result<seq<Member>, Exception> {
    d => DescriptorMeta(d, fetch)
  }

  /** The metadata of `[Herb(d) for d in docs]`, in order, or the first failure. */
  function LoadedMeta(docs: seq<Value>, fetch: Fetch): Result<seq<seq<Member>>, Exception> {
    Traverse(docs, Builder(fetch))
  }

  /** `_get_flora(config)`: the metadata of the loaded Herbs. */
  function Load(config: string, files: LocalFiles, fetch: Fetch): Result<seq<seq<Member>>, Exception> {
    match FloraDocument(config, files, fetch)
    case Err(e) => Err(e)
    case Ok(doc) =>
      match Elements(doc)
      case None => Err(NotIterable)
      case Some(docs) => LoadedMeta(docs, fetch)
  }

  /** One more descriptor: its Herb is appended, or its failure becomes the result. */
  lemma {:induction false} LoadedMetaStep(docs: seq<Value>, i: nat, fetch: Fetch)
    requires i < |docs| && LoadedMeta(docs[..i], fetch).Ok?
    ensures LoadedMeta(docs[..i + 1], fetch) ==
              if !docs[i].Dict? then Err(NotADict)
              else if InitialMeta(docs[i].members, fetch).Err? then Err(InitialMeta(docs[i].members, fetch).error)
              else Ok(LoadedMeta(docs[..i], fetch).value + [InitialMeta(docs[i].members, fetch).value])
  {
    TraverseStep(docs, i, Builder(fetch));
  }

  /**
   * Loading turns each descriptor, in order, into one Herb: it succeeds exactly when every
   * descriptor is a dict whose Herb can be built, and then yields one metadata per descriptor.
   */
  lemma {:induction false} LoadedMetaMeaning(docs: seq<Value>, fetch: Fetch)
    ensures LoadedMeta(docs, fetch).Ok? <==>
              forall i :: 0 <= i < |docs| ==> docs[i].Dict? && InitialMeta(docs[i].members, fetch).Ok?
    ensures LoadedMeta(docs, fetch).Ok? ==>
              && |LoadedMeta(docs, fetch).value| == |docs|
              && forall i :: 0 <= i < |docs| ==>
                   LoadedMeta(docs, fetch).value[i] == InitialMeta(docs[i].members, fetch).value
  {
    TraverseMeaning(docs, Builder(fetch));
  }

  /** No duplicate check happens at load time: a document listing one descriptor twice loads both. */
  lemma {:induction false} LoadKeepsDuplicates(d: seq<Member>, fetch: Fetch)
    requires Truthy(Get(d, "datapackage"))
    ensures LoadedMeta([Dict(d), Dict(d)], fetch) == Ok([d, d])
  {
    var docs := [Dict(d), Dict(d)];
    assert InitialMeta(d, fetch) == Ok(d);
    assert docs[0] == Dict(d) && docs[1] == Dict(d);
    assert docs[..0] == [];
    assert LoadedMeta(docs[..0], fetch) == Ok([]);
    LoadedMetaStep(docs, 0, fetch);
    assert LoadedMeta(docs[..1], fetch).value == [] + [d] == [d];
    LoadedMetaStep(docs, 1, fetch);
    assert docs[..2] == docs;
    assert LoadedMeta(docs, fetch).value == [d] + [d] == [d, d];
  }

  /**
   * Saving and loading again is the identity on metadata whose datapackage is embedded, which it
   * is for every Herb whose fetched datapackage was truthy.
   */
  lemma {:induction false} ReloadSaved(ms: seq<seq<Member>>, fetch: Fetch)
    requires forall i :: 0 <= i < |ms| ==> Truthy(Get(ms[i], "datapackage"))
    ensures LoadedMeta(seq(|ms|, i requires 0 <= i < |ms| => Dict(ms[i])), fetch) == Ok(ms)
  {
    var docs := seq(|ms|, i requires 0 <= i < |ms| => Dict(ms[i]));
    LoadedMetaMeaning(docs, fetch);
    assert LoadedMeta(docs, fetch).Ok?;
    assert LoadedMeta(docs, fetch).value == ms;
  }

  lemma {:induction false} SerializePrefix(herbs: seq<Herb>, i: nat)
    requires i < |herbs|
    ensures Serialize(herbs[..i + 1]) == Serialize(herbs[..i]) + [herbs[i].metaJson]
  {
    assert herbs[..i + 1][..i] == herbs[..i];
  }

  /** The serialized list holds each Herb's metadata at the Herb's position. */
  lemma {:induction false} SerializeAt(herbs: seq<Herb>)
    ensures |Serialize(herbs)| == |herbs|
    ensures forall i :: 0 <= i < |herbs| ==> Serialize(herbs)[i] == herbs[i].metaJson
  {
    if herbs != [] {
      var p := herbs[..|herbs| - 1];
      SerializeAt(p);
      assert forall i :: 0 <= i < |p| ==> p[i] == herbs[i];
    }
  }

  /**
   * The part of `str(h)` that can raise, for every Herb in registry order, as the debug message
   * in the loop of `save` formats it before the file is opened: the contributor names, or the
   * first failure.
   */
  function Descriptions(herbs: seq<Herb>): Result<seq<seq<string>>, Exception>
    reads herbs
  {
    Traverse(Serialize(herbs), ContributorNames)
  }

  /** Each Herb's `str` fails exactly when its contributor names do, with the same error. */
  lemma {:induction false} HerbStringsFailure(herbs: seq<Herb>)
    ensures forall i :: 0 <= i < |herbs| ==>
              && (HerbString(herbs[i].metaJson).Ok? <==> ContributorNames(herbs[i].metaJson).Ok?)
              && (HerbString(herbs[i].metaJson).Err? ==>
                    HerbString(herbs[i].metaJson).error == ContributorNames(herbs[i].metaJson).error)
  {
    forall i | 0 <= i < |herbs| {
      HerbStringFailure(herbs[i].metaJson);
    }
  }

  /** `Descriptions` in terms of the contributor names of each Herb. */
  lemma {:induction false} DescriptionsByNames(herbs: seq<Herb>)
    ensures Descriptions(herbs).Ok? <==> forall i :: 0 <= i < |herbs| ==> ContributorNames(herbs[i].metaJson).Ok?
    ensures Descriptions(herbs).Err? ==>
              exists k :: 0 <= k < |herbs| && ContributorNames(herbs[k].metaJson) == Err(Descriptions(herbs).error)
                && forall i :: 0 <= i < k ==> ContributorNames(herbs[i].metaJson).Ok?
  {
    SerializeAt(herbs);
    TraverseMeaning(Serialize(herbs), ContributorNames);
  }

  /**
   * The descriptions exist exactly when every Herb's `str` does; otherwise the failure is that
   * of the first Herb whose `str` raises, a TypeError or an AttributeError.
   */
  lemma {:induction false} DescriptionsMeaning(herbs: seq<Herb>)
    ensures Descriptions(herbs).Ok? <==> forall i :: 0 <= i < |herbs| ==> HerbString(herbs[i].metaJson).Ok?
    ensures Descriptions(herbs).Err? ==>
              exists k :: 0 <= k < |herbs| && HerbString(herbs[k].metaJson) == Err(Descriptions(herbs).error)
                && forall i :: 0 <= i < k ==> HerbString(herbs[i].metaJson).Ok?
    ensures Descriptions(herbs).Err? ==> Descriptions(herbs).error in {NotIterable, NotADict, NotAString}
  {
    DescriptionsByNames(herbs);
    HerbStringsFailure(herbs);
    if Descriptions(herbs).Err? {
      var k :| 0 <= k < |herbs| && ContributorNames(herbs[k].metaJson) == Err(Descriptions(herbs).error)
        && forall i :: 0 <= i < k ==> ContributorNames(herbs[i].metaJson).Ok?;
      assert HerbString(herbs[k].metaJson) == Err(Descriptions(herbs).error);
    }
  }

  /**
   * A contributor without a string "name" makes `", ".join` raise inside `str(h)`, so a registry
   * holding such a Herb cannot be saved.
   */
  lemma NamelessContributorBlocksSave(herbs: seq<Herb>)
    requires |herbs| == 1
    requires herbs[0].metaJson ==
               [Member("id", Str("x")), Member("contributors", List([Dict([Member("github", Str("g"))])]))]
    ensures Descriptions(herbs) == Err(NotAString)
  {
    var meta := herbs[0].metaJson;
    var authors := [Dict([Member("github", Str("g"))])];
    assert "contributors" in Keys(meta) by { KeyAt(meta, 1); }
    assert meta[1..] == [Member("contributors", List(authors))];
    assert Get(meta, "contributors") == Get(meta[1..], "contributors") == List(authors);
    assert !Get(authors[0].members, "name").Str?;
    assert AuthorNames(authors) == Err(NotAString);
    assert ContributorNames(meta) == Err(NotAString);
    FirstDescriptionFails(herbs, 0);
  }

  /** The first Herb whose contributor names fail decides the failure of the descriptions. */
  lemma {:induction false} FirstDescriptionFails(herbs: seq<Herb>, i: nat)
    requires i < |herbs| && ContributorNames(herbs[i].metaJson).Err?
    requires forall k :: 0 <= k < i ==> ContributorNames(herbs[k].metaJson).Ok?
    ensures Descriptions(herbs) == Err(ContributorNames(herbs[i].metaJson).error)
  {
    DescriptionsByNames(herbs);
    var k :| 0 <= k < |herbs| && ContributorNames(herbs[k].metaJson) == Err(Descriptions(herbs).error)
      && forall j :: 0 <= j < k ==> ContributorNames(herbs[j].metaJson).Ok?;
    assert k == i;
  }

  /** When every Herb's contributor names can be read, the descriptions exist. */
  lemma {:induction false} AllDescribed(herbs: seq<Herb>)
    requires forall k :: 0 <= k < |herbs| ==> ContributorNames(herbs[k].metaJson).Ok?
    ensures Descriptions(herbs).Ok?
  {
    DescriptionsByNames(herbs);
  }

  lemma {:induction false} NamesReadable(herbs: seq<Herb>, i: nat)
    requires i < |herbs| && ContributorNames(herbs[i].metaJson).Ok?
    requires forall k :: 0 <= k < i ==> ContributorNames(herbs[k].metaJson).Ok?
    ensures forall k :: 0 <= k < i + 1 ==> ContributorNames(herbs[k].metaJson).Ok?
  {
  }

  /**
   * The loop of `save`: each Herb's `str` is formatted for the debug message, then its metadata
   * is appended; the first `str` that raises ends the loop. Of `str(h)`, only the contributor
   * names can raise, and the text itself is not kept.
   */
  method SerializeHerbs(herbs: seq<Herb>) returns (r: Result<seq<seq<Member>>, Exception>)
    ensures r.Ok? <==> Descriptions(herbs).Ok?
    ensures r.Ok? ==> r.value == Serialize(herbs)
    ensures r.Err? ==> r.error == Descriptions(herbs).error
  {
    var serializedFlora: seq<seq<Member>> := [];
    for i := 0 to |herbs|
      invariant serializedFlora == Serialize(herbs[..i])
      invariant forall k :: 0 <= k < i ==> ContributorNames(herbs[k].metaJson).Ok?
    {
      var authors := ContributorNames(herbs[i].metaJson);
      if authors.Err? {
        FirstDescriptionFails(herbs, i);
        return Err(authors.error);
      }
      SerializePrefix(herbs, i);
      NamesReadable(herbs, i);
      serializedFlora := serializedFlora + [herbs[i].metaJson];
    }
    assert herbs[..|herbs|] == herbs;
    AllDescribed(herbs);
    return Ok(serializedFlora);
  }

  // ----- The registry -----

  class Flora {
    /** `flora_config`: the local path or URL the registry came from and is saved to. */
    const floraConfig: string
    /** `flora`: the Herbs, in order. */
    var flora: seq<Herb>
    /** The JSON documents written so far, by path. */
    ghost var saved: map<string, seq<seq<Member>>>

    /** The field assignments of `__init__`; loading is `Open`. */
    constructor (config: string, herbs: seq<Herb>)
      ensures floraConfig == config && flora == herbs && saved == map[]
    {
      floraConfig := config;
      flora := herbs;
      saved := map[];
    }

    /** The file `save(path)` writes to. */
    function Target(path: Option<string>): string {
      if path.None? then floraConfig else path.value
    }

    /**
     * `save(path)`: writes the metadata of every Herb, in registry order. An empty registry fails
     * on `self.flora[0]`, and a Herb whose `str` raises in the loop's debug message stops the save;
     * in both cases nothing is written.
     */
    method Save(path: Option<string>) returns (r: Outcome<Exception>)
      modifies this`saved
      ensures flora == [] ==> r == Fail(EmptyFlora) && saved == old(saved)
      ensures flora != [] && Descriptions(flora).Err? ==>
                r == Fail(Descriptions(flora).error) && saved == old(saved)
      ensures flora != [] && Descriptions(flora).Ok? ==>
                r == Pass && saved == old(saved)[Target(path) := Serialize(flora)]
    {
      if flora == [] {
        return Fail(EmptyFlora);
      }
      var serializedFlora := SerializeHerbs(flora);
      if serializedFlora.Err? {
        return Fail(serializedFlora.error);
      }
      saved := saved[Target(path) := serializedFlora.value];
      return Pass;
    }

    /**
     * `add(herb)`: normalises the input into a Herb, refuses an id already in the registry, appends
     * and saves to `flora_config`. A failure before the append changes nothing; a failing save
     * keeps the appended Herb and writes nothing. Once appended, the ids stay unique.
     */
    method Add(input: HerbInput, fetch: Fetch) returns (r: Outcome<Exception>)
      modifies this
      ensures input.Unsupported? ==> r == Fail(UnsupportedHerbInput) && flora == old(flora)
      ensures (input.FromMetaData? || input.FromDict?) && InitialMeta(InputMeta(input), fetch).Err? ==>
                r == Fail(InitialMeta(InputMeta(input), fetch).error) && flora == old(flora)
      ensures r.Fail? ==> saved == old(saved)
      ensures r.Fail? && r.error.DuplicateId? ==>
                && flora == old(flora)
                && exists i :: 0 <= i < |flora| && flora[i].id == r.error.id
      ensures flora == old(flora) || (|flora| == |old(flora)| + 1 && flora[..|old(flora)|] == old(flora))
      ensures r.Pass? ==> flora != old(flora)
      ensures flora != old(flora) ==>
                && (forall i :: 0 <= i < |old(flora)| ==> old(flora)[i].id != flora[|old(flora)|].id)
                && (old(UniqueIds(flora)) ==> UniqueIds(flora))
                && (r.Pass? <==> Descriptions(flora).Ok?)
                && (r.Pass? ==> saved == old(saved)[floraConfig := Serialize(flora)])
                && (r.Fail? ==> r.error == Descriptions(flora).error)
      ensures flora != old(flora) && input.FromHerb? ==> flora[|old(flora)|] == input.herb
      ensures flora != old(flora) && !input.FromHerb? ==>
                && fresh(flora[|old(flora)|])
                && flora[|old(flora)|].metaJson == InitialMeta(InputMeta(input), fetch).value
                && flora[|old(flora)|].id == Get(InputMeta(input), "id")
      ensures input.FromHerb? ==>
                (flora != old(flora) <==> forall i :: 0 <= i < |old(flora)| ==> old(flora)[i].id != input.herb.id)
      ensures (input.FromMetaData? || input.FromDict?) && InitialMeta(InputMeta(input), fetch).Ok? ==>
                (flora != old(flora) <==> forall i :: 0 <= i < |old(flora)| ==> old(flora)[i].id != Get(InputMeta(input), "id"))
    {
      var herb: Herb;
      if input.FromMetaData? || input.FromDict? {
        var built := NewHerb(InputMeta(input), fetch);
        if built.Err? {
          return Fail(built.error);
        }
        herb := built.value;
      } else if input.FromHerb? {
        herb := input.herb;
      } else {
        return Fail(UnsupportedHerbInput);
      }
      var duplicate := HasId(flora, herb.id);
      if duplicate {
        return Fail(DuplicateId(herb.id));
      }
      AppendKeepsUniqueIds(flora, herb);
      flora := flora + [herb];
      assert flora[..|old(flora)|] == old(flora);
      assert |flora| != |old(flora)|;
      r := Save(None);
      if r.Fail? {
        DescriptionsMeaning(flora);
      }
    }

    /** `search(keywords)`: a lone string keyword is wrapped into a list; the threshold is 50. */
    method Search(keywords: Value, scorer: Scorer) returns (r: seq<ScoredHerb>)
      ensures r == AtLeast(SortDesc(Scored(flora, keywords, scorer)), DefaultMinScore)
    {
      var kws := if keywords.Str? then List([keywords]) else keywords;
      r := SearchByKeywords(flora, kws, DefaultMinScore, scorer);
      ScoredUnwrapped(flora, keywords, scorer);
    }

    /** `herb_meta(id)`: the metadata of the first Herb whose id matches, or None. */
    method HerbMeta(id: Value) returns (r: Option<seq<Member>>)
      ensures FirstMatch(flora, AsList(id)).None? ==> r == None
      ensures FirstMatch(flora, AsList(id)).Some? ==> r == Some(FirstMatch(flora, AsList(id)).value.metaJson)
    {
      var herbs := SearchByIds(flora, id);
      IdMatchesHead(flora, AsList(id));
      if herbs != [] {
        var herb := herbs[0].herb;
        return Some(herb.metaJson);
      }
      return None;
    }

    /** `herb(id)`: the first Herb whose id matches, or None. */
    method HerbById(id: Value) returns (r: Option<Herb>)
      ensures r == FirstMatch(flora, AsList(id))
    {
      var herbs := SearchByIds(flora, id);
      var herbMeta := HerbMeta(id);
      IdMatchesHead(flora, AsList(id));
      if herbs != [] {
        return Some(herbs[0].herb);
      }
      return None;
    }
  }

  /** The duplicate scan of `add`: whether some Herb of the registry has the id. */
  method HasId(herbs: seq<Herb>, id: Value) returns (found: bool)
    ensures found <==> exists i :: 0 <= i < |herbs| && herbs[i].id == id
  {
    var i := 0;
    while i < |herbs|
      invariant 0 <= i <= |herbs|
      invariant forall k :: 0 <= k < i ==> herbs[k].id != id
    {
      if herbs[i].id == id {
        return true;
      }
      i := i + 1;
    }
    return false;
  }

  /** Wrapping a lone string keyword changes no score: `search_score` wraps it the same way. */
  lemma {:induction false} ScoredUnwrapped(flora: seq<Herb>, keywords: Value, scorer: Scorer)
    ensures Scored(flora, if keywords.Str? then List([keywords]) else keywords, scorer) == Scored(flora, keywords, scorer)
  {
    var kws := if keywords.Str? then List([keywords]) else keywords;
    assert AsList(kws) == AsList(keywords);
    if flora != [] {
      ScoredUnwrapped(flora[..|flora| - 1], keywords, scorer);
    }
  }

  /** `Herb(herb)` for one registry descriptor, which must be a dict for `.get` to work. */
  method BuildHerb(d: Value, fetch: Fetch) returns (r: Result<Herb, Exception>)
    ensures r.Ok? <==> DescriptorMeta(d, fetch).Ok?
    ensures r.Err? ==> r.error == DescriptorMeta(d, fetch).error
    ensures r.Ok? ==>
              && fresh(r.value)
              && r.value.metaJson == DescriptorMeta(d, fetch).value
              && r.value.id == Get(DescriptorMeta(d, fetch).value, "id")
              && r.value.name == Get(DescriptorMeta(d, fetch).value, "name")
  {
    if !d.Dict? {
      return Err(NotADict);
    }
    r := NewHerb(d.members, fetch);
  }

  /** `[Herb(herb) for herb in flora]`: one fresh Herb per descriptor, in order, or the first failure. */
  method BuildHerbs(items: seq<Value>, fetch: Fetch) returns (r: Result<seq<Herb>, Exception>)
    ensures r.Ok? <==> LoadedMeta(items, fetch).Ok?
    ensures r.Err? ==> LoadedMeta(items, fetch) == Err(r.error)
    ensures r.Ok? ==> Serialize(r.value) == LoadedMeta(items, fetch).value
    ensures r.Ok? ==> forall i :: 0 <= i < |r.value| ==> fresh(r.value[i])
    ensures r.Ok? ==>
              forall i :: 0 <= i < |r.value| ==>
                && r.value[i].id == Get(LoadedMeta(items, fetch).value[i], "id")
                && r.value[i].name == Get(LoadedMeta(items, fetch).value[i], "name")
  {
    var herbs: seq<Herb> := [];
    ghost var metas: seq<seq<Member>> := [];
    assert items[..0] == [];
    for i := 0 to |items|
      invariant |herbs| == |metas|
      invariant Traverse(items[..i], Builder(fetch)) == Ok(metas)
      invariant forall k :: 0 <= k < |herbs| ==> fresh(herbs[k]) && herbs[k].metaJson == metas[k]
      invariant forall k :: 0 <= k < |herbs| ==>
                  herbs[k].id == Get(metas[k], "id") && herbs[k].name == Get(metas[k], "name")
    {
      TraverseStep(items, i, Builder(fetch));
      var h := BuildHerb(items[i], fetch);
      if h.Err? {
        TraverseFailurePersists(items, i + 1, Builder(fetch));
        return Err(h.error);
      }
      herbs := herbs + [h.value];
      metas := metas + [h.value.metaJson];
    }
    assert items[..|items|] == items;
    SerializeAt(herbs);
    assert Serialize(herbs) == metas;
    return Ok(herbs);
  }

  /**
   * `_get_flora(config)`: the registry document, local or remote, with each descriptor turned
   * into one fresh Herb, in order.
   */
  method GetFlora(config: string, files: LocalFiles, fetch: Fetch) returns (r: Result<seq<Herb>, Exception>)
    ensures r.Ok? <==> Load(config, files, fetch).Ok?
    ensures r.Err? ==> Load(config, files, fetch) == Err(r.error)
    ensures r.Ok? ==> Serialize(r.value) == Load(config, files, fetch).value
    ensures r.Ok? ==>
              forall i :: 0 <= i < |r.value| ==>
                && fresh(r.value[i])
                && r.value[i].id == Get(Load(config, files, fetch).value[i], "id")
                && r.value[i].name == Get(Load(config, files, fetch).value[i], "name")
  {
    var doc: Value;
    var local := files(config);
    if local.Some? {
      doc := local.value;
    } else {
      var floraRequest := fetch(Str(config));
      if floraRequest.status != 200 {
        return Err(FloraDownload(floraRequest.status));
      }
      doc := floraRequest.body;
    }
    var docs := Elements(doc);
    if docs.None? {
      return Err(NotIterable);
    }
    r := BuildHerbs(docs.value, fetch);
  }

  /**
   * `Flora(flora)`: a non-string argument raises; a string is kept as `flora_config` and the
   * registry is loaded from it, each descriptor becoming one fresh Herb, in order, whose `id`
   * and `name` are those of its loaded metadata.
   */
  method Open(arg: Value, files: LocalFiles, fetch: Fetch) returns (r: Result<Flora, Exception>)
    ensures !arg.Str? ==> r == Err(FloraNotString)
    ensures arg.Str? ==> (r.Ok? <==> Load(arg.s, files, fetch).Ok?)
    ensures arg.Str? && r.Err? ==> Load(arg.s, files, fetch) == Err(r.error)
    ensures r.Ok? ==>
              && fresh(r.value)
              && r.value.floraConfig == arg.s
              && Serialize(r.value.flora) == Load(arg.s, files, fetch).value
              && r.value.saved == map[]
    ensures r.Ok? ==>
              forall i :: 0 <= i < |r.value.flora| ==>
                && fresh(r.value.flora[i])
                && r.value.flora[i].id == Get(Load(arg.s, files, fetch).value[i], "id")
                && r.value.flora[i].name == Get(Load(arg.s, files, fetch).value[i], "name")
  {
    if !arg.Str? {
      return Err(FloraNotString);
    }
    var config := arg.s;
    var herbs := GetFlora(config, files, fetch);
    if herbs.Err? {
      return Err(herbs.error);
    }
    SerializeAt(herbs.value);
    var f := new Flora(config, herbs.value);
    return Ok(f);
  }
}
