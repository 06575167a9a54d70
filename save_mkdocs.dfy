/**
 * dataherb/serve/save_mkdocs.py: the YAML front matter of the markdown page written for one Herb
 * when the registry is served as an MkDocs site. The file write itself is left out: each method
 * returns the text it would write.
 */
module Mkdocs {

  import opened Wrappers
  import opened Errors
  import opened Json
  import Base
  import Data

  predicate StartsWith(s: string, p: string) {
    |p| <= |s| && s[..|p|] == p
  }

  predicate EndsWith(s: string, p: string) {
    |p| <= |s| && s[|s| - |p|..] == p
  }

  lemma {:induction false} StartsWithSelf(a: string, b: string)
    ensures StartsWith(a + b, a)
  {
    assert (a + b)[..|a|] == a;
  }

  lemma {:induction false} StartsWithMore(s: string, p: string, b: string)
    requires StartsWith(s, p)
    ensures StartsWith(s + b, p)
  {
    assert (s + b)[..|p|] == s[..|p|];
  }

  lemma {:induction false} StartsWithBoth(a: string, s: string, p: string)
    requires StartsWith(s, p)
    ensures StartsWith(a + s, a + p)
  {
    assert (a + s)[..|a + p|] == a + s[..|p|];
  }

  lemma {:induction false} EndsWithTail(a: string, b: string)
    ensures EndsWith(a + b, b)
  {
    assert (a + b)[|a + b| - |b|..] == b;
  }

  lemma {:induction false} EndsWithMore(a: string, s: string, e: string)
    requires EndsWith(s, e)
    ensures EndsWith(a + s, e)
  {
    assert (a + s)[|a + s| - |e|..] == s[|s| - |e|..];
  }

  lemma {:induction false} EndsWithBoth(s: string, e: string, z: string)
    requires EndsWith(s, e)
    ensures EndsWith(s + z, e + z)
  {
    assert (s + z)[|s + z| - |e + z|..] == s[|s| - |e|..] + z;
  }

  /** How many times `c` occurs in `s`. */
  function Count(s: string, c: char): nat {
    if s == [] then 0 else Count(s[..|s| - 1], c) + (if s[|s| - 1] == c then 1 else 0)
  }

  lemma {:induction false} CountConcat(a: string, b: string, c: char)
    ensures Count(a + b, c) == Count(a, c) + Count(b, c)
    decreases |b|
  {
    if b != [] {
      var b' := b[..|b| - 1];
      assert (a + b)[..|a + b| - 1] == a + b';
      CountConcat(a, b', c);
    } else {
      assert a + b == a;
    }
  }

  // ----- Keyword lists -----

  /** The line `_generate_markdown_list_meta` adds for one item: `\n  - "item"`. */
  function ItemLine(x: Value): string {
    "\n  - \"" + PyStr(x) + "\""
  }

  /** The strings `f` gives for the elements of `xs`, concatenated in order. */
  function ConcatMap<T>(xs: seq<T>, f: T -> string): string {
    if xs == [] then "" else ConcatMap(xs[..|xs| - 1], f) + f(xs[|xs| - 1])
  }

  /** The item lines of a list block, in item order. */
  function ItemLines(xs: seq<Value>): string {
    ConcatMap(xs, ItemLine)
  }

  /**
   * `_generate_markdown_list_meta(dic_lists, name)`: nothing for a falsy value; otherwise
   * `name:` followed by one line per item and a final newline. A truthy value that cannot be
   * iterated raises.
   */
  function ListMeta(dicLists: Value, name: string): Result<string, Exception> {
    if !Truthy(dicLists) then Ok("")
    else
      match Elements(dicLists)
      case None => Err(NotIterable)
      case Some(xs) => Ok(name + ":" + ItemLines(xs) + "\n")
  }

  /** The loop of `_generate_markdown_list_meta`, adding one item line per step. */
  method GenerateMarkdownListMeta(dicLists: Value, name: string) returns (r: Result<string, Exception>)
    ensures r == ListMeta(dicLists, name)
  {
    if !Truthy(dicLists) {
      return Ok("");
    }
    var items := Elements(dicLists);
    if items.None? {
      return Err(NotIterable);
    }
    var xs := items.value;
    var head := name + ":";
    var mdMkdocs := head;
    var i := 0;
    while i < |xs|
      invariant 0 <= i <= |xs|
      invariant mdMkdocs == head + ItemLines(xs[..i])
    {
      var line := ItemLine(xs[i]);
      ItemLinesStep(head, xs, i);
      mdMkdocs := mdMkdocs + line;
      i := i + 1;
    }
    assert xs[..|xs|] == xs;
    mdMkdocs := mdMkdocs + "\n";
    return Ok(mdMkdocs);
  }

  /** One more item appends its line to whatever text precedes the item lines. */
  lemma ItemLinesStep(head: string, xs: seq<Value>, i: nat)
    requires i < |xs|
    ensures head + ItemLines(xs[..i + 1]) == head + ItemLines(xs[..i]) + ItemLine(xs[i])
  {
    assert xs[..i + 1][..i] == xs[..i];
    var done := ItemLines(xs[..i]);
    assert head + (done + ItemLine(xs[i])) == head + done + ItemLine(xs[i]);
  }

  lemma {:induction false} ConcatMapAppend<T>(a: seq<T>, b: seq<T>, f: T -> string)
    ensures ConcatMap(a + b, f) == ConcatMap(a, f) + ConcatMap(b, f)
    decreases |b|
  {
    if b != [] {
      var b' := b[..|b| - 1];
      assert (a + b)[..|a + b| - 1] == a + b';
      assert (a + b)[|a + b| - 1] == b[|b| - 1];
      ConcatMapAppend(a, b', f);
    } else {
      assert a + b == a;
    }
  }

  lemma {:induction false} ConcatMapAt<T>(xs: seq<T>, i: nat, f: T -> string)
    requires i < |xs|
    ensures ConcatMap(xs, f) == ConcatMap(xs[..i], f) + f(xs[i]) + ConcatMap(xs[i + 1..], f)
  {
    var front := xs[..i + 1];
    assert xs == front + xs[i + 1..];
    ConcatMapAppend(front, xs[i + 1..], f);
    assert front[..i] == xs[..i];
  }

  /** Every item has its own line, after the lines of the items before it and before the rest. */
  lemma {:induction false} ItemLinesAt(xs: seq<Value>, i: nat)
    requires i < |xs|
    ensures ItemLines(xs) == ItemLines(xs[..i]) + ItemLine(xs[i]) + ItemLines(xs[i + 1..])
  {
    ConcatMapAt(xs, i, ItemLine);
  }

  /** When no item prints a newline, the block has exactly one line per item. */
  lemma {:induction false} ItemLinesCount(xs: seq<Value>)
    requires forall i :: 0 <= i < |xs| ==> '\n' !in PyStr(xs[i])
    ensures Count(ItemLines(xs), '\n') == |xs|
  {
    if xs != [] {
      var p := xs[..|xs| - 1];
      var x := xs[|xs| - 1];
      ItemLinesCount(p);
      CountConcat(ItemLines(p), ItemLine(x), '\n');
      CountConcat("\n  - \"" + PyStr(x), "\"", '\n');
      CountConcat("\n  - \"", PyStr(x), '\n');
      assert Count("\"", '\n') == 0 by { assert "\""[..0] == []; }
      NoNewlineCount(PyStr(x));
      NewlineRowCount();
    }
  }

  lemma {:induction false} NoNewlineCount(s: string)
    requires '\n' !in s
    ensures Count(s, '\n') == 0
  {
    if s != [] {
      assert s[|s| - 1] in s;
      var p := s[..|s| - 1];
      assert forall c :: c in p ==> c in s;
      NoNewlineCount(p);
    }
  }

  lemma {:induction false} NewlineRowCount()
    ensures Count("\n  - \"", '\n') == 1
  {
    assert "\n  - \"" == "\n" + "  - \"";
    CountConcat("\n", "  - \"", '\n');
    assert Count("\n", '\n') == 1 by { assert "\n"[..0] == []; }
    NoNewlineCount("  - \"");
  }

  /**
   * The list block is empty exactly for a falsy value; a truthy one that can be iterated gives a
   * block that starts with `name:`, ends with a newline, and holds the item lines in between;
   * only a truthy value that cannot be iterated fails.
   */
  lemma {:induction false} ListMetaMeaning(dicLists: Value, name: string)
    ensures ListMeta(dicLists, name).Ok? <==> !Truthy(dicLists) || Elements(dicLists).Some?
    ensures ListMeta(dicLists, name).Err? ==> ListMeta(dicLists, name).error == NotIterable
    ensures ListMeta(dicLists, name).Ok? ==> (ListMeta(dicLists, name).value == "" <==> !Truthy(dicLists))
    ensures Truthy(dicLists) && Elements(dicLists).Some? ==>
              var r := ListMeta(dicLists, name).value;
              var xs := Elements(dicLists).value;
              && StartsWith(r, name + ":")
              && EndsWith(r, "\n")
              && r[|name + ":"|..|r| - 1] == ItemLines(xs)
  {
    if Truthy(dicLists) && Elements(dicLists).Some? {
      var xs := Elements(dicLists).value;
      StartsWithSelf(name + ":", ItemLines(xs));
      StartsWithMore(name + ":" + ItemLines(xs), name + ":", "\n");
      EndsWithTail(name + ":" + ItemLines(xs), "\n");
      var r := ListMeta(dicLists, name).value;
      assert r == (name + ":") + ItemLines(xs) + "\n";
      assert r[|name + ":"|..|r| - 1] == ItemLines(xs);
    }
  }

  /** A name and items without newlines give one line for the name and one per item. */
  lemma {:induction false} ListMetaLines(dicLists: Value, name: string)
    requires Truthy(dicLists) && Elements(dicLists).Some?
    requires '\n' !in name
    requires forall i :: 0 <= i < |Elements(dicLists).value| ==> '\n' !in PyStr(Elements(dicLists).value[i])
    ensures Count(ListMeta(dicLists, name).value, '\n') == |Elements(dicLists).value| + 1
  {
    var xs := Elements(dicLists).value;
    ItemLinesCount(xs);
    CountConcat(name + ":" + ItemLines(xs), "\n", '\n');
    CountConcat(name + ":", ItemLines(xs), '\n');
    CountConcat(name, ":", '\n');
    NoNewlineCount(name);
    assert ":"[..0] == [] && "\n"[..0] == [];
  }

  // ----- Front matter -----

  /** The closing delimiter, as written after every front matter. */
  const Closing: string := "---\n  "

  /** `---` and the quoted title, the Herb's name. */
  function TitleLine(meta: seq<Member>): string {
    "---\ntitle: \"" + PyStr(Get(meta, "name")) + "\"\n"
  }

  /** The quoted description, only when it is truthy. */
  function DescriptionLine(meta: seq<Member>): string {
    var d := Get(meta, "description");
    if Truthy(d) then "description: \"" + PyStr(d) + "\"\n" else ""
  }

  /** The category as the source writes it: with no newline before the closing delimiter. */
  function CategoryLineAsWritten(meta: seq<Member>): string {
    var c := Get(meta, "category");
    if Truthy(c) then "category: " + PyStr(c) else ""
  }

  /** The category line ended by a newline, so that the closing delimiter gets a line of its own. */
  function CategoryLine(meta: seq<Member>): string {
    var c := Get(meta, "category");
    if Truthy(c) then "category: " + PyStr(c) + "\n" else ""
  }

  /** The front matter of `save_one_markdown_alt`, exactly as the source assembles it. */
  function FrontMatterAsWritten(meta: seq<Member>): Result<string, Exception> {
    match ListMeta(Get(meta, "tags"), "keywords")
    case Err(e) => Err(e)
    case Ok(keywords) => Ok(TitleLine(meta) + DescriptionLine(meta) + keywords + CategoryLineAsWritten(meta) + Closing)
  }

  /** The front matter with the category line terminated. */
  function FrontMatter(meta: seq<Member>): Result<string, Exception> {
    match ListMeta(Get(meta, "tags"), "keywords")
    case Err(e) => Err(e)
    case Ok(keywords) => Ok(TitleLine(meta) + DescriptionLine(meta) + keywords + CategoryLine(meta) + Closing)
  }

  /**
   * As written, a truthy category whose text does not end in a newline leaves the closing `---`
   * on the category's line, so the front matter is never closed by a `---` line.
   */
  lemma {:induction false} FrontMatterAsWrittenUnclosed(meta: seq<Member>)
    requires Truthy(Get(meta, "category"))
    requires PyStr(Get(meta, "category")) != [] && PyStr(Get(meta, "category"))[|PyStr(Get(meta, "category"))| - 1] != '\n'
    requires ListMeta(Get(meta, "tags"), "keywords").Ok?
    ensures FrontMatterAsWritten(meta).Ok? && !EndsWith(FrontMatterAsWritten(meta).value, "\n" + Closing)
  {
    var r := FrontMatterAsWritten(meta).value;
    var c := PyStr(Get(meta, "category"));
    var pre := TitleLine(meta) + DescriptionLine(meta) + ListMeta(Get(meta, "tags"), "keywords").value + "category: ";
    assert r == (pre + c) + Closing;
    assert r[|r| - |"\n" + Closing|] == c[|c| - 1];
  }

  /** A registry entry with a name and a category "c" and nothing else shows the unclosed header. */
  lemma {:induction false} CategoryCounterexample()
    ensures FrontMatterAsWritten([Member("name", Str("n")), Member("category", Str("c"))]).Ok?
    ensures !EndsWith(FrontMatterAsWritten([Member("name", Str("n")), Member("category", Str("c"))]).value, "\n" + Closing)
  {
    var meta := [Member("name", Str("n")), Member("category", Str("c"))];
    assert UniqueKeys(meta);
    GetAt(meta, 1);
    assert Get(meta, "tags") == Null by {
      KeysAt(meta);
      assert "tags" !in Keys(meta);
    }
    FrontMatterAsWrittenUnclosed(meta);
  }

  /** How the five parts of a front matter sit in their concatenation. */
  lemma {:induction false} PartsInOrder(t: string, d: string, kw: string, c: string, z: string, p: string)
    requires StartsWith(kw, p)
    ensures StartsWith(t + d + kw + c + z, t)
    ensures StartsWith(t + d + kw + c + z, t + d)
    ensures StartsWith(t + d + kw + c + z, t + d + p)
    ensures EndsWith(t + d + kw + c + z, c + z)
  {
    StartsWithSelf(t, d);
    StartsWithMore(t + d, t, kw);
    StartsWithMore(t + d + kw, t, c);
    StartsWithMore(t + d + kw + c, t, z);
    StartsWithSelf(t + d, kw);
    StartsWithMore(t + d + kw, t + d, c);
    StartsWithMore(t + d + kw + c, t + d, z);
    StartsWithBoth(t + d, kw, p);
    StartsWithMore(t + d + kw, t + d + p, c);
    StartsWithMore(t + d + kw + c, t + d + p, z);
    EndsWithTail(t + d + kw, c + z);
    assert t + d + kw + c + z == t + d + kw + (c + z);
  }

  /** The front matter fails exactly on truthy tags that cannot be iterated. */
  lemma {:induction false} FrontMatterDefined(meta: seq<Member>)
    ensures FrontMatter(meta).Ok? <==> !Truthy(Get(meta, "tags")) || Elements(Get(meta, "tags")).Some?
    ensures FrontMatter(meta).Err? ==> FrontMatter(meta).error == NotIterable
  {
    ListMetaMeaning(Get(meta, "tags"), "keywords");
  }

  /**
   * The front matter opens with `---` and the quoted title, and always ends with the closing
   * `---` on a line of its own.
   */
  lemma {:induction false} FrontMatterDelimited(meta: seq<Member>)
    requires FrontMatter(meta).Ok?
    ensures StartsWith(FrontMatter(meta).value, "---\ntitle: \"" + PyStr(Get(meta, "name")) + "\"\n")
    ensures EndsWith(FrontMatter(meta).value, "\n" + Closing)
  {
    var kw := ListMeta(Get(meta, "tags"), "keywords").value;
    ListMetaMeaning(Get(meta, "tags"), "keywords");
    PartsInOrder(TitleLine(meta), DescriptionLine(meta), kw, CategoryLine(meta), Closing, "");
    NewlineBeforeClosing(TitleLine(meta), DescriptionLine(meta), kw, CategoryLine(meta));
  }

  /**
   * The description line comes right after the title when the description is truthy, the
   * keywords block after that when the tags are, a truthy category comes last before the
   * closing delimiter, and with none of the three only the title is left.
   */
  lemma {:induction false} FrontMatterSections(meta: seq<Member>)
    requires FrontMatter(meta).Ok?
    ensures Truthy(Get(meta, "description")) ==>
              StartsWith(FrontMatter(meta).value, TitleLine(meta) + ("description: \"" + PyStr(Get(meta, "description")) + "\"\n"))
    ensures Truthy(Get(meta, "tags")) ==>
              StartsWith(FrontMatter(meta).value, TitleLine(meta) + DescriptionLine(meta) + ("keywords" + ":"))
    ensures Truthy(Get(meta, "category")) ==>
              EndsWith(FrontMatter(meta).value, "category: " + PyStr(Get(meta, "category")) + "\n" + Closing)
    ensures !Truthy(Get(meta, "description")) && !Truthy(Get(meta, "tags")) && !Truthy(Get(meta, "category")) ==>
              FrontMatter(meta).value == TitleLine(meta) + Closing
  {
    var tags := Get(meta, "tags");
    var kw := ListMeta(tags, "keywords").value;
    var t := TitleLine(meta);
    var d := DescriptionLine(meta);
    var c := CategoryLine(meta);
    ListMetaMeaning(tags, "keywords");
    assert FrontMatter(meta).value == t + d + kw + c + Closing;
    if Truthy(tags) {
      PartsInOrder(t, d, kw, c, Closing, "keywords" + ":");
    } else {
      PartsInOrder(t, d, kw, c, Closing, "");
    }
    if !Truthy(Get(meta, "description")) && !Truthy(tags) && !Truthy(Get(meta, "category")) {
      assert t + d + kw + c == t;
    }
  }

  /** Every part before the closing delimiter that is not empty ends in a newline. */
  lemma {:induction false} NewlineBeforeClosing(t: string, d: string, kw: string, c: string)
    requires EndsWith(t, "\n")
    requires d == "" || EndsWith(d, "\n")
    requires kw == "" || EndsWith(kw, "\n")
    requires c == "" || EndsWith(c, "\n")
    ensures EndsWith(t + d + kw + c + Closing, "\n" + Closing)
  {
    var td := t + d;
    if d != "" { EndsWithMore(t, d, "\n"); } else { assert td == t; }
    var tdk := td + kw;
    if kw != "" { EndsWithMore(td, kw, "\n"); } else { assert tdk == td; }
    var pre := tdk + c;
    if c != "" { EndsWithMore(tdk, c, "\n"); } else { assert pre == tdk; }
    EndsWithBoth(pre, "\n", Closing);
  }

  /**
   * `save_one_markdown_alt(herb, path)` without the write: reads the Herb's name, description,
   * tags and category and assembles the front matter piece by piece.
   */
  method SaveOneMarkdownAlt(herb: Base.Herb) returns (r: Result<string, Exception>)
    ensures r == FrontMatter(herb.metaJson)
  {
    var herbMetadata := herb.metaJson;
    var metadataTitle := Get(herbMetadata, "name");
    var metadataDescription := Get(herbMetadata, "description");
    var metadataTags := Get(herbMetadata, "tags");
    var metadataCategory := Get(herbMetadata, "category");
    var keywords := GenerateMarkdownListMeta(metadataTags, "keywords");
    if keywords.Err? {
      return Err(keywords.error);
    }
    var mdMkdocs := "---\ntitle: \"" + PyStr(metadataTitle) + "\"\n";
    if Truthy(metadataDescription) {
      mdMkdocs := mdMkdocs + ("description: \"" + PyStr(metadataDescription) + "\"\n");
    } else {
      assert mdMkdocs == mdMkdocs + DescriptionLine(herbMetadata);
    }
    assert mdMkdocs == TitleLine(herbMetadata) + DescriptionLine(herbMetadata);
    if keywords.value != "" {
      mdMkdocs := mdMkdocs + keywords.value;
    } else {
      assert mdMkdocs == mdMkdocs + keywords.value;
    }
    if Truthy(metadataCategory) {
      mdMkdocs := mdMkdocs + ("category: " + PyStr(metadataCategory) + "\n");
    } else {
      assert mdMkdocs == mdMkdocs + CategoryLine(herbMetadata);
    }
    assert mdMkdocs == TitleLine(herbMetadata) + DescriptionLine(herbMetadata) + keywords.value + CategoryLine(herbMetadata);
    mdMkdocs := mdMkdocs + Closing;
    return Ok(mdMkdocs);
  }

  // ----- Full metadata page -----

  /**
   * The copy of the metadata `save_one_markdown` dumps: the name is also stored as `title`;
   * every other key, and the order of the existing keys, are the Herb's.
   */
  function TitledCopy(meta: seq<Member>): (r: seq<Member>)
    ensures Get(r, "title") == Get(meta, "name")
    ensures forall k :: k != "title" ==> Get(r, k) == Get(meta, k)
    ensures "title" in Keys(meta) ==> Keys(r) == Keys(meta)
    ensures "title" !in Keys(meta) ==> Keys(r) == Keys(meta) + ["title"]
  {
    Assign(meta, "title", Get(meta, "name"))
  }

  /**
   * `save_one_markdown(herb, path)` without the write: the dump of the titled copy between the
   * delimiters. `yaml.dump` is the parameter `dump`. The method changes nothing, so the Herb's
   * own metadata keeps no `title`.
   */
  method SaveOneMarkdown(herb: Base.Herb, dump: seq<Member> -> string) returns (text: string)
    ensures text == "---\n" + dump(TitledCopy(herb.metaJson)) + Closing
  {
    var herbMetadata := herb.metaJson;
    herbMetadata := Assign(herbMetadata, "title", Get(herbMetadata, "name"));
    var mdMeta := dump(herbMetadata);
    text := "---\n";
    text := text + mdMeta;
    text := text + Closing;
  }
}
