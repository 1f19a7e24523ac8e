/**
 * The page parser (src/extractors/linkedin_parser.py) without its HTTP
 * layer: the JSON-LD organisation record, the meta tags, the visible
 * sections (About text, `<dl>` facts, locations), the recent posts, the
 * `<title>` fallback for the name, and the merge of all of them into one
 * raw company record.
 *
 * The fetched page arrives already parsed (None when the fetch failed),
 * `json.loads` is the parameter `decode`, and `urljoin` a parameter as well.
 */
module LinkedinParser {
  import opened Wrappers
  import opened Seqs
  import opened Strings
  import opened Dom
  import opened Records
  import EmployeeExtractor
  import DataCleaner

  /** The record's keys of equal length differ; each is told apart by one character. */
  lemma KeysDiffer()
    ensures "company_name" != "headquarters" && "company_name" != "company_size" && "headquarters" != "company_size"
    ensures "website" != "tagline" && "website" != "founded" && "website" != "updates"
    ensures "tagline" != "founded" && "tagline" != "updates" && "founded" != "updates"
    ensures "locations" != "employees"
  {
    assert "company_name"[0] != "headquarters"[0] && "company_name"[8] != "company_size"[8];
    assert "headquarters"[0] != "company_size"[0];
    assert "website"[0] != "tagline"[0] && "website"[0] != "founded"[0] && "website"[0] != "updates"[0];
    assert "tagline"[0] != "founded"[0] && "tagline"[0] != "updates"[0] && "founded"[0] != "updates"[0];
    assert "locations"[0] != "employees"[0];
  }

  /** `key` is present exactly when `v` is, and then holds its value. */
  predicate Holds(data: map<string, string>, key: string, v: Option<string>)
  {
    (key in data <==> v.Some?) && (v.Some? ==> data[key] == v.value)
  }

  /** `key` is present in the record exactly when `v` is, and then holds it as a string. */
  predicate RecordHolds(r: Record, key: string, v: Option<string>)
  {
    (key in r <==> v.Some?) && (v.Some? ==> r[key] == Str(v.value))
  }

  /** The first of two optional values that is present. */
  function Prefer(a: Option<string>, b: Option<string>): (r: Option<string>)
    ensures r.Some? <==> a.Some? || b.Some?
    ensures r == if a.Some? then a else b
  {
    if a.Some? then a else b
  }

  /** A non-empty string, or nothing. */
  function NonEmpty(v: Option<string>): (r: Option<string>)
    ensures r.Some? <==> Truthy(v)
    ensures r.Some? ==> r == v
  {
    if Truthy(v) then v else None
  }

  // ---------------------------------------------------------------- JSON-LD

  /** A decoded JSON value: an object (its string members) or anything else. */
  datatype JsonItem = Object(members: map<string, string>) | NotObject

  /** The outcome of `json.loads`: a decode error, a single value, or a list. */
  datatype Decoded = Malformed | Single(item: JsonItem) | Many(items: seq<JsonItem>)

  /** `find_all("script", type="application/ld+json")`. */
  predicate IsLdScript(n: Node)
  {
    IsTag(n, {"script"}) && AttrIs(n, "type", "application/ld+json")
  }

  /** `script.string or script.get_text(strip=True)`. */
  function ScriptText(n: Node): string
  {
    match StringOf(n)
    case Some(s) => if s != "" then s else GetText(n, "")
    case None => GetText(n, "")
  }

  /** The items of one script block; an empty or undecodable block gives none. */
  function BlockItems(n: Node, decode: string -> Decoded): (r: seq<JsonItem>)
    ensures ScriptText(n) == "" || decode(ScriptText(n)).Malformed? ==> r == []
  {
    var raw := ScriptText(n);
    if raw == "" then []
    else
      match decode(raw)
      case Malformed => []
      case Single(item) => [item]
      case Many(items) => items
  }

  function ScriptItems(decode: string -> Decoded): Occurrence -> seq<JsonItem>
  {
    (o: Occurrence) => BlockItems(o.node, decode)
  }

  function LdScripts(doc: Node): seq<Occurrence>
  {
    FindAll(doc, None, IsLdScript)
  }

  /** Every item of every JSON-LD block, in document order. */
  function LdItems(doc: Node, decode: string -> Decoded): seq<JsonItem>
  {
    FlatMap(LdScripts(doc), ScriptItems(decode))
  }

  const OrgTypes: set<string> := {"Organization", "Corporation"}

  /** The keys the JSON-LD pass may set. */
  const LdKeys: set<string> := {"company_name", "about", "website"}

  /** The JSON-LD member each key is read from. */
  function LdField(key: string): string
  {
    if key == "company_name" then "name" else if key == "about" then "description" else "url"
  }

  /** The non-empty member `field` of an Organization or Corporation object. */
  function OrgValue(item: JsonItem, field: string): (r: Option<string>)
    ensures r.Some? ==> item.Object? && "@type" in item.members && item.members["@type"] in OrgTypes
    ensures r.Some? ==> field in item.members && r.value == item.members[field] && r.value != ""
  {
    if item.Object? && "@type" in item.members && item.members["@type"] in OrgTypes
       && field in item.members && item.members[field] != ""
    then Some(item.members[field])
    else None
  }

  function OrgValueOf(key: string): JsonItem -> Option<string>
  {
    (item: JsonItem) => OrgValue(item, LdField(key))
  }

  /** `data.setdefault(key, v)` when `v` is truthy. */
  function SetDefault(data: map<string, string>, key: string, v: Option<string>): (r: map<string, string>)
    ensures key in data ==> r == data
    ensures key !in data ==> r == if v.Some? then data[key := v.value] else data
  {
    if v.Some? && key !in data then data[key := v.value] else data
  }

  /** What one item adds to the JSON-LD record. */
  function LdStep(data: map<string, string>, item: JsonItem): map<string, string>
  {
    var d := SetDefault(data, "company_name", OrgValue(item, "name"));
    var d := SetDefault(d, "about", OrgValue(item, "description"));
    SetDefault(d, "website", OrgValue(item, "url"))
  }

  /** The JSON-LD record built from `items`. */
  function JsonLdOf(items: seq<JsonItem>): map<string, string>
  {
    Fold(map[], items, LdStep)
  }

  /**
   * For each of company_name, about and website, the JSON-LD record holds the
   * first non-empty value any Organization or Corporation item offers, and
   * nothing when none does.
   */
  lemma {:induction false} JsonLdFirstWins(items: seq<JsonItem>, key: string)
    requires key in LdKeys
    ensures Holds(JsonLdOf(items), key, FirstSome(items, OrgValueOf(key)))
    decreases |items|
  {
    if items != [] {
      var init := items[..|items| - 1];
      var last := items[|items| - 1];
      JsonLdFirstWins(init, key);
      assert items == init + [last];
      FirstSomeAppend(init, [last], OrgValueOf(key));
      assert FirstSome([last], OrgValueOf(key)) == OrgValue(last, LdField(key));
      LdStepKey(JsonLdOf(init), last, key);
    }
  }

  /** One item sets a missing key to the item's value for it, and leaves a present one alone. */
  lemma {:induction false} LdStepKey(data: map<string, string>, item: JsonItem, key: string)
    requires key in LdKeys
    ensures key in data ==> key in LdStep(data, item) && LdStep(data, item)[key] == data[key]
    ensures key !in data ==> (key in LdStep(data, item) <==> OrgValue(item, LdField(key)).Some?)
    ensures key !in data && key in LdStep(data, item) ==> LdStep(data, item)[key] == OrgValue(item, LdField(key)).value
  {
    var d1 := SetDefault(data, "company_name", OrgValue(item, "name"));
    var d2 := SetDefault(d1, "about", OrgValue(item, "description"));
    assert LdStep(data, item) == SetDefault(d2, "website", OrgValue(item, "url"));
    assert "company_name" != "about" && "company_name" != "website" && "about" != "website";
  }

  /** The JSON-LD record has no other keys, and its values are non-empty. */
  lemma {:induction false} JsonLdKeys(items: seq<JsonItem>)
    ensures LdLayer(JsonLdOf(items))
    decreases |items|
  {
    if items != [] {
      JsonLdKeys(items[..|items| - 1]);
    }
  }

  /** An empty or undecodable block is skipped: the record is as if the block were absent. */
  lemma {:induction false} JsonLdSkipsBadBlock(doc: Node, decode: string -> Decoded, k: nat)
    requires k < |LdScripts(doc)|
    requires ScriptText(LdScripts(doc)[k].node) == "" || decode(ScriptText(LdScripts(doc)[k].node)).Malformed?
    ensures LdItems(doc, decode) == FlatMap(LdScripts(doc)[..k] + LdScripts(doc)[k + 1..], ScriptItems(decode))
  {
    FlatMapSkip(LdScripts(doc), ScriptItems(decode), k);
  }

  /** `_extract_json_ld`. */
  method ExtractJsonLd(doc: Node, decode: string -> Decoded) returns (data: map<string, string>)
    ensures data == JsonLdOf(LdItems(doc, decode))
  {
    var scripts := FindAll(doc, None, IsLdScript);
    ghost var seen: seq<JsonItem> := [];
    data := map[];
    for i := 0 to |scripts|
      invariant seen == FlatMap(scripts[..i], ScriptItems(decode))
      invariant data == Fold(map[], seen, LdStep)
    {
      var items := ReadBlock(scripts[i].node, decode);
      FlatMapNext(scripts, ScriptItems(decode), i);
      assert ScriptItems(decode)(scripts[i]) == items;
      FoldAppend(map[], seen, items, LdStep);
      data := ApplyItems(data, items);
      seen := seen + items;
    }
    assert scripts[..|scripts|] == scripts;
  }

  /** The text of one script block and its decoded items; nothing for an empty or malformed block. */
  method ReadBlock(script: Node, decode: string -> Decoded) returns (items: seq<JsonItem>)
    ensures items == BlockItems(script, decode)
  {
    var rawText := match StringOf(script) case Some(s) => s case None => "";
    if rawText == "" {
      rawText := GetText(script, "");
    }
    if rawText == "" {
      return [];
    }
    var parsed := decode(rawText);
    if parsed.Malformed? {
      return [];
    }
    items := if parsed.Many? then parsed.items else [parsed.item];
  }

  /** The inner loop of `_extract_json_ld`: each Organization item fills the keys still missing. */
  method ApplyItems(data0: map<string, string>, items: seq<JsonItem>) returns (data: map<string, string>)
    ensures data == Fold(data0, items, LdStep)
  {
    data := data0;
    for j := 0 to |items|
      invariant data == Fold(data0, items[..j], LdStep)
    {
      FoldNext(data0, items, j, LdStep);
      var item := items[j];
      if !item.Object? {
        continue;
      }
      if "@type" in item.members && item.members["@type"] in OrgTypes {
        var name := if "name" in item.members then item.members["name"] else "";
        var description := if "description" in item.members then item.members["description"] else "";
        var url := if "url" in item.members then item.members["url"] else "";
        if name != "" && "company_name" !in data {
          data := data["company_name" := name];
        }
        if description != "" && "about" !in data {
          data := data["about" := description];
        }
        if url != "" && "website" !in data {
          data := data["website" := url];
        }
      }
    }
    assert items[..|items|] == items;
  }

  // ------------------------------------------------------------- meta tags

  /** The `content` of the first `<meta>` whose `attr` is `value`, when non-empty. */
  function MetaContent(doc: Node, attr: string, value: string): (r: Option<string>)
    ensures r.Some? ==> r.value != ""
  {
    ContentOf(Find(doc, None, MetaMatcher(attr, value)))
  }

  function MetaMatcher(attr: string, value: string): Node -> bool
  {
    (n: Node) => IsTag(n, {"meta"}) && AttrIs(n, attr, value)
  }

  function ContentOf(m: Option<Occurrence>): (r: Option<string>)
    ensures r.Some? ==> r.value != ""
  {
    match m
    case None => None
    case Some(o) =>
      var content := Attr(o.node, "content");
      if Truthy(content) then content else None
  }

  const MetaKeys: set<string> := {"company_name", "tagline", "background_cover_image_url", "follower_count", "industry"}

  /** Sets `key` to the value of `v`, when there is one. */
  function Put(data: map<string, string>, key: string, v: Option<string>): map<string, string>
  {
    if v.Some? then data[key := v.value] else data
  }

  /** The meta-tag record: each field from the first matching meta tag, when its content is non-empty. */
  function MetaFields(doc: Node): (r: map<string, string>)
    ensures MetaLayer(r)
    ensures Holds(r, "company_name", MetaContent(doc, "property", "og:title"))
    ensures Holds(r, "tagline", MetaContent(doc, "property", "og:description"))
    ensures Holds(r, "background_cover_image_url", MetaContent(doc, "property", "og:image"))
    ensures Holds(r, "follower_count", MetaContent(doc, "name", "followersCount"))
    ensures Holds(r, "industry", MetaContent(doc, "name", "industry"))
  {
    MetaOf(MetaContent(doc, "property", "og:title"), MetaContent(doc, "property", "og:description"),
           MetaContent(doc, "property", "og:image"), MetaContent(doc, "name", "followersCount"),
           MetaContent(doc, "name", "industry"))
  }

  /** The meta-tag record from the five contents found. */
  function MetaOf(title: Option<string>, description: Option<string>, image: Option<string>,
                  followers: Option<string>, industry: Option<string>): (r: map<string, string>)
    requires !(title.Some? && title.value == "") && !(description.Some? && description.value == "")
    requires !(image.Some? && image.value == "") && !(followers.Some? && followers.value == "")
    requires !(industry.Some? && industry.value == "")
    ensures MetaLayer(r)
    ensures Holds(r, "company_name", title) && Holds(r, "tagline", description)
    ensures Holds(r, "background_cover_image_url", image) && Holds(r, "follower_count", followers)
    ensures Holds(r, "industry", industry)
  {
    var d := Put(map[], "company_name", title);
    var d := Put(d, "tagline", description);
    var d := Put(d, "background_cover_image_url", image);
    var d := Put(d, "follower_count", followers);
    Put(d, "industry", industry)
  }

  /** `_extract_meta_based_fields`. */
  method ExtractMetaBasedFields(doc: Node) returns (data: map<string, string>)
    ensures data == MetaFields(doc)
  {
    data := map[];
    var ogTitle := MetaContent(doc, "property", "og:title");
    if ogTitle.Some? {
      data := data["company_name" := ogTitle.value];
    }
    assert data == Put(map[], "company_name", ogTitle);
    ghost var d1 := data;
    var ogDesc := MetaContent(doc, "property", "og:description");
    if ogDesc.Some? && "tagline" !in data {
      data := data["tagline" := ogDesc.value];
    }
    assert data == Put(d1, "tagline", ogDesc);
    ghost var d2 := data;
    var coverImg := MetaContent(doc, "property", "og:image");
    if coverImg.Some? {
      data := data["background_cover_image_url" := coverImg.value];
    }
    assert data == Put(d2, "background_cover_image_url", coverImg);
    ghost var d3 := data;
    var followerMeta := MetaContent(doc, "name", "followersCount");
    if followerMeta.Some? {
      data := data["follower_count" := followerMeta.value];
    }
    assert data == Put(d3, "follower_count", followerMeta);
    ghost var d4 := data;
    var industryMeta := MetaContent(doc, "name", "industry");
    if industryMeta.Some? {
      data := data["industry" := industryMeta.value];
    }
    assert data == Put(d4, "industry", industryMeta);
  }

  // ------------------------------------------------------------ About text

  /** `find_all(["h2", "h3"], string=True)`. */
  predicate IsHeading(n: Node)
  {
    IsTag(n, {"h2", "h3"}) && HasString(n)
  }

  /** A heading whose text mentions "about", in any case. */
  predicate MentionsAbout(o: Occurrence)
  {
    Contains(Lower(GetText(o.node, " ")), "about")
  }

  /** The text of a paragraph or span, when it is longer than 30 characters. */
  function ChunkOf(o: Occurrence): (r: Option<string>)
    ensures r.Some? ==> |r.value| > 30
  {
    var t := GetText(o.node, " ");
    if |t| > 30 then Some(t) else None
  }

  predicate IsChunkTag(n: Node)
  {
    IsTag(n, {"p", "span"})
  }

  /** The long texts of the paragraphs and spans under the heading's parent. */
  function AboutChunks(o: Occurrence): seq<string>
  {
    FilterMap(FindAll(o.parent, o.grandparent, IsChunkTag), ChunkOf)
  }

  /** The About text a heading offers: its parent's long chunks, joined by a space. */
  function AboutOf(o: Occurrence): (r: Option<string>)
    ensures r.Some? <==> MentionsAbout(o) && AboutChunks(o) != []
  {
    if MentionsAbout(o) then
      var chunks := AboutChunks(o);
      if chunks == [] then None else Some(Join(" ", chunks))
    else None
  }

  /** A join starts with its first part. */
  lemma {:induction false} JoinFirst(sep: string, parts: seq<string>)
    requires parts != []
    ensures parts[0] <= Join(sep, parts)
  {
    if |parts| > 1 {
      assert Join(sep, parts) == parts[0] + (sep + Join(sep, parts[1..]));
    }
  }

  /** The About text, when found, is longer than 30 characters: it starts with a chunk that is. */
  lemma {:induction false} AboutTextLong(doc: Node)
    ensures AboutText(doc).Some? ==> |AboutText(doc).value| > 30
  {
    if AboutText(doc).Some? {
      FirstSomeWitness(Headings(doc), AboutOf);
      var i :| 0 <= i < |Headings(doc)| && AboutOf(Headings(doc)[i]) == AboutText(doc)
               && forall j :: 0 <= j < i ==> AboutOf(Headings(doc)[j]).None?;
      var o := Headings(doc)[i];
      var chunks := AboutChunks(o);
      FilterMapAll(FindAll(o.parent, o.grandparent, IsChunkTag), ChunkOf, (t: string) => |t| > 30);
      assert |chunks[0]| > 30;
      JoinFirst(" ", chunks);
    }
  }

  function Headings(doc: Node): seq<Occurrence>
  {
    FindAll(doc, None, IsHeading)
  }

  /** The About text of the first heading that offers one. */
  function AboutText(doc: Node): Option<string>
  {
    FirstSome(Headings(doc), AboutOf)
  }

  /** `_extract_about_section`. */
  method ExtractAboutSection(doc: Node) returns (r: Option<string>)
    ensures r == AboutText(doc)
  {
    var headings := FindAll(doc, None, IsHeading);
    r := FirstAboutText(headings);
  }

  /** The heading loop of `_extract_about_section`: the first heading that offers a text. */
  method FirstAboutText(headings: seq<Occurrence>) returns (r: Option<string>)
    ensures r == FirstSome(headings, AboutOf)
  {
    for i := 0 to |headings|
      invariant FirstSome(headings[..i], AboutOf).None?
    {
      FirstSomeNext(headings, AboutOf, i);
      var text := ReadAbout(headings[i]);
      if text.Some? {
        FirstSomeExtend(headings, AboutOf, i + 1);
        return text;
      }
    }
    assert headings[..|headings|] == headings;
    return None;
  }

  /** The body of the heading loop: the joined chunks, when the heading mentions "about". */
  method ReadAbout(heading: Occurrence) returns (r: Option<string>)
    ensures r == AboutOf(heading)
  {
    r := None;
    if MentionsAbout(heading) {
      var chunks := CollectChunks(heading);
      if chunks != [] {
        r := Some(Join(" ", chunks));
      }
    }
  }

  /** The paragraphs and spans under the heading's parent, and their long texts. */
  method CollectChunks(heading: Occurrence) returns (chunks: seq<string>)
    ensures chunks == AboutChunks(heading)
  {
    var found := FindAll(heading.parent, heading.grandparent, IsChunkTag);
    chunks := LongTexts(found);
  }

  /** The paragraph and span loop of `_extract_about_section`. */
  method LongTexts(found: seq<Occurrence>) returns (chunks: seq<string>)
    ensures chunks == FilterMap(found, ChunkOf)
  {
    chunks := [];
    for k := 0 to |found|
      invariant chunks == FilterMap(found[..k], ChunkOf)
    {
      FilterMapNext(found, ChunkOf, k);
      var txt := GetText(found[k].node, " ");
      if txt != "" && |txt| > 30 {
        chunks := chunks + [txt];
      }
    }
    assert found[..|found|] == found;
  }

  // --------------------------------------------------- definition lists

  /** One `<dt>`/`<dd>` pair: the lower-cased label, the value, and the first link's target in the value. */
  datatype Fact = Fact(term: string, value: string, link: Option<string>)

  /** `find("a", href=True)` and its `href`. */
  function LinkHref(n: Node): Option<string>
  {
    match Find(n, None, IsHrefLink)
    case None => None
    case Some(o) => Some(o.node.attrs["href"])
  }

  predicate IsHrefLink(n: Node)
  {
    IsTag(n, {"a"}) && HasAttr(n, "href")
  }

  function FactOf(dt: Node, dd: Node): Fact
  {
    Fact(Lower(GetText(dt, " ")), GetText(dd, " "), LinkHref(dd))
  }

  predicate IsDefinitionList(n: Node)
  {
    IsTag(n, {"dl"})
  }

  predicate IsTerm(n: Node)
  {
    IsTag(n, {"dt"})
  }

  predicate IsDefinition(n: Node)
  {
    IsTag(n, {"dd"})
  }

  /** The terms and definitions, zipped. */
  function Pairs(terms: seq<Occurrence>, defs: seq<Occurrence>): (r: seq<Fact>)
    requires |terms| == |defs|
    ensures |r| == |terms| && forall i :: 0 <= i < |r| ==> r[i] == FactOf(terms[i].node, defs[i].node)
  {
    seq(|terms|, i requires 0 <= i < |terms| => FactOf(terms[i].node, defs[i].node))
  }

  /** The pairs of one `<dl>`: none unless it has as many terms as definitions, and at least one. */
  function DlFacts(dl: Occurrence): seq<Fact>
  {
    var terms := FindAll(dl.node, Some(dl.parent), IsTerm);
    var defs := FindAll(dl.node, Some(dl.parent), IsDefinition);
    if |terms| != |defs| || terms == [] then [] else Pairs(terms, defs)
  }

  /** Every pair of every `<dl>`, in document order. */
  function AllFacts(doc: Node): seq<Fact>
  {
    FlatMap(FindAll(doc, None, IsDefinitionList), DlFacts)
  }

  /** The key a pair writes on its label alone (headquarters, founded, company size), if any. */
  function LabelKey(f: Fact): Option<string>
  {
    if f.term == "" || f.value == "" then None
    else if Contains(f.term, "headquarters") then Some("headquarters")
    else if Contains(f.term, "founded") then Some("founded")
    else if Contains(f.term, "company size") then Some("company_size")
    else None
  }

  /** What one pair does to the record. */
  function DlStep(data: map<string, string>, f: Fact): map<string, string>
  {
    if f.term == "" || f.value == "" then data
    else if LabelKey(f).Some? then data[LabelKey(f).value := f.value]
    else if Contains(f.term, "industry") && "industry" !in data then data["industry" := f.value]
    else if Contains(f.term, "website") && "website" !in data then
      data["website" := if f.link.Some? then f.link.value else f.value]
    else if Contains(f.term, "type") then data["type" := f.value]
    else data
  }

  const DlKeys: set<string> := {"headquarters", "founded", "company_size", "industry", "website", "type"}

  /** The value a pair gives `key` on its label alone. */
  function LabelWriter(key: string): Fact -> Option<string>
  {
    (f: Fact) => if LabelKey(f) == Some(key) then Some(f.value) else None
  }

  /** The industry a pair offers: a labelled pair none of the earlier labels matches. */
  function IndustryOf(f: Fact): Option<string>
  {
    if f.term != "" && f.value != "" && LabelKey(f).None? && Contains(f.term, "industry") then Some(f.value) else None
  }

  /** The pairs write only the six fact keys. */
  lemma {:induction false} DlKeysOnly(init: map<string, string>, facts: seq<Fact>)
    ensures Fold(init, facts, DlStep).Keys <= init.Keys + DlKeys
    decreases |facts|
  {
    if facts != [] {
      DlKeysOnly(init, facts[..|facts| - 1]);
    }
  }

  /** Headquarters, founded and company size hold the value of the last pair labelled so. */
  lemma {:induction false} DlLastWins(init: map<string, string>, facts: seq<Fact>, key: string)
    requires key in {"headquarters", "founded", "company_size"}
    ensures LastSome(facts, LabelWriter(key)).Some? ==>
              key in Fold(init, facts, DlStep) && Fold(init, facts, DlStep)[key] == LastSome(facts, LabelWriter(key)).value
    ensures LastSome(facts, LabelWriter(key)).None? ==>
              (key in Fold(init, facts, DlStep) <==> key in init) &&
              (key in init ==> Fold(init, facts, DlStep)[key] == init[key])
    decreases |facts|
  {
    if facts != [] {
      DlLastWins(init, facts[..|facts| - 1], key);
    }
  }

  /** Industry, website and about, once in the record, are never overwritten by a pair. */
  lemma {:induction false} DlKeepsSet(init: map<string, string>, facts: seq<Fact>, key: string)
    requires key in {"industry", "website", "about"} && key in init
    ensures key in Fold(init, facts, DlStep) && Fold(init, facts, DlStep)[key] == init[key]
    decreases |facts|
  {
    if facts != [] {
      DlKeepsSet(init, facts[..|facts| - 1], key);
    }
  }

  /** Without an industry to begin with, the record takes the first pair offering one. */
  lemma {:induction false} DlIndustryFirstWins(init: map<string, string>, facts: seq<Fact>)
    requires "industry" !in init
    ensures "industry" in Fold(init, facts, DlStep) <==> FirstSome(facts, IndustryOf).Some?
    ensures "industry" in Fold(init, facts, DlStep) ==> Fold(init, facts, DlStep)["industry"] == FirstSome(facts, IndustryOf).value
    decreases |facts|
  {
    if facts != [] {
      var prefix := facts[..|facts| - 1];
      var last := facts[|facts| - 1];
      DlIndustryFirstWins(init, prefix);
      assert facts == prefix + [last];
      FirstSomeAppend(prefix, [last], IndustryOf);
      assert FirstSome([last], IndustryOf) == IndustryOf(last);
    }
  }

  /** The type a pair offers: a labelled pair that mentions "type" and none of the earlier labels. */
  function TypeOf(f: Fact): Option<string>
  {
    if f.term != "" && f.value != "" && LabelKey(f).None? && !Contains(f.term, "industry")
       && !Contains(f.term, "website") && Contains(f.term, "type")
    then Some(f.value)
    else None
  }

  /** The website a pair offers: the target of its first link, else its text. */
  function WebsiteOf(f: Fact): Option<string>
  {
    if f.term != "" && f.value != "" && LabelKey(f).None? && Contains(f.term, "website")
    then Some(if f.link.Some? then f.link.value else f.value)
    else None
  }

  /** No label mentions "type" together with "industry" or "website". */
  predicate TypeLabelsPlain(facts: seq<Fact>)
  {
    forall k :: 0 <= k < |facts| && Contains(facts[k].term, "type") ==>
      !Contains(facts[k].term, "industry") && !Contains(facts[k].term, "website")
  }

  /** No label mentions both "industry" and "website". */
  predicate WebsiteLabelsPlain(facts: seq<Fact>)
  {
    forall k :: 0 <= k < |facts| && Contains(facts[k].term, "website") ==> !Contains(facts[k].term, "industry")
  }

  /**
   * When no label mixes "type" with "industry" or "website", the type holds the
   * value of the last pair offering one, and is unchanged without such a pair.
   */
  lemma {:induction false} DlTypeLastWins(init: map<string, string>, facts: seq<Fact>)
    requires TypeLabelsPlain(facts)
    ensures LastSome(facts, TypeOf).Some? ==>
              "type" in Fold(init, facts, DlStep) && Fold(init, facts, DlStep)["type"] == LastSome(facts, TypeOf).value
    ensures LastSome(facts, TypeOf).None? ==>
              ("type" in Fold(init, facts, DlStep) <==> "type" in init) &&
              ("type" in init ==> Fold(init, facts, DlStep)["type"] == init["type"])
    decreases |facts|
  {
    if facts != [] {
      var prefix := facts[..|facts| - 1];
      var last := facts[|facts| - 1];
      assert TypeLabelsPlain(prefix) by {
        forall k | 0 <= k < |prefix| ensures prefix[k] == facts[k] {
        }
      }
      DlTypeLastWins(init, prefix);
      DlStepType(Fold(init, prefix, DlStep), last);
    }
  }

  /** One pair writes the type exactly when it offers one, and then writes its value. */
  lemma {:induction false} DlStepType(data: map<string, string>, f: Fact)
    requires Contains(f.term, "type") ==> !Contains(f.term, "industry") && !Contains(f.term, "website")
    ensures TypeOf(f).Some? ==> "type" in DlStep(data, f) && DlStep(data, f)["type"] == TypeOf(f).value
    ensures TypeOf(f).None? ==> ("type" in DlStep(data, f) <==> "type" in data) &&
                                ("type" in data ==> DlStep(data, f)["type"] == data["type"])
  {
    KeysDiffer();
  }

  /**
   * When no label mixes "industry" with "website", a record without a website
   * takes that of the first pair offering one: its link target, else its text.
   */
  lemma {:induction false} DlWebsiteFirstWins(init: map<string, string>, facts: seq<Fact>)
    requires "website" !in init && WebsiteLabelsPlain(facts)
    ensures "website" in Fold(init, facts, DlStep) <==> FirstSome(facts, WebsiteOf).Some?
    ensures "website" in Fold(init, facts, DlStep) ==> Fold(init, facts, DlStep)["website"] == FirstSome(facts, WebsiteOf).value
    decreases |facts|
  {
    if facts != [] {
      var prefix := facts[..|facts| - 1];
      var last := facts[|facts| - 1];
      assert WebsiteLabelsPlain(prefix) by {
        forall k | 0 <= k < |prefix| ensures prefix[k] == facts[k] {
        }
      }
      DlWebsiteFirstWins(init, prefix);
      assert facts == prefix + [last];
      FirstSomeAppend(prefix, [last], WebsiteOf);
      assert FirstSome([last], WebsiteOf) == WebsiteOf(last);
      DlStepWebsite(Fold(init, prefix, DlStep), last);
    }
  }

  /** One pair sets a missing website exactly when it offers one, and never replaces a present one. */
  lemma {:induction false} DlStepWebsite(data: map<string, string>, f: Fact)
    requires Contains(f.term, "website") ==> !Contains(f.term, "industry")
    ensures "website" in data ==> "website" in DlStep(data, f) && DlStep(data, f)["website"] == data["website"]
    ensures "website" !in data ==> ("website" in DlStep(data, f) <==> WebsiteOf(f).Some?)
    ensures "website" !in data && WebsiteOf(f).Some? ==> DlStep(data, f)["website"] == WebsiteOf(f).value
  {
    KeysDiffer();
  }

  /** The visible facts: the About text, then every `<dl>` pair in turn. */
  function VisibleFacts(doc: Node): map<string, string>
  {
    Fold(AboutInit(AboutText(doc)), AllFacts(doc), DlStep)
  }

  /** The facts `_extract_visible_sections` starts from: the About text when it is non-empty. */
  function AboutInit(about: Option<string>): map<string, string>
  {
    if Truthy(about) then map["about" := about.value] else map[]
  }


  // -------------------------------------------------------------- locations

  /** A location entry: its address and the map link, if any. */
  datatype Place = Place(address: string, mapUrl: Option<string>)

  /** An `<address>` block with text, and its first link. */
  function AddressPlace(o: Occurrence): (r: Option<Place>)
    ensures r.Some? <==> GetText(o.node, " ") != ""
    ensures r.Some? ==> r.value.address == GetText(o.node, " ") && r.value.address != ""
    ensures r.Some? ==> r.value.mapUrl == LinkHref(o.node)
  {
    var t := GetText(o.node, " ");
    if t == "" then None else Some(Place(t, LinkHref(o.node)))
  }

  /** A link whose text mentions "directions": its aria-label (else its text) and its target. */
  function DirectionsPlace(o: Occurrence): (r: Option<Place>)
    ensures r.Some? <==> Contains(Lower(GetText(o.node, " ")), "directions")
    ensures r.Some? && HasAttr(o.node, "aria-label") ==> r.value.address == o.node.attrs["aria-label"]
    ensures r.Some? && !HasAttr(o.node, "aria-label") ==> r.value.address == GetText(o.node, " ")
    ensures r.Some? ==> r.value.mapUrl == Attr(o.node, "href")
    ensures r.Some? && HasAttr(o.node, "href") ==> r.value.mapUrl == Some(o.node.attrs["href"])
  {
    var t := GetText(o.node, " ");
    if Contains(Lower(t), "directions") then
      Some(Place(if HasAttr(o.node, "aria-label") then o.node.attrs["aria-label"] else t, Attr(o.node, "href")))
    else None
  }

  predicate IsAddress(n: Node)
  {
    IsTag(n, {"address"})
  }

  function AddressPlaces(doc: Node): seq<Place>
  {
    FilterMap(FindAll(doc, None, IsAddress), AddressPlace)
  }

  function DirectionsPlaces(doc: Node): seq<Place>
  {
    FilterMap(FindAll(doc, None, IsHrefLink), DirectionsPlace)
  }

  /** The locations: the address blocks, or the "directions" links when there is none. */
  function Locations(doc: Node): seq<Place>
  {
    if AddressPlaces(doc) != [] then AddressPlaces(doc) else DirectionsPlaces(doc)
  }

  /**
   * Every location has a non-empty address when any address block has text;
   * otherwise every location comes from a "directions" link and has its target.
   */
  lemma {:induction false} LocationsShape(doc: Node)
    ensures AddressPlaces(doc) != [] ==> forall k :: 0 <= k < |Locations(doc)| ==> Locations(doc)[k].address != ""
    ensures AddressPlaces(doc) == [] ==> forall k :: 0 <= k < |Locations(doc)| ==> Locations(doc)[k].mapUrl.Some?
  {
    FilterMapAll(FindAll(doc, None, IsAddress), AddressPlace, (p: Place) => p.address != "");
    var links := FindAll(doc, None, IsHrefLink);
    forall k | 0 <= k < |DirectionsPlaces(doc)| ensures DirectionsPlaces(doc)[k].mapUrl.Some? {
      FilterMapSound(links, DirectionsPlace, k);
    }
  }

  /** `_extract_locations`. */
  method ExtractLocations(doc: Node) returns (locations: seq<Place>)
    ensures locations == Locations(doc)
  {
    var blocks := FindAll(doc, None, IsAddress);
    locations := CollectAddresses(blocks);
    if locations == [] {
      var links := FindAll(doc, None, IsHrefLink);
      locations := CollectDirections(links);
    }
  }

  /** The `<address>` loop of `_extract_locations`. */
  method CollectAddresses(blocks: seq<Occurrence>) returns (locations: seq<Place>)
    ensures locations == FilterMap(blocks, AddressPlace)
  {
    locations := [];
    for i := 0 to |blocks|
      invariant locations == FilterMap(blocks[..i], AddressPlace)
    {
      FilterMapNext(blocks, AddressPlace, i);
      var text := GetText(blocks[i].node, " ");
      if text == "" {
        continue;
      }
      locations := locations + [Place(text, LinkHref(blocks[i].node))];
    }
    assert blocks[..|blocks|] == blocks;
  }

  /** The "directions" loop of `_extract_locations`. */
  method CollectDirections(links: seq<Occurrence>) returns (locations: seq<Place>)
    ensures locations == FilterMap(links, DirectionsPlace)
  {
    locations := [];
    for i := 0 to |links|
      invariant locations == FilterMap(links[..i], DirectionsPlace)
    {
      FilterMapNext(links, DirectionsPlace, i);
      var a := links[i].node;
      var text := GetText(a, " ");
      if Contains(Lower(text), "directions") {
        var address := if HasAttr(a, "aria-label") then a.attrs["aria-label"] else text;
        locations := locations + [Place(address, Attr(a, "href"))];
      }
    }
    assert links[..|links|] == links;
  }

  // ------------------------------------------------------ visible sections

  /** The record of string fields, as record values. */
  function Lift(m: map<string, string>): (r: Record)
    ensures r.Keys == m.Keys
    ensures forall k :: k in m ==> r[k] == Str(m[k])
  {
    map k | k in m :: Str(m[k])
  }

  /** A location as the dictionary the source builds. */
  function PlaceEntry(p: Place): RawEntry
  {
    Dict(map["address" := p.address] + (if p.mapUrl.Some? then map["map_url" := p.mapUrl.value] else map[]))
  }

  /** The record `_extract_visible_sections` returns: the facts, and the locations when there are any. */
  function VisibleOf(facts: map<string, string>, locations: seq<Place>): Record
  {
    if locations != [] then Lift(facts)["locations" := List(Map(locations, PlaceEntry))] else Lift(facts)
  }

  function VisibleRecord(doc: Node): Record
  {
    VisibleOf(VisibleFacts(doc), Locations(doc))
  }

  /** The visible record holds the About text, the `<dl>` fields and the locations, all but the last as strings. */
  lemma {:induction false} VisibleOfKeys(about: Option<string>, facts: seq<Fact>, locations: seq<Place>)
    ensures VisibleLayer(VisibleOf(Fold(AboutInit(about), facts, DlStep), locations))
  {
    DlKeysOnly(AboutInit(about), facts);
  }

  /** The visible About text is the page's About section, when that is non-empty. */
  lemma {:induction false} VisibleOfAbout(about: Option<string>, facts: seq<Fact>, locations: seq<Place>)
    ensures RecordHolds(VisibleOf(Fold(AboutInit(about), facts, DlStep), locations), "about", NonEmpty(about))
  {
    if Truthy(about) {
      DlKeepsSet(AboutInit(about), facts, "about");
    } else {
      DlKeysOnly(AboutInit(about), facts);
    }
  }

  /** The visible industry is that of the first pair labelled so. */
  lemma {:induction false} VisibleOfIndustry(about: Option<string>, facts: seq<Fact>, locations: seq<Place>)
    ensures RecordHolds(VisibleOf(Fold(AboutInit(about), facts, DlStep), locations), "industry", FirstSome(facts, IndustryOf))
  {
    DlIndustryFirstWins(AboutInit(about), facts);
  }

  /** A page's visible record has the keys and string values `VisibleOfKeys` names. */
  lemma {:induction false} VisibleKeys(doc: Node)
    ensures VisibleLayer(VisibleRecord(doc))
  {
    VisibleOfKeys(AboutText(doc), AllFacts(doc), Locations(doc));
  }

  /** A page's visible About text is its About section, when that is non-empty. */
  lemma {:induction false} VisibleAbout(doc: Node)
    ensures RecordHolds(VisibleRecord(doc), "about", NonEmpty(AboutText(doc)))
  {
    VisibleOfAbout(AboutText(doc), AllFacts(doc), Locations(doc));
  }

  /** A page's visible industry is that of its first `<dl>` pair labelled so. */
  lemma {:induction false} VisibleIndustry(doc: Node)
    ensures RecordHolds(VisibleRecord(doc), "industry", FirstSome(AllFacts(doc), IndustryOf))
  {
    VisibleOfIndustry(AboutText(doc), AllFacts(doc), Locations(doc));
  }

  /** `_extract_visible_sections`. */
  method ExtractVisibleSections(doc: Node) returns (data: Record)
    ensures data == VisibleRecord(doc)
  {
    var aboutText := ExtractAboutSection(doc);
    var facts := StartFacts(aboutText);
    var lists := FindAll(doc, None, IsDefinitionList);
    facts := ApplyDefinitionLists(facts, lists);
    var locations := ExtractLocations(doc);
    data := AddLocations(facts, locations);
  }

  /** The start of `_extract_visible_sections`: the About text, when it is non-empty. */
  method StartFacts(aboutText: Option<string>) returns (facts: map<string, string>)
    ensures facts == AboutInit(aboutText)
  {
    facts := map[];
    if aboutText.Some? && aboutText.value != "" {
      facts := facts["about" := aboutText.value];
    }
  }

  /** The end of `_extract_visible_sections`: the facts, with the locations when there are any. */
  method AddLocations(facts: map<string, string>, locations: seq<Place>) returns (data: Record)
    ensures data == VisibleOf(facts, locations)
  {
    data := Lift(facts);
    if locations != [] {
      data := data["locations" := List(Map(locations, PlaceEntry))];
    }
  }

  /** The `<dl>` loop of `_extract_visible_sections`. */
  method ApplyDefinitionLists(facts0: map<string, string>, lists: seq<Occurrence>) returns (facts: map<string, string>)
    ensures facts == Fold(facts0, FlatMap(lists, DlFacts), DlStep)
  {
    facts := facts0;
    ghost var seen: seq<Fact> := [];
    for i := 0 to |lists|
      invariant seen == FlatMap(lists[..i], DlFacts)
      invariant facts == Fold(facts0, seen, DlStep)
    {
      FlatMapNext(lists, DlFacts, i);
      FoldAppend(facts0, seen, DlFacts(lists[i]), DlStep);
      facts := ApplyDefinitionList(facts, lists[i]);
      seen := seen + DlFacts(lists[i]);
    }
    assert lists[..|lists|] == lists;
  }

  /** One `<dl>`: its pairs, when the terms and definitions match up. */
  method ApplyDefinitionList(facts0: map<string, string>, dl: Occurrence) returns (facts: map<string, string>)
    ensures facts == Fold(facts0, DlFacts(dl), DlStep)
  {
    var terms := FindAll(dl.node, Some(dl.parent), IsTerm);
    var defs := FindAll(dl.node, Some(dl.parent), IsDefinition);
    if |terms| != |defs| || terms == [] {
      return facts0;
    }
    facts := ApplyPairs(facts0, terms, defs);
  }

  /** The pair loop of `_extract_visible_sections`. */
  method ApplyPairs(facts0: map<string, string>, terms: seq<Occurrence>, defs: seq<Occurrence>) returns (facts: map<string, string>)
    requires |terms| == |defs|
    ensures facts == Fold(facts0, Pairs(terms, defs), DlStep)
  {
    facts := facts0;
    ghost var pairs := Pairs(terms, defs);
    for k := 0 to |terms|
      invariant facts == Fold(facts0, pairs[..k], DlStep)
    {
      FoldNext(facts0, pairs, k, DlStep);
      var term := Lower(GetText(terms[k].node, " "));
      var value := GetText(defs[k].node, " ");
      facts := ApplyPair(facts, term, value, defs[k].node);
    }
    assert pairs[..|terms|] == pairs;
  }

  /** The body of the pair loop: the first label test that matches decides the field. */
  method ApplyPair(facts0: map<string, string>, term: string, value: string, dd: Node) returns (facts: map<string, string>)
    ensures facts == DlStep(facts0, Fact(term, value, LinkHref(dd)))
  {
    facts := facts0;
    if term == "" || value == "" {
      return;
    }
    if Contains(term, "headquarters") {
      facts := facts["headquarters" := value];
    } else if Contains(term, "founded") {
      facts := facts["founded" := value];
    } else if Contains(term, "company size") {
      facts := facts["company_size" := value];
    } else if Contains(term, "industry") && "industry" !in facts {
      facts := facts["industry" := value];
    } else if Contains(term, "website") && "website" !in facts {
      var link := LinkHref(dd);
      if link.Some? {
        facts := facts["website" := link.value];
      } else {
        facts := facts["website" := value];
      }
    } else if Contains(term, "type") {
      facts := facts["type" := value];
    }
  }

  // ---------------------------------------------------------------- updates

  /** A post: its text, the timestamp-like text and the like count text, when found. */
  datatype Post = Post(text: string, postedDate: Option<string>, likes: Option<string>)

  const MaxUpdates: nat := 5

  /** `find_all(["article", "div"], attrs={"data-urn": True})`. */
  predicate IsUpdateCandidate(n: Node)
  {
    IsTag(n, {"article", "div"}) && HasAttr(n, "data-urn")
  }

  /** `find(["p", "span"], string=True)`. */
  predicate IsTextTag(n: Node)
  {
    IsChunkTag(n) && HasString(n)
  }

  /** `find("span", string=True)`. */
  predicate IsStringSpan(n: Node)
  {
    IsTag(n, {"span"}) && HasString(n)
  }

  /** The text of the first span with a string, when it holds a digit. */
  function PostedDate(c: Node): (r: Option<string>)
    ensures r.Some? ==> HasDigit(r.value)
  {
    match Find(c, None, IsStringSpan)
    case None => None
    case Some(t) =>
      var ts := GetText(t.node, " ");
      if ts != "" && HasDigit(ts) then Some(ts) else None
  }

  /** A span whose lower-cased text mentions "like" and holds a digit. */
  function LikesOf(o: Occurrence): (r: Option<string>)
    ensures r.Some? ==> Contains(Lower(r.value), "like") && HasDigit(Lower(r.value))
  {
    var t := GetText(o.node, " ");
    if Contains(Lower(t), "like") && HasDigit(Lower(t)) then Some(t) else None
  }

  function Likes(c: Node): Option<string>
  {
    FirstSome(FindAll(c, None, IsStringSpan), LikesOf)
  }

  /** The post a candidate container holds: none unless its first text is at least 20 characters. */
  function PostOf(o: Occurrence): (r: Option<Post>)
    ensures r.Some? ==> |r.value.text| >= 20
  {
    match Find(o.node, None, IsTextTag)
    case None => None
    case Some(t) =>
      var text := GetText(t.node, " ");
      if |text| < 20 then None else Some(Post(text, PostedDate(o.node), Likes(o.node)))
  }

  function Candidates(doc: Node): seq<Occurrence>
  {
    FindAll(doc, None, IsUpdateCandidate)
  }

  /** The posts of the first candidates that hold one, at most five. */
  function Updates(doc: Node): seq<Post>
  {
    Take(FilterMap(Candidates(doc), PostOf), MaxUpdates)
  }

  /**
   * At most five posts, each with a text of at least 20 characters, and they
   * are the first posts of the page in document order.
   */
  lemma {:induction false} UpdatesShape(doc: Node)
    ensures |Updates(doc)| <= MaxUpdates
    ensures forall k :: 0 <= k < |Updates(doc)| ==> |Updates(doc)[k].text| >= 20
    ensures Updates(doc) <= FilterMap(Candidates(doc), PostOf)
  {
    FilterMapAll(Candidates(doc), PostOf, (p: Post) => |p.text| >= 20);
  }

  /** `_extract_updates`. */
  method ExtractUpdates(doc: Node) returns (updates: seq<Post>)
    ensures updates == Updates(doc)
  {
    var candidates := FindAll(doc, None, IsUpdateCandidate);
    updates := CollectPosts(candidates);
  }

  /** The candidate loop of `_extract_updates`, which stops at the fifth post. */
  method CollectPosts(candidates: seq<Occurrence>) returns (updates: seq<Post>)
    ensures updates == Take(FilterMap(candidates, PostOf), MaxUpdates)
  {
    updates := [];
    for i := 0 to |candidates|
      invariant updates == FilterMap(candidates[..i], PostOf)
      invariant |updates| < MaxUpdates
    {
      FilterMapNext(candidates, PostOf, i);
      var post := ReadPost(candidates[i]);
      updates := updates + AsSeq(post);
      if |updates| == MaxUpdates {
        FilterMapTake(candidates, PostOf, i + 1, MaxUpdates);
        return;
      }
    }
    assert candidates[..|candidates|] == candidates;
  }

  /** The body of the candidate loop of `_extract_updates`. */
  method ReadPost(container: Occurrence) returns (post: Option<Post>)
    ensures post == PostOf(container)
  {
    var textEl := Find(container.node, None, IsTextTag);
    if textEl.None? {
      return None;
    }
    var text := GetText(textEl.value.node, " ");
    if text == "" || |text| < 20 {
      return None;
    }
    var date: Option<string> := None;
    var timeEl := Find(container.node, None, IsStringSpan);
    if timeEl.Some? {
      var ts := GetText(timeEl.value.node, " ");
      if ts != "" && HasDigit(ts) {
        date := Some(ts);
      }
    }
    var likes := FindLikes(container.node);
    post := Some(Post(text, date, likes));
  }

  /** The spans with a string under the container, and the first like count among them. */
  method FindLikes(c: Node) returns (likes: Option<string>)
    ensures likes == Likes(c)
  {
    var spans := FindAll(c, None, IsStringSpan);
    likes := FirstLikes(spans);
  }

  /** The span loop of `_extract_updates`, which stops at the first like count. */
  method FirstLikes(spans: seq<Occurrence>) returns (likes: Option<string>)
    ensures likes == FirstSome(spans, LikesOf)
  {
    for k := 0 to |spans|
      invariant FirstSome(spans[..k], LikesOf).None?
    {
      FirstSomeNext(spans, LikesOf, k);
      var sText := Lower(GetText(spans[k].node, " "));
      if Contains(sText, "like") && HasDigit(sText) {
        FirstSomeExtend(spans, LikesOf, k + 1);
        return Some(GetText(spans[k].node, " "));
      }
    }
    assert spans[..|spans|] == spans;
    return None;
  }

  // -------------------------------------------------------- title fallback

  /** The name read from a title text: stripped, cut at the first '|', stripped again. */
  function TitleName(s: string): (r: string)
    ensures forall i :: 0 <= i < |r| ==> r[i] != '|'
    ensures r == [] || (!IsSpace(r[0]) && !IsSpace(r[|r| - 1]))
  {
    var b := BeforeBar(Strip(s));
    StripOmits(b, '|');
    Strip(b)
  }

  predicate IsTitle(n: Node)
  {
    IsTag(n, {"title"})
  }

  /** `_fallback_company_name`: the name from `<title>` when it has a non-empty string. */
  function FallbackCompanyName(doc: Node): (r: Option<string>)
    ensures r.None? <==> (var t := Find(doc, None, IsTitle);
                          t.None? || !Truthy(StringOf(t.value.node)))
    ensures r.Some? ==> r.value == TitleName(StringOf(Find(doc, None, IsTitle).value.node).value)
  {
    match Find(doc, None, IsTitle)
    case None => None
    case Some(t) =>
      var s := StringOf(t.node);
      if Truthy(s) then Some(TitleName(s.value)) else None
  }

  /** A title "<name> | <rest>" gives the stripped name. */
  lemma {:induction false} TitleNameBeforeBar(a: string, b: string)
    requires forall i :: 0 <= i < |a| ==> a[i] != '|'
    ensures TitleName(a + "|" + b) == Strip(a)
  {
    var la := TrimLeft(a);
    forall i | 0 <= i < |la| ensures la[i] != '|' {
      assert la[i] == a[|a| - |la| + i];
    }
    StripBar(a, b);
    BeforeBarConcat(la, TrimRight(b));
    assert BeforeBar(Strip(a + "|" + b)) == la;
    assert TrimLeft(la) == la by {
      if la != [] {
        assert !IsSpace(la[0]);
      }
    }
  }

  /** Trimming the left of "<a>|<b>" reaches no further than the bar. */
  lemma {:induction false} TrimLeftBar(a: string, b: string)
    ensures TrimLeft(a + "|" + b) == TrimLeft(a) + "|" + b
  {
    Assoc(a, "|", b);
    Assoc(TrimLeft(a), "|", b);
    TrimLeftConcat(a, "|" + b);
  }

  /** Trimming the right of "<l>|<b>" reaches no further than the bar. */
  lemma {:induction false} TrimRightBar(l: string, b: string)
    ensures TrimRight(l + "|" + b) == l + "|" + TrimRight(b)
  {
    var x := l + "|";
    assert x[|x| - 1] == '|';
    TrimRightConcat(x, b);
  }

  /** Stripping "<a>|<b>" trims the left of `a` and the right of `b` only. */
  lemma {:induction false} StripBar(a: string, b: string)
    ensures Strip(a + "|" + b) == TrimLeft(a) + "|" + TrimRight(b)
  {
    TrimLeftBar(a, b);
    TrimRightBar(TrimLeft(a), b);
  }

  /** A title without '|' gives its stripped text. */
  lemma {:induction false} TitleNameNoBar(s: string)
    requires forall i :: 0 <= i < |s| ==> s[i] != '|'
    ensures TitleName(s) == Strip(s)
  {
    StripOmits(s, '|');
    BeforeBarNone(Strip(s));
    StripTrimmed(Strip(s));
  }

  // ------------------------------------------------------------------ merge

  /** An employee as the dictionary the extractor builds. */
  function EmployeeDict(e: EmployeeExtractor.EmployeeEntry): RawEntry
  {
    Dict(map["employee_name" := e.name, "employee_position" := e.position, "employee_profile_url" := e.profileUrl])
  }

  /** A post as the dictionary `_extract_updates` builds: the date and the likes only when found. */
  function PostEntry(p: Post): RawEntry
  {
    var d := map["text" := p.text];
    var d := if p.postedDate.Some? then d["articlePostedDate" := p.postedDate.value] else d;
    Dict(if p.likes.Some? then d["totalLikes" := p.likes.value] else d)
  }

  /** The fallback name as a record value: no title gives None. */
  function FallbackValue(name: Option<string>): RawValue
  {
    if name.Some? then Str(name.value) else Null
  }

  /** The JSON-LD record's shape: its keys, each with a non-empty value. */
  predicate LdLayer(m: map<string, string>)
  {
    m.Keys <= LdKeys && forall k :: k in m ==> m[k] != ""
  }

  /** The meta record's shape: its keys, each with a non-empty value. */
  predicate MetaLayer(m: map<string, string>)
  {
    m.Keys <= MetaKeys && forall k :: k in m ==> m[k] != ""
  }

  /** The visible record's shape: its keys, and strings everywhere but the locations. */
  predicate VisibleLayer(v: Record)
  {
    v.Keys <= {"about", "locations"} + DlKeys && forall k :: k in v && k != "locations" ==> v[k].Str?
  }

  /** The source URL with the JSON-LD (when non-empty), meta and visible records laid over it in turn. */
  function Layered(url: string, jsonLd: map<string, string>, meta: map<string, string>, visible: Record): Record
  {
    var d := map["source_url" := Str(url)];
    (if jsonLd != map[] then d + Lift(jsonLd) else d) + Lift(meta) + visible
  }

  /** Each key of the layered record comes from the last layer that has it. */
  lemma {:induction false} LayeredAt(url: string, jsonLd: map<string, string>, meta: map<string, string>, visible: Record, k: string)
    ensures var d := Layered(url, jsonLd, meta, visible);
            (k in d <==> k == "source_url" || k in jsonLd || k in meta || k in visible) &&
            (k in d ==> d[k] == if k in visible then visible[k] else if k in meta then Str(meta[k])
                                else if k in jsonLd then Str(jsonLd[k]) else Str(url))
  {
  }

  /** The employees and the posts, each set only when there are some. */
  function WithLists(d: Record, employees: seq<RawEntry>, updates: seq<RawEntry>): Record
  {
    var d := if employees != [] then d["employees" := List(employees)] else d;
    if updates != [] then d["updates" := List(updates)] else d
  }

  /** Only the two list keys change, each to its list when that is non-empty. */
  lemma {:induction false} WithListsAt(d: Record, employees: seq<RawEntry>, updates: seq<RawEntry>, k: string)
    ensures var r := WithLists(d, employees, updates);
            (k in r <==> k in d || (k == "employees" && employees != []) || (k == "updates" && updates != [])) &&
            (k in r ==> r[k] == if k == "updates" && updates != [] then List(updates)
                                else if k == "employees" && employees != [] then List(employees) else d[k])
  {
  }

  /** The fallback name, set only when no truthy name is present. */
  function WithName(d: Record, fallback: RawValue): Record
  {
    if Truthy(Scalar(d, "company_name")) then d else d["company_name" := fallback]
  }

  /** Only company_name changes, and only when it was missing or falsy. */
  lemma {:induction false} WithNameAt(d: Record, fallback: RawValue, k: string)
    ensures var r := WithName(d, fallback);
            (k in r <==> k in d || k == "company_name") &&
            (k in r ==> r[k] == if k == "company_name" && !Truthy(Scalar(d, "company_name")) then fallback else d[k])
  {
  }

  /**
   * The merge of `parse_company_profile`, given what each extractor returned:
   * the source URL, then the JSON-LD (when non-empty), meta and visible
   * records laid over it in that order, then the employees and the posts
   * (when there are some), and the fallback name when no truthy name is set.
   */
  function Merge(url: string, jsonLd: map<string, string>, meta: map<string, string>, visible: Record,
                 employees: seq<RawEntry>, updates: seq<RawEntry>, fallback: RawValue): Record
  {
    WithName(WithLists(Layered(url, jsonLd, meta, visible), employees, updates), fallback)
  }

  /** Each key of the merged record, with the three steps of the merge unfolded. */
  lemma {:induction false} MergeAt(url: string, jsonLd: map<string, string>, meta: map<string, string>, visible: Record,
                                   employees: seq<RawEntry>, updates: seq<RawEntry>, fallback: RawValue, k: string)
    ensures var d := Layered(url, jsonLd, meta, visible);
            var l := WithLists(d, employees, updates);
            var r := Merge(url, jsonLd, meta, visible, employees, updates, fallback);
            (k in d <==> k == "source_url" || k in jsonLd || k in meta || k in visible) &&
            (k in d ==> d[k] == if k in visible then visible[k] else if k in meta then Str(meta[k])
                                else if k in jsonLd then Str(jsonLd[k]) else Str(url)) &&
            (k in l <==> k in d || (k == "employees" && employees != []) || (k == "updates" && updates != [])) &&
            (k in l ==> l[k] == if k == "updates" && updates != [] then List(updates)
                                else if k == "employees" && employees != [] then List(employees) else d[k]) &&
            (k in r <==> k in l || k == "company_name") &&
            (k in r ==> r[k] == if k == "company_name" && !Truthy(Scalar(l, "company_name")) then fallback else l[k])
  {
    var d := Layered(url, jsonLd, meta, visible);
    LayeredAt(url, jsonLd, meta, visible, k);
    WithListsAt(d, employees, updates, k);
    WithNameAt(WithLists(d, employees, updates), fallback, k);
  }

  /** No layer carries the source URL, so it survives the merge. */
  lemma {:induction false} MergeSourceUrl(url: string, jsonLd: map<string, string>, meta: map<string, string>, visible: Record,
                        employees: seq<RawEntry>, updates: seq<RawEntry>, fallback: RawValue)
    requires LdLayer(jsonLd) && MetaLayer(meta) && VisibleLayer(visible)
    ensures var r := Merge(url, jsonLd, meta, visible, employees, updates, fallback);
            "source_url" in r && r["source_url"] == Str(url)
  {
    MergeAt(url, jsonLd, meta, visible, employees, updates, fallback, "source_url");
  }

  /** The name is the meta one, else the JSON-LD one, else the fallback. */
  lemma {:induction false} MergeCompanyName(url: string, jsonLd: map<string, string>, meta: map<string, string>, visible: Record,
                        employees: seq<RawEntry>, updates: seq<RawEntry>, fallback: RawValue, m: Option<string>, ld: Option<string>)
    requires LdLayer(jsonLd) && MetaLayer(meta) && VisibleLayer(visible)
    requires Holds(meta, "company_name", m) && Holds(jsonLd, "company_name", ld)
    ensures var r := Merge(url, jsonLd, meta, visible, employees, updates, fallback);
            var name := Prefer(m, ld);
            "company_name" in r && r["company_name"] == if name.Some? then Str(name.value) else fallback
  {
    assert "company_name" !in visible by {
      KeysDiffer();
      assert "company_name" !in {"about", "locations"} + DlKeys;
    }
    MergeAt(url, jsonLd, meta, visible, employees, updates, fallback, "company_name");
  }

  /** The visible About text wins over the JSON-LD description (there is no meta one). */
  lemma {:induction false} MergeAbout(url: string, jsonLd: map<string, string>, meta: map<string, string>, visible: Record,
                        employees: seq<RawEntry>, updates: seq<RawEntry>, fallback: RawValue, ld: Option<string>, vis: Option<string>)
    requires LdLayer(jsonLd) && MetaLayer(meta) && VisibleLayer(visible)
    requires Holds(jsonLd, "about", ld) && RecordHolds(visible, "about", vis)
    ensures RecordHolds(Merge(url, jsonLd, meta, visible, employees, updates, fallback), "about", Prefer(vis, ld))
  {
    MergeAt(url, jsonLd, meta, visible, employees, updates, fallback, "about");
  }

  /** The visible industry wins over the meta one (there is no JSON-LD one). */
  lemma {:induction false} MergeIndustry(url: string, jsonLd: map<string, string>, meta: map<string, string>, visible: Record,
                        employees: seq<RawEntry>, updates: seq<RawEntry>, fallback: RawValue, m: Option<string>, vis: Option<string>)
    requires LdLayer(jsonLd) && MetaLayer(meta) && VisibleLayer(visible)
    requires Holds(meta, "industry", m) && RecordHolds(visible, "industry", vis)
    ensures RecordHolds(Merge(url, jsonLd, meta, visible, employees, updates, fallback), "industry", Prefer(vis, m))
  {
    MergeAt(url, jsonLd, meta, visible, employees, updates, fallback, "industry");
  }

  /** Employees and posts are set exactly when there are some. */
  lemma {:induction false} MergeLists(url: string, jsonLd: map<string, string>, meta: map<string, string>, visible: Record,
                        employees: seq<RawEntry>, updates: seq<RawEntry>, fallback: RawValue)
    requires LdLayer(jsonLd) && MetaLayer(meta) && VisibleLayer(visible)
    ensures var r := Merge(url, jsonLd, meta, visible, employees, updates, fallback);
            ("employees" in r <==> employees != []) && ("employees" in r ==> r["employees"] == List(employees)) &&
            ("updates" in r <==> updates != []) && ("updates" in r ==> r["updates"] == List(updates))
  {
    MergeAt(url, jsonLd, meta, visible, employees, updates, fallback, "employees");
    MergeAt(url, jsonLd, meta, visible, employees, updates, fallback, "updates");
  }

  /** Only the locations, employees and posts are lists, and the name is always set. */
  lemma {:induction false} MergeText(url: string, jsonLd: map<string, string>, meta: map<string, string>, visible: Record,
                        employees: seq<RawEntry>, updates: seq<RawEntry>, fallback: RawValue)
    requires LdLayer(jsonLd) && MetaLayer(meta) && VisibleLayer(visible) && !fallback.List?
    ensures var r := Merge(url, jsonLd, meta, visible, employees, updates, fallback);
            "company_name" in r && (forall k :: k in r && k !in {"locations", "employees", "updates"} ==> !r[k].List?) &&
            DataCleaner.ScalarsAreText(r)
  {
    var r := Merge(url, jsonLd, meta, visible, employees, updates, fallback);
    forall k | k in r
      ensures k !in {"locations", "employees", "updates"} ==> !r[k].List?
    {
      MergeAt(url, jsonLd, meta, visible, employees, updates, fallback, k);
    }
    MergeAt(url, jsonLd, meta, visible, employees, updates, fallback, "company_name");
    TextOutsideLists(r);
  }

  /** A record whose lists sit only under the three list keys meets the normaliser's expectations. */
  lemma {:induction false} TextOutsideLists(r: Record)
    requires forall k :: k in r && k !in {"locations", "employees", "updates"} ==> !r[k].List?
    ensures DataCleaner.ScalarsAreText(r)
  {
    assert "locations"[0] != "followers"[0] && "employees"[0] != "followers"[0];
    assert "updates"[0] != "tagline"[0] && "updates"[0] != "website"[0] && "updates"[0] != "founded"[0];
    assert forall k :: k in DataCleaner.ScalarKeys ==> k !in {"locations", "employees", "updates"};
  }

  /** The employees `parse_company_profile` asks for. */
  function PageEmployees(doc: Node, urljoin: (string, string) -> string): seq<EmployeeExtractor.EmployeeEntry>
  {
    EmployeeExtractor.Employees(doc, EmployeeExtractor.DefaultBaseUrl, EmployeeExtractor.DefaultMaxEmployees, urljoin)
  }

  /** The record `parse_company_profile` returns for a fetched page. */
  function Merged(url: string, doc: Node, decode: string -> Decoded, urljoin: (string, string) -> string): Record
  {
    Merge(url, JsonLdOf(LdItems(doc, decode)), MetaFields(doc), VisibleRecord(doc),
          Map(PageEmployees(doc, urljoin), EmployeeDict), Map(Updates(doc), PostEntry),
          FallbackValue(FallbackCompanyName(doc)))
  }

  /** The three records of a page have the shapes the merge lemmas expect. */
  lemma {:induction false} PageLayers(doc: Node, decode: string -> Decoded)
    ensures LdLayer(JsonLdOf(LdItems(doc, decode))) && MetaLayer(MetaFields(doc)) && VisibleLayer(VisibleRecord(doc))
  {
    JsonLdKeys(LdItems(doc, decode));
    VisibleKeys(doc);
  }

  /** The source URL survives every layer. */
  lemma {:induction false} MergedSourceUrl(url: string, doc: Node, decode: string -> Decoded, urljoin: (string, string) -> string)
    ensures "source_url" in Merged(url, doc, decode, urljoin) && Merged(url, doc, decode, urljoin)["source_url"] == Str(url)
  {
    PageLayers(doc, decode);
    MergeSourceUrl(url, JsonLdOf(LdItems(doc, decode)), MetaFields(doc), VisibleRecord(doc),
          Map(PageEmployees(doc, urljoin), EmployeeDict), Map(Updates(doc), PostEntry),
          FallbackValue(FallbackCompanyName(doc)));
  }

  /**
   * The company name comes from og:title, else from the first JSON-LD
   * organisation with a name, else from the `<title>` (None without one).
   */
  lemma {:induction false} MergedCompanyName(url: string, doc: Node, decode: string -> Decoded, urljoin: (string, string) -> string)
    ensures var r := Merged(url, doc, decode, urljoin);
            var name := Prefer(MetaContent(doc, "property", "og:title"), FirstSome(LdItems(doc, decode), OrgValueOf("company_name")));
            "company_name" in r && r["company_name"] == if name.Some? then Str(name.value) else FallbackValue(FallbackCompanyName(doc))
  {
    PageLayers(doc, decode);
    JsonLdFirstWins(LdItems(doc, decode), "company_name");
    MergeCompanyName(url, JsonLdOf(LdItems(doc, decode)), MetaFields(doc), VisibleRecord(doc),
          Map(PageEmployees(doc, urljoin), EmployeeDict), Map(Updates(doc), PostEntry),
          FallbackValue(FallbackCompanyName(doc)),
                     MetaContent(doc, "property", "og:title"), FirstSome(LdItems(doc, decode), OrgValueOf("company_name")));
  }

  /** The page's About section, when non-empty, wins over the JSON-LD description. */
  lemma {:induction false} MergedAbout(url: string, doc: Node, decode: string -> Decoded, urljoin: (string, string) -> string)
    ensures RecordHolds(Merged(url, doc, decode, urljoin), "about",
                        Prefer(NonEmpty(AboutText(doc)), FirstSome(LdItems(doc, decode), OrgValueOf("about"))))
  {
    PageLayers(doc, decode);
    JsonLdFirstWins(LdItems(doc, decode), "about");
    VisibleAbout(doc);
    MergeAbout(url, JsonLdOf(LdItems(doc, decode)), MetaFields(doc), VisibleRecord(doc),
          Map(PageEmployees(doc, urljoin), EmployeeDict), Map(Updates(doc), PostEntry),
          FallbackValue(FallbackCompanyName(doc)),
               FirstSome(LdItems(doc, decode), OrgValueOf("about")), NonEmpty(AboutText(doc)));
  }

  /** The industry of the first `<dl>` pair labelled so wins over the industry meta tag. */
  lemma {:induction false} MergedIndustry(url: string, doc: Node, decode: string -> Decoded, urljoin: (string, string) -> string)
    ensures RecordHolds(Merged(url, doc, decode, urljoin), "industry",
                        Prefer(FirstSome(AllFacts(doc), IndustryOf), MetaContent(doc, "name", "industry")))
  {
    PageLayers(doc, decode);
    VisibleIndustry(doc);
    MergeIndustry(url, JsonLdOf(LdItems(doc, decode)), MetaFields(doc), VisibleRecord(doc),
          Map(PageEmployees(doc, urljoin), EmployeeDict), Map(Updates(doc), PostEntry),
          FallbackValue(FallbackCompanyName(doc)),
                  MetaContent(doc, "name", "industry"), FirstSome(AllFacts(doc), IndustryOf));
  }

  /** Employees and posts appear exactly when there are some, as the extractors returned them. */
  lemma {:induction false} MergedLists(url: string, doc: Node, decode: string -> Decoded, urljoin: (string, string) -> string)
    ensures var r := Merged(url, doc, decode, urljoin);
            ("employees" in r <==> Map(PageEmployees(doc, urljoin), EmployeeDict) != []) &&
            ("employees" in r ==> r["employees"] == List(Map(PageEmployees(doc, urljoin), EmployeeDict)))
    ensures var r := Merged(url, doc, decode, urljoin);
            ("updates" in r <==> Map(Updates(doc), PostEntry) != []) &&
            ("updates" in r ==> r["updates"] == List(Map(Updates(doc), PostEntry)))
  {
    PageLayers(doc, decode);
    MergeLists(url, JsonLdOf(LdItems(doc, decode)), MetaFields(doc), VisibleRecord(doc),
          Map(PageEmployees(doc, urljoin), EmployeeDict), Map(Updates(doc), PostEntry),
          FallbackValue(FallbackCompanyName(doc)));
  }

  /**
   * The merge never lets a list into a field the normaliser reads as a
   * string, and it always sets company_name, so its result meets
   * `normalize_company_data`'s expectations.
   */
  lemma {:induction false} MergedIsText(url: string, doc: Node, decode: string -> Decoded, urljoin: (string, string) -> string)
    ensures "company_name" in Merged(url, doc, decode, urljoin)
    ensures DataCleaner.ScalarsAreText(Merged(url, doc, decode, urljoin))
  {
    PageLayers(doc, decode);
    MergeText(url, JsonLdOf(LdItems(doc, decode)), MetaFields(doc), VisibleRecord(doc),
          Map(PageEmployees(doc, urljoin), EmployeeDict), Map(Updates(doc), PostEntry),
          FallbackValue(FallbackCompanyName(doc)));
  }

  /** `parse_company_profile`: None when the fetch gave no page, else the merged record. */
  method ParseCompanyProfile(url: string, page: Option<Node>, decode: string -> Decoded, urljoin: (string, string) -> string)
    returns (r: Option<Record>)
    ensures page.None? <==> r.None?
    ensures page.Some? ==> r.value == Merged(url, page.value, decode, urljoin)
  {
    if page.None? {
      return None;
    }
    var soup := page.value;
    var jsonLd := ExtractJsonLd(soup, decode);
    var meta := ExtractMetaBasedFields(soup);
    var visible := ExtractVisibleSections(soup);
    var employees := EmployeeExtractor.ExtractEmployeesFromSoup(
      soup, EmployeeExtractor.DefaultBaseUrl, EmployeeExtractor.DefaultMaxEmployees, urljoin);
    var updates := ExtractUpdates(soup);
    var data := MergeRecords(url, jsonLd, meta, visible, Map(employees, EmployeeDict), Map(updates, PostEntry),
                             FallbackValue(FallbackCompanyName(soup)));
    return Some(data);
  }

  /** The in-place updates of `company_data` in `parse_company_profile`. */
  method MergeRecords(url: string, jsonLd: map<string, string>, meta: map<string, string>, visible: Record,
                      employees: seq<RawEntry>, updates: seq<RawEntry>, fallback: RawValue) returns (data: Record)
    ensures data == Merge(url, jsonLd, meta, visible, employees, updates, fallback)
  {
    data := map["source_url" := Str(url)];
    if jsonLd != map[] {
      data := data + Lift(jsonLd);
    }
    data := data + Lift(meta);
    data := data + visible;
    if employees != [] {
      data := data["employees" := List(employees)];
    }
    if updates != [] {
      data := data["updates" := List(updates)];
    }
    if !Truthy(Scalar(data, "company_name")) {
      data := data["company_name" := fallback];
    }
  }
}
