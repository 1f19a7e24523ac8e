# LinkedIn company profile scraper — a verified model of its parsing core

This project models in Dafny the part of the LinkedIn company profile scraper
that turns one fetched company page into a record and then normalises it:

- **the page parser** (`src/extractors/linkedin_parser.py`). It reads four
  layers from the HTML document:
  - the JSON-LD `Organization`/`Corporation` blocks;
  - the `og:*` and `name=` meta tags;
  - the visible sections: the About text, the `<dl>` facts and the
    locations;
  - the recent posts.

  It merges them into one dictionary on top of the source URL. The
  employees and posts are added when there are any. The `<title>` gives the
  name when no layer supplied one.
- **the employee extractor** (`src/extractors/employee_extractor.py`). It
  chooses the sections whose heading mentions employees, people or a team,
  or else the whole page. It walks their `/in/` profile links in document
  order, skips repeated URLs and links without text, guesses a position from
  the neighbouring elements, and stops at the cap.
- **the normaliser** (`src/utils/data_cleaner.py`). It covers whitespace
  cleaning, the follower count parse and the company slug taken from the
  profile URL. It also maps the raw dictionary onto the fixed output schema:
  malformed list entries are dropped and empty lists are omitted.

## Structure

- **The document.** An HTML document is a rose tree `Dom.Node`. A
  traversal yields `Occurrence`s: the node, its parent, its grandparent and
  its index among the parent's children. So `find_all`, `find`, `.parent`,
  `.parent.parent`, `.string` and `get_text(sep, strip=True)` are plain
  functions over the tree (`dom.dfy`).
- **Extractors as loops.** Each extractor that the source writes as a loop
  is a `method` with that loop. It is proved equal to a declarative
  specification function: `ExtractJsonLd` equals `JsonLdOf(LdItems(..))`,
  `ExtractEmployeesFromSoup` equals `Employees(..)`, and so on. The
  promised properties are lemmas about those functions.
- **The merge.** The in-place updates of `company_data` are the method
  `MergeRecords`. It is proved equal to the function `Merge`. `Merge` is
  staged as the layers, then the lists, then the name fallback, so that
  each key can be reasoned about on its own.
- **Raw values.** A raw record is a `map<string, RawValue>`; a value is
  `Null`, `Str` or `List` of entries (`records.dfy`). The normalised record
  is the `DataCleaner.Company` datatype. The four kinds of list entry have
  their own datatypes.

**Precedence.** The layers are applied with `dict.update` in the order
JSON-LD, meta tags, visible sections, so the last writer wins. So
`og:title` overrides the JSON-LD name, the `<dl>` industry overrides the
industry meta tag, and the visible About text overrides the JSON-LD
description.

## Model

| member | source | states |
|---|---|---|
| DataCleaner.CleanText | src/utils/data_cleaner.py:9-14 | None stays None; the result is None exactly when the text is all whitespace; otherwise it is trimmed, has single plain spaces as its only whitespace, and keeps every non-space character in order |
| DataCleaner.CleanTextIdempotent | src/utils/data_cleaner.py:9-14 | cleaning cleaned text changes nothing |
| DataCleaner.CleanTextSplit | src/utils/data_cleaner.py:9-14 | two pieces of text separated by a whitespace run are cleaned to the two pieces, each collapsed, joined by exactly one space |
| Strings.CollapseSplit | src/utils/data_cleaner.py:13 | `\s+` replaced by one space: a whitespace run between two pieces becomes a single space and each side is collapsed on its own |
| DataCleaner.NumberPrefix | src/utils/data_cleaner.py:19 | the longest prefix made of digits and commas, which is then followed by neither |
| DataCleaner.FirstNumberRun | src/utils/data_cleaner.py:19-21 | the first match of `[\d,]+`: None exactly when the text has no digit or comma, else a non-empty run of digits and commas |
| DataCleaner.DropCommas | src/utils/data_cleaner.py:23 | the result has no comma, and a run of digits and commas becomes digits only |
| DataCleaner.DropCommasAppend | src/utils/data_cleaner.py:23 | removing commas distributes over concatenation |
| DataCleaner.DropCommasChar | src/utils/data_cleaner.py:23 | a comma is removed and every other character is kept |
| DataCleaner.ParseIntFromText | src/utils/data_cleaner.py:16-25 | None for a missing or empty text and for a text with no digit or comma |
| DataCleaner.FirstNumberRunSkips | src/utils/data_cleaner.py:19 | a prefix without digits or commas does not change the first run |
| DataCleaner.ParseIntOfRun | src/utils/data_cleaner.py:19-25 | with no digit or comma before a run and a non-number character after it, the result is the run's value with commas dropped, or None when the run is only commas |
| DataCleaner.DecimalRoundTrip | src/utils/data_cleaner.py:23 | reading back the decimal rendering of n gives n |
| DataCleaner.ParseIntRoundTrip | src/utils/data_cleaner.py:16-25 | a count written in decimal inside any such context parses back to itself |
| DataCleaner.ParseIntGrouped | src/utils/data_cleaner.py:19-23 | "1,234 followers" parses to 1234 |
| DataCleaner.ParseIntCommaOnly | src/utils/data_cleaner.py:22-25 | when the first run is a lone comma, the result is None (the ValueError path), even though a later run has digits |
| DataCleaner.SlugPrefix | src/utils/data_cleaner.py:137 | the longest prefix free of `/`, `?` and `#` |
| DataCleaner.SearchFrom | src/utils/data_cleaner.py:137-140 | Some exactly when `/company/` occurs at or after i, and then a non-empty slug free of `/?#` |
| DataCleaner.ExtractUniversalNameId | src/utils/data_cleaner.py:133-140 | Some exactly when the URL is present and contains `/company/` followed by a slug character; the slug is non-empty and free of `/?#` |
| DataCleaner.UniversalNameIdLeftmost | src/utils/data_cleaner.py:137-140 | the slug is taken after the leftmost match |
| DataCleaner.UniversalNameIdOfProfileUrl | src/utils/data_cleaner.py:136-140 | for `https://www.linkedin.com/company/<slug>` followed by `/`, `?`, `#` or nothing, the result is `<slug>` |
| DataCleaner.CleanLocation | src/utils/data_cleaner.py:55-67 | a dict entry becomes its cleaned address and map URL; it is dropped exactly when it is not a dict or both are None |
| DataCleaner.CleanEmployee | src/utils/data_cleaner.py:74-86 | kept exactly when it is a dict with a non-blank `employee_name`; a kept entry holds the cleaned name, position and profile URL |
| DataCleaner.CleanUpdate | src/utils/data_cleaner.py:93-105 | kept exactly when it is a dict with non-blank `text`; a kept entry holds the cleaned text, posted date and likes |
| DataCleaner.CleanSimilar | src/utils/data_cleaner.py:112-122 | a dict is kept exactly when the cleaned `name` or else `company_name`, or the cleaned `url` or else `profile_url`, is non-empty, and it carries those two; a plain string gives a name with no URL; anything else is dropped |
| DataCleaner.CleanedList | src/utils/data_cleaner.py:52-69 | a written list is never empty |
| DataCleaner.CleanedListAll | src/utils/data_cleaner.py:52-124 | every entry of a written list satisfies what the entry cleaner promises |
| DataCleaner.KeepCleaned | src/utils/data_cleaner.py:54-67 | the loop keeps the cleaned survivors, in input order |
| DataCleaner.NormalizeList | src/utils/data_cleaner.py:52-69 | the list field is written exactly when the key holds a list and something survives |
| DataCleaner.NormalizeScalars | src/utils/data_cleaner.py:33-50 | each scalar field is the cleaned raw value; location falls back to headquarters; the follower count is parsed from `follower_count` or else `followers`; the results are clean |
| DataCleaner.NormalizeCompanyData | src/utils/data_cleaner.py:27-131 | the whole output record field by field, and that every field honours the output schema |
| EmployeeExtractor.PositionOf | src/extractors/employee_extractor.py:77-79 | a position text is 6 to 119 characters long |
| EmployeeExtractor.InferPosition | src/extractors/employee_extractor.py:72-89 | "" exactly when no span/div child of the parent other than the link, and no span/div child of the grandparent, has position text; otherwise a position text |
| EmployeeExtractor.InferPositionFromParent | src/extractors/employee_extractor.py:74-79 | the first qualifying sibling of the link is the position |
| EmployeeExtractor.InferPositionFromGrandparent | src/extractors/employee_extractor.py:81-87 | without a qualifying sibling, the first qualifying child of the grandparent is the position |
| EmployeeExtractor.InferPositionOf | src/extractors/employee_extractor.py:72-89 | the two loops compute `InferPosition` |
| EmployeeExtractor.FirstPositionFrom | src/extractors/employee_extractor.py:74-79 | the loop returns the first qualifying child other than the skipped index, or "" |
| EmployeeExtractor.ReadPosition | src/extractors/employee_extractor.py:77-79 | one child's position text under the length test |
| EmployeeExtractor.ContainersFallback | src/extractors/employee_extractor.py:25-36 | the whole document is searched exactly when no section or div has a heading that mentions employees, people or a team; otherwise the candidates are searched |
| EmployeeExtractor.CandidateChosen | src/extractors/employee_extractor.py:26-32 | every candidate is a section or div of the page, and its first heading mentions one of the keywords |
| EmployeeExtractor.FindContainers | src/extractors/employee_extractor.py:25-36 | the loop computes the containers |
| EmployeeExtractor.CollectCandidates | src/extractors/employee_extractor.py:26-32 | the candidates in document order |
| EmployeeExtractor.Accept | src/extractors/employee_extractor.py:41-64 | an accepted link has an href containing `/in/` and non-empty text, which is the name; its resolved URL was not seen before; the position is the inferred one. Conversely, every such link with an unseen URL is accepted with exactly that entry |
| EmployeeExtractor.Scan | src/extractors/employee_extractor.py:40-64 | at most one entry per link |
| EmployeeExtractor.Cap | src/extractors/employee_extractor.py:66-67 | the effective cap is at least one, and it is `max_employees` when that is positive |
| EmployeeExtractor.ScanDistinct | src/extractors/employee_extractor.py:38-64 | the scanned profile URLs are pairwise distinct |
| EmployeeExtractor.EmployeesDistinct | src/extractors/employee_extractor.py:38-67 | the returned profile URLs are pairwise distinct |
| EmployeeExtractor.EmployeesBounded | src/extractors/employee_extractor.py:66-67 | at most `max_employees` entries, or one when it is not positive; exactly the cap when the uncapped scan finds at least that many, else all of them |
| EmployeeExtractor.AcceptRecords | src/extractors/employee_extractor.py:41-64 | after a qualifying link, its resolved URL is in `seen_urls`, whether it was just added or seen before |
| EmployeeExtractor.ScanSeesQualifying | src/extractors/employee_extractor.py:40-64 | once the scan has passed a qualifying link, its URL is in `seen_urls` |
| EmployeeExtractor.ScanCovers | src/extractors/employee_extractor.py:40-64 | every qualifying link has an entry with its resolved URL in the uncapped scan |
| EmployeeExtractor.EmployeesComplete | src/extractors/employee_extractor.py:38-68 | when the cap is not reached, every qualifying link of the page has exactly one entry with its resolved URL |
| EmployeeExtractor.EmployeeFromLink | src/extractors/employee_extractor.py:41-63 | every entry comes from a visited `/in/` link: its text is the name, its resolved href is the URL, and the position is "" or 6 to 119 characters |
| EmployeeExtractor.ExtractEmployeesFromSoup | src/extractors/employee_extractor.py:17-69 | the nested loops with the early return compute `Employees`: the uncapped scan of every container's links, cut at the cap |
| EmployeeExtractor.ScanLinks | src/extractors/employee_extractor.py:41-67 | the inner loop extends the scan link by link; when capped, it stops at the first link that reaches the cap |
| EmployeeExtractor.VisitLink | src/extractors/employee_extractor.py:42-64 | one link appends its accepted entry, if any, and records the URL as seen |
| EmployeeExtractor.EmployeesCapped | src/extractors/employee_extractor.py:66-67 | returning early at the cap gives the same list as cutting the full scan |
| LinkedinParser.BlockItems | src/extractors/linkedin_parser.py:104-117 | an empty or undecodable block contributes no items |
| LinkedinParser.OrgValue | src/extractors/linkedin_parser.py:119-126 | a value comes only from an Organization or Corporation object, and is that member's non-empty text |
| LinkedinParser.SetDefault | src/extractors/linkedin_parser.py:127-132 | a present key is never replaced; a missing one takes the value, if any |
| LinkedinParser.JsonLdFirstWins | src/extractors/linkedin_parser.py:101-133 | company_name, about and website hold the first non-empty value any organisation item offers, and are absent when none does |
| LinkedinParser.LdStepKey | src/extractors/linkedin_parser.py:119-132 | one item fills only missing keys, with its own value |
| LinkedinParser.JsonLdKeys | src/extractors/linkedin_parser.py:101-133 | the JSON-LD record sets only those three keys, each to a non-empty text |
| LinkedinParser.JsonLdSkipsBadBlock | src/extractors/linkedin_parser.py:105-111 | an empty or undecodable block leaves the items as if it were absent |
| LinkedinParser.ExtractJsonLd | src/extractors/linkedin_parser.py:101-133 | the loop over scripts and items computes the JSON-LD record |
| LinkedinParser.ReadBlock | src/extractors/linkedin_parser.py:105-117 | one script's text, read as `.string` and else as its stripped text, decoded into items |
| LinkedinParser.ApplyItems | src/extractors/linkedin_parser.py:119-132 | the inner loop folds the items into the record |
| LinkedinParser.MetaContent | src/extractors/linkedin_parser.py:141-142 | a meta value is present only when its content is non-empty |
| LinkedinParser.MetaFields | src/extractors/linkedin_parser.py:137-163 | each of the five keys holds the content of the first matching meta tag when non-empty; there are no other keys |
| LinkedinParser.MetaOf | src/extractors/linkedin_parser.py:137-163 | the five contents found are each stored under their own key, and nothing else is |
| LinkedinParser.ExtractMetaBasedFields | src/extractors/linkedin_parser.py:137-163 | the method computes the meta-tag record |
| LinkedinParser.ChunkOf | src/extractors/linkedin_parser.py:228-230 | a kept chunk is longer than 30 characters |
| LinkedinParser.AboutOf | src/extractors/linkedin_parser.py:219-232 | a heading yields text exactly when it mentions "about" and its parent has a long chunk |
| LinkedinParser.AboutTextLong | src/extractors/linkedin_parser.py:216-233 | a found About text is longer than 30 characters |
| LinkedinParser.ExtractAboutSection | src/extractors/linkedin_parser.py:216-233 | the loops return the first heading's joined chunks |
| LinkedinParser.Pairs | src/extractors/linkedin_parser.py:185-187 | the terms and definitions are zipped position by position |
| LinkedinParser.DlKeysOnly | src/extractors/linkedin_parser.py:180-207 | the `<dl>` pairs write only headquarters, founded, company_size, industry, website and type |
| LinkedinParser.DlLastWins | src/extractors/linkedin_parser.py:191-196 | headquarters, founded and company size hold the value of the last pair labelled so; with no such pair they are unchanged |
| LinkedinParser.DlKeepsSet | src/extractors/linkedin_parser.py:197-205 | an industry, website or about already set is never overwritten |
| LinkedinParser.DlIndustryFirstWins | src/extractors/linkedin_parser.py:197-198 | with no industry to begin with, the industry is that of the first pair offering one |
| LinkedinParser.DlTypeLastWins | src/extractors/linkedin_parser.py:206-207 | when no label also names a fact of an earlier branch, type holds the value of the last pair labelled "type"; with no such pair it is unchanged |
| LinkedinParser.DlWebsiteFirstWins | src/extractors/linkedin_parser.py:199-205 | with no website to begin with and no label also naming a fact of an earlier branch, the website is that of the first pair offering one: the `<dd>`'s first link target when it has one, else its text |
| LinkedinParser.VisibleOfKeys | src/extractors/linkedin_parser.py:167-214 | the visible record sets only about, locations and the fact keys, and only locations is a list |
| LinkedinParser.VisibleOfAbout | src/extractors/linkedin_parser.py:174-177 | about holds the About text exactly when that text is non-empty |
| LinkedinParser.VisibleOfIndustry | src/extractors/linkedin_parser.py:180-207 | industry holds the first offered `<dl>` industry |
| LinkedinParser.VisibleKeys | src/extractors/linkedin_parser.py:167-214 | the page's visible record has that shape |
| LinkedinParser.VisibleAbout | src/extractors/linkedin_parser.py:174-177 | the page's about is its About text |
| LinkedinParser.VisibleIndustry | src/extractors/linkedin_parser.py:180-207 | the page's industry is its first `<dl>` industry |
| LinkedinParser.ExtractVisibleSections | src/extractors/linkedin_parser.py:167-214 | the method computes the visible record |
| LinkedinParser.StartFacts | src/extractors/linkedin_parser.py:174-177 | the facts start with the About text when it is non-empty |
| LinkedinParser.AddLocations | src/extractors/linkedin_parser.py:209-212 | the locations are added only when there are any |
| LinkedinParser.ApplyDefinitionLists | src/extractors/linkedin_parser.py:180-207 | the loop over `<dl>`s folds in every pair in document order |
| LinkedinParser.ApplyDefinitionList | src/extractors/linkedin_parser.py:181-184 | a `<dl>` with mismatched or no terms contributes nothing |
| LinkedinParser.ApplyPairs | src/extractors/linkedin_parser.py:185-207 | the loop over the zipped pairs folds them in order |
| LinkedinParser.ApplyPair | src/extractors/linkedin_parser.py:186-207 | the branching on the label computes the one-pair step (`DlStep`), whose effect on each key is stated by the `Dl…` lemmas |
| LinkedinParser.AddressPlace | src/extractors/linkedin_parser.py:239-247 | an `<address>` yields a place exactly when its text is non-empty; the address is that text and the map URL is the target of its first link |
| LinkedinParser.DirectionsPlace | src/extractors/linkedin_parser.py:251-258 | a link yields a place exactly when its lowered text mentions "directions"; the address is its `aria-label` when present, else its text, and the map URL is its href |
| LinkedinParser.LocationsShape | src/extractors/linkedin_parser.py:235-260 | with `<address>` blocks every location has an address; without them every location has a map URL |
| LinkedinParser.ExtractLocations | src/extractors/linkedin_parser.py:235-260 | the two loops compute the locations |
| LinkedinParser.CollectAddresses | src/extractors/linkedin_parser.py:238-247 | the address loop keeps the non-empty blocks in order |
| LinkedinParser.CollectDirections | src/extractors/linkedin_parser.py:250-258 | the directions loop keeps the matching links in order |
| LinkedinParser.Lift | src/extractors/linkedin_parser.py:73-79 | a layer keeps its keys and text values when merged |
| LinkedinParser.PostedDate | src/extractors/linkedin_parser.py:285-290 | a posted date contains a digit |
| LinkedinParser.LikesOf | src/extractors/linkedin_parser.py:293-297 | a likes text mentions "like" and contains a digit |
| LinkedinParser.PostOf | src/extractors/linkedin_parser.py:275-299 | a post's text has at least 20 characters |
| LinkedinParser.UpdatesShape | src/extractors/linkedin_parser.py:264-303 | at most 5 posts, each with text of at least 20 characters, in document order as a prefix of all qualifying posts |
| LinkedinParser.ExtractUpdates | src/extractors/linkedin_parser.py:264-303 | the method computes the posts |
| LinkedinParser.CollectPosts | src/extractors/linkedin_parser.py:275-301 | the loop stops after the fifth post |
| LinkedinParser.ReadPost | src/extractors/linkedin_parser.py:276-297 | one container's post |
| LinkedinParser.FindLikes | src/extractors/linkedin_parser.py:293-297 | the likes of a container |
| LinkedinParser.FirstLikes | src/extractors/linkedin_parser.py:293-297 | the loop stops at the first span that qualifies |
| LinkedinParser.TitleName | src/extractors/linkedin_parser.py:309-312 | the name has no `\|` and no surrounding whitespace |
| LinkedinParser.TitleNameBeforeBar | src/extractors/linkedin_parser.py:309-312 | for "Name \| LinkedIn", the name is the stripped part before the first bar |
| LinkedinParser.TitleNameNoBar | src/extractors/linkedin_parser.py:309-312 | a title without a bar is just stripped |
| LinkedinParser.FallbackCompanyName | src/extractors/linkedin_parser.py:307-313 | None exactly when there is no `<title>` or its string is missing or empty; otherwise the title name |
| LinkedinParser.MergeSourceUrl | src/extractors/linkedin_parser.py:68-70 | no layer overwrites the source URL |
| LinkedinParser.MergeCompanyName | src/extractors/linkedin_parser.py:68-95 | the name is the meta one, else the JSON-LD one, else the fallback |
| LinkedinParser.MergeAbout | src/extractors/linkedin_parser.py:72-79 | the visible about overrides the JSON-LD one |
| LinkedinParser.MergeIndustry | src/extractors/linkedin_parser.py:77-79 | the visible industry overrides the meta one |
| LinkedinParser.MergeLists | src/extractors/linkedin_parser.py:81-91 | employees and updates are set exactly when non-empty, to the extractors' lists |
| LinkedinParser.MergeText | src/extractors/linkedin_parser.py:68-97 | company_name is always set, and only locations, employees and updates hold lists |
| LinkedinParser.PageLayers | src/extractors/linkedin_parser.py:72-79 | the page's three layers have the shapes the merge lemmas assume |
| LinkedinParser.MergedSourceUrl | src/extractors/linkedin_parser.py:68-70 | a parsed page keeps its source URL |
| LinkedinParser.MergedCompanyName | src/extractors/linkedin_parser.py:68-95 | the name comes from `og:title`, else from the first JSON-LD organisation with a name, else from the `<title>` (None when there is none) |
| LinkedinParser.MergedAbout | src/extractors/linkedin_parser.py:72-79 | about is the page's About section when non-empty, else the first JSON-LD description |
| LinkedinParser.MergedIndustry | src/extractors/linkedin_parser.py:77-79 | industry is the first `<dl>` industry, else the industry meta tag |
| LinkedinParser.MergedLists | src/extractors/linkedin_parser.py:81-91 | employees and updates appear exactly when the extractors found some |
| LinkedinParser.MergedIsText | src/extractors/linkedin_parser.py:61-97 | a parsed record always has company_name and meets the normaliser's precondition |
| LinkedinParser.ParseCompanyProfile | src/extractors/linkedin_parser.py:61-97 | None exactly when there is no page; otherwise the merged record |
| LinkedinParser.MergeRecords | src/extractors/linkedin_parser.py:68-95 | the in-place updates of `company_data` compute `Merge` |

## Left out

- Fetching is not modelled: the HTTP session, retries, sleeps and logging in `_fetch_html`. `ParseCompanyProfile` takes the page as `Option<Node>`. None stands for a failed or empty fetch, which gives None.
- HTML parsing is not modelled. lxml and BeautifulSoup give way to a ready-made `Dom.Node` tree. `.string` and `get_text` are modelled on that tree, but entity decoding, comments and malformed markup are not. BeautifulSoup's `get_text` also skips the text inside nested `<script>`, `<style>` and `<template>` elements; `Dom.GetText` does not.
- `json.loads` is a parameter `decode`. An object keeps only its string members, so an Organization whose `name` is a number or an object is not modelled.
- LinkedinParser.OrgValue: a JSON-LD item whose `@type` is a list is skipped by the model. In the source, `item.get("@type") in {"Organization", "Corporation"}` (src/extractors/linkedin_parser.py:122) raises `TypeError` for a list, because a list is unhashable. That line is outside the `try` at lines 105-111, so `parse_company_profile` raises and `src/main.py` drops the page. The model does not represent that failure.
- `urljoin` is a parameter. No property proved here depends on how it resolves URLs.
- `src/main.py` is not part of this model: the command line, the input list, the output files and the logging calls.
- Whitespace, digits and lower-casing are modelled on ASCII only. Whitespace is space, tab to carriage return and the separators 0x1C to 0x1F, as Python treats them. The non-ASCII whitespace, digits and case mappings of Python's `str.strip`, `\s`, `\d` and `str.lower` are not modelled.
- DataCleaner.NormalizeCompanyData: requires that no key read as a scalar holds a list, and the model does not represent the exceptions. On such a key, `clean_text` raises `AttributeError` (a list has no `strip`). Under `follower_count`, `followers` or `source_url`, `re` raises `TypeError` instead. Some of these inputs do not raise at all: an empty list under those three keys is falsy and gives None, and a list under `followers` is never read when `follower_count` is truthy. The requires excludes them as well, so the model says nothing about those inputs. `MergedIsText` proves that the parser never produces a record with a list under these keys.
- DataCleaner.NormalizeCompanyData: idempotence of normalisation is not stated. The output schema (`Company`) is not the input record type.
- DataCleaner.ParseIntGrouped: a single worked example. The general statement is `ParseIntOfRun`.
- LinkedinParser.ExtractAboutSection: the `if not parent: continue` branch is not modelled. A heading found by `find_all` always has a parent, so the branch cannot run.
- LinkedinParser.ParseCompanyProfile: the title fallback is passed in already computed, although the source computes it only when the name is missing. It is read only in that case, so the result is the same.
- EmployeeExtractor.InferPosition: the `sibling is link_tag` identity test is modelled as the link's index among its parent's children.
- Persisting, exporting and scheduling scrapes are outside the parsing core.
