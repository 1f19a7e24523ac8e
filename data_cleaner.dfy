/**
 * The normaliser (src/utils/data_cleaner.py): text cleaning, the follower
 * count parse, the company slug taken from the profile URL, and the mapping
 * of a raw record to the fixed output schema with malformed list entries
 * dropped and empty lists omitted.
 */
module DataCleaner {
  import opened Wrappers
  import opened Seqs
  import opened Strings
  import opened Records

  // ---------------------------------------------------------------- clean_text

  /** Non-empty, trimmed, with single plain spaces as its only whitespace. */
  ghost predicate IsClean(s: string)
  {
    && s != []
    && !IsSpace(s[0]) && !IsSpace(s[|s| - 1])
    && OnlyBlanks(s) && NoDoubleSpace(s)
  }

  ghost predicate CleanOrNone(v: Option<string>)
  {
    v.None? || IsClean(v.value)
  }

  /** `clean_text`: strip, collapse whitespace runs to one space, and map "" to None. */
  function CleanText(value: Option<string>): (r: Option<string>)
    ensures value.None? ==> r.None?
    ensures r.Some? ==> IsClean(r.value) && NonSpace(r.value) == NonSpace(value.value)
    ensures value.Some? ==> (r.None? <==> NonSpace(value.value) == [])
  {
    match value
    case None => None
    case Some(s) =>
      var c := Collapse(Strip(s));
      if c == [] then None else Some(c)
  }

  /** Cleaning a cleaned value changes nothing. */
  lemma {:induction false} CleanTextIdempotent(value: Option<string>)
    ensures CleanText(CleanText(value)) == CleanText(value)
  {
    if CleanText(value).Some? {
      var c := CleanText(value).value;
      StripTrimmed(c);
      CollapseSingleSpaced(c);
    }
  }

  /**
   * A whitespace run between two stripped pieces of text becomes one space:
   * nothing on either side is lost or joined.
   */
  lemma {:induction false} CleanTextSplit(x: string, w: string, y: string)
    requires x != [] && !IsSpace(x[0]) && !IsSpace(x[|x| - 1])
    requires w != [] && forall i :: 0 <= i < |w| ==> IsSpace(w[i])
    requires y != [] && !IsSpace(y[0]) && !IsSpace(y[|y| - 1])
    ensures CleanText(Some(x + w + y)) == Some(Collapse(x) + " " + Collapse(y))
  {
    var s := x + w + y;
    assert s[0] == x[0] && s[|s| - 1] == y[|y| - 1];
    StripTrimmed(s);
    CollapseSplit(x, w, y);
  }

  // ------------------------------------------------------- parse_int_from_text

  /** A character of the pattern `[\d,]`. */
  predicate IsNumberChar(c: char)
  {
    IsDigit(c) || c == ','
  }

  /** The longest prefix of `s` made of digits and commas. */
  function NumberPrefix(s: string): (r: string)
    ensures r <= s
    ensures forall i :: 0 <= i < |r| ==> IsNumberChar(r[i])
    ensures |r| < |s| ==> !IsNumberChar(s[|r|])
    decreases |s|
  {
    if s != [] && IsNumberChar(s[0]) then [s[0]] + NumberPrefix(s[1..]) else []
  }

  /** `re.findall(r"[\d,]+", s)[0]`: the first maximal run of digits and commas. */
  function FirstNumberRun(s: string): (r: Option<string>)
    ensures r.None? <==> forall i :: 0 <= i < |s| ==> !IsNumberChar(s[i])
    ensures r.Some? ==> r.value != [] && forall i :: 0 <= i < |r.value| ==> IsNumberChar(r.value[i])
    decreases |s|
  {
    if s == [] then None
    else if IsNumberChar(s[0]) then Some(NumberPrefix(s))
    else FirstNumberRun(s[1..])
  }

  /** `s.replace(",", "")`. */
  function DropCommas(s: string): (r: string)
    ensures forall i :: 0 <= i < |r| ==> r[i] != ','
    ensures (forall i :: 0 <= i < |s| ==> IsNumberChar(s[i])) ==> forall i :: 0 <= i < |r| ==> IsDigit(r[i])
    decreases |s|
  {
    if s == [] then [] else (if s[0] == ',' then [] else [s[0]]) + DropCommas(s[1..])
  }

  /** `int(d)` for a string of decimal digits. */
  function DecimalValue(d: string): nat
    requires forall i :: 0 <= i < |d| ==> IsDigit(d[i])
    decreases |d|
  {
    if d == [] then 0
    else
      assert IsDigit(d[|d| - 1]);
      10 * DecimalValue(d[..|d| - 1]) + (d[|d| - 1] as int - '0' as int)
  }

  /** `parse_int_from_text`: the first digit-and-comma run, commas removed, as an integer. */
  function ParseIntFromText(value: Option<string>): (r: Option<nat>)
    ensures !Truthy(value) ==> r.None?
    ensures value.Some? && (forall i :: 0 <= i < |value.value| ==> !IsNumberChar(value.value[i])) ==> r.None?
  {
    if !Truthy(value) then None
    else match FirstNumberRun(value.value)
      case None => None
      case Some(run) =>
        var digits := DropCommas(run);
        if digits == [] then None else Some(DecimalValue(digits))
  }

  /** The decimal representation of `n`, as Python's `str(n)`. */
  function Decimal(n: nat): (r: string)
    ensures r != [] && forall i :: 0 <= i < |r| ==> IsDigit(r[i])
  {
    if n < 10 then [('0' as int + n) as char] else Decimal(n / 10) + [('0' as int + n % 10) as char]
  }

  lemma {:induction false} FirstNumberRunSkips(p: string, s: string)
    requires forall i :: 0 <= i < |p| ==> !IsNumberChar(p[i])
    ensures FirstNumberRun(p + s) == FirstNumberRun(s)
    decreases |p|
  {
    if p == [] {
      assert p + s == s;
    } else {
      assert (p + s)[0] == p[0];
      assert (p + s)[1..] == p[1..] + s;
      FirstNumberRunSkips(p[1..], s);
    }
  }

  lemma {:induction false} NumberPrefixOfRun(run: string, q: string)
    requires forall i :: 0 <= i < |run| ==> IsNumberChar(run[i])
    requires q == [] || !IsNumberChar(q[0])
    ensures NumberPrefix(run + q) == run
    decreases |run|
  {
    if run == [] {
      assert run + q == q;
    } else {
      assert (run + q)[0] == run[0];
      assert (run + q)[1..] == run[1..] + q;
      NumberPrefixOfRun(run[1..], q);
    }
  }

  /**
   * The parse of a text is decided by its first digit-and-comma run alone:
   * whatever precedes it has no digit or comma, whatever follows it does not
   * start with one.
   */
  lemma {:induction false} ParseIntOfRun(p: string, run: string, q: string)
    requires forall i :: 0 <= i < |p| ==> !IsNumberChar(p[i])
    requires run != [] && forall i :: 0 <= i < |run| ==> IsNumberChar(run[i])
    requires q == [] || !IsNumberChar(q[0])
    ensures ParseIntFromText(Some(p + run + q)) ==
              if DropCommas(run) == [] then None else Some(DecimalValue(DropCommas(run)))
  {
    assert p + run + q == p + (run + q);
    FirstNumberRunSkips(p, run + q);
    assert (run + q)[0] == run[0];
    NumberPrefixOfRun(run, q);
  }

  lemma {:induction false} DecimalRoundTrip(n: nat)
    ensures DecimalValue(Decimal(n)) == n
  {
    var d := Decimal(n);
    if n < 10 {
      assert d[..|d| - 1] == [];
    } else {
      assert d[..|d| - 1] == Decimal(n / 10);
      DecimalRoundTrip(n / 10);
    }
  }

  lemma {:induction false} DropCommasNone(s: string)
    requires forall i :: 0 <= i < |s| ==> s[i] != ','
    ensures DropCommas(s) == s
    decreases |s|
  {
    if s != [] {
      DropCommasNone(s[1..]);
      assert s == [s[0]] + s[1..];
    }
  }

  /** `replace` works character by character, so it distributes over concatenation. */
  lemma {:induction false} DropCommasAppend(a: string, b: string)
    ensures DropCommas(a + b) == DropCommas(a) + DropCommas(b)
    decreases |a|
  {
    if a == [] {
      assert a + b == b;
    } else {
      assert (a + b)[0] == a[0];
      assert (a + b)[1..] == a[1..] + b;
      DropCommasAppend(a[1..], b);
    }
  }

  /** A comma is removed and any other character is kept. */
  lemma DropCommasChar(c: char)
    ensures DropCommas([c]) == if c == ',' then [] else [c]
  {
  }

  /** A number written in decimal inside surrounding text is read back. */
  lemma {:induction false} ParseIntRoundTrip(n: nat, p: string, q: string)
    requires forall i :: 0 <= i < |p| ==> !IsNumberChar(p[i])
    requires q == [] || !IsNumberChar(q[0])
    ensures ParseIntFromText(Some(p + Decimal(n) + q)) == Some(n)
  {
    var d := Decimal(n);
    ParseIntOfRun(p, d, q);
    DropCommasNone(d);
    DecimalRoundTrip(n);
  }

  /** "1,234 followers" gives 1234: the commas inside the run are dropped. */
  lemma {:induction false} ParseIntGrouped()
    ensures ParseIntFromText(Some("1,234" + " followers")) == Some(1234)
  {
    GroupedChars();
    GroupedDigits();
    GroupedValue();
    ParseIntOfRun("", "1,234", " followers");
  }

  /** The run "1,234" is a run of digits and commas. */
  lemma {:induction false} GroupedChars()
    ensures forall i :: 0 <= i < |"1,234"| ==> IsNumberChar("1,234"[i])
    ensures "" + "1,234" == "1,234"
  {
    assert "1,234"[1] == ',';
  }

  /** Dropping the comma of "1,234" leaves "1234". */
  lemma {:induction false} GroupedDigits()
    ensures DropCommas("1,234") == "1234"
  {
    assert "1,234"[1..] == ",234";
    assert ",234"[1..] == "234";
    assert "234"[1..] == "34";
    assert "34"[1..] == "4";
    assert "4"[1..] == "";
  }

  /** "1234" is the decimal writing of 1234. */
  lemma {:induction false} GroupedValue()
    ensures DecimalValue("1234") == 1234
  {
    assert "1234"[..3] == "123";
    assert "123"[..2] == "12";
    assert "12"[..1] == "1";
    assert "1"[..0] == "";
  }

  /** A first run made only of commas gives None even when digits come later. */
  lemma {:induction false} ParseIntCommaOnly()
    ensures ParseIntFromText(Some("a, 5")) == None
  {
    ParseIntOfRun("a", ",", " 5");
    assert "a" + "," + " 5" == "a, 5";
    assert DropCommas(",") == "" by {
      assert ","[1..] == "";
    }
  }

  // -------------------------------------------------- extract_universal_name_id

  /** A character of the pattern `[^/?#]`. */
  predicate IsSlugChar(c: char)
  {
    c != '/' && c != '?' && c != '#'
  }

  const CompanyMarker: string := "/company/"

  /** `/company/` occurs at `i` and a slug character follows it. */
  predicate MatchAt(s: string, i: int)
  {
    OccursAt(s, CompanyMarker, i) && i + |CompanyMarker| < |s| && IsSlugChar(s[i + |CompanyMarker|])
  }

  /** The longest prefix of `s` made of slug characters. */
  function SlugPrefix(s: string): (r: string)
    ensures r <= s && forall i :: 0 <= i < |r| ==> IsSlugChar(r[i])
    ensures |r| < |s| ==> !IsSlugChar(s[|r|])
    decreases |s|
  {
    if s != [] && IsSlugChar(s[0]) then [s[0]] + SlugPrefix(s[1..]) else []
  }

  /** `re.search(r"/company/([^/?#]+)/?", s[i..])`, group 1. */
  function SearchFrom(s: string, i: nat): (r: Option<string>)
    ensures r.Some? <==> exists k :: i <= k && MatchAt(s, k)
    ensures r.Some? ==> r.value != [] && forall j :: 0 <= j < |r.value| ==> IsSlugChar(r.value[j])
    decreases |s| - i
  {
    if i + |CompanyMarker| >= |s| then None
    else if MatchAt(s, i) then Some(SlugPrefix(s[i + |CompanyMarker|..]))
    else SearchFrom(s, i + 1)
  }

  /** `extract_universal_name_id`: the slug after the first `/company/` that has one. */
  function ExtractUniversalNameId(url: Option<string>): (r: Option<string>)
    ensures r.Some? <==> url.Some? && exists i :: MatchAt(url.value, i)
    ensures r.Some? ==> r.value != [] && forall j :: 0 <= j < |r.value| ==> IsSlugChar(r.value[j])
  {
    if !Truthy(url) then None else SearchFrom(url.value, 0)
  }

  lemma {:induction false} SearchFromLeftmost(s: string, i: nat, k: nat)
    requires i <= k && MatchAt(s, k)
    requires forall j :: i <= j < k ==> !MatchAt(s, j)
    ensures SearchFrom(s, i) == Some(SlugPrefix(s[k + |CompanyMarker|..]))
    decreases k - i
  {
    if i < k {
      SearchFromLeftmost(s, i + 1, k);
    }
  }

  /** The identifier is the whole slug following the leftmost `/company/<slug>`. */
  lemma {:induction false} UniversalNameIdLeftmost(url: string, k: nat)
    requires MatchAt(url, k)
    requires forall j :: 0 <= j < k ==> !MatchAt(url, j)
    ensures ExtractUniversalNameId(Some(url)) == Some(SlugPrefix(url[k + |CompanyMarker|..]))
  {
    SearchFromLeftmost(url, 0, k);
  }

  const ProfileHost: string := "https://www.linkedin.com"

  /** A company profile URL `https://www.linkedin.com/company/<slug>...` yields its slug. */
  lemma {:induction false} UniversalNameIdOfProfileUrl(slug: string, tail: string)
    requires slug != [] && forall i :: 0 <= i < |slug| ==> IsSlugChar(slug[i])
    requires tail == [] || !IsSlugChar(tail[0])
    ensures ExtractUniversalNameId(Some(ProfileHost + CompanyMarker + slug + tail)) == Some(slug)
  {
    var url := ProfileHost + CompanyMarker + slug + tail;
    var k := |ProfileHost|;
    assert url[k..k + |CompanyMarker|] == CompanyMarker;
    assert url[k + |CompanyMarker|..] == slug + tail;
    assert MatchAt(url, k);
    forall j | 0 <= j < k ensures !MatchAt(url, j) {
      assert url[j] == ProfileHost[j];
      assert url[j + 1] == (ProfileHost + CompanyMarker)[j + 1];
      if OccursAt(url, CompanyMarker, j) {
        assert url[j] == CompanyMarker[0] && url[j + 1] == CompanyMarker[1];
      }
    }
    UniversalNameIdLeftmost(url, k);
    var rest := slug + tail;
    assert SlugPrefix(rest) == slug by {
      SlugPrefixOfSlug(slug, tail);
    }
  }

  lemma {:induction false} SlugPrefixOfSlug(slug: string, tail: string)
    requires forall i :: 0 <= i < |slug| ==> IsSlugChar(slug[i])
    requires tail == [] || !IsSlugChar(tail[0])
    ensures SlugPrefix(slug + tail) == slug
    decreases |slug|
  {
    if slug == [] {
      assert slug + tail == tail;
    } else {
      assert (slug + tail)[0] == slug[0];
      assert (slug + tail)[1..] == slug[1..] + tail;
      SlugPrefixOfSlug(slug[1..], tail);
    }
  }

  // ---------------------------------------------------- normalize_company_data

  datatype Location = Location(address: Option<string>, mapUrl: Option<string>)
  datatype Employee = Employee(name: string, position: Option<string>, profileUrl: Option<string>)
  datatype Update = Update(text: string, postedDate: Option<string>, totalLikes: Option<string>)
  datatype SimilarCompany = SimilarCompany(companyName: Option<string>, profileUrl: Option<string>)

  /**
   * The normalised record, its fields in the source's key order. Scalar keys
   * are always present (None or a value); an omitted list is None; `sourceUrl`
   * is None when the key is omitted and Some(value) when it is written.
   */
  datatype Company = Company(
    companyName: Option<string>,
    universalNameId: Option<string>,
    backgroundCoverImageUrl: Option<string>,
    linkedinInternalId: Option<string>,
    industry: Option<string>,
    location: Option<string>,
    followerCount: Option<nat>,
    tagline: Option<string>,
    companySizeOnLinkedin: Option<string>,
    about: Option<string>,
    website: Option<string>,
    companySize: Option<string>,
    headquarters: Option<string>,
    companyType: Option<string>,
    founded: Option<string>,
    specialties: Option<string>,
    locations: Option<seq<Location>>,
    employees: Option<seq<Employee>>,
    updates: Option<seq<Update>>,
    similarCompanies: Option<seq<SimilarCompany>>,
    sourceUrl: Option<Option<string>>)

  /** The keys `normalize_company_data` reads as text. */
  const ScalarKeys: set<string> := {
    "company_name", "source_url", "background_cover_image_url", "linkedin_internal_id",
    "industry", "location", "headquarters", "follower_count", "followers", "tagline",
    "company_size_on_linkedin", "about", "website", "company_size", "type", "founded",
    "specialties"}

  /** What the normaliser needs of its input: text keys hold a string or None (a list makes it raise). */
  ghost predicate ScalarsAreText(raw: Record)
  {
    forall k :: k in raw && k in ScalarKeys ==> !raw[k].List?
  }

  ghost predicate ValidLocation(l: Location)
  {
    (l.address.Some? || l.mapUrl.Some?) && CleanOrNone(l.address) && CleanOrNone(l.mapUrl)
  }

  ghost predicate ValidEmployee(e: Employee)
  {
    IsClean(e.name) && CleanOrNone(e.position) && CleanOrNone(e.profileUrl)
  }

  ghost predicate ValidUpdate(u: Update)
  {
    IsClean(u.text) && CleanOrNone(u.postedDate) && CleanOrNone(u.totalLikes)
  }

  ghost predicate ValidSimilar(c: SimilarCompany)
  {
    (c.companyName.Some? || c.profileUrl.Some?) && CleanOrNone(c.companyName) && CleanOrNone(c.profileUrl)
  }

  /** A location entry: kept when it is a dict with a non-blank address or map URL. */
  function CleanLocation(e: RawEntry): (r: Option<Location>)
    ensures r.Some? ==> ValidLocation(r.value)
    ensures r.Some? ==> e.Dict? && r.value == Location(CleanText(Get(e.fields, "address")), CleanText(Get(e.fields, "map_url")))
    ensures r.None? <==> !e.Dict? || (CleanText(Get(e.fields, "address")).None? && CleanText(Get(e.fields, "map_url")).None?)
  {
    match e
    case Dict(f) =>
      var addr := CleanText(Get(f, "address"));
      var mapUrl := CleanText(Get(f, "map_url"));
      if addr.None? && mapUrl.None? then None else Some(Location(addr, mapUrl))
    case _ => None
  }

  /** An employee entry: kept when it is a dict with a non-blank name. */
  function CleanEmployee(e: RawEntry): (r: Option<Employee>)
    ensures r.Some? ==> ValidEmployee(r.value)
    ensures r.Some? ==> e.Dict? && Some(r.value.name) == CleanText(Get(e.fields, "employee_name"))
    ensures r.Some? ==> r.value.position == CleanText(Get(e.fields, "employee_position")) &&
                        r.value.profileUrl == CleanText(Get(e.fields, "employee_profile_url"))
    ensures r.None? <==> !e.Dict? || CleanText(Get(e.fields, "employee_name")).None?
  {
    match e
    case Dict(f) =>
      var name := CleanText(Get(f, "employee_name"));
      if name.None? then None
      else Some(Employee(name.value, CleanText(Get(f, "employee_position")), CleanText(Get(f, "employee_profile_url"))))
    case _ => None
  }

  /** An update entry: kept when it is a dict with non-blank text. */
  function CleanUpdate(e: RawEntry): (r: Option<Update>)
    ensures r.Some? ==> ValidUpdate(r.value)
    ensures r.Some? ==> e.Dict? && Some(r.value.text) == CleanText(Get(e.fields, "text"))
    ensures r.Some? ==> r.value.postedDate == CleanText(Get(e.fields, "articlePostedDate")) &&
                        r.value.totalLikes == CleanText(Get(e.fields, "totalLikes"))
    ensures r.None? <==> !e.Dict? || CleanText(Get(e.fields, "text")).None?
  {
    match e
    case Dict(f) =>
      var text := CleanText(Get(f, "text"));
      if text.None? then None
      else Some(Update(text.value, CleanText(Get(f, "articlePostedDate")), CleanText(Get(f, "totalLikes"))))
    case _ => None
  }

  /**
   * A similar-company entry: a dict gives `name` (else `company_name`) and `url`
   * (else `profile_url`) and is kept when either survives cleaning; a bare
   * string is a name without URL.
   */
  function CleanSimilar(e: RawEntry): (r: Option<SimilarCompany>)
    ensures r.Some? ==> ValidSimilar(r.value)
    ensures e.Dict? && r.Some? ==>
              r.value.companyName == CleanText(Or(Get(e.fields, "name"), Get(e.fields, "company_name"))) &&
              r.value.profileUrl == CleanText(Or(Get(e.fields, "url"), Get(e.fields, "profile_url")))
    ensures e.Dict? ==> (r.None? <==> CleanText(Or(Get(e.fields, "name"), Get(e.fields, "company_name"))).None? &&
                                      CleanText(Or(Get(e.fields, "url"), Get(e.fields, "profile_url"))).None?)
    ensures e.Plain? ==> r == (if CleanText(Some(e.s)).Some? then Some(SimilarCompany(CleanText(Some(e.s)), None)) else None)
    ensures e.Opaque? ==> r.None?
  {
    match e
    case Dict(f) =>
      var name := CleanText(Or(Get(f, "name"), Get(f, "company_name")));
      var url := CleanText(Or(Get(f, "url"), Get(f, "profile_url")));
      if name.None? && url.None? then None else Some(SimilarCompany(name, url))
    case Plain(s) =>
      var name := CleanText(Some(s));
      if name.None? then None else Some(SimilarCompany(name, None))
    case Opaque => None
  }

  /** A list field after filtering: None when the key holds no list or nothing survives. */
  function CleanedList<U>(raw: Record, key: string, clean: RawEntry -> Option<U>): (r: Option<seq<U>>)
    ensures r.Some? ==> r.value != []
  {
    match Entries(raw, key)
    case None => None
    case Some(es) =>
      var kept := FilterMap(es, clean);
      if kept == [] then None else Some(kept)
  }

  /** Every field of a normalised record honours the output schema. */
  ghost predicate Normalized(c: Company)
  {
    ScalarsClean(c) && ListsValid(c)
  }

  /** The text fields are clean and the slug, when present, is non-empty. */
  ghost predicate ScalarsClean(c: Company)
  {
    && CleanOrNone(c.companyName)
    && (c.universalNameId.Some? ==> c.universalNameId.value != [])
    && CleanOrNone(c.backgroundCoverImageUrl)
    && CleanOrNone(c.linkedinInternalId)
    && CleanOrNone(c.industry)
    && CleanOrNone(c.location)
    && CleanOrNone(c.tagline)
    && CleanOrNone(c.companySizeOnLinkedin)
    && CleanOrNone(c.about)
    && CleanOrNone(c.website)
    && CleanOrNone(c.companySize)
    && CleanOrNone(c.headquarters)
    && CleanOrNone(c.companyType)
    && CleanOrNone(c.founded)
    && CleanOrNone(c.specialties)
    && (c.sourceUrl.Some? ==> CleanOrNone(c.sourceUrl.value))
  }

  /** Each written list is non-empty and holds only entries that survived cleaning. */
  ghost predicate ListsValid(c: Company)
  {
    && (c.locations.Some? ==> c.locations.value != [] && forall k :: 0 <= k < |c.locations.value| ==> ValidLocation(c.locations.value[k]))
    && (c.employees.Some? ==> c.employees.value != [] && forall k :: 0 <= k < |c.employees.value| ==> ValidEmployee(c.employees.value[k]))
    && (c.updates.Some? ==> c.updates.value != [] && forall k :: 0 <= k < |c.updates.value| ==> ValidUpdate(c.updates.value[k]))
    && (c.similarCompanies.Some? ==> c.similarCompanies.value != [] && forall k :: 0 <= k < |c.similarCompanies.value| ==> ValidSimilar(c.similarCompanies.value[k]))
  }

  /** The loop shared by the four list fields: clean each entry in turn and append the survivors. */
  method KeepCleaned<U>(entries: seq<RawEntry>, clean: RawEntry -> Option<U>) returns (kept: seq<U>)
    ensures kept == FilterMap(entries, clean)
  {
    kept := [];
    for i := 0 to |entries|
      invariant kept == FilterMap(entries[..i], clean)
    {
      assert entries[..i + 1][..i] == entries[..i];
      var cleaned := clean(entries[i]);
      if cleaned.None? {
        continue;
      }
      kept := kept + [cleaned.value];
    }
    assert entries[..|entries|] == entries;
  }

  /** Every entry of a written list satisfies what the cleaner promises of each value it keeps. */
  lemma {:induction false} CleanedListAll<U>(raw: Record, key: string, clean: RawEntry -> Option<U>, P: U -> bool)
    requires forall e :: clean(e).Some? ==> P(clean(e).value)
    ensures CleanedList(raw, key, clean).Some? ==>
              forall k :: 0 <= k < |CleanedList(raw, key, clean).value| ==> P(CleanedList(raw, key, clean).value[k])
  {
    if Entries(raw, key).Some? {
      FilterMapAll(Entries(raw, key).value, clean, P);
    }
  }

  /** The list field `key` as `normalize_company_data` writes it, or None when it omits the key. */
  method NormalizeList<U>(raw: Record, key: string, clean: RawEntry -> Option<U>) returns (r: Option<seq<U>>)
    ensures r == CleanedList(raw, key, clean)
  {
    r := None;
    var entries := Entries(raw, key);
    if entries.Some? {
      var kept := KeepCleaned(entries.value, clean);
      if kept != [] {
        r := Some(kept);
      }
    }
  }

  /** The scalar assignments of `normalize_company_data`, with `source_url` attached when truthy. */
  method NormalizeScalars(raw: Record) returns (data: Company)
    ensures ScalarsClean(data)
    ensures data.companyName == CleanText(Scalar(raw, "company_name"))
    ensures data.universalNameId == ExtractUniversalNameId(Scalar(raw, "source_url"))
    ensures data.backgroundCoverImageUrl == CleanText(Scalar(raw, "background_cover_image_url"))
    ensures data.linkedinInternalId == CleanText(Scalar(raw, "linkedin_internal_id"))
    ensures data.industry == CleanText(Scalar(raw, "industry"))
    ensures data.location == Or(CleanText(Scalar(raw, "location")), CleanText(Scalar(raw, "headquarters")))
    ensures data.followerCount == ParseIntFromText(Or(Scalar(raw, "follower_count"), Scalar(raw, "followers")))
    ensures data.tagline == CleanText(Scalar(raw, "tagline"))
    ensures data.companySizeOnLinkedin == CleanText(Scalar(raw, "company_size_on_linkedin"))
    ensures data.about == CleanText(Scalar(raw, "about"))
    ensures data.website == CleanText(Scalar(raw, "website"))
    ensures data.companySize == CleanText(Scalar(raw, "company_size"))
    ensures data.headquarters == CleanText(Scalar(raw, "headquarters"))
    ensures data.companyType == CleanText(Scalar(raw, "type"))
    ensures data.founded == CleanText(Scalar(raw, "founded"))
    ensures data.specialties == CleanText(Scalar(raw, "specialties"))
    ensures data.locations.None? && data.employees.None? && data.updates.None? && data.similarCompanies.None?
    ensures data.sourceUrl == if Truthy(Scalar(raw, "source_url")) then Some(CleanText(Scalar(raw, "source_url"))) else None
  {
    var sourceUrl: Option<Option<string>> := None;
    if Truthy(Scalar(raw, "source_url")) {
      sourceUrl := Some(CleanText(Scalar(raw, "source_url")));
    }
    data := Company(
      CleanText(Scalar(raw, "company_name")),
      ExtractUniversalNameId(Scalar(raw, "source_url")),
      CleanText(Scalar(raw, "background_cover_image_url")),
      CleanText(Scalar(raw, "linkedin_internal_id")),
      CleanText(Scalar(raw, "industry")),
      Or(CleanText(Scalar(raw, "location")), CleanText(Scalar(raw, "headquarters"))),
      ParseIntFromText(Or(Scalar(raw, "follower_count"), Scalar(raw, "followers"))),
      CleanText(Scalar(raw, "tagline")),
      CleanText(Scalar(raw, "company_size_on_linkedin")),
      CleanText(Scalar(raw, "about")),
      CleanText(Scalar(raw, "website")),
      CleanText(Scalar(raw, "company_size")),
      CleanText(Scalar(raw, "headquarters")),
      CleanText(Scalar(raw, "type")),
      CleanText(Scalar(raw, "founded")),
      CleanText(Scalar(raw, "specialties")),
      None, None, None, None, sourceUrl);
  }

  /** `normalize_company_data`. */
  method NormalizeCompanyData(raw: Record) returns (data: Company)
    requires ScalarsAreText(raw)
    ensures Normalized(data)
    ensures data.companyName == CleanText(Scalar(raw, "company_name"))
    ensures data.universalNameId == ExtractUniversalNameId(Scalar(raw, "source_url"))
    ensures data.backgroundCoverImageUrl == CleanText(Scalar(raw, "background_cover_image_url"))
    ensures data.linkedinInternalId == CleanText(Scalar(raw, "linkedin_internal_id"))
    ensures data.industry == CleanText(Scalar(raw, "industry"))
    ensures data.location == Or(CleanText(Scalar(raw, "location")), CleanText(Scalar(raw, "headquarters")))
    ensures data.followerCount == ParseIntFromText(Or(Scalar(raw, "follower_count"), Scalar(raw, "followers")))
    ensures data.tagline == CleanText(Scalar(raw, "tagline"))
    ensures data.companySizeOnLinkedin == CleanText(Scalar(raw, "company_size_on_linkedin"))
    ensures data.about == CleanText(Scalar(raw, "about"))
    ensures data.website == CleanText(Scalar(raw, "website"))
    ensures data.companySize == CleanText(Scalar(raw, "company_size"))
    ensures data.headquarters == CleanText(Scalar(raw, "headquarters"))
    ensures data.companyType == CleanText(Scalar(raw, "type"))
    ensures data.founded == CleanText(Scalar(raw, "founded"))
    ensures data.specialties == CleanText(Scalar(raw, "specialties"))
    ensures data.locations == CleanedList(raw, "locations", CleanLocation)
    ensures data.employees == CleanedList(raw, "employees", CleanEmployee)
    ensures data.updates == CleanedList(raw, "updates", CleanUpdate)
    ensures data.similarCompanies == CleanedList(raw, "similar_companies", CleanSimilar)
    ensures data.sourceUrl == if Truthy(Scalar(raw, "source_url")) then Some(CleanText(Scalar(raw, "source_url"))) else None
  {
    CleanedListAll(raw, "locations", CleanLocation, ValidLocation);
    CleanedListAll(raw, "employees", CleanEmployee, ValidEmployee);
    CleanedListAll(raw, "updates", CleanUpdate, ValidUpdate);
    CleanedListAll(raw, "similar_companies", CleanSimilar, ValidSimilar);
    var locations := NormalizeList(raw, "locations", CleanLocation);
    var employees := NormalizeList(raw, "employees", CleanEmployee);
    var updates := NormalizeList(raw, "updates", CleanUpdate);
    var similar := NormalizeList(raw, "similar_companies", CleanSimilar);

    data := NormalizeScalars(raw);
    data := data.(locations := locations, employees := employees, updates := updates, similarCompanies := similar);
  }
}
