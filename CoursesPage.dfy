/** The filter panel of the course list, src/pages/CoursesPage.tsx: six filter
    fields, their decoding from and encoding to URL query parameters, the
    clear actions, the arguments handed to `searchCourses`, and the category
    and level lists offered as choices. The query parameters are a map from
    key to (already URL-decoded) value. */
module CoursesPage {
  import opened Wrappers
  import opened Seqs
  import opened Numerals
  import opened CourseTypes
  import opened IdLists
  import CourseCatalog

  /** The six filter fields; `None` is `undefined`. */
  datatype FilterState = FilterState(
    query: string,
    category: string,
    level: string,
    minPrice: Option<real>,
    maxPrice: Option<real>,
    rating: Option<real>)

  /** The initial state, and the state `clearFilters` produces. */
  const Cleared := FilterState("", "", "", None, None, None)

  /** `searchParams.get(key) || ''`. */
  function TextParam(params: map<string, string>, key: string): string {
    if key in params then params[key] else ""
  }

  /** `p ? Number(p) : undefined` with `p = searchParams.get(key)`: `Some(None)`
      for a missing or empty parameter, `Some(Some(v))` for a decimal numeral
      of value `v`, and `None` for any other text. */
  function NumberParam(params: map<string, string>, key: string): Option<Option<real>> {
    if key !in params || params[key] == "" then Some(None)
    else match ParseNumeral(params[key])
      case Some(v) => Some(Some(v))
      case None => None
  }

  /** The state the URL-parameter effect sets; `None` when a numeric parameter
      is text `Number` is not modelled on. */
  function Decode(params: map<string, string>): (r: Option<FilterState>)
    ensures r.Some? <==> NumberParam(params, "minPrice").Some? && NumberParam(params, "maxPrice").Some?
                         && NumberParam(params, "rating").Some?
    ensures r.Some? ==> r.value.query == (if "search" in params then params["search"] else "")
    ensures r.Some? ==> r.value.category == (if "category" in params then params["category"] else "")
    ensures r.Some? ==> r.value.level == (if "level" in params then params["level"] else "")
    ensures r.Some? ==> (r.value.minPrice.None? <==> "minPrice" !in params || params["minPrice"] == "")
    ensures r.Some? ==> (r.value.maxPrice.None? <==> "maxPrice" !in params || params["maxPrice"] == "")
    ensures r.Some? ==> (r.value.rating.None? <==> "rating" !in params || params["rating"] == "")
    ensures r.Some? && "minPrice" in params && params["minPrice"] != "" ==> r.value.minPrice == ParseNumeral(params["minPrice"])
    ensures r.Some? && "maxPrice" in params && params["maxPrice"] != "" ==> r.value.maxPrice == ParseNumeral(params["maxPrice"])
    ensures r.Some? && "rating" in params && params["rating"] != "" ==> r.value.rating == ParseNumeral(params["rating"])
  {
    var minPrice, maxPrice, rating :=
      NumberParam(params, "minPrice"), NumberParam(params, "maxPrice"), NumberParam(params, "rating");
    if minPrice.Some? && maxPrice.Some? && rating.Some? then
      Some(FilterState(TextParam(params, "search"), TextParam(params, "category"), TextParam(params, "level"),
                       minPrice.value, maxPrice.value, rating.value))
    else None
  }

  /** Every defined number is one `toString()` is modelled on. */
  predicate Encodable(st: FilterState) {
    (st.minPrice.Some? ==> IsCents(st.minPrice.value))
    && (st.maxPrice.Some? ==> IsCents(st.maxPrice.value))
    && (st.rating.Some? ==> IsCents(st.rating.value))
  }

  const ParamKeys: set<string> := {"search", "category", "level", "minPrice", "maxPrice", "rating"}

  /** Whether the encoder writes `key`: a non-empty text field or a defined number. */
  predicate Emitted(st: FilterState, key: string) {
    match key
    case "search" => st.query != ""
    case "category" => st.category != ""
    case "level" => st.level != ""
    case "minPrice" => st.minPrice.Some?
    case "maxPrice" => st.maxPrice.Some?
    case "rating" => st.rating.Some?
    case _ => false
  }

  /** The text written for an emitted `key`. */
  function FieldText(st: FilterState, key: string): string
    requires Encodable(st) && Emitted(st, key)
  {
    match key
    case "search" => st.query
    case "category" => st.category
    case "level" => st.level
    case "minPrice" => AmountText(st.minPrice.value)
    case "maxPrice" => AmountText(st.maxPrice.value)
    case "rating" => AmountText(st.rating.value)
  }

  /** The parameters the encoder produces: exactly the emitted keys. */
  function ParamsOf(st: FilterState): (params: map<string, string>)
    requires Encodable(st)
    ensures params.Keys <= ParamKeys
    ensures forall key :: key in params <==> key in ParamKeys && Emitted(st, key)
    ensures forall key :: key in params ==> params[key] != ""
  {
    map key | key in ParamKeys && Emitted(st, key) :: FieldText(st, key)
  }

  /** A parameter map with exactly the emitted keys, each holding its field's
      text, is the encoding: the encoder has one possible result. */
  lemma EncodingIsDetermined(st: FilterState, params: map<string, string>)
    requires Encodable(st)
    requires forall key :: key in params <==> key in ParamKeys && Emitted(st, key)
    requires forall key :: key in params ==> Emitted(st, key) && params[key] == FieldText(st, key)
    ensures params == ParamsOf(st)
  {
  }

  /** Decoding the encoding of a state gives the state back. */
  lemma DecodeEncode(st: FilterState)
    requires Encodable(st)
    ensures Decode(ParamsOf(st)) == Some(st)
  {
    var params := ParamsOf(st);
    assert "search" in ParamKeys && "category" in ParamKeys && "level" in ParamKeys;
    assert "minPrice" in ParamKeys && "maxPrice" in ParamKeys && "rating" in ParamKeys;
    if st.minPrice.Some? {
      AmountTextRoundTrip(st.minPrice.value);
    }
    if st.maxPrice.Some? {
      AmountTextRoundTrip(st.maxPrice.value);
    }
    if st.rating.Some? {
      AmountTextRoundTrip(st.rating.value);
    }
  }

  /** The cleared state encodes to no parameters at all, and decoding no
      parameters gives the cleared state. */
  lemma ClearedEncodesEmpty()
    ensures Encodable(Cleared)
    ensures ParamsOf(Cleared) == map[]
    ensures Decode(map[]) == Some(Cleared)
  {
    assert forall key :: !Emitted(Cleared, key);
  }

  /** The filters argument of `searchCourses`: empty category and level become
      `undefined`, the other fields pass through. */
  function SearchArgs(st: FilterState): CourseCatalog.SearchFilters {
    CourseCatalog.SearchFilters(
      if st.category == "" then None else Some(st.category),
      if st.level == "" then None else Some(st.level),
      st.minPrice, st.maxPrice, st.rating)
  }

  /** The same filters with the text fields passed as they are. */
  function RawArgs(st: FilterState): CourseCatalog.SearchFilters {
    CourseCatalog.SearchFilters(Some(st.category), Some(st.level), st.minPrice, st.maxPrice, st.rating)
  }

  /** Mapping an empty category or level to `undefined` does not change the
      search result, since `searchCourses` treats both as "no filter". */
  lemma SearchArgsEquivalent(courses: seq<Course>, st: FilterState)
    ensures CourseCatalog.SearchResult(courses, st.query, Some(SearchArgs(st)))
         == CourseCatalog.SearchResult(courses, st.query, Some(RawArgs(st)))
  {
    var p := (c: Course) => CourseCatalog.Matches(c, st.query, Some(SearchArgs(st)));
    var q := (c: Course) => CourseCatalog.Matches(c, st.query, Some(RawArgs(st)));
    FilterExtensional(courses, p, q);
  }

  /** With the filters cleared, every course is listed in repository order. */
  lemma ClearedListsEverything(courses: seq<Course>)
    ensures CourseCatalog.SearchResult(courses, Cleared.query, Some(SearchArgs(Cleared))) == courses
  {
    FilterAll(courses, (c: Course) => CourseCatalog.Matches(c, Cleared.query, Some(SearchArgs(Cleared))));
  }

  /** The category of every course, in repository order. */
  function CategoryColumn(courses: seq<Course>): (r: seq<string>)
    ensures |r| == |courses| && forall i :: 0 <= i < |r| ==> r[i] == courses[i].category
  {
    seq(|courses|, i requires 0 <= i < |courses| => courses[i].category)
  }

  /** The level label of every course, in repository order. */
  function LevelColumn(courses: seq<Course>): (r: seq<string>)
    ensures |r| == |courses| && forall i :: 0 <= i < |r| ==> r[i] == LevelName(courses[i].level)
  {
    seq(|courses|, i requires 0 <= i < |courses| => LevelName(courses[i].level))
  }

  /** `[...new Set(values)]`: each value once, in first-occurrence order. */
  function Unique(values: seq<string>): seq<string> {
    AppendNew([], values)
  }

  /** `categories` and `levels`: the distinct values of the column. */
  function Categories(courses: seq<Course>): seq<string> {
    Unique(CategoryColumn(courses))
  }

  function Levels(courses: seq<Course>): seq<string> {
    Unique(LevelColumn(courses))
  }

  /** `Unique(values)` holds every value exactly once, and no other, and lists
      them in the order they first occur. */
  lemma UniqueProperties(values: seq<string>)
    ensures Distinct(Unique(values))
    ensures forall x :: x in Unique(values) <==> x in values
    ensures forall i, j :: 0 <= i < j < |Unique(values)| ==>
      Unique(values)[i] in values && Unique(values)[j] in values &&
      FirstIndex(values, Unique(values)[i]) < FirstIndex(values, Unique(values)[j])
  {
    AppendNewDistinct([], values);
    forall x ensures x in Unique(values) <==> x in values {
      AppendNewMembership([], values, x);
    }
    AppendNewFirstOccurrence([], values);
  }

  /** The category choices are exactly the categories of the courses, once each. */
  lemma CategoriesProperties(courses: seq<Course>)
    ensures Distinct(Categories(courses))
    ensures forall x :: x in Categories(courses) <==> exists i :: 0 <= i < |courses| && courses[i].category == x
  {
    UniqueProperties(CategoryColumn(courses));
    var col := CategoryColumn(courses);
    forall x ensures x in col <==> exists i :: 0 <= i < |courses| && courses[i].category == x {
      if x in col {
        var i :| 0 <= i < |col| && col[i] == x;
      }
    }
  }

  /** The level choices are exactly the level labels of the courses, once each. */
  lemma LevelsProperties(courses: seq<Course>)
    ensures Distinct(Levels(courses))
    ensures forall x :: x in Levels(courses) <==> exists i :: 0 <= i < |courses| && LevelName(courses[i].level) == x
  {
    UniqueProperties(LevelColumn(courses));
    var col := LevelColumn(courses);
    forall x ensures x in col <==> exists i :: 0 <= i < |courses| && LevelName(courses[i].level) == x {
      if x in col {
        var i :| 0 <= i < |col| && col[i] == x;
      }
    }
  }

  /** The page's filter fields. */
  class FilterPanel {
    var query: string
    var category: string
    var level: string
    var minPrice: Option<real>
    var maxPrice: Option<real>
    var rating: Option<real>

    function State(): FilterState
      reads this
    {
      FilterState(query, category, level, minPrice, maxPrice, rating)
    }

    constructor ()
      ensures State() == Cleared
    {
      query, category, level := "", "", "";
      minPrice, maxPrice, rating := None, None, None;
    }

    /** The URL-parameter effect: each field set from its parameter. */
    method ApplyParams(params: map<string, string>)
      requires Decode(params).Some?
      modifies this
      ensures State() == Decode(params).value
    {
      query := if "search" in params then params["search"] else "";
      category := if "category" in params then params["category"] else "";
      level := if "level" in params then params["level"] else "";
      minPrice := NumberParam(params, "minPrice").value;
      maxPrice := NumberParam(params, "maxPrice").value;
      rating := NumberParam(params, "rating").value;
    }

    /** The encoding effect: a key is written for each non-empty text field
        and each defined number. */
    method EncodeParams() returns (params: map<string, string>)
      requires Encodable(State())
      ensures forall key :: key in params <==> key in ParamKeys && Emitted(State(), key)
      ensures forall key :: key in params ==> Emitted(State(), key) && params[key] == FieldText(State(), key)
    {
      params := map[];
      if query != "" { params := params["search" := query]; }
      if category != "" { params := params["category" := category]; }
      if level != "" { params := params["level" := level]; }
      if minPrice.Some? { params := params["minPrice" := AmountText(minPrice.value)]; }
      if maxPrice.Some? { params := params["maxPrice" := AmountText(maxPrice.value)]; }
      if rating.Some? { params := params["rating" := AmountText(rating.value)]; }
    }

    method ClearFilters()
      modifies this
      ensures State() == Cleared
    {
      query, category, level := "", "", "";
      minPrice, maxPrice, rating := None, None, None;
    }

    /** The "clear price" action: both bounds undefined, nothing else touched. */
    method ClearPrice()
      modifies this
      ensures State() == old(State()).(minPrice := None, maxPrice := None)
    {
      minPrice, maxPrice := None, None;
    }
  }
}
