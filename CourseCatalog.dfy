/** The course provider of src/contexts/CourseContext.tsx: the repository of
    courses, the saved and purchased id lists, the derived views and the
    search-and-filter pipeline. Browser storage is not modelled. */
module CourseCatalog {
  import opened Wrappers
  import opened Seqs
  import opened Text
  import opened CourseTypes
  import opened IdLists
  import Ranking

  /** The optional `filters` argument of `searchCourses`. */
  datatype SearchFilters = SearchFilters(
    category: Option<string>,
    level: Option<string>,
    minPrice: Option<real>,
    maxPrice: Option<real>,
    rating: Option<real>)

  /** The text criterion: an empty query matches everything; otherwise the
      lower-cased query must occur in the lower-cased title, description or
      instructor name. The query is not trimmed. */
  predicate TextMatch(c: Course, query: string) {
    query == ""
    || Contains(Lower(c.title), Lower(query))
    || Contains(Lower(c.description), Lower(query))
    || Contains(Lower(c.instructor.name), Lower(query))
  }

  /** `if (filters.category)`: an absent or empty category does not filter. */
  predicate CategoryOK(c: Course, filters: Option<SearchFilters>) {
    filters.None? || filters.value.category.None? || filters.value.category.value == ""
    || c.category == filters.value.category.value
  }

  predicate LevelOK(c: Course, filters: Option<SearchFilters>) {
    filters.None? || filters.value.level.None? || filters.value.level.value == ""
    || LevelName(c.level) == filters.value.level.value
  }

  /** `filters.minPrice !== undefined`: any defined bound filters, against the list price, inclusively. */
  predicate MinPriceOK(c: Course, filters: Option<SearchFilters>) {
    filters.None? || filters.value.minPrice.None? || c.price >= filters.value.minPrice.value
  }

  predicate MaxPriceOK(c: Course, filters: Option<SearchFilters>) {
    filters.None? || filters.value.maxPrice.None? || c.price <= filters.value.maxPrice.value
  }

  /** `if (filters.rating)`: a rating of 0 is falsy and does not filter. */
  predicate RatingOK(c: Course, filters: Option<SearchFilters>) {
    filters.None? || filters.value.rating.None? || filters.value.rating.value == 0.0
    || c.rating >= filters.value.rating.value
  }

  /** A course is in the search result when it passes every criterion. */
  predicate Matches(c: Course, query: string, filters: Option<SearchFilters>) {
    TextMatch(c, query) && CategoryOK(c, filters) && LevelOK(c, filters)
    && MinPriceOK(c, filters) && MaxPriceOK(c, filters) && RatingOK(c, filters)
  }

  /** The courses passing every criterion, in repository order. */
  function SearchResult(courses: seq<Course>, query: string, filters: Option<SearchFilters>): (r: seq<Course>)
    ensures forall c :: c in r <==> c in courses && Matches(c, query, filters)
    ensures IsSubsequence(r, courses)
    ensures forall c :: multiset(r)[c] == if Matches(c, query, filters) then multiset(courses)[c] else 0
  {
    FilterIsSubsequence(courses, c => Matches(c, query, filters));
    forall c
      ensures multiset(Filter(courses, c => Matches(c, query, filters)))[c]
              == if Matches(c, query, filters) then multiset(courses)[c] else 0
    {
      FilterMultiplicity(courses, c => Matches(c, query, filters), c);
    }
    Filter(courses, c => Matches(c, query, filters))
  }

  function EnrollmentsKey(c: Course): int { c.enrollments }
  function CreatedAtKey(c: Course): int { c.createdAt }

  /** `popularCourses`: sorted by enrollments, highest first, first eight. */
  function Popular(courses: seq<Course>): seq<Course> {
    Ranking.Top(courses, EnrollmentsKey, 8)
  }

  /** `newCourses`: sorted by creation time, newest first, first eight. */
  function Newest(courses: seq<Course>): seq<Course> {
    Ranking.Top(courses, CreatedAtKey, 8)
  }

  /** `courses.find(course => course.id === courseId)`. */
  function FindById(courses: seq<Course>, id: string): (r: Option<Course>)
    ensures r.None? ==> forall i :: 0 <= i < |courses| ==> courses[i].id != id
    ensures r.Some? ==> exists i :: 0 <= i < |courses| && courses[i] == r.value && r.value.id == id
                          && forall j :: 0 <= j < i ==> courses[j].id != id
  {
    if courses == [] then None
    else if courses[0].id == id then Some(courses[0])
    else
      var r := FindById(courses[1..], id);
      if r.Some? then
        var i :| 0 <= i < |courses[1..]| && courses[1..][i] == r.value && r.value.id == id
                 && forall j :: 0 <= j < i ==> courses[1..][j].id != id;
        assert courses[i + 1] == r.value;
        r
      else r
  }

  class CourseStore {
    const courses: seq<Course>
    var savedIds: seq<string>
    var purchasedIds: seq<string>

    constructor (courses: seq<Course>)
      ensures this.courses == courses && savedIds == [] && purchasedIds == []
    {
      this.courses := courses;
      savedIds := [];
      purchasedIds := [];
    }

    /** `courses.filter(course => course.featured)`. */
    function FeaturedCourses(): (r: seq<Course>)
      ensures forall c :: c in r <==> c in courses && c.featured
      ensures IsSubsequence(r, courses)
    {
      FilterIsSubsequence(courses, (c: Course) => c.featured);
      Filter(courses, (c: Course) => c.featured)
    }

    /** The eight most-enrolled courses, most first, ties in repository order. */
    function PopularCourses(): seq<Course> {
      Popular(courses)
    }

    /** The eight most recently created courses, newest first, ties in repository order. */
    function NewCourses(): seq<Course> {
      Newest(courses)
    }

    /** The courses whose id is saved, in repository order (not in saving order). */
    function SavedCourses(): (r: seq<Course>)
      reads this
      ensures forall c :: c in r <==> c in courses && c.id in savedIds
      ensures IsSubsequence(r, courses)
    {
      var ids := savedIds;
      FilterIsSubsequence(courses, (c: Course) => c.id in ids);
      Filter(courses, (c: Course) => c.id in ids)
    }

    /** The courses whose id is purchased, in repository order. */
    function PurchasedCourses(): (r: seq<Course>)
      reads this
      ensures forall c :: c in r <==> c in courses && c.id in purchasedIds
      ensures IsSubsequence(r, courses)
    {
      var ids := purchasedIds;
      FilterIsSubsequence(courses, (c: Course) => c.id in ids);
      Filter(courses, (c: Course) => c.id in ids)
    }

    predicate IsSaved(id: string)
      reads this
    {
      id in savedIds
    }

    predicate IsPurchased(id: string)
      reads this
    {
      id in purchasedIds
    }

    function GetCourseById(id: string): Option<Course> {
      FindById(courses, id)
    }

    method ToggleSave(id: string)
      modifies this
      ensures savedIds == Toggled(old(savedIds), id)
      ensures purchasedIds == old(purchasedIds)
      ensures IsSaved(id) <==> !old(IsSaved(id))
    {
      ToggledMembership(savedIds, id, id);
      if id in savedIds {
        savedIds := Filter(savedIds, x => x != id);
      } else {
        savedIds := savedIds + [id];
      }
    }

    /** Copies the purchased list and pushes every id not yet in it. */
    method PurchaseCourses(courseIds: seq<string>)
      modifies this
      ensures purchasedIds == AppendNew(old(purchasedIds), courseIds)
      ensures savedIds == old(savedIds)
      ensures forall id :: id in courseIds ==> IsPurchased(id)
    {
      var newIds := purchasedIds;
      for i := 0 to |courseIds|
        invariant AppendNew(newIds, courseIds[i..]) == AppendNew(purchasedIds, courseIds)
      {
        assert courseIds[i..][1..] == courseIds[i + 1..];
        if courseIds[i] !in newIds {
          newIds := newIds + [courseIds[i]];
        }
      }
      forall id | id in courseIds ensures id in newIds {
        AppendNewMembership(purchasedIds, courseIds, id);
      }
      purchasedIds := newIds;
    }

    /** The filter chain of `searchCourses`: each active criterion narrows
        `filtered` in turn, and the result is the courses passing all of them. */
    method SearchCourses(query: string, filters: Option<SearchFilters>) returns (filtered: seq<Course>)
      ensures filtered == SearchResult(courses, query, filters)
    {
      filtered := courses;
      var lowerQuery := Lower(query);
      var byText := (c: Course) =>
        Contains(Lower(c.title), lowerQuery) || Contains(Lower(c.description), lowerQuery)
        || Contains(Lower(c.instructor.name), lowerQuery);
      if query != "" {
        filtered := Filter(filtered, byText);
      }
      assert filtered == Filter(courses, c => TextMatch(c, query)) by {
        if query != "" {
          FilterExtensional(courses, byText, c => TextMatch(c, query));
        } else {
          FilterAll(courses, c => TextMatch(c, query));
        }
      }
      if filters.Some? {
        var f := filters.value;
        ghost var prev := filtered;
        var byCategory := (c: Course) => c.category == f.category.GetOr("");
        var active := f.category.Some? && f.category.value != "";
        if active {
          filtered := Filter(filtered, byCategory);
        }
        assert filtered == Filter(courses, c => UpToCategory(c, query, filters)) by {
          NarrowStep(courses, prev, c => TextMatch(c, query), byCategory,
            c => CategoryOK(c, filters), c => UpToCategory(c, query, filters), active);
        }

        prev := filtered;
        var byLevel := (c: Course) => LevelName(c.level) == f.level.GetOr("");
        active := f.level.Some? && f.level.value != "";
        if active {
          filtered := Filter(filtered, byLevel);
        }
        assert filtered == Filter(courses, c => UpToLevel(c, query, filters)) by {
          NarrowStep(courses, prev, c => UpToCategory(c, query, filters), byLevel,
            c => LevelOK(c, filters), c => UpToLevel(c, query, filters), active);
        }

        prev := filtered;
        var byMinPrice := (c: Course) => c.price >= f.minPrice.GetOr(0.0);
        active := f.minPrice.Some?;
        if active {
          filtered := Filter(filtered, byMinPrice);
        }
        assert filtered == Filter(courses, c => UpToMinPrice(c, query, filters)) by {
          NarrowStep(courses, prev, c => UpToLevel(c, query, filters), byMinPrice,
            c => MinPriceOK(c, filters), c => UpToMinPrice(c, query, filters), active);
        }

        prev := filtered;
        var byMaxPrice := (c: Course) => c.price <= f.maxPrice.GetOr(0.0);
        active := f.maxPrice.Some?;
        if active {
          filtered := Filter(filtered, byMaxPrice);
        }
        assert filtered == Filter(courses, c => UpToMaxPrice(c, query, filters)) by {
          NarrowStep(courses, prev, c => UpToMinPrice(c, query, filters), byMaxPrice,
            c => MaxPriceOK(c, filters), c => UpToMaxPrice(c, query, filters), active);
        }

        prev := filtered;
        var byRating := (c: Course) => c.rating >= f.rating.GetOr(0.0);
        active := f.rating.Some? && f.rating.value != 0.0;
        if active {
          filtered := Filter(filtered, byRating);
        }
        assert filtered == Filter(courses, c => Matches(c, query, filters)) by {
          NarrowStep(courses, prev, c => UpToMaxPrice(c, query, filters), byRating,
            c => RatingOK(c, filters), c => Matches(c, query, filters), active);
        }
      } else {
        FilterExtensional(courses, c => TextMatch(c, query), c => Matches(c, query, filters));
      }
    }
  }

  /** The criteria applied so far at each step of the chain. */
  predicate UpToCategory(c: Course, query: string, filters: Option<SearchFilters>) {
    TextMatch(c, query) && CategoryOK(c, filters)
  }

  predicate UpToLevel(c: Course, query: string, filters: Option<SearchFilters>) {
    UpToCategory(c, query, filters) && LevelOK(c, filters)
  }

  predicate UpToMinPrice(c: Course, query: string, filters: Option<SearchFilters>) {
    UpToLevel(c, query, filters) && MinPriceOK(c, filters)
  }

  predicate UpToMaxPrice(c: Course, query: string, filters: Option<SearchFilters>) {
    UpToMinPrice(c, query, filters) && MaxPriceOK(c, filters)
  }

  /** One step of the chain: filtering by `test` when the criterion is active,
      or skipping the step when it is not, both yield the courses passing
      `stage` and `criterion`. */
  lemma NarrowStep(courses: seq<Course>, current: seq<Course>, stage: Course -> bool,
                   test: Course -> bool, criterion: Course -> bool, next: Course -> bool, active: bool)
    requires current == Filter(courses, stage)
    requires forall c :: next(c) == (stage(c) && criterion(c))
    requires active ==> forall c :: test(c) == criterion(c)
    requires !active ==> forall c :: criterion(c)
    ensures (if active then Filter(current, test) else current) == Filter(courses, next)
  {
    if active {
      FilterTwice(courses, stage, test, next);
    } else {
      FilterExtensional(courses, stage, next);
    }
  }

  /** With an empty query and no filters the search returns the whole repository in order. */
  lemma SearchAllOnEmptyQuery(courses: seq<Course>)
    ensures SearchResult(courses, "", None) == courses
  {
    FilterAll(courses, c => Matches(c, "", None));
  }

  /** Falsy filter values do not filter: an empty category or level and a
      rating of 0 behave as if they were absent. */
  lemma SearchFalsyFiltersIgnored(courses: seq<Course>, query: string, minPrice: Option<real>, maxPrice: Option<real>)
    ensures SearchResult(courses, query, Some(SearchFilters(Some(""), Some(""), minPrice, maxPrice, Some(0.0))))
         == SearchResult(courses, query, Some(SearchFilters(None, None, minPrice, maxPrice, None)))
  {
    var f1 := Some(SearchFilters(Some(""), Some(""), minPrice, maxPrice, Some(0.0)));
    var f2 := Some(SearchFilters(None, None, minPrice, maxPrice, None));
    FilterExtensional(courses, c => Matches(c, query, f1), c => Matches(c, query, f2));
  }

  /** A minimum price above the maximum price matches nothing: the bounds are not swapped. */
  lemma SearchInvertedPriceRangeIsEmpty(courses: seq<Course>, query: string, f: SearchFilters)
    requires f.minPrice.Some? && f.maxPrice.Some? && f.minPrice.value > f.maxPrice.value
    ensures SearchResult(courses, query, Some(f)) == []
  {
    FilterNone(courses, c => Matches(c, query, Some(f)));
  }

  /** The price bounds are inclusive and compare the list price, never the discount price. */
  lemma SearchPriceBoundsUseListPrice(courses: seq<Course>, c: Course, p: real)
    requires c in courses && c.price == p
    ensures c in SearchResult(courses, "", Some(SearchFilters(None, None, Some(p), Some(p), None)))
    ensures c.discountPrice.Some? && c.discountPrice.value < p ==>
      c !in SearchResult(courses, "", Some(SearchFilters(None, None, None, c.discountPrice, None)))
  {
  }

  /** A minimum price above every list price matches nothing. */
  lemma SearchMinPriceAboveAll(courses: seq<Course>, query: string, m: real)
    requires forall c :: c in courses ==> c.price < m
    ensures SearchResult(courses, query, Some(SearchFilters(None, None, Some(m), None, None))) == []
  {
    FilterNone(courses, c => Matches(c, query, Some(SearchFilters(None, None, Some(m), None, None))));
  }

  /** The search ignores the case of the query. */
  lemma SearchCaseInsensitive(courses: seq<Course>, query: string, filters: Option<SearchFilters>)
    ensures SearchResult(courses, Lower(query), filters) == SearchResult(courses, query, filters)
  {
    LowerIdempotent(query);
    FilterExtensional(courses, c => Matches(c, Lower(query), filters), c => Matches(c, query, filters));
  }

  /** `popularCourses` and `newCourses`: at most eight courses, keys never
      increasing, drawn from the repository, ties in repository order. */
  lemma PopularAndNewestShape(courses: seq<Course>, k: int)
    ensures |Popular(courses)| == if |courses| < 8 then |courses| else 8
    ensures Ranking.SortedDesc(Popular(courses), EnrollmentsKey)
    ensures multiset(Popular(courses)) <= multiset(courses)
    ensures |Ranking.KeyClass(Popular(courses), EnrollmentsKey, k)| <= |Ranking.KeyClass(courses, EnrollmentsKey, k)|
    ensures Ranking.KeyClass(Popular(courses), EnrollmentsKey, k)
         == Ranking.KeyClass(courses, EnrollmentsKey, k)[..|Ranking.KeyClass(Popular(courses), EnrollmentsKey, k)|]
    ensures |Newest(courses)| == if |courses| < 8 then |courses| else 8
    ensures Ranking.SortedDesc(Newest(courses), CreatedAtKey)
    ensures multiset(Newest(courses)) <= multiset(courses)
    ensures |Ranking.KeyClass(Newest(courses), CreatedAtKey, k)| <= |Ranking.KeyClass(courses, CreatedAtKey, k)|
    ensures Ranking.KeyClass(Newest(courses), CreatedAtKey, k)
         == Ranking.KeyClass(courses, CreatedAtKey, k)[..|Ranking.KeyClass(Newest(courses), CreatedAtKey, k)|]
  {
    Ranking.TopProperties(courses, EnrollmentsKey, 8);
    Ranking.TopStable(courses, EnrollmentsKey, 8, k);
    Ranking.TopProperties(courses, CreatedAtKey, 8);
    Ranking.TopStable(courses, CreatedAtKey, 8, k);
  }
}
