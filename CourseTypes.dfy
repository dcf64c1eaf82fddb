/** The `Course` record of src/types/course.ts and its nested instructor,
    curriculum section and lesson records. Prices and ratings are `real`;
    `createdAt` / `updatedAt` are integer timestamps (milliseconds). */
module CourseTypes {
  import opened Wrappers

  datatype Level = Beginner | Intermediate | Advanced | AllLevels

  /** The string the source stores for each level. */
  function LevelName(l: Level): string {
    match l
    case Beginner => "Beginner"
    case Intermediate => "Intermediate"
    case Advanced => "Advanced"
    case AllLevels => "All Levels"
  }

  datatype LessonType = Video | Quiz | Assignment

  datatype Lesson = Lesson(
    id: string,
    title: string,
    duration: string,
    kind: LessonType,
    preview: bool)

  datatype Section = Section(title: string, lessons: seq<Lesson>)

  datatype Instructor = Instructor(
    id: string,
    name: string,
    avatar: string,
    bio: string,
    rating: real,
    courses: nat,
    students: nat)

  datatype Course = Course(
    id: string,
    title: string,
    description: string,
    price: real,
    discountPrice: Option<real>,
    thumbnail: string,
    category: string,
    level: Level,
    rating: real,
    reviews: nat,
    enrollments: nat,
    duration: string,
    lessons: nat,
    featured: bool,
    bestseller: bool,
    tags: seq<string>,
    createdAt: int,
    updatedAt: int,
    instructor: Instructor,
    sections: seq<Section>)

  /** `item.discountPrice || item.price`: a missing or zero discount price
      (both falsy in JavaScript) falls back to the list price. */
  function EffectivePrice(c: Course): (r: real)
    ensures r == c.price || (c.discountPrice.Some? && r == c.discountPrice.value)
    ensures NonNegativePrices(c) ==> r >= 0.0
    ensures c.discountPrice.Some? && c.discountPrice.value <= c.price ==> r <= c.price
    ensures c.discountPrice.None? ==> r == c.price
  {
    match c.discountPrice
    case Some(d) => if d != 0.0 then d else c.price
    case None => c.price
  }

  /** The record invariant of the data model: prices are non-negative. */
  predicate NonNegativePrices(c: Course) {
    c.price >= 0.0 && (c.discountPrice.Some? ==> c.discountPrice.value >= 0.0)
  }

  /** The ids of a sequence of courses, `items.map(item => item.id)`. */
  function Ids(cs: seq<Course>): (r: seq<string>)
    ensures |r| == |cs|
    ensures forall i :: 0 <= i < |cs| ==> r[i] == cs[i].id
  {
    seq(|cs|, i requires 0 <= i < |cs| => cs[i].id)
  }
}
