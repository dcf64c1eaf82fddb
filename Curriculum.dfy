/** Counts over a course's curriculum, computed identically by the course
    player (src/pages/CoursePlayerPage.tsx) and the course detail page
    (src/pages/CourseDetailPage.tsx) as `reduce` folds over the sections. */
module Curriculum {
  import opened CourseTypes
  import Seqs

  /** `sections.reduce((total, section) => total + section.lessons.length, 0)`. */
  function TotalLessons(sections: seq<Section>): nat {
    if sections == [] then 0
    else |sections[0].lessons| + TotalLessons(sections[1..])
  }

  /** `sections.reduce((total, section) => total + section.lessons.filter(l => l.preview).length, 0)`. */
  function PreviewLessons(sections: seq<Section>): nat {
    if sections == [] then 0
    else |Seqs.Filter(sections[0].lessons, IsPreview)| + PreviewLessons(sections[1..])
  }

  predicate IsPreview(l: Lesson) { l.preview }

  /** Every lesson of the curriculum, section after section. */
  function AllLessons(sections: seq<Section>): seq<Lesson> {
    if sections == [] then []
    else sections[0].lessons + AllLessons(sections[1..])
  }

  /** The lesson total is the length of the flattened lesson list. */
  lemma {:induction false} TotalLessonsCountsAll(sections: seq<Section>)
    ensures TotalLessons(sections) == |AllLessons(sections)|
  {
    if sections != [] {
      TotalLessonsCountsAll(sections[1..]);
    }
  }

  /** The preview count is the number of preview lessons in the flattened list. */
  lemma {:induction false} PreviewLessonsCountsPreviews(sections: seq<Section>)
    ensures PreviewLessons(sections) == |Seqs.Filter(AllLessons(sections), IsPreview)|
  {
    if sections != [] {
      PreviewLessonsCountsPreviews(sections[1..]);
      Seqs.FilterAppend(sections[0].lessons, AllLessons(sections[1..]), IsPreview);
    }
  }

  /** There are never more preview lessons than lessons. */
  lemma {:induction false} PreviewAtMostTotal(sections: seq<Section>)
    ensures PreviewLessons(sections) <= TotalLessons(sections)
  {
    if sections != [] {
      PreviewAtMostTotal(sections[1..]);
    }
  }

  /** Counting over a concatenation of section lists adds up. */
  lemma {:induction false} TotalLessonsAppend(a: seq<Section>, b: seq<Section>)
    ensures TotalLessons(a + b) == TotalLessons(a) + TotalLessons(b)
  {
    if a != [] {
      TotalLessonsAppend(a[1..], b);
      assert (a + b)[1..] == a[1..] + b;
    } else {
      assert a + b == b;
    }
  }

  /** The position of lesson `l` of section `s` in curriculum order. */
  function Position(sections: seq<Section>, s: nat, l: nat): nat
    requires s <= |sections|
  {
    TotalLessons(sections[..s]) + l
  }

  /** The first lesson of section `s + 1` comes right after the last lesson of section `s`. */
  lemma NextSectionPosition(sections: seq<Section>, s: nat)
    requires s + 1 < |sections| && |sections[s].lessons| > 0
    ensures Position(sections, s + 1, 0) == Position(sections, s, |sections[s].lessons| - 1) + 1
  {
    assert sections[..s + 1] == sections[..s] + [sections[s]];
    TotalLessonsAppend(sections[..s], [sections[s]]);
    assert TotalLessons([sections[s]]) == |sections[s].lessons| by {
      assert [sections[s]][1..] == [];
    }
  }
}
