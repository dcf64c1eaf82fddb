/** The course player, src/pages/CoursePlayerPage.tsx: the completed-lesson
    list, the (section, lesson) cursor and its Next / Next Section / Previous
    buttons, and the progress ratio. Persisting the completed list in browser
    storage is not modelled. */
module CoursePlayer {
  import opened Wrappers
  import opened Seqs
  import opened CourseTypes
  import opened IdLists
  import opened Curriculum

  /** The active section and lesson indices. */
  datatype Cursor = Cursor(section: nat, lesson: nat)

  /** The cursor names an existing lesson. */
  predicate ValidCursor(sections: seq<Section>, cur: Cursor) {
    cur.section < |sections| && cur.lesson < |sections[cur.section].lessons|
  }

  /** The target of the Next button (within the section) or of the Next
      Section button (first lesson of the following section); `None` when
      neither is offered. */
  function NextTarget(sections: seq<Section>, cur: Cursor): (r: Option<Cursor>)
    requires cur.section < |sections|
    ensures r.None? <==> cur.lesson + 1 >= |sections[cur.section].lessons| && cur.section + 1 >= |sections|
  {
    if cur.lesson < |sections[cur.section].lessons| - 1 then Some(Cursor(cur.section, cur.lesson + 1))
    else if cur.section < |sections| - 1 then Some(Cursor(cur.section + 1, 0))
    else None
  }

  /** The target of the Previous button, offered only past the first lesson
      of a section; it never leaves the section. */
  function PreviousTarget(cur: Cursor): (r: Option<Cursor>)
    ensures r.None? <==> cur.lesson == 0
    ensures r.Some? ==> r.value.section == cur.section
  {
    if cur.lesson > 0 then Some(Cursor(cur.section, cur.lesson - 1)) else None
  }

  /** The flat index of the lesson under the cursor. */
  function CursorPosition(sections: seq<Section>, cur: Cursor): nat
    requires cur.section < |sections|
  {
    Position(sections, cur.section, cur.lesson)
  }

  /** Next and Previous move one lesson forward and back in curriculum
      order, and Previous undoes Next within a section. */
  lemma NextAdvancesOne(sections: seq<Section>, cur: Cursor)
    requires ValidCursor(sections, cur)
    ensures NextTarget(sections, cur).Some? ==>
      NextTarget(sections, cur).value.section < |sections| &&
      CursorPosition(sections, NextTarget(sections, cur).value) == CursorPosition(sections, cur) + 1
    ensures PreviousTarget(cur).Some? ==>
      CursorPosition(sections, PreviousTarget(cur).value) + 1 == CursorPosition(sections, cur)
    ensures NextTarget(sections, cur).Some? && NextTarget(sections, cur).value.section == cur.section ==>
      PreviousTarget(NextTarget(sections, cur).value) == Some(cur)
  {
    var n := |sections[cur.section].lessons|;
    if cur.lesson >= n - 1 && cur.section < |sections| - 1 {
      NextSectionPosition(sections, cur.section);
    }
  }

  /** From a valid cursor, Next and Previous lead to valid cursors when every
      section has a lesson. */
  lemma TargetsStayInRange(sections: seq<Section>, cur: Cursor)
    requires ValidCursor(sections, cur)
    requires forall i :: 0 <= i < |sections| ==> |sections[i].lessons| > 0
    ensures NextTarget(sections, cur).Some? ==> ValidCursor(sections, NextTarget(sections, cur).value)
    ensures PreviousTarget(cur).Some? ==> ValidCursor(sections, PreviousTarget(cur).value)
  {
  }

  /** Next Section does not look at the following section: when that section
      has no lessons, the cursor it leads to names no lesson. */
  lemma NextSectionMayBeEmpty(sections: seq<Section>, cur: Cursor)
    requires ValidCursor(sections, cur)
    requires cur.lesson == |sections[cur.section].lessons| - 1 && cur.section + 1 < |sections|
    requires |sections[cur.section + 1].lessons| == 0
    ensures NextTarget(sections, cur) == Some(Cursor(cur.section + 1, 0))
    ensures !ValidCursor(sections, NextTarget(sections, cur).value)
  {
  }

  /** The ids of all the lessons of the curriculum. */
  function LessonIds(sections: seq<Section>): (r: seq<string>)
    ensures |r| == |AllLessons(sections)|
  {
    var all := AllLessons(sections);
    seq(|all|, i requires 0 <= i < |all| => all[i].id)
  }

  /** `totalLessons > 0 ? (completedLessons.length / totalLessons) * 100 : 0`. */
  function Progress(completed: seq<string>, sections: seq<Section>): real {
    var total := TotalLessons(sections);
    if total > 0 then (|completed| as real / total as real) * 100.0 else 0.0
  }

  /** Progress lies between 0 and 100 when the completed list is
      duplicate-free and holds only lesson ids of the course, and it is 100
      once every lesson of a non-empty curriculum (with distinct ids) is
      completed. */
  lemma ProgressBounds(completed: seq<string>, sections: seq<Section>)
    requires Distinct(completed)
    requires forall id :: id in completed ==> id in LessonIds(sections)
    ensures 0.0 <= Progress(completed, sections) <= 100.0
    ensures |LessonIds(sections)| > 0 && Distinct(LessonIds(sections))
            && (forall id :: id in LessonIds(sections) ==> id in completed)
            ==> Progress(completed, sections) == 100.0
  {
    var ids := LessonIds(sections);
    TotalLessonsCountsAll(sections);
    DistinctWithinIsShorter(completed, ids);
    if TotalLessons(sections) > 0 {
      RatioBounds(|completed|, TotalLessons(sections));
    }
    if |ids| > 0 && Distinct(ids) && (forall id :: id in ids ==> id in completed) {
      DistinctWithinIsShorter(ids, completed);
    }
  }

  lemma RatioBounds(c: nat, t: nat)
    requires 0 < t && c <= t
    ensures 0.0 <= (c as real / t as real) * 100.0 <= 100.0
    ensures c == t ==> (c as real / t as real) * 100.0 == 100.0
  {
    var q := c as real / t as real;
    assert q * t as real == c as real;
    assert (q - 1.0) * t as real <= 0.0;
  }

  /** A completed list that repeats an id can push progress past 100. */
  lemma ProgressWithRepeats()
    ensures Progress(["l1", "l1"], [Section("s", [Lesson("l1", "", "", Video, false)])]) == 200.0
  {
    var sections := [Section("s", [Lesson("l1", "", "", Video, false)])];
    assert sections[1..] == [];
    assert TotalLessons(sections) == 1;
  }

  /** The player's state. */
  class Player {
    var completedLessons: seq<string>
    var activeSection: nat
    var activeLesson: nat
    var sidebarOpen: bool

    constructor ()
      ensures completedLessons == [] && activeSection == 0 && activeLesson == 0 && !sidebarOpen
    {
      completedLessons := [];
      activeSection, activeLesson := 0, 0;
      sidebarOpen := false;
    }

    function Current(): Cursor
      reads this
    {
      Cursor(activeSection, activeLesson)
    }

    function ProgressPercentage(sections: seq<Section>): real
      reads this
    {
      Progress(completedLessons, sections)
    }

    /** `toggleLessonCompletion`: the cursor and sidebar are untouched. */
    method ToggleLessonCompletion(lessonId: string)
      modifies this
      ensures completedLessons == Toggled(old(completedLessons), lessonId)
      ensures lessonId in completedLessons <==> lessonId !in old(completedLessons)
      ensures Current() == old(Current()) && sidebarOpen == old(sidebarOpen)
    {
      ToggledMembership(completedLessons, lessonId, lessonId);
      if lessonId in completedLessons {
        completedLessons := Filter(completedLessons, id => id != lessonId);
      } else {
        completedLessons := completedLessons + [lessonId];
      }
    }

    /** `goToLesson`: move the cursor and close the sidebar. */
    method GoToLesson(sectionIndex: nat, lessonIndex: nat)
      modifies this
      ensures Current() == Cursor(sectionIndex, lessonIndex) && !sidebarOpen
      ensures completedLessons == old(completedLessons)
    {
      activeSection := sectionIndex;
      activeLesson := lessonIndex;
      sidebarOpen := false;
    }

    /** A click on whichever of Next and Next Section is offered. */
    method ClickNext(sections: seq<Section>)
      requires activeSection < |sections| && NextTarget(sections, Current()).Some?
      modifies this
      ensures Current() == NextTarget(sections, old(Current())).value && !sidebarOpen
      ensures completedLessons == old(completedLessons)
    {
      if activeLesson < |sections[activeSection].lessons| - 1 {
        GoToLesson(activeSection, activeLesson + 1);
      } else {
        GoToLesson(activeSection + 1, 0);
      }
    }

    /** A click on Previous, offered past the first lesson of a section. */
    method ClickPrevious()
      requires activeLesson > 0
      modifies this
      ensures Current() == PreviousTarget(old(Current())).value && !sidebarOpen
      ensures completedLessons == old(completedLessons)
    {
      GoToLesson(activeSection, activeLesson - 1);
    }
  }
}
