/** The two ways the source updates a list of ids:
    the toggle of `toggleSave` (src/contexts/CourseContext.tsx) and
    `toggleLessonCompletion` (src/pages/CoursePlayerPage.tsx), and the
    append-if-absent loop of `purchaseCourses` (src/contexts/CourseContext.tsx). */
module IdLists {
  import opened Seqs

  /** `ids.includes(id) ? ids.filter(x => x !== id) : [...ids, id]`. */
  function Toggled(ids: seq<string>, id: string): (r: seq<string>)
  {
    if id in ids then Filter(ids, x => x != id) else ids + [id]
  }

  /** After a toggle `id` is a member exactly when it was not before;
      every other id keeps its membership. */
  lemma ToggledMembership(ids: seq<string>, id: string, x: string)
    ensures x in Toggled(ids, id) <==> (if x == id then id !in ids else x in ids)
  {
    FilterMembership(ids, y => y != id, x);
  }

  /** Toggling an absent id appends it at the end; toggling a present id
      removes every occurrence and keeps every other id, each as often as
      before and in the same order. */
  lemma ToggledShape(ids: seq<string>, id: string)
    ensures id !in ids ==> Toggled(ids, id) == ids + [id]
    ensures id in ids ==> id !in Toggled(ids, id) && IsSubsequence(Toggled(ids, id), ids)
    ensures id in ids ==> forall x :: x != id ==> multiset(Toggled(ids, id))[x] == multiset(ids)[x]
  {
    FilterIsSubsequence(ids, x => x != id);
    if id in ids {
      forall x | x != id
        ensures multiset(Toggled(ids, id))[x] == multiset(ids)[x]
      {
        FilterMultiplicity(ids, y => y != id, x);
      }
    }
  }

  /** Toggling twice restores every membership, and restores the list
      itself when the id was absent. */
  lemma ToggleTwice(ids: seq<string>, id: string)
    ensures forall x :: x in Toggled(Toggled(ids, id), id) <==> x in ids
    ensures id !in ids ==> Toggled(Toggled(ids, id), id) == ids
  {
    forall x ensures x in Toggled(Toggled(ids, id), id) <==> x in ids {
      ToggledMembership(ids, id, x);
      ToggledMembership(Toggled(ids, id), id, x);
    }
    if id !in ids {
      FilterAppendLast(ids, id);
    }
  }

  lemma {:induction false} FilterAppendLast(ids: seq<string>, id: string)
    requires id !in ids
    ensures Filter(ids + [id], x => x != id) == ids
  {
    if ids == [] {
      assert [id][1..] == [];
    } else {
      FilterAppendLast(ids[1..], id);
      assert (ids + [id])[1..] == ids[1..] + [id];
      assert ids == [ids[0]] + ids[1..];
    }
  }

  /** A duplicate-free list stays duplicate-free under a toggle. */
  lemma ToggledDistinct(ids: seq<string>, id: string)
    requires Distinct(ids)
    ensures Distinct(Toggled(ids, id))
  {
    if id in ids {
      FilterDistinct(ids, x => x != id);
    }
  }

  /** The list `purchaseCourses` builds: starting from `acc`, each id of
      `ids` in turn is pushed unless it is already present. */
  function AppendNew(acc: seq<string>, ids: seq<string>): seq<string>
    decreases |ids|
  {
    if ids == [] then acc
    else AppendNew(if ids[0] in acc then acc else acc + [ids[0]], ids[1..])
  }

  /** The old list is an unchanged prefix of the new one. */
  lemma {:induction false} AppendNewKeepsPrefix(acc: seq<string>, ids: seq<string>)
    ensures |AppendNew(acc, ids)| >= |acc|
    ensures AppendNew(acc, ids)[..|acc|] == acc
    decreases |ids|
  {
    if ids != [] {
      var next := if ids[0] in acc then acc else acc + [ids[0]];
      AppendNewKeepsPrefix(next, ids[1..]);
      assert next[..|acc|] == acc;
    }
  }

  /** An id is in the new list exactly when it was in the old list or in `ids`. */
  lemma {:induction false} AppendNewMembership(acc: seq<string>, ids: seq<string>, x: string)
    ensures x in AppendNew(acc, ids) <==> x in acc || x in ids
    decreases |ids|
  {
    if ids != [] {
      var next := if ids[0] in acc then acc else acc + [ids[0]];
      AppendNewMembership(next, ids[1..], x);
      assert ids == [ids[0]] + ids[1..];
    }
  }

  /** No duplicates are introduced. */
  lemma {:induction false} AppendNewDistinct(acc: seq<string>, ids: seq<string>)
    requires Distinct(acc)
    ensures Distinct(AppendNew(acc, ids))
    decreases |ids|
  {
    if ids != [] {
      var next := if ids[0] in acc then acc else acc + [ids[0]];
      AppendNewDistinct(next, ids[1..]);
    }
  }

  /** When every id is already present nothing changes. */
  lemma {:induction false} AppendNewAbsorbs(acc: seq<string>, ids: seq<string>)
    requires forall x :: x in ids ==> x in acc
    ensures AppendNew(acc, ids) == acc
    decreases |ids|
  {
    if ids != [] {
      assert ids[0] in ids;
      AppendNewAbsorbs(acc, ids[1..]);
    }
  }

  /** Repeating the purchase of the same ids changes nothing. */
  lemma AppendNewIdempotent(acc: seq<string>, ids: seq<string>)
    ensures AppendNew(AppendNew(acc, ids), ids) == AppendNew(acc, ids)
  {
    forall x | x in ids ensures x in AppendNew(acc, ids) {
      AppendNewMembership(acc, ids, x);
    }
    AppendNewAbsorbs(AppendNew(acc, ids), ids);
  }

  /** The appended part lists ids in the order they occur in `ids`. */
  lemma {:induction false} AppendNewSuffixInOrder(acc: seq<string>, ids: seq<string>)
    ensures |AppendNew(acc, ids)| >= |acc|
    ensures IsSubsequence(AppendNew(acc, ids)[|acc|..], ids)
    decreases |ids|
  {
    AppendNewKeepsPrefix(acc, ids);
    if ids != [] {
      var next := if ids[0] in acc then acc else acc + [ids[0]];
      AppendNewSuffixInOrder(next, ids[1..]);
      var r := AppendNew(acc, ids);
      assert r == AppendNew(next, ids[1..]);
      if ids[0] in acc {
        SubsequenceOfTail(r[|acc|..], ids);
      } else {
        AppendNewKeepsPrefix(next, ids[1..]);
        assert r[|acc|] == next[|acc|] == ids[0];
        var suffix := r[|acc|..];
        assert suffix[1..] == r[|next|..];
        assert suffix != [] && suffix[0] == ids[0];
      }
    }
  }

  /** The position of the first occurrence of `x` in `s`. */
  function FirstIndex(s: seq<string>, x: string): (i: nat)
    requires x in s
    ensures i < |s| && s[i] == x
    ensures forall j :: 0 <= j < i ==> s[j] != x
  {
    if s[0] == x then 0 else 1 + FirstIndex(s[1..], x)
  }

  /** The ids `AppendNew` adds are new, come from `ids`, and appear in the
      order of their first occurrence in `ids` (the insertion order of a
      JavaScript `Set`). */
  lemma {:induction false} AppendNewFirstOccurrence(acc: seq<string>, ids: seq<string>)
    ensures |AppendNew(acc, ids)| >= |acc|
    ensures forall i :: |acc| <= i < |AppendNew(acc, ids)| ==>
      AppendNew(acc, ids)[i] in ids && AppendNew(acc, ids)[i] !in acc
    ensures forall i, j :: |acc| <= i < j < |AppendNew(acc, ids)| ==>
      AppendNew(acc, ids)[i] in ids && AppendNew(acc, ids)[j] in ids &&
      FirstIndex(ids, AppendNew(acc, ids)[i]) < FirstIndex(ids, AppendNew(acc, ids)[j])
    decreases |ids|
  {
    AppendNewKeepsPrefix(acc, ids);
    if ids != [] {
      var x, rest := ids[0], ids[1..];
      var next := if x in acc then acc else acc + [x];
      var r := AppendNew(acc, ids);
      assert r == AppendNew(next, rest);
      AppendNewFirstOccurrence(next, rest);
      AppendNewKeepsPrefix(next, rest);
      forall i | |next| <= i < |r| ensures r[i] in ids && r[i] != x && FirstIndex(ids, r[i]) == 1 + FirstIndex(rest, r[i]) {
        assert r[i] in rest && r[i] !in next;
        assert x in next;
      }
      if x !in acc {
        assert r[|acc|] == next[|acc|] == x;
      }
    }
  }
}
