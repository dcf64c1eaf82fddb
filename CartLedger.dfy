/** The cart provider of src/contexts/CartContext.tsx: an ordered list of
    course records in which an id occurs at most once. Browser storage is not
    modelled. */
module CartLedger {
  import opened Seqs
  import opened CourseTypes

  /** `items.some(item => item.id === courseId)`. */
  predicate HasId(items: seq<Course>, id: string) {
    exists i :: 0 <= i < |items| && items[i].id == id
  }

  /** No two items share an id. */
  predicate DistinctIds(items: seq<Course>) {
    forall i, j :: 0 <= i < j < |items| ==> items[i].id != items[j].id
  }

  /** The cart after `addItem(c)`: unchanged when an item with `c.id` is
      present, otherwise `c` appended. */
  function Added(items: seq<Course>, c: Course): seq<Course> {
    if HasId(items, c.id) then items else items + [c]
  }

  /** The cart after `removeItem(id)`: `items.filter(item => item.id !== id)`. */
  function WithoutId(items: seq<Course>, id: string): seq<Course> {
    Filter(items, (item: Course) => item.id != id)
  }

  /** `items.reduce((total, item) => total + item.price, 0)`: the sum of the
      list prices, folded from the left; `discountPrice` plays no part. */
  function ListPriceTotal(items: seq<Course>): real {
    if items == [] then 0.0
    else ListPriceTotal(items[..|items| - 1]) + items[|items| - 1].price
  }

  class Cart {
    var items: seq<Course>

    constructor ()
      ensures items == []
    {
      items := [];
    }

    predicate IsInCart(id: string)
      reads this
    {
      HasId(items, id)
    }

    function TotalPrice(): real
      reads this
    {
      ListPriceTotal(items)
    }

    method AddItem(course: Course)
      modifies this
      ensures items == Added(old(items), course)
      ensures IsInCart(course.id)
      ensures DistinctIds(old(items)) ==> DistinctIds(items)
    {
      if !IsInCart(course.id) {
        items := items + [course];
        assert items[|items| - 1].id == course.id;
      }
      if DistinctIds(old(items)) {
        AddedDistinct(old(items), course);
      }
    }

    method RemoveItem(id: string)
      modifies this
      ensures items == WithoutId(old(items), id)
      ensures !IsInCart(id)
      ensures DistinctIds(old(items)) ==> DistinctIds(items)
    {
      items := Filter(items, (item: Course) => item.id != id);
      WithoutIdProperties(old(items), id);
      if DistinctIds(old(items)) {
        WithoutIdDistinct(old(items), id);
      }
    }

    method ClearCart()
      modifies this
      ensures items == []
    {
      items := [];
    }
  }

  /** Adding a course whose id is present changes nothing; otherwise it lands last. */
  lemma AddedProperties(items: seq<Course>, c: Course)
    ensures HasId(Added(items, c), c.id)
    ensures HasId(items, c.id) ==> Added(items, c) == items
    ensures !HasId(items, c.id) ==> Added(items, c) == items + [c] && ListPriceTotal(Added(items, c)) == ListPriceTotal(items) + c.price
  {
    if !HasId(items, c.id) {
      var r := items + [c];
      assert r[|r| - 1].id == c.id;
      assert r[..|r| - 1] == items;
    }
  }

  /** `addItem(c)` twice gives the same cart as once. */
  lemma AddedIdempotent(items: seq<Course>, c: Course)
    ensures Added(Added(items, c), c) == Added(items, c)
  {
    AddedProperties(items, c);
  }

  /** Adding keeps the ids distinct. */
  lemma AddedDistinct(items: seq<Course>, c: Course)
    requires DistinctIds(items)
    ensures DistinctIds(Added(items, c))
  {
  }

  /** Removing deletes every item with the id, keeps the rest in order, and
      changes nothing when the id is absent. */
  lemma WithoutIdProperties(items: seq<Course>, id: string)
    ensures !HasId(WithoutId(items, id), id)
    ensures IsSubsequence(WithoutId(items, id), items)
    ensures forall c :: c in items && c.id != id ==> c in WithoutId(items, id)
    ensures !HasId(items, id) ==> WithoutId(items, id) == items
  {
    var r := WithoutId(items, id);
    FilterIsSubsequence(items, (item: Course) => item.id != id);
    forall i | 0 <= i < |r| ensures r[i].id != id {
    }
    if !HasId(items, id) {
      FilterAll(items, (item: Course) => item.id != id);
    }
  }

  /** Removing keeps the ids distinct. */
  lemma WithoutIdDistinct(items: seq<Course>, id: string)
    requires DistinctIds(items)
    ensures DistinctIds(WithoutId(items, id))
  {
    FilterIsSubsequence(items, (item: Course) => item.id != id);
    SubsequenceDistinctIds(WithoutId(items, id), items);
  }

  lemma {:induction false} SubsequenceDistinctIds(sub: seq<Course>, s: seq<Course>)
    requires IsSubsequence(sub, s) && DistinctIds(s)
    ensures DistinctIds(sub)
    decreases |s|
  {
    if sub != [] {
      if sub[0] == s[0] {
        SubsequenceDistinctIds(sub[1..], s[1..]);
        SubsequenceMembers(sub[1..], s[1..]);
        forall j | 0 < j < |sub| ensures sub[0].id != sub[j].id {
          assert sub[j] == sub[1..][j - 1] && sub[j] in sub[1..];
          assert sub[j] in s[1..];
          var k :| 1 <= k < |s| && s[k] == sub[j];
        }
      } else {
        SubsequenceDistinctIds(sub, s[1..]);
      }
    }
  }

  lemma {:induction false} SubsequenceMembers<T>(sub: seq<T>, s: seq<T>)
    requires IsSubsequence(sub, s)
    ensures forall x :: x in sub ==> x in s
    decreases |s|
  {
    if sub != [] {
      if sub[0] == s[0] {
        SubsequenceMembers(sub[1..], s[1..]);
        assert sub == [sub[0]] + sub[1..];
      } else {
        SubsequenceMembers(sub, s[1..]);
      }
    }
  }

  /** With non-negative prices, removing an item never raises the total. */
  lemma {:induction false} WithoutIdLowersTotal(items: seq<Course>, id: string)
    requires forall c :: c in items ==> NonNegativePrices(c)
    ensures ListPriceTotal(WithoutId(items, id)) <= ListPriceTotal(items)
    decreases |items|
  {
    if items != [] {
      var init, last := items[..|items| - 1], items[|items| - 1];
      assert items == init + [last];
      WithoutIdLowersTotal(init, id);
      FilterAppend(init, [last], (item: Course) => item.id != id);
      assert last in items;
      ListPriceTotalAppend(WithoutId(init, id), Filter([last], (item: Course) => item.id != id));
      assert [last][1..] == [];
    }
  }

  lemma {:induction false} ListPriceTotalAppend(a: seq<Course>, b: seq<Course>)
    ensures ListPriceTotal(a + b) == ListPriceTotal(a) + ListPriceTotal(b)
    decreases |b|
  {
    if b == [] {
      assert a + b == a;
    } else {
      var init := b[..|b| - 1];
      ListPriceTotalAppend(a, init);
      assert (a + b)[..|a + b| - 1] == a + init;
    }
  }
}
