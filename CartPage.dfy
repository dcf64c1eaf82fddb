/** The cart page, src/pages/CartPage.tsx: the items still worth buying, their
    subtotal at the effective price, the `save20` coupon, and the checkout
    button's destination. */
module CartPage {
  import opened Wrappers
  import opened Seqs
  import opened Text
  import opened CourseTypes
  import opened Navigation
  import CartLedger

  /** `items.filter(item => !isPurchased(item.id))`. */
  function ValidCartItems(items: seq<Course>, purchased: seq<string>): (r: seq<Course>)
    ensures forall c :: c in r <==> c in items && c.id !in purchased
    ensures IsSubsequence(r, items)
  {
    FilterIsSubsequence(items, (c: Course) => c.id !in purchased);
    Filter(items, (c: Course) => c.id !in purchased)
  }

  /** `valid.reduce((total, item) => total + (item.discountPrice || item.price), 0)`. */
  function Subtotal(valid: seq<Course>): real {
    if valid == [] then 0.0
    else Subtotal(valid[..|valid| - 1]) + EffectivePrice(valid[|valid| - 1])
  }

  /** The empty-cart view is shown when no valid item is left, whatever the
      raw cart holds. */
  predicate ShowsEmptyView(items: seq<Course>, purchased: seq<string>) {
    |ValidCartItems(items, purchased)| == 0
  }

  /** `couponCode.toLowerCase() === 'save20'`; the code is not trimmed. */
  predicate IsSave20(code: string) {
    Lower(code) == "save20"
  }

  /** What applying `code` against `subtotal` stores: the discount and the error text. */
  function CouponOutcome(code: string, subtotal: real): (r: (real, string))
    ensures r.1 == "" <==> IsSave20(code)
    ensures r.1 != "" ==> r == (0.0, "Invalid coupon code")
    ensures subtotal - r.0 == (if IsSave20(code) then 0.8 * subtotal else subtotal)
    ensures subtotal >= 0.0 ==> 0.0 <= r.0 <= subtotal
  {
    if IsSave20(code) then (subtotal * 0.2, "") else (0.0, "Invalid coupon code")
  }

  /** `handleCheckout`: a visitor who is not signed in is sent to the login
      page, which will return to the cart; a signed-in user goes to checkout. */
  function CheckoutRoute(isAuthenticated: bool): (r: Route)
    ensures r.path == "/checkout" <==> isAuthenticated
    ensures r.from.Some? <==> !isAuthenticated
    ensures !isAuthenticated ==> r == Route("/login", Some("/cart"))
  {
    if !isAuthenticated then Route("/login", Some("/cart")) else Route("/checkout", None)
  }

  /** The page's coupon state. */
  class CouponForm {
    var couponCode: string
    var couponError: string
    var discount: real

    constructor ()
      ensures couponCode == "" && couponError == "" && discount == 0.0
    {
      couponCode, couponError, discount := "", "", 0.0;
    }

    /** The coupon input field. */
    method SetCouponCode(code: string)
      modifies this
      ensures couponCode == code && couponError == old(couponError) && discount == old(discount)
    {
      couponCode := code;
    }

    /** `total = subtotal - discount`, with the stored discount. */
    function Total(subtotal: real): real
      reads this
    {
      subtotal - discount
    }

    /** `handleApplyCoupon` against the subtotal of the moment. */
    method ApplyCoupon(subtotal: real)
      modifies this
      ensures (discount, couponError) == CouponOutcome(couponCode, subtotal)
      ensures couponCode == old(couponCode)
      ensures IsSave20(couponCode) ==> Total(subtotal) == 0.8 * subtotal
      ensures !IsSave20(couponCode) ==> Total(subtotal) == subtotal
    {
      if Lower(couponCode) == "save20" {
        discount := subtotal * 0.2;
        couponError := "";
      } else {
        discount := 0.0;
        couponError := "Invalid coupon code";
      }
    }
  }

  /** The coupon ignores case but not surrounding spaces. */
  lemma CouponSpellings()
    ensures IsSave20("save20") && IsSave20("SAVE20") && IsSave20("Save20")
    ensures !IsSave20(" save20") && !IsSave20("save20 ") && !IsSave20("save2O")
  {
    assert Lower("SAVE20") == "save20";
    assert Lower("Save20") == "save20";
    assert Lower("save2O")[5] == 'o';
  }

  /** The discount is stored when the coupon is applied: if the subtotal later
      drops below a fifth of the subtotal it was computed from, the displayed
      total is negative. */
  lemma StaleDiscount(code: string, applied: real, later: real)
    requires IsSave20(code)
    requires 0.0 <= later < applied * 0.2
    ensures later - CouponOutcome(code, applied).0 < 0.0
    ensures CouponOutcome(code, later).0 < CouponOutcome(code, applied).0
  {
  }

  lemma {:induction false} SubtotalAppend(a: seq<Course>, b: seq<Course>)
    ensures Subtotal(a + b) == Subtotal(a) + Subtotal(b)
    decreases |b|
  {
    if b == [] {
      assert a + b == a;
    } else {
      SubtotalAppend(a, b[..|b| - 1]);
      assert (a + b)[..|a + b| - 1] == a + b[..|b| - 1];
    }
  }

  /** With non-negative prices the subtotal is non-negative, and when no
      discount price exceeds its list price, the subtotal never exceeds the
      cart's `totalPrice` over the same items. */
  lemma {:induction false} SubtotalBounds(items: seq<Course>)
    requires forall c :: c in items ==> NonNegativePrices(c)
    ensures Subtotal(items) >= 0.0
    ensures (forall c :: c in items && c.discountPrice.Some? ==> c.discountPrice.value <= c.price)
            ==> Subtotal(items) <= CartLedger.ListPriceTotal(items)
    decreases |items|
  {
    if items != [] {
      var init := items[..|items| - 1];
      assert items[|items| - 1] in items;
      assert forall c :: c in init ==> c in items;
      SubtotalBounds(init);
    }
  }

  /** When every item is in the purchased list the empty view shows, even
      though the cart itself holds items. */
  lemma EmptyViewWhenAllPurchased(items: seq<Course>, purchased: seq<string>)
    requires forall i :: 0 <= i < |items| ==> items[i].id in purchased
    ensures ShowsEmptyView(items, purchased)
  {
    FilterNone(items, (c: Course) => c.id !in purchased);
  }

  /** With nothing purchased every cart item is valid. */
  lemma NothingPurchasedKeepsAll(items: seq<Course>)
    ensures ValidCartItems(items, []) == items
  {
    FilterAll(items, (c: Course) => c.id !in []);
  }

  function Sample(id: string, price: real, discountPrice: Option<real>): Course {
    Course(id, "", "", price, discountPrice, "", "", Beginner, 0.0, 0, 0, "", 0, false, false, [], 0, 0,
      Instructor("", "", "", "", 0.0, 0, 0), [])
  }

  /** A course at 100 discounted to 60 and one at 50: the cart page charges
      110, while the cart's `totalPrice` reports 150. */
  lemma SubtotalVersusTotalPrice()
    ensures Subtotal([Sample("a", 100.0, Some(60.0)), Sample("b", 50.0, None)]) == 110.0
    ensures CartLedger.ListPriceTotal([Sample("a", 100.0, Some(60.0)), Sample("b", 50.0, None)]) == 150.0
  {
    var a, b := Sample("a", 100.0, Some(60.0)), Sample("b", 50.0, None);
    assert [a, b][..1] == [a];
    assert [a][..0] == [];
  }
}
