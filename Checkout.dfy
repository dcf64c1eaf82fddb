/** The checkout page, src/pages/CheckoutPage.tsx: the card-number formatting,
    the guards on the card-number and CVV inputs, the form state, the
    subtotal and tax, and the submit transition that purchases the cart.
    The payment delay and the delayed redirect are single atomic steps. */
module Checkout {
  import opened Wrappers
  import opened Seqs
  import opened Text
  import opened CourseTypes
  import opened IdLists
  import opened Navigation
  import CartLedger
  import CourseCatalog
  import CartPage

  /** `replace(/(.{4})/g, '$1 ')`: a space after every complete block of four. */
  function SpaceAfterBlocks(s: string): string
    decreases |s|
  {
    if |s| >= 4 then s[..4] + " " + SpaceAfterBlocks(s[4..]) else s
  }

  function TrimStart(s: string): string {
    if s != [] && IsWhitespace(s[0]) then TrimStart(s[1..]) else s
  }

  function TrimEnd(s: string): string {
    if s != [] && IsWhitespace(s[|s| - 1]) then TrimEnd(s[..|s| - 1]) else s
  }

  /** `s.trim()`. */
  function Trim(s: string): string {
    TrimEnd(TrimStart(s))
  }

  /** `formatCardNumber`: white space removed, blocks of four, trimmed. */
  function FormatCardNumber(value: string): string {
    Trim(SpaceAfterBlocks(StripWhitespace(value)))
  }

  /** The intended layout, stated independently: the blocks of four joined by
      single spaces, the last block possibly shorter. */
  function Grouped(s: string): (r: string)
    ensures |s| == 0 ==> |r| == 0
    ensures |s| > 0 ==> |r| == |s| + (|s| - 1) / 4
    decreases |s|
  {
    if |s| <= 4 then s else s[..4] + " " + Grouped(s[4..])
  }

  /** A space sits exactly at every fifth position, so there is none at
      either end, every block but the last has four characters, and the last
      has one to four. */
  lemma {:induction false} GroupedLayout(s: string)
    requires NoWhitespace(s)
    ensures forall i :: 0 <= i < |Grouped(s)| ==> (Grouped(s)[i] == ' ' <==> i % 5 == 4)
    ensures |Grouped(s)| > 0 ==> Grouped(s)[0] != ' ' && Grouped(s)[|Grouped(s)| - 1] != ' '
    decreases |s|
  {
    var r := Grouped(s);
    if |s| <= 4 {
      assert forall i :: 0 <= i < |r| ==> !IsWhitespace(r[i]);
    } else {
      var rest := Grouped(s[4..]);
      GroupedLayout(s[4..]);
      assert r == s[..4] + " " + rest;
      forall i | 0 <= i < |r| ensures r[i] == ' ' <==> i % 5 == 4 {
        if i < 4 {
          assert r[i] == s[i] && !IsWhitespace(s[i]);
        } else if i > 4 {
          assert r[i] == rest[i - 5];
        }
      }
    }
  }

  lemma {:induction false} SpaceAfterBlocksIsGrouped(s: string)
    ensures SpaceAfterBlocks(s) == Grouped(s) + (if |s| > 0 && |s| % 4 == 0 then " " else "")
    decreases |s|
  {
    if |s| == 4 {
      assert s[4..] == [] && s[..4] == s;
    } else if |s| > 4 {
      SpaceAfterBlocksIsGrouped(s[4..]);
    }
  }

  lemma TrimEndUnchanged(s: string)
    requires s == [] || !IsWhitespace(s[|s| - 1])
    ensures TrimEnd(s) == s
  {
  }

  /** The formatter produces exactly the grouped layout of the stripped input. */
  lemma FormatIsGrouped(value: string)
    ensures FormatCardNumber(value) == Grouped(StripWhitespace(value))
  {
    var s := StripWhitespace(value);
    var g := Grouped(s);
    SpaceAfterBlocksIsGrouped(s);
    GroupedLayout(s);
    if g != [] {
      assert g[0] != ' ' && !IsWhitespace(g[0]) by {
        if |s| <= 4 {
          assert g[0] == s[0];
        } else {
          assert g[0] == s[0];
        }
      }
      assert g[|g| - 1] != ' ' && !IsWhitespace(g[|g| - 1]) by {
        GroupedKeepsCharacters(s, |g| - 1);
      }
    }
    var spaced := SpaceAfterBlocks(s);
    assert TrimStart(spaced) == spaced;
    if |s| > 0 && |s| % 4 == 0 {
      assert spaced[..|spaced| - 1] == g;
    }
    TrimEndUnchanged(g);
  }

  /** Every character of the grouped text is a space or a character of `s`. */
  lemma {:induction false} GroupedKeepsCharacters(s: string, i: nat)
    requires NoWhitespace(s) && i < |Grouped(s)|
    ensures Grouped(s)[i] == ' ' || !IsWhitespace(Grouped(s)[i])
    decreases |s|
  {
    if |s| > 4 && i > 4 {
      GroupedKeepsCharacters(s[4..], i - 5);
    }
  }

  lemma {:induction false} StripGrouped(s: string)
    requires NoWhitespace(s)
    ensures StripWhitespace(Grouped(s)) == s
    decreases |s|
  {
    var p := c => !IsWhitespace(c);
    if |s| <= 4 {
      StripNoWhitespace(s);
    } else {
      StripGrouped(s[4..]);
      FilterAppend(s[..4] + " ", Grouped(s[4..]), p);
      FilterAppend(s[..4], " ", p);
      StripNoWhitespace(s[..4]);
      assert Filter(" ", p) == [] by {
        assert " "[1..] == [];
      }
      assert s[..4] + s[4..] == s;
    }
  }

  /** Removing the white space of the formatted text gives back the input
      with its white space removed: the formatter only adds and moves spaces. */
  lemma FormatKeepsCharacters(value: string)
    ensures StripWhitespace(FormatCardNumber(value)) == StripWhitespace(value)
  {
    FormatIsGrouped(value);
    StripGrouped(StripWhitespace(value));
  }

  /** Formatting formatted text changes nothing. */
  lemma FormatIdempotent(value: string)
    ensures FormatCardNumber(FormatCardNumber(value)) == FormatCardNumber(value)
  {
    FormatKeepsCharacters(value);
    FormatIsGrouped(value);
    FormatIsGrouped(FormatCardNumber(value));
  }

  /** Sixteen digits format to nineteen characters, spaces at 4, 9 and 14. */
  lemma SixteenDigits(value: string)
    requires |value| == 16 && AllDigits(value)
    ensures |FormatCardNumber(value)| == 19
    ensures forall i :: 0 <= i < 19 ==> (FormatCardNumber(value)[i] == ' ' <==> i == 4 || i == 9 || i == 14)
  {
    assert NoWhitespace(value);
    StripNoWhitespace(value);
    FormatIsGrouped(value);
    GroupedLayout(value);
  }

  /** The card-number input accepts a value whose stripped form is at most
      sixteen digits. */
  predicate CardNumberAccepted(value: string) {
    AllDigits(StripWhitespace(value)) && |StripWhitespace(value)| <= 16
  }

  /** The CVV input accepts at most four digits; white space is not stripped. */
  predicate CvvAccepted(value: string) {
    AllDigits(value) && |value| <= 4
  }

  /** The initial form. */
  const InitialForm: map<string, string> := map[
    "cardName" := "", "cardNumber" := "", "expMonth" := "", "expYear" := "",
    "cvv" := "", "country" := "US", "postalCode" := ""]

  /** `items.reduce((total, item) => total + (item.discountPrice || item.price), 0)`
      over every cart item, purchased or not. */
  function CheckoutSubtotal(items: seq<Course>): real {
    CartPage.Subtotal(items)
  }

  /** The 5% tax. */
  function Taxes(items: seq<Course>): real {
    CheckoutSubtotal(items) * 0.05
  }

  /** The amount charged: never below the subtotal when the subtotal is
      non-negative, and zero only for a zero subtotal. */
  function CheckoutTotal(items: seq<Course>): (r: real)
    ensures CheckoutSubtotal(items) >= 0.0 ==> CheckoutSubtotal(items) <= r
    ensures r == 0.0 <==> CheckoutSubtotal(items) == 0.0
  {
    CheckoutSubtotal(items) + Taxes(items)
  }

  /** With non-negative prices the total is at least the subtotal, which is
      non-negative; when no discount price exceeds its list price, the total
      is at most the cart's `totalPrice` plus 5%. */
  lemma CheckoutTotalBounds(items: seq<Course>)
    requires forall c :: c in items ==> NonNegativePrices(c)
    ensures 0.0 <= CheckoutSubtotal(items) <= CheckoutTotal(items)
    ensures (forall c :: c in items && c.discountPrice.Some? ==> c.discountPrice.value <= c.price)
            ==> CheckoutTotal(items) <= CartLedger.ListPriceTotal(items) * 1.05
  {
    CartPage.SubtotalBounds(items);
  }

  /** The checkout sums every cart item while the cart page skips purchased
      ones: with non-negative prices the checkout subtotal is never smaller,
      and the two agree when nothing in the cart is purchased. */
  lemma {:induction false} CheckoutCountsPurchasedItems(items: seq<Course>, purchased: seq<string>)
    requires forall c :: c in items ==> NonNegativePrices(c)
    ensures CartPage.Subtotal(CartPage.ValidCartItems(items, purchased)) <= CheckoutSubtotal(items)
    ensures (forall i :: 0 <= i < |items| ==> items[i].id !in purchased)
            ==> CartPage.Subtotal(CartPage.ValidCartItems(items, purchased)) == CheckoutSubtotal(items)
    decreases |items|
  {
    if items != [] {
      var init, last := items[..|items| - 1], items[|items| - 1];
      var p := (c: Course) => c.id !in purchased;
      assert items == init + [last];
      assert last in items;
      assert forall c :: c in init ==> c in items;
      CheckoutCountsPurchasedItems(init, purchased);
      FilterAppend(init, [last], p);
      assert [last][1..] == [];
      CartPage.SubtotalAppend(Filter(init, p), Filter([last], p));
      assert CartPage.Subtotal([last]) == EffectivePrice(last) by {
        assert [last][..0] == [];
      }
    }
  }

  /** The page's form and progress state. */
  class CheckoutForm {
    var formData: map<string, string>
    var loading: bool
    var orderComplete: bool

    constructor ()
      ensures formData == InitialForm && !loading && !orderComplete
    {
      formData := InitialForm;
      loading := false;
      orderComplete := false;
    }

    /** `handleInputChange`: only the named field changes. */
    method HandleInputChange(name: string, value: string)
      modifies this
      ensures formData == old(formData)[name := value]
      ensures loading == old(loading) && orderComplete == old(orderComplete)
    {
      formData := formData[name := value];
    }

    /** The card-number input: an accepted value is stored formatted; any
        other value leaves the form as it was. */
    method OnCardNumberInput(value: string)
      modifies this
      ensures CardNumberAccepted(value) ==> formData == old(formData)["cardNumber" := FormatCardNumber(value)]
      ensures !CardNumberAccepted(value) ==> formData == old(formData)
      ensures loading == old(loading) && orderComplete == old(orderComplete)
    {
      var stripped := StripWhitespace(value);
      if AllDigits(stripped) && |stripped| <= 16 {
        StripNoWhitespace(stripped);
        formData := formData["cardNumber" := FormatCardNumber(stripped)];
      }
    }

    /** The CVV input: an accepted value is stored as typed. */
    method OnCvvInput(value: string)
      modifies this
      ensures CvvAccepted(value) ==> formData == old(formData)["cvv" := value]
      ensures !CvvAccepted(value) ==> formData == old(formData)
      ensures loading == old(loading) && orderComplete == old(orderComplete)
    {
      if AllDigits(value) && |value| <= 4 {
        formData := formData["cvv" := value];
      }
    }

    /** `handleSubmit`: nothing happens for an empty cart; otherwise every
        cart id is purchased, the cart is emptied, the order is complete and
        the page redirects to the user's courses. */
    method HandleSubmit(cart: CartLedger.Cart, store: CourseCatalog.CourseStore) returns (redirect: Option<Route>)
      modifies this, cart, store
      ensures old(cart.items) == [] ==>
        redirect.None? && cart.items == [] && store.purchasedIds == old(store.purchasedIds)
        && loading == old(loading) && orderComplete == old(orderComplete)
      ensures old(cart.items) != [] ==>
        redirect == Some(Route("/dashboard/my-courses", None)) && cart.items == []
        && store.purchasedIds == AppendNew(old(store.purchasedIds), Ids(old(cart.items)))
        && (forall c :: c in old(cart.items) ==> store.IsPurchased(c.id))
        && orderComplete && !loading
      ensures store.savedIds == old(store.savedIds) && formData == old(formData)
    {
      if |cart.items| == 0 {
        return None;
      }
      loading := true;
      var courseIds := Ids(cart.items);
      ghost var items := cart.items;
      store.PurchaseCourses(courseIds);
      cart.ClearCart();
      orderComplete := true;
      redirect := Some(Route("/dashboard/my-courses", None));
      loading := false;
      forall c | c in items ensures store.IsPurchased(c.id) {
        var i :| 0 <= i < |items| && items[i] == c;
        assert courseIds[i] == c.id;
      }
    }
  }
}
