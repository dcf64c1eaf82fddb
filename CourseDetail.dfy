/** The course detail page, src/pages/CourseDetailPage.tsx: the lesson counts
    shown for the curriculum, the Add to Cart / Buy Now / Save handlers, and
    the label of the main button. `purchased` and `inCart` are read before a
    handler runs. */
module CourseDetail {
  import opened Wrappers
  import opened CourseTypes
  import opened Navigation
  import opened IdLists
  import Curriculum
  import CartLedger
  import CourseCatalog

  /** `totalLessons` of the page. */
  function TotalLessons(c: Course): nat {
    Curriculum.TotalLessons(c.sections)
  }

  /** `previewLessons` of the page. */
  function PreviewLessons(c: Course): nat {
    Curriculum.PreviewLessons(c.sections)
  }

  /** The page shows at most as many free previews as lessons; the counts are
      the lessons, and the preview lessons, of the flattened curriculum. */
  lemma LessonCounts(c: Course)
    ensures PreviewLessons(c) <= TotalLessons(c)
    ensures TotalLessons(c) == |Curriculum.AllLessons(c.sections)|
    ensures PreviewLessons(c) == |Seqs.Filter(Curriculum.AllLessons(c.sections), Curriculum.IsPreview)|
  {
    Curriculum.PreviewAtMostTotal(c.sections);
    Curriculum.TotalLessonsCountsAll(c.sections);
    Curriculum.PreviewLessonsCountsPreviews(c.sections);
  }

  /** What the main button does: open the course, open the cart, or add the
      course and then open the cart. */
  datatype CartAction = OpenCourse | OpenCart | AddThenOpenCart

  /** `handleAddToCart`'s decision: purchased first, then in the cart. */
  function AddToCartAction(purchased: bool, inCart: bool): CartAction {
    if purchased then OpenCourse else if inCart then OpenCart else AddThenOpenCart
  }

  /** The main button's label. */
  function ButtonLabel(purchased: bool, inCart: bool): string {
    if purchased then "Go to Course" else if inCart then "Go to Cart" else "Add to Cart"
  }

  /** The label always announces what the handler does. */
  lemma LabelAnnouncesAction(purchased: bool, inCart: bool)
    ensures ButtonLabel(purchased, inCart) == "Go to Course" <==> AddToCartAction(purchased, inCart) == OpenCourse
    ensures ButtonLabel(purchased, inCart) == "Go to Cart" <==> AddToCartAction(purchased, inCart) == OpenCart
    ensures ButtonLabel(purchased, inCart) == "Add to Cart" <==> AddToCartAction(purchased, inCart) == AddThenOpenCart
  {
  }

  /** `handleAddToCart`. */
  method HandleAddToCart(course: Course, cart: CartLedger.Cart, store: CourseCatalog.CourseStore)
    returns (route: Route)
    modifies cart
    ensures var action := AddToCartAction(store.IsPurchased(course.id), old(cart.IsInCart(course.id)));
      (action == OpenCourse ==> route == Route(LearnPath(course.id), None) && cart.items == old(cart.items))
      && (action == OpenCart ==> route == Route("/cart", None) && cart.items == old(cart.items))
      && (action == AddThenOpenCart ==> route == Route("/cart", None) && cart.items == old(cart.items) + [course])
    ensures store.IsPurchased(course.id) || cart.IsInCart(course.id)
  {
    if store.IsPurchased(course.id) {
      route := Route(LearnPath(course.id), None);
    } else if cart.IsInCart(course.id) {
      route := Route("/cart", None);
    } else {
      cart.AddItem(course);
      route := Route("/cart", None);
    }
  }

  /** `handleBuyNow`: a visitor who is not signed in goes to the login page,
      which returns to this course; otherwise the course is added when absent
      and the page goes to checkout. The handler does not check whether the
      course is purchased; the page shows the Buy Now button only for courses
      that are not. */
  method HandleBuyNow(course: Course, cart: CartLedger.Cart, isAuthenticated: bool) returns (route: Route)
    modifies cart
    ensures !isAuthenticated ==> route == Route("/login", Some("/courses/" + course.id)) && cart.items == old(cart.items)
    ensures isAuthenticated ==> route == Route("/checkout", None) && cart.items == CartLedger.Added(old(cart.items), course)
    ensures isAuthenticated ==> cart.IsInCart(course.id)
  {
    if !isAuthenticated {
      return Route("/login", Some("/courses/" + course.id));
    }
    if !cart.IsInCart(course.id) {
      cart.AddItem(course);
    }
    CartLedger.AddedProperties(old(cart.items), course);
    route := Route("/checkout", None);
  }

  /** `handleSave`: toggles the saved state of the page's course id, when
      the route has one (`""` stands for a missing id). */
  method HandleSave(courseId: string, store: CourseCatalog.CourseStore)
    modifies store
    ensures store.savedIds == (if courseId != "" then Toggled(old(store.savedIds), courseId) else old(store.savedIds))
    ensures store.purchasedIds == old(store.purchasedIds)
    ensures courseId != "" ==> (store.IsSaved(courseId) <==> !old(store.IsSaved(courseId)))
  {
    if courseId != "" {
      store.ToggleSave(courseId);
    }
  }
}
