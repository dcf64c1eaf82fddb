/** The navigation targets the pages hand to the router: a path, and the
    `from` location some of them pass in the navigation state so that the
    login page can return there. */
module Navigation {
  import opened Wrappers

  datatype Route = Route(path: string, from: Option<string>)

  /** `/learn/<id>`, the course player of a course. */
  function LearnPath(courseId: string): (p: string)
    ensures |p| == |"/learn/"| + |courseId| && p[..|"/learn/"|] == "/learn/" && p[|"/learn/"|..] == courseId
  {
    "/learn/" + courseId
  }

  /** Different courses have different player paths, and a player path
      always starts with `/learn/`. */
  lemma LearnPathInjective(a: string, b: string)
    ensures LearnPath(a) == LearnPath(b) <==> a == b
    ensures StartsWithLearn(LearnPath(a))
  {
    if LearnPath(a) == LearnPath(b) {
      assert a == LearnPath(a)[|"/learn/"|..] == LearnPath(b)[|"/learn/"|..] == b;
    }
  }

  predicate StartsWithLearn(p: string) {
    |p| >= |"/learn/"| && p[..|"/learn/"|] == "/learn/"
  }
}
