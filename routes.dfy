/** The endpoints of the REST API, one constructor per `get_*` method of
    `GwasClient`, with the path template each one formats. */
module Routes {
  import opened Wrappers

  datatype Route =
    | Associations
    | VariantAssociations(variantId: string)
    | Chromosomes
    | Chromosome(chromosome: string)
    | ChromosomeAssociations(chromosome: string)
    | ChromosomeVariantAssociations(chromosome: string, variantId: string)
    | Studies
    | Study(studyAccession: string)
    | StudyAssociations(studyAccession: string)
    | Traits
    | Trait(traitId: string)
    | TraitAssociations(traitId: string)
    | TraitStudies(traitId: string)
    | TraitStudy(traitId: string, studyAccession: string)
    | TraitStudyAssociations(traitId: string, studyAccession: string)
    | StudySummaryStats(studyAccession: string)
    | TraitSummaryStats(traitId: string)
    | TraitStudySummaryStats(traitId: string, studyAccession: string)

  /** The endpoint string each `get_*` method passes to `build_url`; every one starts
      with exactly one `/`. */
  function RoutePath(r: Route): (p: string)
    ensures 2 <= |p| && p[0] == '/' && p[1] != '/'
  {
    match r
    case Associations => "/associations"
    case VariantAssociations(v) => "/associations/" + v
    case Chromosomes => "/chromosomes"
    case Chromosome(c) => "/chromosomes/" + c
    case ChromosomeAssociations(c) => "/chromosomes/" + c + "/associations"
    case ChromosomeVariantAssociations(c, v) => "/chromosomes/" + c + "/associations/" + v
    case Studies => "/studies"
    case Study(s) => "/studies/" + s
    case StudyAssociations(s) => "/studies/" + s + "/associations"
    case Traits => "/traits"
    case Trait(t) => "/traits/" + t
    case TraitAssociations(t) => "/traits/" + t + "/associations"
    case TraitStudies(t) => "/traits/" + t + "/studies"
    case TraitStudy(t, s) => "/traits/" + t + "/studies/" + s
    case TraitStudyAssociations(t, s) => "/traits/" + t + "/studies/" + s + "/associations"
    case StudySummaryStats(s) => "/studies/" + s + "/summary-statistics"
    case TraitSummaryStats(t) => "/traits/" + t + "/summary-statistics"
    case TraitStudySummaryStats(t, s) => "/traits/" + t + "/studies/" + s + "/summary-statistics"
  }

  /** Whether the method behind a route takes the caller's parameter map; the others
      pass an empty map to `build_url`. */
  predicate TakesParams(r: Route) {
    !(r.Chromosomes? || r.Chromosome? || r.Study? || r.Trait? || r.TraitStudy?
      || r.StudySummaryStats? || r.TraitSummaryStats? || r.TraitStudySummaryStats?)
  }

  /** One outgoing request: the endpoint and the parameter map given to `build_url`. */
  datatype Request = Request(route: Route, params: map<string, string>)

  /** An id that stays one path segment. */
  predicate IsSegment(id: string) {
    '/' !in id
  }

  /** Every id a route carries is a single segment. */
  predicate SegmentIds(r: Route) {
    match r
    case VariantAssociations(v) => IsSegment(v)
    case Chromosome(c) => IsSegment(c)
    case ChromosomeAssociations(c) => IsSegment(c)
    case ChromosomeVariantAssociations(c, v) => IsSegment(c) && IsSegment(v)
    case Study(s) => IsSegment(s)
    case StudyAssociations(s) => IsSegment(s)
    case Trait(t) => IsSegment(t)
    case TraitAssociations(t) => IsSegment(t)
    case TraitStudies(t) => IsSegment(t)
    case TraitStudy(t, s) => IsSegment(t) && IsSegment(s)
    case TraitStudyAssociations(t, s) => IsSegment(t) && IsSegment(s)
    case StudySummaryStats(s) => IsSegment(s)
    case TraitSummaryStats(t) => IsSegment(t)
    case TraitStudySummaryStats(t, s) => IsSegment(t) && IsSegment(s)
    case _ => true
  }

  /** A path split at every `/`, as `str::split('/')` does. */
  function Segments(s: string): (r: seq<string>)
    ensures |r| > 0
    decreases |s|
  {
    if |s| == 0 then [""]
    else
      var rest := Segments(s[1..]);
      if s[0] == '/' then [""] + rest else [[s[0]] + rest[0]] + rest[1..]
  }

  lemma {:induction false} SegmentsOfSegment(x: string)
    requires IsSegment(x)
    ensures Segments(x) == [x]
    decreases |x|
  {
    if |x| > 0 {
      SegmentsOfSegment(x[1..]);
      assert [x[0]] + x[1..] == x;
    }
  }

  lemma {:induction false} SegmentsCons(x: string, s: string)
    requires IsSegment(x)
    ensures Segments(x + "/" + s) == [x] + Segments(s)
    decreases |x|
  {
    if |x| == 0 {
      assert x + "/" + s == "/" + s;
      assert ("/" + s)[1..] == s;
    } else {
      var t := x + "/" + s;
      assert t[1..] == x[1..] + "/" + s;
      SegmentsCons(x[1..], s);
      assert [x[0]] + x[1..] == x;
    }
  }

  /** Recognises the segment list of an endpoint path. */
  function ParseSegments(p: seq<string>): Option<Route> {
    if |p| == 1 then
      if p[0] == "associations" then Some(Associations)
      else if p[0] == "chromosomes" then Some(Chromosomes)
      else if p[0] == "studies" then Some(Studies)
      else if p[0] == "traits" then Some(Traits)
      else None
    else if |p| == 2 then
      if p[0] == "associations" then Some(VariantAssociations(p[1]))
      else if p[0] == "chromosomes" then Some(Chromosome(p[1]))
      else if p[0] == "studies" then Some(Study(p[1]))
      else if p[0] == "traits" then Some(Trait(p[1]))
      else None
    else if |p| == 3 then
      if p[0] == "chromosomes" && p[2] == "associations" then Some(ChromosomeAssociations(p[1]))
      else if p[0] == "studies" && p[2] == "associations" then Some(StudyAssociations(p[1]))
      else if p[0] == "studies" && p[2] == "summary-statistics" then Some(StudySummaryStats(p[1]))
      else if p[0] == "traits" && p[2] == "associations" then Some(TraitAssociations(p[1]))
      else if p[0] == "traits" && p[2] == "studies" then Some(TraitStudies(p[1]))
      else if p[0] == "traits" && p[2] == "summary-statistics" then Some(TraitSummaryStats(p[1]))
      else None
    else if |p| == 4 then
      if p[0] == "chromosomes" && p[2] == "associations" then Some(ChromosomeVariantAssociations(p[1], p[3]))
      else if p[0] == "traits" && p[2] == "studies" then Some(TraitStudy(p[1], p[3]))
      else None
    else if |p| == 5 then
      if p[0] == "traits" && p[2] == "studies" && p[4] == "associations" then Some(TraitStudyAssociations(p[1], p[3]))
      else if p[0] == "traits" && p[2] == "studies" && p[4] == "summary-statistics" then Some(TraitStudySummaryStats(p[1], p[3]))
      else None
    else None
  }

  /** Reads an endpoint path back into the route that formats it. */
  function ParseRoute(path: string): Option<Route> {
    var segs := Segments(path);
    if segs[0] == "" then ParseSegments(segs[1..]) else None
  }

  /** The segments after the leading `/` of a route's path. */
  function RouteSegments(r: Route): seq<string> {
    match r
    case Associations => ["associations"]
    case VariantAssociations(v) => ["associations", v]
    case Chromosomes => ["chromosomes"]
    case Chromosome(c) => ["chromosomes", c]
    case ChromosomeAssociations(c) => ["chromosomes", c, "associations"]
    case ChromosomeVariantAssociations(c, v) => ["chromosomes", c, "associations", v]
    case Studies => ["studies"]
    case Study(s) => ["studies", s]
    case StudyAssociations(s) => ["studies", s, "associations"]
    case Traits => ["traits"]
    case Trait(t) => ["traits", t]
    case TraitAssociations(t) => ["traits", t, "associations"]
    case TraitStudies(t) => ["traits", t, "studies"]
    case TraitStudy(t, s) => ["traits", t, "studies", s]
    case TraitStudyAssociations(t, s) => ["traits", t, "studies", s, "associations"]
    case StudySummaryStats(s) => ["studies", s, "summary-statistics"]
    case TraitSummaryStats(t) => ["traits", t, "summary-statistics"]
    case TraitStudySummaryStats(t, s) => ["traits", t, "studies", s, "summary-statistics"]
  }

  /* Shapes of the templates: literal pieces `p`, ids `x`, `y`. Taking the literal
     pieces as variables keeps these proofs to associativity and `SegmentsCons`. */

  lemma SegmentsTemplate1(p1: string, a: string)
    requires p1 == "/" + a && IsSegment(a)
    ensures Segments(p1) == ["", a]
  {
    assert p1 == "" + "/" + a;
    SegmentsCons("", a);
    SegmentsOfSegment(a);
  }

  lemma SegmentsTemplate2(p1: string, x: string, a: string)
    requires p1 == "/" + a + "/" && IsSegment(a) && IsSegment(x)
    ensures Segments(p1 + x) == ["", a, x]
  {
    assert p1 + x == "" + "/" + (a + "/" + x);
    SegmentsCons("", a + "/" + x);
    SegmentsCons(a, x);
    SegmentsOfSegment(x);
  }

  lemma SegmentsTemplate3(p1: string, x: string, p2: string, a: string, b: string)
    requires p1 == "/" + a + "/" && p2 == "/" + b
    requires IsSegment(a) && IsSegment(x) && IsSegment(b)
    ensures Segments(p1 + x + p2) == ["", a, x, b]
  {
    assert p1 + x + p2 == "" + "/" + (a + "/" + (x + "/" + b));
    SegmentsCons("", a + "/" + (x + "/" + b));
    SegmentsCons(a, x + "/" + b);
    SegmentsCons(x, b);
    SegmentsOfSegment(b);
  }

  lemma SegmentsTemplate4(p1: string, x: string, p2: string, y: string, a: string, b: string)
    requires p1 == "/" + a + "/" && p2 == "/" + b + "/"
    requires IsSegment(a) && IsSegment(x) && IsSegment(b) && IsSegment(y)
    ensures Segments(p1 + x + p2 + y) == ["", a, x, b, y]
  {
    assert p1 + x + p2 + y == "" + "/" + (a + "/" + (x + "/" + (b + "/" + y)));
    SegmentsCons("", a + "/" + (x + "/" + (b + "/" + y)));
    SegmentsCons(a, x + "/" + (b + "/" + y));
    SegmentsCons(x, b + "/" + y);
    SegmentsCons(b, y);
    SegmentsOfSegment(y);
  }

  lemma SegmentsTemplate5(p1: string, x: string, p2: string, y: string, p3: string, a: string, b: string, c: string)
    requires p1 == "/" + a + "/" && p2 == "/" + b + "/" && p3 == "/" + c
    requires IsSegment(a) && IsSegment(x) && IsSegment(b) && IsSegment(y) && IsSegment(c)
    ensures Segments(p1 + x + p2 + y + p3) == ["", a, x, b, y, c]
  {
    assert p1 + x + p2 + y + p3 == "" + "/" + (a + "/" + (x + "/" + (b + "/" + (y + "/" + c))));
    SegmentsCons("", a + "/" + (x + "/" + (b + "/" + (y + "/" + c))));
    SegmentsCons(a, x + "/" + (b + "/" + (y + "/" + c)));
    SegmentsCons(x, b + "/" + (y + "/" + c));
    SegmentsCons(b, y + "/" + c);
    SegmentsCons(y, c);
    SegmentsOfSegment(c);
  }

  /** The literal pieces of the templates, each as slashes around one segment. */
  lemma AssociationPieces()
    ensures "/associations" == "/" + "associations" && "/associations/" == "/" + "associations" + "/"
    ensures "/chromosomes" == "/" + "chromosomes" && "/chromosomes/" == "/" + "chromosomes" + "/"
  {
  }

  lemma StudyPieces()
    ensures "/studies" == "/" + "studies" && "/studies/" == "/" + "studies" + "/"
    ensures "/associations" == "/" + "associations"
    ensures "/summary-statistics" == "/" + "summary-statistics"
  {
  }

  lemma TraitPieces()
    ensures "/traits" == "/" + "traits" && "/traits/" == "/" + "traits" + "/"
    ensures "/studies" == "/" + "studies" && "/studies/" == "/" + "studies" + "/"
    ensures "/associations" == "/" + "associations"
    ensures "/summary-statistics" == "/" + "summary-statistics"
  {
  }

  /** `RoutePathSegments` for the association and chromosome endpoints. */
  lemma ChromosomeRoutePathSegments(r: Route)
    requires SegmentIds(r)
    requires r.Associations? || r.VariantAssociations? || r.Chromosomes? || r.Chromosome?
      || r.ChromosomeAssociations? || r.ChromosomeVariantAssociations?
    ensures Segments(RoutePath(r)) == [""] + RouteSegments(r)
  {
    AssociationPieces();
    match r
    case Associations => SegmentsTemplate1("/associations", "associations");
    case VariantAssociations(v) => SegmentsTemplate2("/associations/", v, "associations");
    case Chromosomes => SegmentsTemplate1("/chromosomes", "chromosomes");
    case Chromosome(c) => SegmentsTemplate2("/chromosomes/", c, "chromosomes");
    case ChromosomeAssociations(c) =>
      SegmentsTemplate3("/chromosomes/", c, "/associations", "chromosomes", "associations");
    case ChromosomeVariantAssociations(c, v) =>
      SegmentsTemplate4("/chromosomes/", c, "/associations/", v, "chromosomes", "associations");
  }

  /** `RoutePathSegments` for the study endpoints. */
  lemma StudyRoutePathSegments(r: Route)
    requires SegmentIds(r)
    requires r.Studies? || r.Study? || r.StudyAssociations? || r.StudySummaryStats?
    ensures Segments(RoutePath(r)) == [""] + RouteSegments(r)
  {
    StudyPieces();
    match r
    case Studies => SegmentsTemplate1("/studies", "studies");
    case Study(s) => SegmentsTemplate2("/studies/", s, "studies");
    case StudyAssociations(s) =>
      SegmentsTemplate3("/studies/", s, "/associations", "studies", "associations");
    case StudySummaryStats(s) =>
      SegmentsTemplate3("/studies/", s, "/summary-statistics", "studies", "summary-statistics");
  }

  /** `RoutePathSegments` for the trait endpoints. */
  lemma TraitRoutePathSegments(r: Route)
    requires SegmentIds(r)
    requires r.Traits? || r.Trait? || r.TraitAssociations? || r.TraitStudies? || r.TraitSummaryStats?
      || r.TraitStudy? || r.TraitStudyAssociations? || r.TraitStudySummaryStats?
    ensures Segments(RoutePath(r)) == [""] + RouteSegments(r)
  {
    TraitPieces();
    match r
    case Traits => SegmentsTemplate1("/traits", "traits");
    case Trait(t) => SegmentsTemplate2("/traits/", t, "traits");
    case TraitAssociations(t) =>
      SegmentsTemplate3("/traits/", t, "/associations", "traits", "associations");
    case TraitStudies(t) =>
      SegmentsTemplate3("/traits/", t, "/studies", "traits", "studies");
    case TraitSummaryStats(t) =>
      SegmentsTemplate3("/traits/", t, "/summary-statistics", "traits", "summary-statistics");
    case TraitStudy(t, s) =>
      SegmentsTemplate4("/traits/", t, "/studies/", s, "traits", "studies");
    case TraitStudyAssociations(t, s) =>
      SegmentsTemplate5("/traits/", t, "/studies/", s, "/associations", "traits", "studies", "associations");
    case TraitStudySummaryStats(t, s) =>
      SegmentsTemplate5("/traits/", t, "/studies/", s, "/summary-statistics", "traits", "studies", "summary-statistics");
  }

  /** Splitting a route's path at `/` gives an empty first segment, then the route's segments. */
  lemma RoutePathSegments(r: Route)
    requires SegmentIds(r)
    ensures Segments(RoutePath(r)) == [""] + RouteSegments(r)
  {
    if r.Studies? || r.Study? || r.StudyAssociations? || r.StudySummaryStats? {
      StudyRoutePathSegments(r);
    } else if r.Traits? || r.Trait? || r.TraitAssociations? || r.TraitStudies? || r.TraitSummaryStats?
      || r.TraitStudy? || r.TraitStudyAssociations? || r.TraitStudySummaryStats? {
      TraitRoutePathSegments(r);
    } else {
      ChromosomeRoutePathSegments(r);
    }
  }

  /** The segment lists of distinct routes are told apart by `ParseSegments`. */
  lemma ParseRouteSegments(r: Route)
    ensures ParseSegments(RouteSegments(r)) == Some(r)
  {
  }

  /** The path templates are unambiguous: as long as every id is one segment, the
      path a route formats parses back to that same route. */
  lemma RouteRoundTrip(r: Route)
    requires SegmentIds(r)
    ensures ParseRoute(RoutePath(r)) == Some(r)
  {
    RoutePathSegments(r);
    assert ([""] + RouteSegments(r))[1..] == RouteSegments(r);
    ParseRouteSegments(r);
  }

  /** Hence distinct routes with single-segment ids never share a path. */
  lemma RoutePathInjective(r1: Route, r2: Route)
    requires SegmentIds(r1) && SegmentIds(r2) && RoutePath(r1) == RoutePath(r2)
    ensures r1 == r2
  {
    RouteRoundTrip(r1);
    RouteRoundTrip(r2);
  }

  /** Without the one-segment condition the templates collide: a chromosome id
      containing `/associations` names the same path as the chromosome's
      association listing. */
  lemma SlashInIdCollides()
    ensures RoutePath(Chromosome("1/associations")) == RoutePath(ChromosomeAssociations("1"))
  {
  }
}
