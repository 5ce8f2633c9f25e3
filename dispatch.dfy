/** The three string-tag routers of `GwasClient`: `get_entity`,
    `get_unified_associations` and `list_files`. Each yields the request it would
    send rather than the pretty-printed JSON of the response. */
module Dispatch {
  import opened Wrappers
  import opened Filter
  import opened Routes

  datatype RouteError =
    | InvalidEntityType(entityType: string)
    | InvalidAssociationScope
    | InvalidFileScope

  /** The parameters a route's method is called with: the filter's when it takes
      them, an empty map otherwise. */
  function ParamsFor(route: Route, f: GwasFilter): map<string, string> {
    if TakesParams(route) then FilterParams(f) else map[]
  }

  /** Reference for `get_entity`: the (tag, id) that names each entity route. */
  function EntityScope(route: Route): Option<(string, Option<string>)> {
    match route
    case Chromosomes => Some(("chromosomes", None))
    case Chromosome(c) => Some(("chromosomes", Some(c)))
    case Studies => Some(("studies", None))
    case Study(s) => Some(("studies", Some(s)))
    case Traits => Some(("traits", None))
    case Trait(t) => Some(("traits", Some(t)))
    case _ => None
  }

  /** `get_entity`: an id selects the single entity, no id the listing; any tag other
      than the three plural ones is refused. */
  function GetEntity(entityType: string, id: Option<string>, f: GwasFilter): (r: Result<Request, RouteError>)
    ensures r.Success? <==> entityType == "chromosomes" || entityType == "studies" || entityType == "traits"
    ensures r.Failure? ==> r.error == InvalidEntityType(entityType)
    ensures r.Success? ==> EntityScope(r.value.route) == Some((entityType, id))
    ensures r.Success? ==> r.value.params == ParamsFor(r.value.route, f)
  {
    var params := FilterParams(f);
    if entityType == "chromosomes" then
      if id.Some? then Success(Request(Chromosome(id.value), map[]))
      else Success(Request(Chromosomes, map[]))
    else if entityType == "studies" then
      if id.Some? then Success(Request(Study(id.value), map[]))
      else Success(Request(Studies, params))
    else if entityType == "traits" then
      if id.Some? then Success(Request(Trait(id.value), map[]))
      else Success(Request(Traits, params))
    else Failure(InvalidEntityType(entityType))
  }

  /** Conversely, every entity route is reached from its own (tag, id): `get_entity`
      is exactly the inverse of `EntityScope`. */
  lemma GetEntityComplete(route: Route, f: GwasFilter)
    requires EntityScope(route).Some?
    ensures GetEntity(EntityScope(route).value.0, EntityScope(route).value.1, f)
      == Success(Request(route, ParamsFor(route, f)))
  {
  }

  /** Only the studies and traits listings carry the filter; the chromosome listing
      and every single-entity lookup send no parameters. */
  lemma GetEntityParams(entityType: string, id: Option<string>, f: GwasFilter)
    requires GetEntity(entityType, id, f).Success?
    ensures GetEntity(entityType, id, f).value.params
      == if id.None? && entityType != "chromosomes" then FilterParams(f) else map[]
  {
  }

  /** Reference for `get_unified_associations`: the (kind, id) pair scoping each
      association route it can reach. */
  function AssociationScope(route: Route): Option<(Option<string>, Option<string>)> {
    match route
    case Associations => Some((None, None))
    case VariantAssociations(v) => Some((Some("variant"), Some(v)))
    case ChromosomeAssociations(c) => Some((Some("chromosome"), Some(c)))
    case StudyAssociations(s) => Some((Some("study"), Some(s)))
    case TraitAssociations(t) => Some((Some("trait"), Some(t)))
    case _ => None
  }

  predicate IsScopeKind(kind: string) {
    kind == "variant" || kind == "chromosome" || kind == "study" || kind == "trait"
  }

  /** `get_unified_associations`: no scope means every association; a recognised kind
      with an id scopes the listing; anything else is refused. */
  function GetUnifiedAssociations(entityType: Option<string>, entityId: Option<string>, f: GwasFilter)
    : (r: Result<Request, RouteError>)
    ensures r.Success? <==>
      (entityType.None? && entityId.None?) || (entityType.Some? && entityId.Some? && IsScopeKind(entityType.value))
    ensures r.Failure? ==> r.error == InvalidAssociationScope
    ensures r.Success? ==> AssociationScope(r.value.route) == Some((entityType, entityId))
    ensures r.Success? ==> r.value.params == FilterParams(f) && TakesParams(r.value.route)
  {
    var params := FilterParams(f);
    match (entityType, entityId)
    case (None, None) => Success(Request(Associations, params))
    case (Some(kind), Some(id)) =>
      if kind == "variant" then Success(Request(VariantAssociations(id), params))
      else if kind == "chromosome" then Success(Request(ChromosomeAssociations(id), params))
      else if kind == "study" then Success(Request(StudyAssociations(id), params))
      else if kind == "trait" then Success(Request(TraitAssociations(id), params))
      else Failure(InvalidAssociationScope)
    case _ => Failure(InvalidAssociationScope)
  }

  /** Every association route is reached from its own scope pair. */
  lemma GetUnifiedAssociationsComplete(route: Route, f: GwasFilter)
    requires AssociationScope(route).Some?
    ensures GetUnifiedAssociations(AssociationScope(route).value.0, AssociationScope(route).value.1, f)
      == Success(Request(route, FilterParams(f)))
  {
  }

  /** The refusals spelled out: a kind without an id, an id without a kind, an
      unknown kind (the plural tags of `get_entity` included). */
  lemma GetUnifiedAssociationsRefusals(kind: string, id: string, f: GwasFilter)
    ensures GetUnifiedAssociations(Some(kind), None, f) == Failure(InvalidAssociationScope)
    ensures GetUnifiedAssociations(None, Some(id), f) == Failure(InvalidAssociationScope)
    ensures !IsScopeKind(kind) ==> GetUnifiedAssociations(Some(kind), Some(id), f) == Failure(InvalidAssociationScope)
    ensures GetUnifiedAssociations(Some("traits"), Some(id), f) == Failure(InvalidAssociationScope)
  {
  }

  /** Reference for `list_files`: (kind, id, secondary id) naming each file listing. */
  function FileScope(route: Route): Option<(string, string, Option<string>)> {
    match route
    case StudySummaryStats(s) => Some(("study", s, None))
    case TraitSummaryStats(t) => Some(("trait", t, None))
    case TraitStudySummaryStats(t, s) => Some(("trait", t, Some(s)))
    case _ => None
  }

  /** `list_files`: a study's files, a trait's files, or a trait's files within one
      study; a secondary id is only meaningful with a trait. */
  function ListFiles(entityType: string, entityId: string, secondaryId: Option<string>)
    : (r: Result<Request, RouteError>)
    ensures r.Success? <==> (entityType == "study" && secondaryId.None?) || entityType == "trait"
    ensures r.Failure? ==> r.error == InvalidFileScope
    ensures r.Success? ==> FileScope(r.value.route) == Some((entityType, entityId, secondaryId))
    ensures r.Success? ==> r.value.params == map[] && !TakesParams(r.value.route)
  {
    match (entityType, secondaryId)
    case ("study", None) => Success(Request(StudySummaryStats(entityId), map[]))
    case ("trait", None) => Success(Request(TraitSummaryStats(entityId), map[]))
    case ("trait", Some(studyId)) => Success(Request(TraitStudySummaryStats(entityId, studyId), map[]))
    case _ => Failure(InvalidFileScope)
  }

  /** Every file-listing route is reached from its own scope. */
  lemma ListFilesComplete(route: Route)
    requires FileScope(route).Some?
    ensures ListFiles(FileScope(route).value.0, FileScope(route).value.1, FileScope(route).value.2)
      == Success(Request(route, map[]))
  {
  }

  /** A study with a secondary id is refused, as is any other tag. */
  lemma ListFilesRefusals(kind: string, id: string, secondary: string)
    ensures ListFiles("study", id, Some(secondary)) == Failure(InvalidFileScope)
    ensures kind != "study" && kind != "trait" ==> ListFiles(kind, id, None) == Failure(InvalidFileScope)
  {
  }

  /** All three routers send each call to a distinct endpoint family, so no route is
      reachable through two of them. */
  lemma RouterFamiliesDisjoint(route: Route)
    ensures EntityScope(route).Some? ==> AssociationScope(route).None? && FileScope(route).None?
    ensures AssociationScope(route).Some? ==> FileScope(route).None?
  {
  }
}
