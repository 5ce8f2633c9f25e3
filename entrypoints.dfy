/** The three functions exported to R — `gwas_get`, `gwas_associations` and
    `gwas_files` — up to the request each one sends: how their loose arguments become
    a filter, which router they call, and how `gwas_files` chooses between listing
    and downloading. */
module Entrypoints {
  import opened Wrappers
  import opened Numbers
  import opened Filter
  import opened Routes
  import opened Dispatch
  import opened Batch

  /** A one-sided p-value bound is widened to the full [0, 1] range on its open side. */
  function NormalizePValueRange(min: Option<string>, max: Option<string>): (r: Option<(string, string)>)
    ensures r.None? <==> min.None? && max.None?
    ensures r.Some? && min.Some? ==> r.value.0 == min.value
    ensures r.Some? && max.Some? ==> r.value.1 == max.value
    ensures r.Some? && min.None? ==> r.value.0 == "0.0"
    ensures r.Some? && max.None? ==> r.value.1 == "1.0"
  {
    match (min, max)
    case (Some(lo), Some(hi)) => Some((lo, hi))
    case (Some(lo), None) => Some((lo, "1.0"))
    case (None, Some(hi)) => Some(("0.0", hi))
    case (None, None) => None
  }

  /** A base-pair range is kept only when both ends are given. */
  function NormalizeBpRange(min: Option<I64>, max: Option<I64>): (r: Option<(I64, I64)>)
    ensures r.Some? <==> min.Some? && max.Some?
    ensures r.Some? ==> r.value == (min.value, max.value)
  {
    match (min, max)
    case (Some(lo), Some(hi)) => Some((lo, hi))
    case _ => None
  }

  /** `gwas_get` passes paging only; every other filter field keeps its default. */
  function GetFilter(start: Option<I32>, size: Option<I32>): GwasFilter {
    GwasFilter(None, None, None, None, None, start, size)
  }

  function GwasGet(entityType: string, id: Option<string>, start: Option<I32>, size: Option<I32>)
    : Result<Request, RouteError>
  {
    GetEntity(entityType, id, GetFilter(start, size))
  }

  /** What `gwas_get` sends: paging parameters, and only for the studies and traits
      listings; every other tag is refused. */
  lemma GwasGetParams(entityType: string, id: Option<string>, start: Option<I32>, size: Option<I32>)
    ensures GwasGet(entityType, id, start, size).Failure? <==>
      entityType != "chromosomes" && entityType != "studies" && entityType != "traits"
    ensures GwasGet(entityType, id, start, size).Success? ==>
      var p := GwasGet(entityType, id, start, size).value.params;
      var listing := id.None? && entityType != "chromosomes";
      (forall k :: k in p ==> k == "start" || k == "size")
      && ("start" in p <==> listing && start.Some?)
      && ("size" in p <==> listing && size.Some?)
      && ("start" in p ==> p["start"] == IntToDecimal(start.value as int))
      && ("size" in p ==> p["size"] == IntToDecimal(size.value as int))
  {
    var f := GetFilter(start, size);
    ParamValues(f);
    forall k | k in FilterParams(f) ensures k == "start" || k == "size" {
      ParamKeysExact(f, k);
    }
    ParamKeysExact(f, "start");
    ParamKeysExact(f, "size");
  }

  /** `gwas_associations` builds the filter from its loose arguments. */
  function AssociationsFilter(pValueMin: Option<string>, pValueMax: Option<string>,
                              bpMin: Option<I64>, bpMax: Option<I64>,
                              study: Option<string>, traitId: Option<string>, revealMode: Option<string>,
                              start: Option<I32>, size: Option<I32>): GwasFilter
  {
    GwasFilter(NormalizePValueRange(pValueMin, pValueMax), NormalizeBpRange(bpMin, bpMax),
               study, traitId, revealMode, start, size)
  }

  function GwasAssociations(entityType: Option<string>, entityId: Option<string>,
                            pValueMin: Option<string>, pValueMax: Option<string>,
                            bpMin: Option<I64>, bpMax: Option<I64>,
                            study: Option<string>, traitId: Option<string>, revealMode: Option<string>,
                            start: Option<I32>, size: Option<I32>): Result<Request, RouteError>
  {
    GetUnifiedAssociations(entityType, entityId,
      AssociationsFilter(pValueMin, pValueMax, bpMin, bpMax, study, traitId, revealMode, start, size))
  }

  /** The query `gwas_associations` sends, argument by argument: either p-value bound
      brings both `p_lower` and `p_upper` (the missing side at 0.0 or 1.0), the
      base-pair bounds come only as a pair, and the rest pass through as given. */
  lemma GwasAssociationsParams(entityType: Option<string>, entityId: Option<string>,
                               pValueMin: Option<string>, pValueMax: Option<string>,
                               bpMin: Option<I64>, bpMax: Option<I64>,
                               study: Option<string>, traitId: Option<string>, revealMode: Option<string>,
                               start: Option<I32>, size: Option<I32>)
    requires GwasAssociations(entityType, entityId, pValueMin, pValueMax, bpMin, bpMax,
                              study, traitId, revealMode, start, size).Success?
    ensures var p := GwasAssociations(entityType, entityId, pValueMin, pValueMax, bpMin, bpMax,
                                      study, traitId, revealMode, start, size).value.params;
      ("p_lower" in p <==> pValueMin.Some? || pValueMax.Some?)
      && ("p_upper" in p <==> pValueMin.Some? || pValueMax.Some?)
      && ("p_lower" in p ==> p["p_lower"] == pValueMin.UnwrapOr("0.0") && p["p_upper"] == pValueMax.UnwrapOr("1.0"))
      && ("bp_lower" in p <==> bpMin.Some? && bpMax.Some?)
      && ("bp_upper" in p <==> bpMin.Some? && bpMax.Some?)
      && ("bp_lower" in p ==> p["bp_lower"] == IntToDecimal(bpMin.value as int)
                               && p["bp_upper"] == IntToDecimal(bpMax.value as int))
      && ("study_accession" in p <==> study.Some?)
      && ("study_accession" in p ==> p["study_accession"] == study.value)
      && ("trait" in p <==> traitId.Some?)
      && ("trait" in p ==> p["trait"] == traitId.value)
      && ("reveal" in p <==> revealMode.Some?)
      && ("reveal" in p ==> p["reveal"] == revealMode.value)
      && ("start" in p <==> start.Some?)
      && ("start" in p ==> p["start"] == IntToDecimal(start.value as int))
      && ("size" in p <==> size.Some?)
      && ("size" in p ==> p["size"] == IntToDecimal(size.value as int))
      && (forall k :: k in p ==> k in ParamKeys)
  {
    var f := AssociationsFilter(pValueMin, pValueMax, bpMin, bpMax, study, traitId, revealMode, start, size);
    ParamValues(f);
    ParamKeysExact(f, "p_lower");
    ParamKeysExact(f, "p_upper");
    ParamKeysExact(f, "bp_lower");
    ParamKeysExact(f, "bp_upper");
    ParamKeysExact(f, "study_accession");
    ParamKeysExact(f, "trait");
    ParamKeysExact(f, "reveal");
    ParamKeysExact(f, "start");
    ParamKeysExact(f, "size");
  }

  datatype FilesError =
    | ListingError(routeError: RouteError)
    | DownloadInputsMissing
    | DownloadLengthMismatch
    | InvalidOperation(operation: string)

  /** A listing (the request `list_files` sends) or a finished batch of downloads
      with the thread count handed to the pool builder (0 lets rayon choose). */
  datatype FilesOutput =
    | Listing(request: Request)
    | Downloads(threads: nat, report: DownloadReport)

  /** The thread count handed to the pool when `max_concurrent` is not given. */
  const DefaultMaxConcurrent: nat := 4

  /** `gwas_files`: "list" routes through `list_files`; "download" needs both the URL
      and the path vectors, of equal length, and runs one download per pair; any other
      operation is refused. `outcomes` are the per-pair download outcomes. */
  method GwasFiles(operation: string, entityType: string, entityId: string, secondaryId: Option<string>,
                   fileUrls: Option<seq<string>>, outputPaths: Option<seq<string>>,
                   maxConcurrent: Option<nat>, outcomes: seq<Result<string, string>>)
    returns (r: Result<FilesOutput, FilesError>)
    requires fileUrls.Some? && outputPaths.Some? && |fileUrls.value| == |outputPaths.value|
      ==> |outcomes| == |fileUrls.value| && SavedAtPaths(outputPaths.value, outcomes)
    ensures operation == "list" ==>
      r == match ListFiles(entityType, entityId, secondaryId)
           case Success(req) => Success(Listing(req))
           case Failure(e) => Failure(ListingError(e))
    ensures operation == "download" && (fileUrls.None? || outputPaths.None?) ==>
      r == Failure(DownloadInputsMissing)
    ensures operation == "download" && fileUrls.Some? && outputPaths.Some? ==>
      if |fileUrls.value| != |outputPaths.value| then r == Failure(DownloadLengthMismatch)
      else r == Success(Downloads(maxConcurrent.UnwrapOr(DefaultMaxConcurrent),
        DownloadReport(CountOk(outcomes), |fileUrls.value|, Errors(ItemResults(fileUrls.value, outcomes)))))
    ensures operation != "list" && operation != "download" ==> r == Failure(InvalidOperation(operation))
  {
    if operation == "list" {
      var listed := ListFiles(entityType, entityId, secondaryId);
      match listed
      case Success(req) => r := Success(Listing(req));
      case Failure(e) => r := Failure(ListingError(e));
    } else if operation == "download" {
      if fileUrls.None? || outputPaths.None? {
        return Failure(DownloadInputsMissing);
      }
      var downloaded := DownloadAll(fileUrls.value, outputPaths.value, outcomes);
      match downloaded
      case Failure(LengthMismatch) => r := Failure(DownloadLengthMismatch);
      case Success(report) => r := Success(Downloads(maxConcurrent.UnwrapOr(DefaultMaxConcurrent), report));
    } else {
      r := Failure(InvalidOperation(operation));
    }
  }
}
