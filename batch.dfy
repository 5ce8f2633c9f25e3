/** The download branch of `gwas_files`: pair every URL with its output path, run one
    download per pair, then tally the outcomes in input order. The downloads
    themselves are I/O; their outcomes (the saved path, or the failure's message) are
    an input, one per pair. */
module Batch {
  import opened Wrappers

  datatype BatchError = LengthMismatch

  /** What the tally reports: successes, the number of pairs, each failure's message. */
  datatype DownloadReport = DownloadReport(successCount: nat, total: nat, errors: seq<string>)

  const DownloadedPrefix := "Downloaded: "
  const FailedPrefix := "Failed to download "

  /** The message attached to one pair's outcome; a failure names its URL. */
  function ItemResult(url: string, outcome: Result<string, string>): (r: Result<string, string>)
    ensures r.Success? <==> outcome.Success?
    ensures r.Success? ==>
      |DownloadedPrefix| <= |r.value| && r.value[..|DownloadedPrefix|] == DownloadedPrefix
      && r.value[|DownloadedPrefix|..] == outcome.value
    ensures r.Failure? ==>
      |FailedPrefix| + |url| <= |r.error| && r.error[..|FailedPrefix| + |url|] == FailedPrefix + url
      && r.error[|FailedPrefix| + |url|..] == ": " + outcome.error
  {
    match outcome
    case Success(path) => Success(DownloadedPrefix + path)
    case Failure(e) => Failure(FailedPrefix + url + ": " + e)
  }

  function ItemResults(urls: seq<string>, outcomes: seq<Result<string, string>>): (rs: seq<Result<string, string>>)
    requires |outcomes| == |urls|
    ensures |rs| == |urls|
  {
    seq(|urls|, i requires 0 <= i < |urls| => ItemResult(urls[i], outcomes[i]))
  }

  /** Number of successes among the outcomes. */
  function CountOk(rs: seq<Result<string, string>>): nat {
    if rs == [] then 0
    else CountOk(rs[..|rs| - 1]) + (if rs[|rs| - 1].Success? then 1 else 0)
  }

  /** The failure messages, in the order of the outcomes. */
  function Errors(rs: seq<Result<string, string>>): seq<string> {
    if rs == [] then []
    else Errors(rs[..|rs| - 1]) + (if rs[|rs| - 1].Failure? then [rs[|rs| - 1].error] else [])
  }

  /** Positions of the failed outcomes. */
  function FailedIndices(rs: seq<Result<string, string>>): seq<nat> {
    if rs == [] then []
    else FailedIndices(rs[..|rs| - 1]) + (if rs[|rs| - 1].Failure? then [|rs| - 1] else [])
  }

  /** Every outcome is tallied exactly once: successes plus failures is the total. */
  lemma {:induction false} TallyPartition(rs: seq<Result<string, string>>)
    ensures CountOk(rs) + |Errors(rs)| == |rs|
  {
    if rs != [] {
      TallyPartition(rs[..|rs| - 1]);
    }
  }

  /** The failure messages appear in input order: the j-th is the message of the j-th
      failed outcome, the failed positions increase strictly, and none is missed. */
  lemma {:induction false} ErrorsInOrder(rs: seq<Result<string, string>>)
    ensures |FailedIndices(rs)| == |Errors(rs)|
    ensures forall j :: 0 <= j < |FailedIndices(rs)| ==>
      FailedIndices(rs)[j] < |rs| && rs[FailedIndices(rs)[j]].Failure?
      && Errors(rs)[j] == rs[FailedIndices(rs)[j]].error
    ensures forall j, k :: 0 <= j < k < |FailedIndices(rs)| ==> FailedIndices(rs)[j] < FailedIndices(rs)[k]
    ensures forall i :: 0 <= i < |rs| && rs[i].Failure? ==> i in FailedIndices(rs)
  {
    if rs != [] {
      var init := rs[..|rs| - 1];
      ErrorsInOrder(init);
      assert forall i :: 0 <= i < |init| ==> init[i] == rs[i];
    }
  }

  /** The tally loop of `gwas_files`. */
  method Tally(rs: seq<Result<string, string>>) returns (successCount: nat, errorMessages: seq<string>)
    ensures successCount == CountOk(rs)
    ensures errorMessages == Errors(rs)
  {
    successCount := 0;
    errorMessages := [];
    var i := 0;
    while i < |rs|
      invariant 0 <= i <= |rs|
      invariant successCount == CountOk(rs[..i])
      invariant errorMessages == Errors(rs[..i])
    {
      assert rs[..i + 1][..i] == rs[..i];
      if rs[i].Success? {
        successCount := successCount + 1;
      } else {
        errorMessages := errorMessages + [rs[i].error];
      }
      i := i + 1;
    }
    assert rs[..i] == rs;
  }

  /** Messages never change which outcomes succeeded. */
  lemma {:induction false} ItemResultsShape(urls: seq<string>, outcomes: seq<Result<string, string>>)
    requires |outcomes| == |urls|
    ensures CountOk(ItemResults(urls, outcomes)) == CountOk(outcomes)
    ensures FailedIndices(ItemResults(urls, outcomes)) == FailedIndices(outcomes)
  {
    if urls != [] {
      var n := |urls| - 1;
      ItemResultsShape(urls[..n], outcomes[..n]);
      assert ItemResults(urls, outcomes)[..n] == ItemResults(urls[..n], outcomes[..n]);
    }
  }

  /** `download_summary_stats_file` reports success with the output path it was given. */
  predicate SavedAtPaths(paths: seq<string>, outcomes: seq<Result<string, string>>)
    requires |outcomes| == |paths|
  {
    forall i :: 0 <= i < |paths| && outcomes[i].Success? ==> outcomes[i].value == paths[i]
  }

  /** The download branch: a length mismatch is reported before any download;
      otherwise every pair is downloaded and the outcomes tallied. */
  method DownloadAll(urls: seq<string>, paths: seq<string>, outcomes: seq<Result<string, string>>)
    returns (r: Result<DownloadReport, BatchError>)
    requires |urls| == |paths| ==> |outcomes| == |urls| && SavedAtPaths(paths, outcomes)
    ensures |urls| != |paths| ==> r == Failure(LengthMismatch)
    ensures |urls| == |paths| ==>
      r == Success(DownloadReport(CountOk(outcomes), |urls|, Errors(ItemResults(urls, outcomes))))
  {
    if |urls| != |paths| {
      return Failure(LengthMismatch);
    }
    var results := ItemResults(urls, outcomes);
    var successCount, errorMessages := Tally(results);
    ItemResultsShape(urls, outcomes);
    r := Success(DownloadReport(successCount, |urls|, errorMessages));
  }

  /** What the report says about a batch: successes and failures add up to the number
      of pairs, and the j-th error message is the failure message of the j-th failed
      pair, naming that pair's URL. */
  lemma DownloadReportMeaning(urls: seq<string>, outcomes: seq<Result<string, string>>, j: nat)
    requires |outcomes| == |urls|
    requires j < |FailedIndices(outcomes)|
    ensures CountOk(outcomes) + |Errors(ItemResults(urls, outcomes))| == |urls|
    ensures j < |Errors(ItemResults(urls, outcomes))|
    ensures var k := FailedIndices(outcomes)[j];
      k < |urls| && outcomes[k].Failure? &&
      Errors(ItemResults(urls, outcomes))[j] == FailedPrefix + urls[k] + ": " + outcomes[k].error
  {
    var rs := ItemResults(urls, outcomes);
    TallyPartition(rs);
    ItemResultsShape(urls, outcomes);
    ErrorsInOrder(rs);
  }
}
