/** `GwasClient::build_url`: base URL, one `/`, the endpoint without its leading
    slashes, then one query pair per parameter. */
module UrlBuilder {
  import opened Wrappers

  /** A request URL: everything before the query, and the query pairs in order. */
  datatype Url = Url(path: string, query: seq<(string, string)>)

  datatype UrlError = MalformedUrl(text: string)

  /** `str::trim_start_matches('/')`: drops every leading `/`, and nothing else. */
  function TrimLeadingSlashes(s: string): (r: string)
    ensures |r| <= |s| && r == s[|s| - |r|..]
    ensures forall i :: 0 <= i < |s| - |r| ==> s[i] == '/'
    ensures r == [] || r[0] != '/'
    decreases |s|
  {
    if |s| > 0 && s[0] == '/' then
      var r := TrimLeadingSlashes(s[1..]);
      assert s[1..][|s| - 1 - |r|..] == s[|s| - |r|..];
      r
    else s
  }

  /** The text handed to `Url::parse`. */
  function JoinedPath(baseUrl: string, endpoint: string): string {
    baseUrl + "/" + TrimLeadingSlashes(endpoint)
  }

  /** Leading slashes on the endpoint are immaterial: one more gives the same text. */
  lemma JoinedPathIgnoresEndpointSlashes(baseUrl: string, endpoint: string)
    ensures JoinedPath(baseUrl, "/" + endpoint) == JoinedPath(baseUrl, endpoint)
  {
    assert ("/" + endpoint)[1..] == endpoint;
  }

  /** A slash ending the base URL is not trimmed: the joined text then holds two
      slashes in a row where base and endpoint meet. */
  lemma TrailingBaseSlashKept(baseUrl: string, endpoint: string)
    requires |baseUrl| > 0 && baseUrl[|baseUrl| - 1] == '/'
    ensures |JoinedPath(baseUrl, endpoint)| > |baseUrl|
    ensures JoinedPath(baseUrl, endpoint)[|baseUrl| - 1..|baseUrl| + 1] == "//"
  {
    var j := JoinedPath(baseUrl, endpoint);
    assert j[|baseUrl| - 1] == '/' && j[|baseUrl|] == '/';
  }

  /** `q` lists every entry of `m` exactly once and nothing else. */
  ghost predicate Enumerates(q: seq<(string, string)>, m: map<string, string>) {
    && |q| == |m|
    && (forall i :: 0 <= i < |q| ==> q[i].0 in m && m[q[i].0] == q[i].1)
    && (forall i, j :: 0 <= i < j < |q| ==> q[i].0 != q[j].0)
    && (forall k :: k in m ==> exists i :: 0 <= i < |q| && q[i].0 == k)
  }

  /** Loop state of `build_url`: `q` lists, once each and with their values, the keys
      of `m` outside `remaining`. */
  ghost predicate Listed(q: seq<(string, string)>, m: map<string, string>, remaining: set<string>) {
    && remaining <= m.Keys
    && |q| + |remaining| == |m|
    && (forall i :: 0 <= i < |q| ==> q[i].0 in m && q[i].0 !in remaining && m[q[i].0] == q[i].1)
    && (forall i, j :: 0 <= i < j < |q| ==> q[i].0 != q[j].0)
    && (forall k :: k in m && k !in remaining ==> exists i :: 0 <= i < |q| && q[i].0 == k)
  }

  lemma ListedStart(m: map<string, string>)
    ensures Listed([], m, m.Keys)
  {
  }

  lemma ListedStep(q: seq<(string, string)>, m: map<string, string>, remaining: set<string>, key: string)
    requires Listed(q, m, remaining) && key in remaining
    ensures Listed(q + [(key, m[key])], m, remaining - {key})
  {
    var q' := q + [(key, m[key])];
    forall k | k in m && k !in remaining - {key} ensures exists i :: 0 <= i < |q'| && q'[i].0 == k {
      if k == key {
        assert q'[|q|].0 == k;
      } else {
        var i :| 0 <= i < |q| && q[i].0 == k;
        assert q'[i].0 == k;
      }
    }
  }

  lemma ListedEnd(q: seq<(string, string)>, m: map<string, string>)
    requires Listed(q, m, {})
    ensures Enumerates(q, m)
  {
  }

  /** `build_url`. `parses` stands for `Url::parse` succeeding on a string; what it
      accepts belongs to the `url` crate and is left abstract. */
  method BuildUrl(baseUrl: string, endpoint: string, params: map<string, string>, parses: string -> bool)
    returns (r: Result<Url, UrlError>)
    ensures !parses(JoinedPath(baseUrl, endpoint)) ==> r == Failure(MalformedUrl(JoinedPath(baseUrl, endpoint)))
    ensures parses(JoinedPath(baseUrl, endpoint)) ==>
      r.Success? && r.value.path == JoinedPath(baseUrl, endpoint) && Enumerates(r.value.query, params)
  {
    var joined := baseUrl + "/" + TrimLeadingSlashes(endpoint);
    if !parses(joined) {
      return Failure(MalformedUrl(joined));
    }
    var query: seq<(string, string)> := [];
    var remaining := params.Keys;
    ListedStart(params);
    while remaining != {}
      invariant Listed(query, params, remaining)
      decreases remaining
    {
      var key :| key in remaining;
      ListedStep(query, params, remaining, key);
      query := query + [(key, params[key])];
      remaining := remaining - {key};
    }
    ListedEnd(query, params);
    return Success(Url(joined, query));
  }

  /** Every entry of the map occurs exactly once among the query pairs. */
  lemma EnumeratesOnce(q: seq<(string, string)>, m: map<string, string>, k: string)
    requires Enumerates(q, m) && k in m
    ensures exists i :: 0 <= i < |q| && q[i] == (k, m[k]) && forall j :: 0 <= j < |q| && q[j].0 == k ==> j == i
  {
    var i :| 0 <= i < |q| && q[i].0 == k;
    assert q[i] == (k, m[k]);
    forall j | 0 <= j < |q| && q[j].0 == k ensures j == i {
    }
  }

  /** Decoding a query: pairs in order, a later pair for a key replacing an earlier one. */
  function QueryToMap(q: seq<(string, string)>): map<string, string>
    decreases |q|
  {
    if q == [] then map[] else QueryToMap(q[..|q| - 1])[q[|q| - 1].0 := q[|q| - 1].1]
  }

  lemma {:induction false} QueryToMapKeys(q: seq<(string, string)>, k: string)
    ensures k in QueryToMap(q) <==> exists i :: 0 <= i < |q| && q[i].0 == k
    decreases |q|
  {
    if q != [] {
      var p := q[..|q| - 1];
      QueryToMapKeys(p, k);
      if k in QueryToMap(p) {
        var i :| 0 <= i < |p| && p[i].0 == k;
        assert q[i].0 == k;
      }
      if exists i :: 0 <= i < |q| && q[i].0 == k {
        var i :| 0 <= i < |q| && q[i].0 == k;
        if i < |q| - 1 {
          assert p[i].0 == k;
        }
      }
    }
  }

  lemma {:induction false} QueryToMapValues(q: seq<(string, string)>, i: nat)
    requires i < |q|
    requires forall a, b :: 0 <= a < b < |q| ==> q[a].0 != q[b].0
    ensures q[i].0 in QueryToMap(q) && QueryToMap(q)[q[i].0] == q[i].1
    decreases |q|
  {
    QueryToMapKeys(q, q[i].0);
    if i < |q| - 1 {
      var p := q[..|q| - 1];
      assert p[i] == q[i];
      QueryToMapValues(p, i);
      assert q[i].0 != q[|q| - 1].0;
    }
  }

  /** Round trip: decoding the built query gives back the parameter map. */
  lemma QueryRoundTrip(q: seq<(string, string)>, m: map<string, string>)
    requires Enumerates(q, m)
    ensures QueryToMap(q) == m
  {
    var d := QueryToMap(q);
    forall k ensures k in d <==> k in m {
      QueryToMapKeys(q, k);
    }
    forall k | k in m ensures d[k] == m[k] {
      var i :| 0 <= i < |q| && q[i].0 == k;
      QueryToMapValues(q, i);
    }
  }
}
