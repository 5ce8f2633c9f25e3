/** The request-side filter (`GwasFilter`) and its one conversion into query
    parameters (`GwasFilter::to_params`). */
module Filter {
  import opened Wrappers
  import opened Numbers

  /** Optional query constraints; every field absent is the `Default` filter. */
  datatype GwasFilter = GwasFilter(
    pValueRange: Option<(string, string)>,
    bpLocationRange: Option<(I64, I64)>,
    study: Option<string>,
    traitId: Option<string>,
    revealMode: Option<string>,
    start: Option<I32>,
    size: Option<I32>)

  const EmptyFilter := GwasFilter(None, None, None, None, None, None, None)

  type Params = map<string, string>

  /** Which field, if present, is responsible for a given parameter key. */
  predicate KeyPresent(f: GwasFilter, k: string) {
    if k == "p_lower" || k == "p_upper" then f.pValueRange.Some?
    else if k == "bp_lower" || k == "bp_upper" then f.bpLocationRange.Some?
    else if k == "study_accession" then f.study.Some?
    else if k == "trait" then f.traitId.Some?
    else if k == "reveal" then f.revealMode.Some?
    else if k == "start" then f.start.Some?
    else if k == "size" then f.size.Some?
    else false
  }

  /** The value a present field gives to its key. */
  function ParamValue(f: GwasFilter, k: string): string
    requires KeyPresent(f, k)
  {
    if k == "p_lower" then f.pValueRange.value.0
    else if k == "p_upper" then f.pValueRange.value.1
    else if k == "bp_lower" then IntToDecimal(f.bpLocationRange.value.0 as int)
    else if k == "bp_upper" then IntToDecimal(f.bpLocationRange.value.1 as int)
    else if k == "study_accession" then f.study.value
    else if k == "trait" then f.traitId.value
    else if k == "reveal" then f.revealMode.value
    else if k == "start" then IntToDecimal(f.start.value as int)
    else IntToDecimal(f.size.value as int)
  }

  /** Every key a filter can emit. */
  const ParamKeys: set<string> :=
    {"p_lower", "p_upper", "bp_lower", "bp_upper", "study_accession", "trait", "reveal", "start", "size"}

  /** The parameter map, key by key: a key is there when its field is present. */
  function FilterParams(f: GwasFilter): Params {
    map k | k in ParamKeys && KeyPresent(f, k) :: ParamValue(f, k)
  }

  /** Position of a key in the order `to_params` inserts it; 9 for any other string. */
  function KeyRank(k: string): (n: nat)
    ensures n <= 9
  {
    if k == "p_lower" then 0 else if k == "p_upper" then 1
    else if k == "bp_lower" then 2 else if k == "bp_upper" then 3
    else if k == "study_accession" then 4 else if k == "trait" then 5
    else if k == "reveal" then 6 else if k == "start" then 7
    else if k == "size" then 8 else 9
  }

  /** `m` holds exactly the parameters of the first `n` keys whose fields are present. */
  ghost predicate Agrees(m: Params, f: GwasFilter, n: nat) {
    && (forall k :: k in m <==> KeyRank(k) < n && KeyPresent(f, k))
    && (forall k :: k in m ==> KeyPresent(f, k) && m[k] == ParamValue(f, k))
  }

  /** Inserting the parameter of a present field extends `Agrees` by its key. */
  lemma AgreesInsert(m: Params, f: GwasFilter, n: nat, k: string, v: string)
    requires Agrees(m, f, n) && KeyRank(k) == n < 9
    requires KeyPresent(f, k) && v == ParamValue(f, k)
    ensures Agrees(m[k := v], f, n + 1)
  {
    forall j | KeyRank(j) == n ensures j == k {
    }
  }

  /** The key of an absent field is handled by inserting nothing. */
  lemma AgreesSkip(m: Params, f: GwasFilter, n: nat, k: string)
    requires Agrees(m, f, n) && KeyRank(k) == n < 9
    requires !KeyPresent(f, k)
    ensures Agrees(m, f, n + 1)
  {
    forall j | KeyRank(j) == n ensures j == k {
    }
  }

  /** Once every key is handled, the map is the filter's parameter map. */
  lemma AgreesAll(m: Params, f: GwasFilter)
    requires Agrees(m, f, 9)
    ensures m == FilterParams(f)
  {
    forall k | KeyPresent(f, k) ensures KeyRank(k) < 9 && k in ParamKeys {
    }
    assert m.Keys == FilterParams(f).Keys;
  }

  /** `to_params`: starts from an empty map and inserts one key per present field. */
  method ToParams(f: GwasFilter) returns (params: Params)
    ensures params == FilterParams(f)
  {
    params := map[];
    if f.pValueRange.Some? {
      var (lower, upper) := f.pValueRange.value;
      AgreesInsert(params, f, 0, "p_lower", lower);
      params := params["p_lower" := lower];
      AgreesInsert(params, f, 1, "p_upper", upper);
      params := params["p_upper" := upper];
    } else {
      AgreesSkip(params, f, 0, "p_lower");
      AgreesSkip(params, f, 1, "p_upper");
    }
    assert Agrees(params, f, 2);
    if f.bpLocationRange.Some? {
      var (lower, upper) := f.bpLocationRange.value;
      AgreesInsert(params, f, 2, "bp_lower", IntToDecimal(lower as int));
      params := params["bp_lower" := IntToDecimal(lower as int)];
      AgreesInsert(params, f, 3, "bp_upper", IntToDecimal(upper as int));
      params := params["bp_upper" := IntToDecimal(upper as int)];
    } else {
      AgreesSkip(params, f, 2, "bp_lower");
      AgreesSkip(params, f, 3, "bp_upper");
    }
    assert Agrees(params, f, 4);
    if f.study.Some? {
      AgreesInsert(params, f, 4, "study_accession", f.study.value);
      params := params["study_accession" := f.study.value];
    } else {
      AgreesSkip(params, f, 4, "study_accession");
    }
    assert Agrees(params, f, 5);
    if f.traitId.Some? {
      AgreesInsert(params, f, 5, "trait", f.traitId.value);
      params := params["trait" := f.traitId.value];
    } else {
      AgreesSkip(params, f, 5, "trait");
    }
    assert Agrees(params, f, 6);
    if f.revealMode.Some? {
      AgreesInsert(params, f, 6, "reveal", f.revealMode.value);
      params := params["reveal" := f.revealMode.value];
    } else {
      AgreesSkip(params, f, 6, "reveal");
    }
    assert Agrees(params, f, 7);
    if f.start.Some? {
      AgreesInsert(params, f, 7, "start", IntToDecimal(f.start.value as int));
      params := params["start" := IntToDecimal(f.start.value as int)];
    } else {
      AgreesSkip(params, f, 7, "start");
    }
    assert Agrees(params, f, 8);
    if f.size.Some? {
      AgreesInsert(params, f, 8, "size", IntToDecimal(f.size.value as int));
      params := params["size" := IntToDecimal(f.size.value as int)];
    } else {
      AgreesSkip(params, f, 8, "size");
    }
    AgreesAll(params, f);
  }

  /** The keys emitted are exactly the keys of the present fields, and nothing else. */
  lemma ParamKeysExact(f: GwasFilter, k: string)
    ensures k in FilterParams(f) <==> KeyPresent(f, k)
  {
  }

  /** A filter with every field absent emits no parameter at all. */
  lemma EmptyFilterParams()
    ensures FilterParams(EmptyFilter) == map[]
  {
  }

  /** Values are passed through as given (strings) or as decimal text (integers). */
  lemma ParamValues(f: GwasFilter)
    ensures f.pValueRange.Some? ==>
      FilterParams(f)["p_lower"] == f.pValueRange.value.0 && FilterParams(f)["p_upper"] == f.pValueRange.value.1
    ensures f.bpLocationRange.Some? ==>
      FilterParams(f)["bp_lower"] == IntToDecimal(f.bpLocationRange.value.0 as int)
      && FilterParams(f)["bp_upper"] == IntToDecimal(f.bpLocationRange.value.1 as int)
    ensures f.study.Some? ==> FilterParams(f)["study_accession"] == f.study.value
    ensures f.traitId.Some? ==> FilterParams(f)["trait"] == f.traitId.value
    ensures f.revealMode.Some? ==> FilterParams(f)["reveal"] == f.revealMode.value
    ensures f.start.Some? ==> FilterParams(f)["start"] == IntToDecimal(f.start.value as int)
    ensures f.size.Some? ==> FilterParams(f)["size"] == IntToDecimal(f.size.value as int)
  {
  }

  /** Reads a parameter back as a 64-bit integer, when it is one. */
  function ParamI64(m: Params, k: string): Option<I64> {
    if k in m then
      match ParseDecimal(m[k])
      case Some(v) => if -0x8000_0000_0000_0000 <= v < 0x8000_0000_0000_0000 then Some(v as I64) else None
      case None => None
    else None
  }

  /** Reads a parameter back as a 32-bit integer, when it is one. */
  function ParamI32(m: Params, k: string): Option<I32> {
    if k in m then
      match ParseDecimal(m[k])
      case Some(v) => if -0x8000_0000 <= v < 0x8000_0000 then Some(v as I32) else None
      case None => None
    else None
  }

  function ParamString(m: Params, k: string): Option<string> {
    if k in m then Some(m[k]) else None
  }

  /** The decoding a server would do: recovers a filter from a parameter map. */
  function ParamsToFilter(m: Params): GwasFilter {
    GwasFilter(
      if "p_lower" in m && "p_upper" in m then Some((m["p_lower"], m["p_upper"])) else None,
      if ParamI64(m, "bp_lower").Some? && ParamI64(m, "bp_upper").Some?
      then Some((ParamI64(m, "bp_lower").value, ParamI64(m, "bp_upper").value)) else None,
      ParamString(m, "study_accession"),
      ParamString(m, "trait"),
      ParamString(m, "reveal"),
      ParamI32(m, "start"),
      ParamI32(m, "size"))
  }

  /** The parameter map determines the filter: decoding it gives the filter back. */
  lemma ParamsRoundTrip(f: GwasFilter)
    ensures ParamsToFilter(FilterParams(f)) == f
  {
    var m := FilterParams(f);
    var g := ParamsToFilter(m);
    ParamValues(f);
    forall k | k in ParamKeys ensures k in m <==> KeyPresent(f, k) {
      ParamKeysExact(f, k);
    }
    assert g.pValueRange == f.pValueRange;
    if f.bpLocationRange.Some? {
      IntToDecimalRoundTrip(f.bpLocationRange.value.0 as int);
      IntToDecimalRoundTrip(f.bpLocationRange.value.1 as int);
    }
    assert g.bpLocationRange == f.bpLocationRange;
    assert g.study == f.study && g.traitId == f.traitId && g.revealMode == f.revealMode;
    if f.start.Some? {
      IntToDecimalRoundTrip(f.start.value as int);
    }
    assert g.start == f.start;
    if f.size.Some? {
      IntToDecimalRoundTrip(f.size.value as int);
    }
    assert g.size == f.size;
  }
}
