# GWAS summary-statistics client — request and routing model

This project models the request side of `iani`, an R binding (written in Rust) for
the GWAS Catalog summary-statistics REST API. It covers:

- how a `GwasFilter` becomes the query parameters of a request (`to_params`);
- how `build_url` joins the base URL, an endpoint and those parameters;
- which responses `check_json_response` accepts;
- the endpoint template of every typed `get_*` method;
- the three string-tag routers `get_entity`, `get_unified_associations` and
  `list_files`;
- the three functions exported to R (`gwas_get`, `gwas_associations`,
  `gwas_files`), up to the request they send and the tally of a batch download.

Module layout:

| file | module | models |
|---|---|---|
| wrappers.dfy | `Wrappers` | `Option` and `Result` |
| numbers.dfy | `Numbers` | `i32`/`i64` as bounded integers; their decimal rendering (`to_string`) and its inverse |
| filter.dfy | `Filter` | `GwasFilter`, `to_params` as successive inserts into a map, and the key-by-key specification of the result |
| url.dfy | `UrlBuilder` | `build_url`: the joined text, then one query pair per parameter |
| response.dfy | `Response` | `check_json_response` as a decision over status, `content-type` header and body |
| routes.dfy | `Routes` | one `Route` per typed `get_*` endpoint, its `format!` template, its path segments, and a parser that inverts the templates |
| dispatch.dfy | `Dispatch` | the three routers, each with a reference scope function it inverts |
| client.dfy | `Client` | `GwasClient`, its default base URL, and the build → send → check pipeline of each `get_*` method |
| batch.dfy | `Batch` | the download branch of `gwas_files`: length check, per-pair messages, tally loop |
| entrypoints.dfy | `Entrypoints` | argument normalisation of `gwas_associations`, the paging-only filter of `gwas_get`, the operation choice of `gwas_files` |

Modelling choices:

- The routers return the `Request` (a `Route` plus its parameter map) they would
  send, not the pretty-printed JSON of the decoded response.
- `Url::parse` is a parameter `parses: string -> bool`. The HTTP round trip is a
  parameter `send`. The per-pair download outcomes are an input sequence, one per
  (URL, path) pair, in input order. This mirrors the order-preserving `collect`
  of the parallel map.
- Status codes are integers. Success is 200 through 299, as in `is_success`.
- The query is a sequence of pairs. `BuildUrl` promises each parameter exactly once,
  in an unspecified order (the order a `HashMap` iterates in).
- Identifiers go into endpoint text unescaped, exactly as the `format!` templates
  put them. `RouteRoundTrip` and `RoutePathInjective` speak about that text, before
  `Url::parse` reads it, and need every identifier to be free of `/`.
  `SlashInIdCollides` shows that a chromosome id `"1/associations"` yields the text
  of the associations of chromosome `"1"`.
- `build_url` trims only the endpoint's leading slashes. A base URL ending in `/`
  therefore gives `//` (`UrlBuilder.TrailingBaseSlashKept`).
- `max_concurrent` (default 4) goes to the thread pool's `num_threads` unchanged,
  zero included. For rayon, `num_threads(0)` does not mean zero workers: it lets
  rayon choose the number of threads. `FilesOutput.Downloads` records the setting
  handed over, not a worker count.
- `start` and `size` are sent only when given; the client applies no paging
  defaults of its own.
- `download_summary_stats_file` returns the output path it was given on success, so
  a successful outcome carries that pair's path (`Batch.SavedAtPaths`).

## Model

| member | source | states |
|---|---|---|
| Numbers.NatToDecimal | src/rust/src/lib.rs:100-101 | the decimal text of a natural number is non-empty, all digits, and has no leading zero |
| Numbers.IntToDecimal | src/rust/src/lib.rs:117 | the decimal text of an integer is non-empty, starts with `-` exactly when the integer is negative, and is otherwise digits without a leading zero |
| Numbers.NatToDecimalValue | src/rust/src/lib.rs:100-101 | the digits of `n` read back as `n` |
| Numbers.IntToDecimalRoundTrip | src/rust/src/lib.rs:116-122 | parsing the rendered text of any integer gives that integer back |
| Numbers.IntToDecimalInjective | src/rust/src/lib.rs:99-122 | distinct integers render to distinct parameter values |
| Filter.ToParams | src/rust/src/lib.rs:91-125 | the successive inserts of `to_params`, field by field in source order, build exactly the specified parameter map |
| Filter.FilterParams | src/rust/src/lib.rs:91-125 | definition: the key-by-key specification of `to_params` (a key for each present field, with its value); its properties are `ParamKeysExact`, `ParamValues` and `ParamsRoundTrip` |
| Filter.ParamKeysExact | src/rust/src/lib.rs:94-122 | a key is in the map if and only if the field responsible for it is present |
| Filter.EmptyFilterParams | src/rust/src/lib.rs:79-92 | the default (all-absent) filter yields the empty map |
| Filter.ParamValues | src/rust/src/lib.rs:94-122 | p-value bounds, study, trait and reveal pass through verbatim; base-pair bounds, start and size appear as decimal text; `study` goes to `study_accession` and `trait_id` to `trait` |
| Filter.ParamsRoundTrip | src/rust/src/lib.rs:91-125 | the parameter map determines the filter: reading the map back gives the original filter (no two filters share a map) |
| UrlBuilder.TrimLeadingSlashes | src/rust/src/lib.rs:153 | the result is a suffix of the input, everything dropped is `/`, and the result does not start with `/` |
| UrlBuilder.JoinedPathIgnoresEndpointSlashes | src/rust/src/lib.rs:150-154 | an extra leading slash on the endpoint does not change the joined URL text |
| UrlBuilder.TrailingBaseSlashKept | src/rust/src/lib.rs:150-154 | a slash ending the base URL is kept, so base and endpoint meet at `//` |
| UrlBuilder.BuildUrl | src/rust/src/lib.rs:149-158 | an unparsable joined text fails with that text; otherwise the path is base + `/` + trimmed endpoint and the query lists every parameter exactly once with its value |
| UrlBuilder.EnumeratesOnce | src/rust/src/lib.rs:155-157 | each parameter occurs at exactly one position of the query |
| UrlBuilder.QueryRoundTrip | src/rust/src/lib.rs:155-157 | reading the built query back into a map gives exactly the parameter map |
| Response.CheckJsonResponse | src/rust/src/lib.rs:161-182 | accepted exactly when the status is 2xx and any readable `content-type` contains `application/json`; a non-2xx status gives an HTTP error with the body or the fallback text; a content-type error happens exactly when a 2xx response has a readable header lacking `application/json`, and carries that header |
| Response.MissingHeaderAccepted | src/rust/src/lib.rs:173-181 | with a 2xx status, an absent or unreadable header is accepted |
| Response.ContentTypeExamples | src/rust/src/lib.rs:165-181 | `application/hal+json` and `text/html` are rejected, `application/json;charset=UTF-8` is accepted, and a 404 is an HTTP error |
| Routes.RoutePath | src/rust/src/lib.rs:188-382 | the `format!` endpoint template of each typed `get_*` method; every endpoint starts with exactly one `/` |
| Routes.TakesParams | src/rust/src/lib.rs:184-382 | definition: the `get_*` methods that take a `params` map; the chromosome listing and lookup, the study, trait and trait-study lookups and the three file listings pass `HashMap::new()` |
| Routes.RoutePathSegments | src/rust/src/lib.rs:188-382 | every endpoint template is `/` followed by its keyword and identifier segments |
| Routes.ParseRouteSegments | src/rust/src/lib.rs:188-382 | the segment list of each route parses back to that route |
| Routes.RouteRoundTrip | src/rust/src/lib.rs:188-382 | for identifiers without `/`, the path of a route parses back to the route |
| Routes.RoutePathInjective | src/rust/src/lib.rs:188-382 | for identifiers without `/`, distinct routes have distinct paths |
| Routes.SlashInIdCollides | src/rust/src/lib.rs:217-230 | an identifier containing `/` can make one route's path equal to another's |
| Dispatch.GetEntity | src/rust/src/lib.rs:401-450 | succeeds exactly for `chromosomes`, `studies` and `traits`, otherwise fails naming the tag; the route's scope is (tag, id); the parameters are the filter's on the two listings that take them, empty otherwise |
| Dispatch.GetEntityComplete | src/rust/src/lib.rs:409-449 | every entity route is produced from its own (tag, id) |
| Dispatch.GetEntityParams | src/rust/src/lib.rs:409-449 | only the studies and traits listings carry the filter's parameters |
| Dispatch.GetUnifiedAssociations | src/rust/src/lib.rs:453-477 | succeeds exactly for no scope, or one of `variant`/`chromosome`/`study`/`trait` with an id; the route's scope is the given pair; the filter's parameters are always sent |
| Dispatch.GetUnifiedAssociationsComplete | src/rust/src/lib.rs:461-471 | every association route is produced from its own scope pair |
| Dispatch.GetUnifiedAssociationsRefusals | src/rust/src/lib.rs:461-471 | a kind without an id, an id without a kind and an unknown kind are refused |
| Dispatch.ListFiles | src/rust/src/lib.rs:480-497 | succeeds exactly for `study` without a secondary id or `trait` with or without one; the route's scope is the given triple; no parameters |
| Dispatch.ListFilesComplete | src/rust/src/lib.rs:486-492 | every file-listing route is produced from its own scope |
| Dispatch.ListFilesRefusals | src/rust/src/lib.rs:486-492 | `study` with a secondary id, and any other tag, are refused |
| Dispatch.RouterFamiliesDisjoint | src/rust/src/lib.rs:401-497 | no route is reachable through two different routers |
| Client.EndpointUrl | src/rust/src/lib.rs:149-154 | for every route, the joined URL text is the base URL followed directly by the route's path |
| Client.Fetch | src/rust/src/lib.rs:184-193 | a malformed URL fails before any request; otherwise the URL is base + route path with each parameter once, a transport failure is passed on, and the response is returned exactly when `check_json_response` accepts it |
| Batch.ItemResult | src/rust/src/lib.rs:646-649 | a pair's message is a success exactly when its download succeeded; a success is `Downloaded: ` followed by the saved path, a failure is `Failed to download `, the URL, `: ` and the cause |
| Batch.TallyPartition | src/rust/src/lib.rs:655-663 | successes plus failure messages equal the number of outcomes |
| Batch.ErrorsInOrder | src/rust/src/lib.rs:655-663 | the failure messages are those of the failed outcomes, at strictly increasing positions, none missed |
| Batch.Tally | src/rust/src/lib.rs:655-663 | the loop computes the number of successes and the failure messages in input order |
| Batch.DownloadAll | src/rust/src/lib.rs:624-669 | unequal lengths fail before any download; otherwise (each success carrying its pair's output path) the report counts the successes over all pairs and lists each failure's message |
| Batch.DownloadReportMeaning | src/rust/src/lib.rs:642-669 | successes and failures add up to the number of pairs, and the j-th error names the URL of the j-th failed pair |
| Entrypoints.NormalizePValueRange | src/rust/src/lib.rs:565-570 | a range is sent when either bound is given; a given bound is kept and a missing one becomes `0.0` (lower) or `1.0` (upper) |
| Entrypoints.NormalizeBpRange | src/rust/src/lib.rs:572-575 | a base-pair range is sent exactly when both bounds are given, as given |
| Entrypoints.GwasGet | src/rust/src/lib.rs:509-530 | definition: `get_entity` with a filter holding only `start` and `size`; what it sends is `GwasGetParams` |
| Entrypoints.GwasGetParams | src/rust/src/lib.rs:509-530 | `gwas_get` sends only `start` and `size`, only on the studies and traits listings, as decimal text |
| Entrypoints.AssociationsFilter | src/rust/src/lib.rs:565-585 | definition: the filter `gwas_associations` builds, with the normalised p-value and base-pair ranges and the other arguments as given |
| Entrypoints.GwasAssociations | src/rust/src/lib.rs:547-591 | definition: `get_unified_associations` over that filter; what it sends is `GwasAssociationsParams` |
| Entrypoints.GwasAssociationsParams | src/rust/src/lib.rs:547-591 | the query of `gwas_associations`, argument by argument: both p-value keys when either bound is given, the base-pair keys only as a pair, study, trait and reveal verbatim, start and size as decimal text, and no key outside the nine filter keys |
| Entrypoints.GwasFiles | src/rust/src/lib.rs:604-680 | `list` gives the `list_files` route or its error; `download` needs both vectors, of equal length, and gives the tally with `max_concurrent` defaulting to 4; any other operation is refused |

## Left out

- The HTTP GET itself and body reading (reqwest): network I/O, a parameter `send` in `Client.Fetch`.
- JSON decoding (`response.json()`), the `HalResponse`, `Association`, `Chromosome`, `Study`, `Trait` and `SummaryStatsFile` records, and `serde_json::to_string_pretty`: library code; the routers stop at the request.
- The `f64` fields of `Association`: never computed on.
- `download_summary_stats_file` (directory creation, file creation, streaming the body to disk): filesystem and network I/O; its outcome per pair is an input. It never checks the status code (neither `check_json_response` nor `error_for_status` is called), so a download answered with an HTTP error status still writes that body to the output path and is a successful outcome (`Downloaded: …`).
- The rayon thread pool: bounded concurrency is not a sequential property. The model keeps only the order-preserving collect of results.
- Entrypoints.GwasFiles: does not model the thread-pool build failure ("Error creating thread pool"); that failure belongs to rayon.
- Entrypoints.GwasFiles: unlike the source, which downloads only after the pool is built, the model treats the pool as always built.
- `Url::parse` and percent-encoding of query pairs: both belong to the `url` crate. The parse is an abstract predicate, and query pairs are kept unencoded.
- UrlBuilder.BuildUrl: its path and query are the text handed to `Url::parse` and the pairs appended to it, not the parsed URL. An identifier holding `?` moves the rest of the endpoint into the query, where a second `trait` or `size` key can then appear. A `#` starts a fragment that is never sent. A `\` acts as `/`, and `.` and `..` segments are resolved. The "each parameter exactly once" promise holds for the appended pairs only.
- Client.Fetch: the same limit as `BuildUrl`; the URL it promises is the unparsed text.
- Routes.RouteRoundTrip: holds for the endpoint text; after `Url::parse`, identifiers holding `?`, `#`, `\`, or equal to `.` or `..`, can still change the path that is sent.
- Routes.RoutePathInjective: distinct routes have distinct endpoint texts; the same parsing effects can make two of them send the same URL.
- UrlBuilder.BuildUrl: does not fix the order of query pairs, because `HashMap` iteration order is unspecified.
- `GwasClient::new` and `with_base_url`: construction only (`Client.DefaultClient`, `Client.GwasClient`); the reqwest `Client` inside is not modelled.
- The R-facing strings, which are presentation only:
  - the "Error fetching …", "Error listing files: …" and "Invalid operation: …" texts;
  - the "Downloaded N of M files successfully." report and its newline join;
  - the anyhow message texts ("HTTP {status}: {body}", "Expected JSON response, got: …").
  The model returns the structured error or report that these strings format.
- The extendr registration (`extendr_module!`) and the `#[extendr]` wrappers' argument conversion: binding glue.
- The `get_*` methods no router reaches (chromosome-variant associations, trait studies, one trait study, trait-study associations): their endpoint templates are modelled as `Route`s and round-trip like the others; their decoding is left out as above.
