# exchrateclient in Dafny

A model of the Go client library for the ExchangeRate-API service (v6). It covers:

- the router that turns an endpoint name ("codes", "pair", "index") and its arguments into a URL, or into an error;
- the request classifier `doRequest`;
- the typed accessors `FetchCodes`, `FetchPair` and `FetchIndex`;
- the mutable client configuration (constructors, `SetAPI`, and the back-pointer between a client and its fetcher);
- the error-wrapping helper `IfError`;
- the nil-safe `String` renderings of the result records.

The network, the JSON decoder and `time.Parse(time.RFC1123, _)` are inputs to the model, bundled in the `Io` datatype.

Files and modules:

- `wrappers.dfy` (`Wrappers`): `Option` and `Result`.
- `errorhand.dfy` (`ErrorHand`): `IfError` and its inverse `Unwrap`.
- `gostd.dfy` (`GoStd`): reference definitions of the Go standard-library functions the code calls, and one helper:
  - `strings.Join` (client.go:92);
  - `path.Join` and the lexical rules of the `path.Clean` it applies (client.go:55);
  - `%d` formatting, with its read-back `Atoi` (client.go:78);
  - `Split` at a single character, which no source file calls: it defines path.Clean's element processing and states the round trip of joining with "/".
- `types.dfy` (`Types`): the envelope, the endpoint constants, the `pair`, `index` and `iso4217` records and their `String` methods.
- `exchrateclient.dfy` (`ExchRateClient`): `client.go` and `fetcher.go`. They share one module because `Client` and `ApiFetcher` point at each other.

How the Go code is represented:

- A Go `(value, error)` return is two out-parameters: `Option<T>` and `Option<string>`. An error is represented by its message.
- `Fetch` is an imperative method, proved equal to the function `FetchResult`. `FetchResult` writes its URLs by plain concatenation (`Route`) and does not use `pathConstruct`.
- `FetchCodes` keeps the source's loop. Its invariant ties the partial table to `CodesMap` of the entries seen so far.
- `index.String` keeps its loop over the map keys. A ghost sequence records the order in which the keys were taken.

The code tests `StatusCode > 400 && StatusCode < 500`, so 400 and every status from 500 up are passed through; only 401 to 499 fail (client.go:77).

## Model

| member | source | states |
|---|---|---|
| ErrorHand.IfError | lib/errorhand/errorif.go:9-17 | nil stays nil, non-nil stays non-nil, and stripping `msg + ": "` recovers the wrapped message exactly |
| ErrorHand.Unwrap | lib/errorhand/errorif.go:12 | when it succeeds, the wrapped message is `msg + ": "` followed by what it returns |
| ErrorHand.IfErrorInjective | lib/errorhand/errorif.go:10-16 | different errors, or nil and non-nil, stay different after wrapping with the same message |
| ErrorHand.IfErrorNested | lib/errorhand/errorif.go:12 | two wrappings give `outer: inner: cause`, and one Unwrap peels exactly the outer layer |
| GoStd.Join | client.go:92 | strings.Join: the parts with the separator between neighbours, "" for no parts; partners JoinSingle, JoinCons, SplitJoin and JoinSplit |
| GoStd.JoinSingle | client.go:91-93 | joining a single segment gives that segment |
| GoStd.JoinCons | client.go:91-93 | joining a head and at least one more segment puts the separator after the head |
| GoStd.Split | client.go:55 | splitting at a single character, used to define path.Clean's element processing: always at least one piece; with SplitPiecesAvoidSep and JoinSplit the pieces are the maximal separator-free runs |
| GoStd.Prepend | client.go:55 | putting a character in front of split pieces keeps at least one piece |
| GoStd.PrependAppend | client.go:55 | prepending a character only touches the first piece, so it commutes with appending further pieces |
| GoStd.SplitPiecesAvoidSep | client.go:55 | no piece of a split contains the separator |
| GoStd.SplitWithoutSep | client.go:55 | a string without the separator splits into just itself |
| GoStd.SplitCons | client.go:55 | splitting a string with a known first character is prepending that character to the split of the rest |
| GoStd.SplitAround | client.go:55 | splitting at one separator splits the two sides independently and concatenates the pieces |
| GoStd.SplitJoin | client.go:91-93 | splitting a join gives the parts back when no part holds the separator |
| GoStd.JoinSplit | client.go:91-93 | joining a split gives the original string back |
| GoStd.DropLeadingEmpty | client.go:55 | the elements path.Join keeps: the result is empty or starts with a non-empty element; DropLeadingEmptySuffix says which elements those are |
| GoStd.DropLeadingEmptySuffix | client.go:55 | what DropLeadingEmpty keeps is a suffix of the input, and every element it drops is "" |
| GoStd.Resolve | client.go:55 | path.Clean's element processing: "" and "." vanish, ".." removes the preceding real element, is dropped at the root and kept at the front of a relative path; ResolveHostKey applies it to the host and key |
| GoStd.Clean | client.go:55 | path.Clean: the resolved elements rejoined with "/", with the leading "/" kept; the result is never empty ("." stands for an empty path) |
| GoStd.PathJoin | client.go:55 | path.Join: the elements from the first non-empty one on, joined with "/" and cleaned; SetApiBasePath evaluates it for the host and an ordinary key |
| GoStd.PathJoinEmpty | client.go:55 | path.Join gives "" exactly when every element is empty |
| GoStd.DigitChar | client.go:78 | a digit value 0..9 becomes a character '0'..'9' |
| GoStd.DigitValue | client.go:78 | a decimal digit character has a value 0..9 that DigitChar maps back to it |
| GoStd.Decimal | client.go:78 | the decimal digits of a natural number: non-empty, digits only, no leading zero |
| GoStd.Itoa | client.go:78 | the %d rendering is never empty |
| GoStd.DecimalRoundTrip | client.go:78 | reading back the digits of n gives n |
| GoStd.AtoiDecimal | client.go:78 | reading back the rendering of a natural number gives that number |
| GoStd.AtoiMinusDecimal | client.go:78 | reading back "-" followed by the digits of m gives -m |
| GoStd.ItoaRoundTrip | client.go:78 | the status code in "client error: status code %d" reads back as that code, for every int |
| GoStd.FirstIndexOf | types.go:97 | the position of the first occurrence of a character, or the length when it does not occur |
| Types.EndpointsDistinct | types.go:44-48 | "index", "pair" and "codes" are pairwise different |
| Types.FromWire | types.go:18-38 | decoding fills exactly the JSON-visible fields; both `json:"-"` times stay at the zero time |
| Types.PairString | types.go:70-75 | nil, and only nil, renders as "empty pair"; otherwise the rendering starts with the base code |
| Types.PairStringCodesRoundTrip | types.go:74 | both codes can be read back from a pair rendering when the base code has no space and the target code has no colon |
| Types.FieldAt | types.go:74 | cutting at the first occurrence of a character finds the text before it, then the expected literal and the rest |
| Types.IsoString | types.go:93-98 | nil, and only nil, renders as "empty ISO4217" |
| Types.IsoStringRoundTrip | types.go:93-98 | `ParseIsoString` reads back the nil marker as nil and `Code + " -> " + Name` as that code and name, whenever the code holds no space |
| Types.IndexString | types.go:78-90 | nil, and only nil, renders as "empty index"; otherwise the header `BaseCode has rates of:\n` is followed by one rate line per map key, each key exactly once, in the order the loop took |
| Types.EnumeratesSnoc | types.go:85 | taking one more unseen key keeps the order an enumeration without repeats of the keys seen |
| Types.RenderedAppend | types.go:86 | appending a key to the order appends exactly that key's line to the rendering |
| Types.RenderedKeepsHeader | types.go:83-86 | the rendering always starts with the header |
| Types.DistinctCount | types.go:85 | an enumeration without repeats has as many entries as the map has keys |
| Types.NewlineCountAppend | types.go:83-86 | the line breaks of a concatenation are those of its two parts |
| Types.NoNewline | types.go:83-86 | a string without "\n" has no line breaks |
| Types.RateLineNewlines | types.go:86 | one rate line holds exactly one line break when neither the code nor the rate text contains one |
| Types.RenderedNewlines | types.go:83-86 | each rate line adds exactly one line break to those of the header |
| Types.IndexOneLinePerCode | types.go:83-89 | the rendering of a non-nil index holds exactly one line break per key of its map, plus one for the header, when neither the base code, the keys nor the rate texts contain a line break |
| ExchRateClient.PathConstruct | client.go:91-93 | pathConstruct: strings.Join of the segments with "/", nothing cleaned; partners PathConstructSplits, PathConstructTwo/Three/Four and PathConstructKeepsEmptySegments |
| ExchRateClient.PathConstructSplits | client.go:91-93 | splitting the result at "/" gives the segments back when no segment holds "/" |
| ExchRateClient.PathConstructTwo | client.go:91-93 | two segments give `a + "/" + b` |
| ExchRateClient.PathConstructThree | client.go:91-93 | three segments give `a/b/c` |
| ExchRateClient.PathConstructFour | client.go:91-93 | four segments give `a/b/c/d` |
| ExchRateClient.PathConstructKeepsEmptySegments | client.go:91-93 | nothing is cleaned: an empty middle segment leaves "//", an empty last segment a trailing "/" |
| ExchRateClient.Route | fetcher.go:104-120 | the arity rules and errors of the switch in Fetch:<br>• codes always routes, with any arguments;<br>• pair routes iff there are exactly 2 arguments, otherwise the "requires 2 args" message;<br>• index routes iff there is exactly 1 argument, otherwise the "requires 1 args" message;<br>• any other name gives "Unsupported endpoint: " + name;<br>• dates are parsed iff the endpoint is not codes;<br>• every URL extends `basePath + "/"` |
| ExchRateClient.RouteSegments | fetcher.go:104-117 | below `basePath + "/"` a routed URL is exactly ["codes"], ["pair", a0, a1] or ["latest", a0], so codes ignores its arguments |
| ExchRateClient.BelowBase | fetcher.go:106-117 | a URL made of the base path, "/" and constructed segments splits back into those segments below the base |
| ExchRateClient.IsClientError | client.go:77 | the status test of doRequest: strictly between 400 and 500, so 400 and 500 up pass; used by Delivered and by DoRequest's contract |
| ExchRateClient.Stamp | fetcher.go:135-144 | the date parsing step: no JSON-visible field changes; without dateParse nothing changes; with it both times are the parse results, or zero where a parse fails |
| ExchRateClient.Deliver | fetcher.go:122-146 | the request, decoding and date-parse steps of Fetch after routing; its error cases are stated by FetchDropsTransportCause, FetchNilBody and FetchUndecodableBody and its success case by FetchResult |
| ExchRateClient.FetchResult | fetcher.go:93-147 | what Fetch returns:<br>• exactly one of envelope and error is nil, and every error starts "failed to fetch: ";<br>• a routing error is returned wrapped and before any request;<br>• a returned envelope equals what the decoder produced for the delivered body;<br>• the two times stay zero for codes and are the parse results, or zero, for pair and index;<br>• a delivered, decodable body never fails, whatever the dates |
| ExchRateClient.FetchRejectsBeforeRequest | fetcher.go:108-120 | an argument-count or endpoint error does not depend on the transport, decoder or parser at all |
| ExchRateClient.FetchDropsTransportCause | fetcher.go:122-126 | a failed request yields "failed to fetch: failed to do request: " followed by the URL; the underlying cause is dropped, so any two failures give the same result |
| ExchRateClient.FetchNilBody | fetcher.go:126-127 | a delivered nil body gives a nil response and "failed to fetch: failed to do request: empty response" |
| ExchRateClient.FetchUndecodableBody | fetcher.go:131-132 | a body the decoder rejects gives a nil response and "failed to fetch: failed to unmarshal data: " followed by the decoder's reason |
| ExchRateClient.FetchPairWithUnparsableDate | fetcher.go:135-146 | a pair reply whose update time is not a date still returns the envelope with a nil error and a zero time |
| ExchRateClient.FetchPairDoesNotEchoCheck | fetcher.go:63-68 | the returned codes are those of the reply, even when they differ from the requested ones |
| ExchRateClient.CodesMap | fetcher.go:43-48 | every value of the codes table carries its own key as its code |
| ExchRateClient.CodesMapKeys | fetcher.go:43-48 | the table's keys are exactly the first elements of the entries |
| ExchRateClient.CodesMapLastWins | fetcher.go:43-48 | the last entry with a code decides that code's value, `{Code: v[0], Name: v[1]}` |
| ExchRateClient.DistinctCodesSnoc | fetcher.go:43-48 | a list has distinct codes iff its prefix has and the last code is new |
| ExchRateClient.CodesMapSize | fetcher.go:43-48 | the table has at most one key per entry, and exactly one per entry iff the codes are distinct |
| ExchRateClient.Client.DefaultClient | client.go:27-36 | no key, the bare host as base path, and a fetcher that points back at the new client |
| ExchRateClient.Client.ClientWithApi | client.go:39-50 | the key, `host + "/" + key` as base path (an empty key leaves a trailing "/"), and a fetcher that points back at the client |
| ExchRateClient.Client.SetAPI | client.go:53-56 | the key is replaced and the base path becomes `path.Join(host, key)`; the HTTP client and the fetcher are untouched, and the back-pointer survives |
| ExchRateClient.Client.SetAPIIntended | client.go:45 | corrected SetAPI: the same base path clientWithApi builds, with nothing else changed |
| ExchRateClient.Client.DoRequest | client.go:59-88 | classifies the request:<br>• an empty query fails with "empty query" before anything is sent;<br>• for a non-empty query the error is nil iff the outcome was delivered;<br>• construction and network failures pass their cause through;<br>• statuses 401..499 fail with "client error: status code N";<br>• any other status returns the body, or the read error;<br>• every error is wrapped by IfError("failed to do request", _) |
| ExchRateClient.ApiFetcher.constructor | fetcher.go:26-28 | the fetcher's client is the one given |
| ExchRateClient.ApiFetcher.Fetch | fetcher.go:93-147 | the switch, the request, the decoding and the date parsing compute exactly FetchResult for the client's base path |
| ExchRateClient.ApiFetcher.FetchCodes | fetcher.go:31-51 | on an error: nil and "failed to fetch codes: " plus the Fetch error; it panics iff some entry has fewer than two elements; otherwise it returns CodesMap of the entries (empty for an empty list) and a nil error |
| ExchRateClient.ApiFetcher.FetchPair | fetcher.go:54-71 | the envelope's base code, target code and rate, copied; on error nil and "failed to fetch pair: " plus the Fetch error |
| ExchRateClient.ApiFetcher.FetchIndex | fetcher.go:74-90 | the envelope's base code and rate map, copied; on error nil and "failed to fetch index: " plus the Fetch error |
| ExchRateClient.PathConstructUnfolds | fetcher.go:106-117 | the URLs pathConstruct builds in Fetch are the ones Route names |
| ExchRateClient.HostParts | client.go:15 | the host splits at "/" into "https:", an empty element, the domain and "v6", none of which holds "/" |
| ExchRateClient.HostKeyParts | client.go:55 | `host + "/" + key` regrouped around its slashes |
| ExchRateClient.SplitTail | client.go:55 | a slash-free head and a "/" split off as the first piece |
| ExchRateClient.SplitFive | client.go:55 | five slash-free parts joined by "/" split back into those five |
| ExchRateClient.SplitHostKey | client.go:55 | `host + "/" + key` splits into scheme, "", domain, version and key |
| ExchRateClient.ResolveHostKey | client.go:55 | Clean drops the empty element after the scheme and keeps every other element, the key included |
| ExchRateClient.JoinCleanedHostKey | client.go:55 | the cleaned elements rejoin to "https:/v6.exchangerate-api.com/v6/" followed by the key |
| ExchRateClient.SetApiBasePath | client.go:55 | for a key that is not empty, ".", or "..", and holds no "/", SetAPI's base path is "https:/v6.exchangerate-api.com/v6/" + key |
| ExchRateClient.SetApiDiffersFromClientWithApi | client.go:45-55 | for every such key, SetAPI and clientWithApi give different base paths: only clientWithApi keeps "https://" |

## Left out

- Real HTTP is not modelled: `http.NewRequest`, `Client.Do`, `io.ReadAll` and `Body.Close`. It is represented by an `HttpOutcome` per URL. The body left unclosed on the client-error path is resource handling and is not modelled.
- `json.Unmarshal` is an input (`Io.unmarshal`). It returns the decoded wire fields or a failure reason.
- `time.Parse` with the `time.RFC1123` layout is an input (`Io.parseRfc1123`). It returns an optional time, and a failure leaves the zero time.
- `log.Printf` on a failed date parse writes only to the log. It is not modelled.
- `%.4f` formatting of rates in `pair.String` and `index.String` is floating-point rendering. It is passed in as `formatRate`, and a `float64` is a `real` that is only copied.
- `Types.PairString`: its contract states only the nil case and the leading base code. The surrounding text is checked by `Types.PairStringCodesRoundTrip`, and the rendered rate is opaque.
- `ExchRateClient.Client.DoRequest`: error messages are compared as text. Go's distinct error values and types are not modelled.
- `ExchRateClient.ApiFetcher.FetchCodes`: the model reports the panic on a short entry as a flag. It does not model the panic's message or unwinding, and the partially built map is not observable.
- A nil map is not distinguished from an empty map. A nil byte slice appears only as the `NilBytes` body outcome.
- `GoStd.Clean` models what path.Clean computes, not its byte-by-byte loop.
- `lib/printer/printer.go` is not part of this model. It reflects over arbitrary structs and prints to standard output.
- `interface.go` is not part of this model. Its `New` and `Default` only delegate to `clientWithApi` and `defaultClient`.
- The example program and the example tests are not part of this model. They need the live service and an API key.
- Concurrent use of `SetAPI` alongside requests in flight is not modelled.

## Findings

| source | as written | input that shows it | evidently intended | confidence | as-written member | corrected member |
|---|---|---|---|---|---|---|
| client.go:55 | `SetAPI` builds the base path with `path.Join(host, key)`, and Clean collapses the "//" after "https:" | key "KEY" gives "https:/v6.exchangerate-api.com/v6/KEY" where clientWithApi gives "https://v6.exchangerate-api.com/v6/KEY" | the same base path as clientWithApi, `host + "/" + key` | medium, not executed | ExchRateClient.SetApiDiffersFromClientWithApi | ExchRateClient.Client.SetAPIIntended |
