# NSW campsite availability enrichment, in Dafny

The program takes a list of campground records, asks the NSW National Parks
reservation API which dates each campground has free, decides whether it is
bookable today, and puts the result on a map. This project models the pure
enrichment pipeline at its centre as total functions and proves what it does:

- **context id extraction** (`extract_context_id`): strip whitespace with
  Python's `str.strip()`, then remove one pair of outer braces if both are
  there (`context_id.dfy`, using `text.dfy` for `strip`);
- **response normalisation** (the tail of `fetch_availability_dates`): the
  outcome of the HTTP exchange, `None` when the request, the status check
  or the JSON decoding raised, becomes an optional list of date strings
  (`fetch.dfy`, using the JSON value model in `json.dfy`);
- **availability classification** (`determine_availability`) against
  today's `DD/MM/YYYY` string, the `DD/MM/YYYY` rendering itself, and the
  status-to-marker-colour table of `create_map` (`availability.dfy`);
- **the enrichment loop** of `main`, which copies each record and sets
  `_context_id`, `_dates` and `_availability` (`enrich.dfy`).

The network and the clock are parameters. `http: string -> Option<Json>`
maps a context id to the outcome of its request (one fixed outcome per id
for the whole run; see "Left out"), and `today` is today's date already
rendered as a string. Records are `map<string, Json>`, the
values `json.load` produces.

Two consequences of the code that are easy to miss:

- The code does not strip again after the braces come off (main.py:39-42),
  so `"{ A }"` gives `" A "`. Hence `extract("{" + s + "}") == extract(s)`
  for an `s` without outer braces holds exactly when `s` has no whitespace
  ends: `ContextId.BracesTransparent` proves the "if" direction,
  `ContextId.BracesOpaqueForPaddedId` the "only if" direction for every
  input, and `ContextId.BracesNotTransparentForPaddedId` shows `s = " A "`.
- A dict payload can yield an empty date list. For `{"Dates": []}`, the
  expression `None or []` is `[]`, which is a list of strings. Only the
  lower-case `"dates"` entry is guaranteed non-empty, because it is chosen
  only when truthy. `Fetch.DictEmptyDates` states exactly when this happens.
  It does not matter downstream: an empty list classifies as `unknown`.

Two predicates carry Python semantics the rest relies on. `Text.IsSpace`
is the set of characters Python's `str.isspace()` accepts, which
`strip()` removes at main.py:39: ASCII 0x09-0x0D and 0x1C-0x20, U+0085,
U+00A0, U+1680, U+2000-U+200A, U+2028, U+2029, U+202F, U+205F and U+3000.
`Json.Truthy` is Python's `bool()` on a decoded JSON value, which decides
the `or` at main.py:74: `None`, `False`,
`0`, `0.0`, `""`, `[]` and `{}` are false, everything else is true.

## Model

| member | source | states |
|---|---|---|
| Text.Strip | main.py:39 | `strip()` returns the infix left after removing the whitespace prefix and a whitespace suffix, with no whitespace at either end; it is empty exactly when the input is all whitespace |
| Text.StripPadded | main.py:39 | stripping `a + v + b` gives exactly `v` whenever `a` and `b` are whitespace and `v` has no whitespace ends (the reference characterisation of `strip`) |
| Text.StripIdempotent | main.py:39 | stripping twice is stripping once |
| ContextId.ExtractContextId | main.py:35-42 | empty and all-whitespace ids give `None`; a returned id is never the empty string |
| ContextId.ExtractWrapped | main.py:39-42 | any non-empty id in braces, padded with any whitespace, is recovered exactly, inner whitespace and braces included |
| ContextId.ExtractPlain | main.py:39-42 | a non-empty id without whitespace ends or outer braces, padded with whitespace, is recovered exactly |
| ContextId.ExtractEmptyBraces | main.py:40-42 | `{}` with any padding gives `None` |
| ContextId.ExtractShape | main.py:39-42 | every returned id is, between whitespace, either the id in braces or the id itself without whitespace ends or outer braces (the converse of the two lemmas above) |
| ContextId.ExtractStripsOnce | main.py:40-41 | `"{{x}}"` gives `"{x}"`: one pair of braces is removed, not all |
| ContextId.ExtractTrimsBeforeBraces | main.py:39-41 | `"  {ABC123}  "` gives `"ABC123"`: whitespace is stripped before the brace test |
| ContextId.ExtractKeepsInnerSpace | main.py:41-42 | `"{ A }"` gives `" A "`: nothing is stripped after the braces come off |
| ContextId.ExtractEmptyBracesExample | main.py:40-42 | `"{}"` gives `None` |
| ContextId.BracesTransparent | main.py:39-42 | wrapping an id without whitespace ends or outer braces in one pair of braces does not change the extracted id |
| ContextId.BracesNotTransparentForPaddedId | main.py:41-42 | for `" A "` the law above fails: `"{ A }"` and `" A "` extract differently |
| ContextId.BracesOpaqueForPaddedId | main.py:39-42 | for every id without outer braces but with a whitespace end, wrapping it in braces changes the extracted id: the law above holds only for ids without whitespace ends |
| Json.StringsRoundTrip | main.py:75-79 | a list of strings read back as strings is the original list |
| Json.StringListRoundTrip | main.py:75-79 | a JSON list whose elements are all strings is rebuilt exactly from those strings, so "return the list" loses nothing |
| Fetch.FromDict | main.py:73-76 | a dict yields dates iff a truthy `"dates"` is a list of strings or, `"dates"` being missing or falsy, `"Dates"` is; the dates are then exactly the chosen entry's strings |
| Fetch.FromBareList | main.py:78-79 | a payload yields dates iff it is a list of strings, and then it is returned unchanged |
| Fetch.FetchAvailabilityDates | main.py:57-80 | a failed exchange gives `None`; any dates returned are the bare-list payload, or the truthy `"dates"` entry, or else the `"Dates"` entry; a bare list of strings is always returned unchanged; as a total function it never raises |
| Fetch.FailedRequestHasNoDates | main.py:58-70 | the exception path yields `None` |
| Fetch.ScalarPayloadHasNoDates | main.py:73-80 | `null`, booleans, numbers and strings yield `None` |
| Fetch.BareListPayload | main.py:78-79 | a list payload yields dates iff every element is a string (the empty list included), and then the same strings in the same order |
| Fetch.DictPayload | main.py:73-76 | a dict yields dates iff `"dates"` is truthy and a list of strings, or `"dates"` is falsy and `"Dates"` is a list of strings; the bare-list branch never rescues a dict |
| Fetch.LowerKeyWins | main.py:74-76 | a truthy list-of-strings `"dates"` is returned whatever `"Dates"` holds |
| Fetch.FalsyLowerKeyDefers | main.py:74-76 | a missing or falsy `"dates"` (such as `[]`) leaves the outcome to `"Dates"` alone |
| Fetch.DictEmptyDates | main.py:74-76 | a dict yields the empty list iff `"dates"` is falsy and `"Dates"` is `[]` |
| Fetch.FirstKeyWinsExample | main.py:74-76 | `{"dates": ["01/01/2025"], "Dates": ["02/01/2025"]}` gives `["01/01/2025"]` |
| Fetch.EmptyLowerKeyExample | main.py:74-76 | `{"dates": [], "Dates": ["x"]}` gives `["x"]` |
| Fetch.UnrelatedKeyExample | main.py:73-80 | `{"other": 1}` gives `None` |
| Fetch.BareListExample | main.py:78-79 | `["01/01/2025", "02/01/2025"]` is returned unchanged |
| Availability.DetermineAvailability | main.py:90-95 | `unknown` iff the dates are `None` or empty; `available` iff some date equals today's string; `unavailable` iff there are dates and none equals it |
| Availability.NameInjective | main.py:91-95 | the three status strings are distinct |
| Availability.StatusIgnoresOrder | main.py:92-95 | two date lists with the same members classify alike: order and duplicates do not matter |
| Availability.PaddedValue | main.py:94 | the zero-padded decimal rendering of a number reads back as that number |
| Availability.FormatDate | main.py:94 | `%d/%m/%Y` gives ten characters, slashes at positions 2 and 5, digit fields that read back as day, month and year |
| Availability.FormatDateInjective | main.py:94 | different dates render to different strings |
| Availability.FormatDateExample | main.py:94 | 1 May 2024 renders as `"01/05/2024"` |
| Availability.AvailableExample | main.py:90-95 | today 2024-05-01 with dates `["01/05/2024"]` is `available` |
| Availability.UnavailableExample | main.py:90-95 | today 2024-05-01 with dates `["02/05/2024"]` is `unavailable` |
| Availability.Colour | main.py:119-123 | green exactly for `"available"`, red exactly for `"unavailable"`, gray for `"unknown"` and any other string (the `.get` default) |
| Enrich.RecordContextId | main.py:160-161 | a string `id` yields exactly what `extract_context_id` makes of it; there is no context id exactly when `id` is missing or not a string or cleans to `None`; a context id is never empty |
| Enrich.ContextIdOfRecord | main.py:160-167 | the copy's `_context_id` is `extract_context_id(id)` for a string `id`, and `None` when `id` is missing or not a string |
| Enrich.RecordDates | main.py:162-164 | without a context id there are no dates and no request; any dates come from the normalised answer for the record's own context id |
| Enrich.EnrichRecord | main.py:160-170 | the copy has the record's keys plus the three derived keys, every other entry unchanged, an `_availability` that is one of the three status strings, and for a record without a usable id `None`, `None`, `"unknown"` |
| Enrich.EnrichAll | main.py:158-171 | one enriched copy per record, same length, same order |
| Enrich.MapRecords | main.py:158-171 | the `for`/`append` loop: exactly one result per input, the i-th result computed from the i-th input |
| Enrich.DerivedFieldsMeaning | main.py:160-169 | `_context_id` is the context id, or `None` exactly when there is none; `_dates` is `None` exactly when there is no context id or its request produced no dates, and otherwise holds those dates as a list of strings |
| Enrich.AvailableMeaning | main.py:160-170 | `_availability` is `"available"` iff the record has a context id, its request produced dates, and today's string is among them |
| Enrich.UnknownMeaning | main.py:160-170 | `_availability` is `"unknown"` iff there is no context id, or its request gave `None` or an empty list |
| Enrich.NoIdNoRequest | main.py:160-165 | a record without a usable id enriches identically whatever the HTTP exchange would answer, so no request is made for it |
| Enrich.OnlyOwnIdRequested | main.py:162-164 | only the answer for the record's own context id influences its enrichment |
| Enrich.EnrichIdempotent | main.py:160-170 | enriching an enriched record again changes nothing, since `id` is never overwritten |
| Enrich.BracedIdExampleContextId | main.py:160-161 | a record with `id` `"{X1}"` has context id `"X1"` |
| Enrich.BracedIdExample | main.py:160-170 | that record, answered with a list holding today, gets `_context_id` `"X1"` and `_availability` `"available"` |
| Enrich.MissingIdExample | main.py:160-170 | a record with no `id` gets `None`, `None`, `"unknown"` |

Input records are immutable values here, so the loop leaves them unchanged
by construction (`dict(cg)` copies in the source).

## Left out

- `load_campgrounds` (main.py:26-32): file I/O and `json.load`. The model starts from the loaded list.
- Lone surrogates: `json.load` turns an escape such as `"\ud800"` into a lone surrogate, which a Dafny `char` cannot hold, so such strings are not modelled. This changes no outcome: a surrogate is neither whitespace nor a brace, so `extract_context_id` treats it like any other character.
- `build_cached_session` and `fetch_cookies` (main.py:45-55): an on-disk HTTP cache with a six-hour expiry and a cookie request. Both are network or disk state. The `http` parameter stands for the answers the cached session gives.
- Enrich.EnrichAll: the `http` parameter gives one fixed outcome per context id for the whole run, so two records with the same cleaned id always enrich alike. The source does not promise this: a request that fails before a 200 response is cached (connection error, timeout, error status; main.py:64-67) stores nothing, so a later record with the same id is requested again and may get another answer; a 200 response whose body is not JSON is cached, so that id fails the same way again at main.py:68, and a cache entry from an earlier run can expire mid-run (main.py:50). Modelling that needs the cache's state and the clock, which are left out above.
- The request itself (main.py:59-68): `session.get`, `raise_for_status` and `resp.json()` are I/O. They are represented by their outcome, `Option<Json>`.
- `parse_ddmmyyyy` (main.py:83-87): never called.
- `datetime.today()` (main.py:156): the clock. Today is a parameter.
- `create_map` apart from its colour table (main.py:98-146): map rendering, `float` coordinate parsing, bounds fitting and popup HTML belong to the mapping library and to floating point.
- `main`'s file check, printing, map saving and exit codes (main.py:149-176): process plumbing.
- Availability.FormatDate: covers days 1-31, months 1-12 and years 1000-9999 only. It does not check calendar validity; the clock only yields real dates. For years below 1000 the width of `%Y` depends on the platform's C library.
- Availability.Colour: takes a string. `create_map` could also see a non-string `_availability`, and an unhashable one would raise. Enriched records always hold one of the three status strings.
- Records that are not dicts: `cg.get` would raise on them. The model types every record as a map.
- JSON numbers are modelled as integers and exact reals. Python's non-standard `NaN` and `Infinity` literals are not modelled.
- Object identity: the source returns the very list object it received and stores it in `_dates`. The model returns and stores equal values.
