/**
  The enrichment loop of `main`: for every campground record, derive the
  context id, fetch the dates when there is one, classify today's
  availability, and emit a copy of the record with three fields set.
  The HTTP exchange is the parameter `http`, from a context id to the
  outcome of the request (`None` when it raised); `today` is today's date
  already rendered as `DD/MM/YYYY`.
 */
module Enrich {
  import opened Wrappers
  import opened Json
  import opened ContextId
  import opened Fetch
  import opened Availability

  /** A campground record as loaded from the JSON file. */
  type Record = map<string, Json>

  const ContextIdKey: string := "_context_id"
  const DatesKey: string := "_dates"
  const AvailabilityKey: string := "_availability"

  /** The three keys the loop writes into each copy. */
  const DerivedKeys: set<string> := {ContextIdKey, DatesKey, AvailabilityKey}

  predicate Derived(k: string) {
    k in DerivedKeys
  }

  /** The `context_id` of `main`'s loop: only a string `id` is cleaned; anything else, or no
      `id` at all, gives no context id. */
  function RecordContextId(rec: Record): (cid: Option<string>)
    ensures cid.Some? ==> cid.value != []
    ensures cid.Some? ==> "id" in rec && rec["id"].String?
    ensures Get(rec, "id").String? ==> cid == ExtractContextId(Get(rec, "id").s)
    ensures cid.None? <==> !Get(rec, "id").String? || ExtractContextId(Get(rec, "id").s).None?
  {
    var raw := Get(rec, "id");
    if raw.String? then ExtractContextId(raw.s) else None
  }

  /** A Python `Optional[str]` as a JSON value. */
  function OptionalString(o: Option<string>): Json {
    match o
    case None => Null
    case Some(s) => String(s)
  }

  /** A Python `Optional[List[str]]` as a JSON value. */
  function OptionalDates(o: Option<seq<string>>): Json {
    match o
    case None => Null
    case Some(ds) => FromStrings(ds)
  }

  /** The dates a record's context id leads to: none without an id, and
      the HTTP oracle is asked only when there is one. */
  function RecordDates(rec: Record, http: string -> Option<Json>): (r: Option<seq<string>>)
    ensures RecordContextId(rec).None? ==> r.None?
    ensures r.Some? ==> RecordContextId(rec).Some?
                        && r == FetchAvailabilityDates(http(RecordContextId(rec).value))
  {
    var cid := RecordContextId(rec);
    if cid.Some? then FetchAvailabilityDates(http(cid.value)) else None
  }

  /** One iteration of `main`'s enrichment loop. The copy has the record's keys plus
      the three derived ones, every other entry unchanged. */
  function EnrichRecord(rec: Record, today: string, http: string -> Option<Json>): (out: Record)
    ensures out.Keys == rec.Keys + DerivedKeys
    ensures forall k :: k in rec && !Derived(k) ==> k in out && out[k] == rec[k]
    ensures out[AvailabilityKey] == String("available")
            || out[AvailabilityKey] == String("unavailable")
            || out[AvailabilityKey] == String("unknown")
    ensures RecordContextId(rec).None? ==>
              && out[ContextIdKey] == Null
              && out[DatesKey] == Null
              && out[AvailabilityKey] == String("unknown")
  {
    var cid := RecordContextId(rec);
    var dates := RecordDates(rec, http);
    var status := DetermineAvailability(today, dates);
    rec[ContextIdKey := OptionalString(cid)]
       [DatesKey := OptionalDates(dates)]
       [AvailabilityKey := String(status.Name())]
  }

  /** The shape of `main`'s `for` loop: one result per record, in input order. */
  method MapRecords(records: seq<Record>, f: Record -> Record) returns (out: seq<Record>)
    ensures |out| == |records|
    ensures forall i :: 0 <= i < |records| ==> out[i] == f(records[i])
  {
    out := [];
    var i := 0;
    while i < |records|
      invariant 0 <= i <= |records|
      invariant |out| == i
      invariant forall j :: 0 <= j < i ==> out[j] == f(records[j])
    {
      out := out + [f(records[i])];
      i := i + 1;
    }
  }

  /** `main`'s enrichment loop: the enriched list, in input order, one copy per record. */
  method EnrichAll(records: seq<Record>, today: string, http: string -> Option<Json>)
    returns (enriched: seq<Record>)
    ensures |enriched| == |records|
    ensures forall i :: 0 <= i < |records| ==> enriched[i] == EnrichRecord(records[i], today, http)
  {
    enriched := MapRecords(records, rec => EnrichRecord(rec, today, http));
  }

  /** `_context_id` is what `extract_context_id` makes of a string `id`,
      and `None` for an `id` that is missing or not a string. */
  lemma ContextIdOfRecord(rec: Record, today: string, http: string -> Option<Json>)
    ensures var out := EnrichRecord(rec, today, http);
            && (Get(rec, "id").String? ==>
                  out[ContextIdKey] == OptionalString(ExtractContextId(Get(rec, "id").s)))
            && (!Get(rec, "id").String? ==> out[ContextIdKey] == Null)
  {
  }

  /** What `_context_id` and `_dates` record: the context id, or `None`
      without one; the dates the request produced, or `None` without a
      context id or when the request produced none. */
  lemma DerivedFieldsMeaning(rec: Record, today: string, http: string -> Option<Json>)
    ensures var out := EnrichRecord(rec, today, http);
            var cid := RecordContextId(rec);
            && (cid.None? <==> out[ContextIdKey] == Null)
            && (cid.Some? ==> out[ContextIdKey] == String(cid.value))
            && (out[DatesKey] == Null
                <==> cid.None? || FetchAvailabilityDates(http(cid.value)).None?)
            && (out[DatesKey] != Null ==>
                  && IsStringList(out[DatesKey])
                  && FetchAvailabilityDates(http(cid.value)) == Some(StringsOf(out[DatesKey])))
  {
    var dates := RecordDates(rec, http);
    if dates.Some? {
      StringsRoundTrip(dates.value);
    }
  }

  /** What `_availability` records: "available" exactly when the record has
      a context id, the request for it produced dates, and today's string is
      among them. */
  lemma AvailableMeaning(rec: Record, today: string, http: string -> Option<Json>)
    ensures var out := EnrichRecord(rec, today, http);
            var cid := RecordContextId(rec);
            out[AvailabilityKey] == String("available")
            <==> cid.Some? && var ds := FetchAvailabilityDates(http(cid.value));
                 ds.Some? && today in ds.value
  {
    var status := DetermineAvailability(today, RecordDates(rec, http));
    assert String(status.Name()) == String("available") <==> status == Available;
  }

  /** "unknown" exactly when there is no context id, or the request failed
      or produced no usable or only an empty list of dates. */
  lemma UnknownMeaning(rec: Record, today: string, http: string -> Option<Json>)
    ensures var out := EnrichRecord(rec, today, http);
            var cid := RecordContextId(rec);
            out[AvailabilityKey] == String("unknown")
            <==> cid.None? || var ds := FetchAvailabilityDates(http(cid.value));
                              ds.None? || ds.value == []
  {
    var status := DetermineAvailability(today, RecordDates(rec, http));
    assert String(status.Name()) == String("unknown") <==> status == Unknown;
  }

  /** A record without a usable id never reaches the network: the result
      is the same whatever the HTTP exchange would have answered. */
  lemma NoIdNoRequest(rec: Record, today: string, http1: string -> Option<Json>, http2: string -> Option<Json>)
    requires RecordContextId(rec).None?
    ensures EnrichRecord(rec, today, http1) == EnrichRecord(rec, today, http2)
  {
  }

  /** Only the answer for the record's own context id matters. */
  lemma OnlyOwnIdRequested(rec: Record, today: string, http1: string -> Option<Json>, http2: string -> Option<Json>)
    requires RecordContextId(rec).Some?
    requires http1(RecordContextId(rec).value) == http2(RecordContextId(rec).value)
    ensures EnrichRecord(rec, today, http1) == EnrichRecord(rec, today, http2)
  {
  }

  /** Enriching an enriched record again changes nothing: the derived keys
      are recomputed from `id`, which the loop never writes. */
  lemma EnrichIdempotent(rec: Record, today: string, http: string -> Option<Json>)
    ensures EnrichRecord(EnrichRecord(rec, today, http), today, http)
            == EnrichRecord(rec, today, http)
  {
    var out := EnrichRecord(rec, today, http);
    assert Get(out, "id") == Get(rec, "id");
    assert RecordContextId(out) == RecordContextId(rec);
    assert RecordDates(out, http) == RecordDates(rec, http);
  }

  lemma BracedIdExampleContextId()
    ensures RecordContextId(map["id" := String("{X1}")]) == Some("X1")
  {
    var e: string := [];
    assert "{X1}" == e + "{" + "X1" + "}" + e;
    ExtractWrapped(e, "X1", e);
  }

  /** A record with id `"{X1}"` whose request answers with a bare list
      holding today's date. */
  lemma BracedIdExample(today: string, http: string -> Option<Json>)
    requires http("X1") == Some(Array([String(today)]))
    ensures var a := EnrichRecord(map["id" := String("{X1}")], today, http);
            a[ContextIdKey] == String("X1") && a[AvailabilityKey] == String("available")
  {
    var rec := map["id" := String("{X1}")];
    BracedIdExampleContextId();
    BareListPayload([String(today)]);
    var ds := FetchAvailabilityDates(http("X1"));
    assert ds.Some? && ds.value[0] == today;
    AvailableMeaning(rec, today, http);
  }

  /** A record without an `id`. */
  lemma MissingIdExample(today: string, http: string -> Option<Json>)
    ensures var b := EnrichRecord(map["title" := String("B")], today, http);
            && b[ContextIdKey] == Null
            && b[DatesKey] == Null
            && b[AvailabilityKey] == String("unknown")
  {
    assert Get(map["title" := String("B")], "id") == Null;
  }

}
