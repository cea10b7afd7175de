/**
  The part of `fetch_availability_dates` that does not talk to the network:
  how the outcome of the HTTP exchange becomes an optional list of date
  strings. The exchange itself (`session.get`, `raise_for_status`,
  `resp.json()`) is represented by its outcome: `None` when any of it
  raised, `Some(payload)` with the decoded JSON body otherwise.
 */
module Fetch {
  import opened Wrappers
  import opened Json

  /** The dict branch of `fetch_availability_dates`:
      `payload.get("dates") or payload.get("Dates")`, accepted when it is a
      list of strings. A truthy `"dates"` is the only candidate; otherwise
      `"Dates"` is. */
  function FromDict(fields: map<string, Json>): (r: Option<seq<string>>)
    ensures var lower := Get(fields, "dates");
            var upper := Get(fields, "Dates");
            && (r.Some? <==> (Truthy(lower) && IsStringList(lower))
                             || (!Truthy(lower) && IsStringList(upper)))
            && (r.Some? && Truthy(lower) ==> FromStrings(r.value) == lower)
            && (r.Some? && !Truthy(lower) ==> FromStrings(r.value) == upper)
  {
    var dates := Or(Get(fields, "dates"), Get(fields, "Dates"));
    if IsStringList(dates) then
      StringListRoundTrip(dates);
      Some(StringsOf(dates))
    else None
  }

  /** The bare-list branch of `fetch_availability_dates`: the payload
      itself, accepted exactly when it is a list of strings, and then
      returned unchanged. */
  function FromBareList(payload: Json): (r: Option<seq<string>>)
    ensures r.Some? <==> IsStringList(payload)
    ensures r.Some? ==> FromStrings(r.value) == payload
  {
    if IsStringList(payload) then
      StringListRoundTrip(payload);
      Some(StringsOf(payload))
    else None
  }

  /** The dates `fetch_availability_dates` returns for one HTTP outcome.
      A result always comes from one of three places: the bare list, the
      `"dates"` entry when that is truthy, or else the `"Dates"` entry. */
  function FetchAvailabilityDates(response: Option<Json>): (r: Option<seq<string>>)
    ensures response.None? ==> r.None?
    ensures r.Some? ==>
              var p := response.value;
              || (p.Array? && FromStrings(r.value) == p)
              || (p.Object? && Truthy(Get(p.fields, "dates"))
                  && FromStrings(r.value) == Get(p.fields, "dates"))
              || (p.Object? && !Truthy(Get(p.fields, "dates"))
                  && FromStrings(r.value) == Get(p.fields, "Dates"))
    ensures response.Some? && IsStringList(response.value) ==>
              r.Some? && FromStrings(r.value) == response.value
  {
    match response
    case None => None
    case Some(payload) =>
      var fromDict := if payload.Object? then FromDict(payload.fields) else None;
      if fromDict.Some? then fromDict else FromBareList(payload)
  }

  /** A failed request never produces dates. */
  lemma FailedRequestHasNoDates()
    ensures FetchAvailabilityDates(None) == None
  {
  }

  /** Only lists and dicts can produce dates. */
  lemma ScalarPayloadHasNoDates(p: Json)
    requires !p.Array? && !p.Object?
    ensures FetchAvailabilityDates(Some(p)) == None
  {
  }

  /** A bare list is returned unchanged exactly when every element is a
      string; this includes the empty list. */
  lemma BareListPayload(items: seq<Json>)
    ensures var r := FetchAvailabilityDates(Some(Array(items)));
            && (r.Some? <==> forall i :: 0 <= i < |items| ==> items[i].String?)
            && (r.Some? ==> |r.value| == |items|
                            && forall i :: 0 <= i < |items| ==> items[i] == String(r.value[i]))
  {
  }

  /** A dict yields dates exactly when the entry chosen by
      `get("dates") or get("Dates")` is a list of strings. */
  lemma DictPayload(fields: map<string, Json>)
    ensures var r := FetchAvailabilityDates(Some(Object(fields)));
            var lower := Get(fields, "dates");
            var upper := Get(fields, "Dates");
            r.Some? <==> ((Truthy(lower) && IsStringList(lower))
                          || (!Truthy(lower) && IsStringList(upper)))
  {
  }

  /** A truthy `"dates"` entry wins over `"Dates"`, whatever that holds. */
  lemma LowerKeyWins(fields: map<string, Json>)
    requires "dates" in fields && Truthy(fields["dates"]) && IsStringList(fields["dates"])
    ensures FetchAvailabilityDates(Some(Object(fields))) == Some(StringsOf(fields["dates"]))
  {
  }

  /** A missing or falsy `"dates"` entry (`null`, `[]`, `""`, `0`, `false`,
      `{}`) hands the decision to `"Dates"` alone. */
  lemma FalsyLowerKeyDefers(fields: map<string, Json>)
    requires !Truthy(Get(fields, "dates"))
    ensures var upper := Get(fields, "Dates");
            FetchAvailabilityDates(Some(Object(fields)))
              == if IsStringList(upper) then Some(StringsOf(upper)) else None
  {
  }

  /** A dict can yield the empty list, but only through `"Dates"`: the
      `"dates"` entry is taken only when it is truthy, hence non-empty. */
  lemma DictEmptyDates(fields: map<string, Json>)
    ensures FetchAvailabilityDates(Some(Object(fields))) == Some([])
            <==> !Truthy(Get(fields, "dates")) && Get(fields, "Dates") == Array([])
  {
    var r := FetchAvailabilityDates(Some(Object(fields)));
    if r == Some([]) {
      assert FromStrings([]) == Array([]);
    }
  }

  lemma FirstKeyWinsExample()
    ensures FetchAvailabilityDates(Some(Object(map[
              "dates" := Array([String("01/01/2025")]),
              "Dates" := Array([String("02/01/2025")])])))
            == Some(["01/01/2025"])
  {
    var fields := map["dates" := Array([String("01/01/2025")]),
                      "Dates" := Array([String("02/01/2025")])];
    LowerKeyWins(fields);
    assert StringsOf(fields["dates"]) == ["01/01/2025"];
  }

  lemma EmptyLowerKeyExample()
    ensures FetchAvailabilityDates(Some(Object(map[
              "dates" := Array([]),
              "Dates" := Array([String("x")])])))
            == Some(["x"])
  {
    var fields := map["dates" := Array([]), "Dates" := Array([String("x")])];
    FalsyLowerKeyDefers(fields);
    assert StringsOf(fields["Dates"]) == ["x"];
  }

  lemma UnrelatedKeyExample()
    ensures FetchAvailabilityDates(Some(Object(map["other" := Int(1)]))) == None
  {
  }

  lemma BareListExample()
    ensures FetchAvailabilityDates(Some(Array([String("01/01/2025"), String("02/01/2025")])))
            == Some(["01/01/2025", "02/01/2025"])
  {
    var items := [String("01/01/2025"), String("02/01/2025")];
    BareListPayload(items);
    assert StringsOf(Array(items)) == ["01/01/2025", "02/01/2025"];
  }

}
