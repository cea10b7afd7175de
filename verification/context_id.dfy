/**
  `extract_context_id`: turn a record's raw `id` string into the booking
  system's context item id. The raw string is stripped of surrounding
  whitespace, then one pair of outer braces is removed if both are there.
  The remainder is NOT stripped again, so `"{ A }"` yields `" A "`.
 */
module ContextId {
  import opened Wrappers
  import opened Text

  /** `s.startswith("{") and s.endswith("}")` */
  predicate Braced(s: string) {
    |s| > 0 && s[0] == '{' && s[|s| - 1] == '}'
  }

  function ExtractContextId(raw: string): (r: Option<string>)
    ensures raw == [] ==> r == None
    ensures AllSpace(raw) ==> r == None
    ensures r.Some? ==> r.value != []
  {
    if raw == [] then None
    else
      var stripped := Strip(raw);
      var cleaned := if Braced(stripped) then stripped[1..|stripped| - 1] else stripped;
      if cleaned == [] then None else Some(cleaned)
  }

  /** Any non-empty id, in braces and padded with whitespace, is recovered
      exactly; its own inner whitespace and braces are kept. */
  lemma ExtractWrapped(a: string, v: string, b: string)
    requires AllSpace(a) && AllSpace(b) && v != []
    ensures ExtractContextId(a + "{" + v + "}" + b) == Some(v)
  {
    var w := "{" + v + "}";
    assert a + "{" + v + "}" + b == a + w + b;
    StripPadded(a, w, b);
    assert w[1..|w| - 1] == v;
  }

  /** A non-empty id without whitespace ends and without outer braces,
      padded with whitespace, is recovered exactly. */
  lemma ExtractPlain(a: string, v: string, b: string)
    requires AllSpace(a) && AllSpace(b) && v != [] && Trimmed(v) && !Braced(v)
    ensures ExtractContextId(a + v + b) == Some(v)
  {
    StripPadded(a, v, b);
  }

  /** Empty braces, however padded, give no id. */
  lemma ExtractEmptyBraces(a: string, b: string)
    requires AllSpace(a) && AllSpace(b)
    ensures ExtractContextId(a + "{}" + b) == None
  {
    StripPadded(a, "{}", b);
  }

  /** Every id the extractor returns arises in one of the two ways above:
      whitespace, then either the id in braces or the id itself (without
      whitespace ends or outer braces), then whitespace. */
  lemma ExtractShape(raw: string, v: string)
    requires ExtractContextId(raw) == Some(v)
    ensures exists i, j :: 0 <= i <= j <= |raw|
                           && SpaceBetween(raw, 0, i) && SpaceBetween(raw, j, |raw|)
                           && (raw[i..j] == "{" + v + "}"
                               || (raw[i..j] == v && Trimmed(v) && !Braced(v)))
  {
    var t := Strip(raw);
    var i := LeadingSpaces(raw);
    var j := i + |t|;
    assert raw[i..j] == t;
    if Braced(t) {
      assert t == "{" + v + "}";
    } else {
      assert t == v && Trimmed(v) && !Braced(v);
    }
    assert SpaceBetween(raw, 0, i) && SpaceBetween(raw, j, |raw|);
  }

  /** Braces are stripped once only. */
  lemma ExtractStripsOnce()
    ensures ExtractContextId("{{x}}") == Some("{x}")
  {
    assert "{{x}}" == [] + "{" + "{x}" + "}" + [];
    ExtractWrapped([], "{x}", []);
  }

  lemma ExtractTrimsBeforeBraces()
    ensures ExtractContextId("  {ABC123}  ") == Some("ABC123")
  {
    assert "  {ABC123}  " == "  " + "{" + "ABC123" + "}" + "  ";
    ExtractWrapped("  ", "ABC123", "  ");
  }

  /** No second strip after the braces come off. */
  lemma ExtractKeepsInnerSpace()
    ensures ExtractContextId("{ A }") == Some(" A ")
  {
    assert "{ A }" == [] + "{" + " A " + "}" + [];
    ExtractWrapped([], " A ", []);
  }

  lemma ExtractEmptyBracesExample()
    ensures ExtractContextId("{}") == None
  {
    assert "{}" == [] + "{}" + [];
    ExtractEmptyBraces([], []);
  }

  /** Wrapping an id that is already stripped and unbraced in one pair of
      braces does not change what is extracted. */
  lemma BracesTransparent(s: string)
    requires Trimmed(s) && !Braced(s)
    ensures ExtractContextId("{" + s + "}") == ExtractContextId(s)
  {
    var e: string := [];
    assert AllSpace(e);
    if s == [] {
      assert "{" + s + "}" == e + "{}" + e;
      ExtractEmptyBraces(e, e);
    } else {
      assert "{" + s + "}" == e + "{" + s + "}" + e;
      ExtractWrapped(e, s, e);
      assert s == e + s + e;
      ExtractPlain(e, s, e);
    }
  }

  /** Without the `Trimmed` condition the law above fails: the inner
      whitespace survives inside braces but not outside them. */
  lemma BracesNotTransparentForPaddedId()
    ensures ExtractContextId("{" + " A " + "}") != ExtractContextId(" A ")
  {
    var sp, e, v := " ", [], "A";
    assert AllSpace(sp) && AllSpace(e);
    var padded := sp + v + sp;
    ExtractWrapped(e, padded, e);
    ExtractPlain(sp, v, sp);
    assert e + "{" + padded + "}" + e == "{" + " A " + "}";
    assert padded == " A ";
    assert |padded| != |v|;
  }

  /** The converse of `BracesTransparent`: for every unbraced id with a
      whitespace end, the braced and the bare form extract differently,
      because only the bare form loses that whitespace. */
  lemma BracesOpaqueForPaddedId(s: string)
    requires !Braced(s) && !Trimmed(s)
    ensures ExtractContextId("{" + s + "}") != ExtractContextId(s)
  {
    var e: string := [];
    assert "{" + s + "}" == e + "{" + s + "}" + e;
    ExtractWrapped(e, s, e);
    var t := Strip(s);
    assert Trimmed(t) && |t| <= |s|;
    if Braced(t) {
      assert |t[1..|t| - 1]| < |s|;
    } else {
      assert t != s;
    }
  }

}
