/**
 * The web client's link helpers: the list of external links of an item,
 * read from whatever the API returned, and the test for an attachment
 * that can be shown as an image.
 */
module Links {
  import opened Wrappers
  import opened Json
  import opened Strings
  import Itinerary

  /** `list.filter(Boolean)`: the truthy entries, in order. */
  function KeepTruthy(es: seq<Json>): (r: seq<Json>)
    ensures |r| <= |es|
    ensures forall x :: x in r <==> x in es && Truthy(x)
  {
    if es == [] then []
    else
      assert forall x :: x in es <==> x == es[0] || x in es[1..];
      if Truthy(es[0]) then [es[0]] + KeepTruthy(es[1..]) else KeepTruthy(es[1..])
  }

  /** Filtering a concatenation filters each part: the kept entries stay in their order. */
  lemma {:induction false} KeepTruthyAppend(a: seq<Json>, b: seq<Json>)
    ensures KeepTruthy(a + b) == KeepTruthy(a) + KeepTruthy(b)
  {
    if a != [] {
      assert (a + b)[0] == a[0] && (a + b)[1..] == a[1..] + b;
      KeepTruthyAppend(a[1..], b);
      if Truthy(a[0]) {
        assert [a[0]] + (KeepTruthy(a[1..]) + KeepTruthy(b)) == ([a[0]] + KeepTruthy(a[1..])) + KeepTruthy(b);
      }
    } else {
      assert a + b == b;
    }
  }

  /** A list without falsy entries is kept as it is, so filtering twice is filtering once. */
  lemma {:induction false} KeepTruthyOfTruthy(es: seq<Json>)
    requires forall i :: 0 <= i < |es| ==> Truthy(es[i])
    ensures KeepTruthy(es) == es
  {
    if es != [] {
      KeepTruthyOfTruthy(es[1..]);
    }
  }

  /** Filtering twice is filtering once. */
  lemma KeepTruthyIdempotent(es: seq<Json>)
    ensures KeepTruthy(KeepTruthy(es)) == KeepTruthy(es)
  {
    var r := KeepTruthy(es);
    forall i | 0 <= i < |r|
      ensures Truthy(r[i])
    {
      assert r[i] in r;
    }
    KeepTruthyOfTruthy(r);
  }

  /**
   * `parseExternalLinks(value)`: [] for a falsy value; the truthy entries of
   * an array; otherwise the truthy entries of the array the text parses to,
   * and [] when it is not JSON or not an array. `Plain` is a value the API
   * returned as it is, `Encoded` the JSON text of a document.
   */
  function ParseExternalLinks(value: Cell, parse: string -> Option<Json>): (links: seq<Json>)
    ensures !CellTruthy(value) ==> links == []
    ensures value.Plain? && value.v.JArr? ==> links == KeepTruthy(value.v.elems)
    ensures CellTruthy(value) && !(value.Plain? && value.v.JArr?) ==>
              var p := ParseColumn(value, parse);
              links == if p.Some? && p.value.JArr? then KeepTruthy(p.value.elems) else []
    ensures forall i :: 0 <= i < |links| ==> Truthy(links[i])
  {
    var r :=
      if !CellTruthy(value) then []
      else if value.Plain? && value.v.JArr? then KeepTruthy(value.v.elems)
      else
        var parsed := ParseColumn(value, parse);
        if parsed.Some? && parsed.value.JArr? then KeepTruthy(parsed.value.elems) else [];
    assert forall i :: 0 <= i < |r| ==> r[i] in r;
    r
  }

  /**
   * Links stored by the itinerary's create route read back as the truthy
   * entries of the array that was sent, and no links are read back when
   * none were sent; the same holds for the array itself.
   */
  lemma StoredLinksReadBack(es: seq<Json>, parse: string -> Option<Json>)
    ensures ParseExternalLinks(Itinerary.CreateLinks(Some(JArr(es))), parse) == KeepTruthy(es)
    ensures ParseExternalLinks(Itinerary.CreateLinks(None), parse) == []
    ensures ParseExternalLinks(Plain(JArr(es)), parse) == KeepTruthy(es)
  {
  }

  /** The extensions of the image pattern. */
  const ImageExtensions: set<string> := {"png", "jpg", "jpeg", "gif", "webp", "avif", "svg"}

  /** `String(value || '').trim()`. */
  function AttachmentText(value: Option<Json>): string {
    Trim(if TruthyOpt(value) then ToJsString(value.value) else "")
  }

  /**
   * The lower-cased text ends with '.' and an image extension at `i`,
   * optionally followed by '?' and anything up to the end but a line
   * terminator.
   */
  predicate ExtensionAt(lower: string, i: int, e: string) {
    && 0 <= i && i + 1 + |e| <= |lower| && lower[i] == '.' && lower[i + 1..i + 1 + |e|] == e
    && var rest := lower[i + 1 + |e|..];
      rest == [] || (rest[0] == '?' && forall j :: 1 <= j < |rest| ==> !IsLineTerminator(rest[j]))
  }

  /**
   * `isImageAttachment`: the trimmed text starts with 'data:image/' or ends
   * in an image extension, possibly before a query; both in any case.
   */
  predicate IsImageAttachment(value: Option<Json>) {
    var lower := ToLower(AttachmentText(value));
    || StartsWith(lower, "data:image/")
    || exists e, i | e in ImageExtensions && 0 <= i < |lower| :: ExtensionAt(lower, i, e)
  }

  /** A trimmed name ending in '.' and an image extension, in any case, is an image. */
  lemma ExtensionMakesImage(t: string, e: string)
    requires Trim(t) == t && e in ImageExtensions && EndsWith(ToLower(t), "." + e)
    ensures IsImageAttachment(Some(JStr(t)))
  {
    var lower := ToLower(t);
    var i := |lower| - |e| - 1;
    assert lower[i..] == "." + e;
    assert lower[i] == '.' && lower[i + 1..] == e;
    assert ExtensionAt(lower, i, e);
  }

  /** A query after the extension does not stop the name from being an image, unless it spans lines. */
  lemma QueryAfterExtension(base: string, e: string, query: string)
    requires e in ImageExtensions && EndsWith(ToLower(base), "." + e)
    requires Trim(base + "?" + query) == base + "?" + query
    requires forall j :: 0 <= j < |query| ==> !IsLineTerminator(query[j])
    ensures IsImageAttachment(Some(JStr(base + "?" + query)))
  {
    var t := base + "?" + query;
    var lower := ToLower(t);
    var i := |base| - |e| - 1;
    assert lower[..|base|] == ToLower(base);
    assert ToLower(base)[i..] == "." + e;
    assert lower[i..|base|] == ToLower(base)[i..];
    assert lower[i] == '.';
    assert lower[i + 1..i + 1 + |e|] == ToLower(base)[i + 1..] == e;
    assert lower[i + 1 + |e|..] == ['?'] + ToLower(query);
    assert ExtensionAt(lower, i, e);
  }

  /** Text with no '.' that does not start with 'data:image/' is never an image. */
  lemma NoDotNoImage(value: Option<Json>)
    requires '.' !in AttachmentText(value)
    requires !StartsWith(ToLower(AttachmentText(value)), "data:image/")
    ensures !IsImageAttachment(value)
  {
    var lower := ToLower(AttachmentText(value));
    forall e, i | e in ImageExtensions && 0 <= i < |lower|
      ensures !ExtensionAt(lower, i, e)
    {
      assert AttachmentText(value)[i] != '.';
    }
  }
}
