/**
 * The helpers of the itinerary PDF export: each day's items sorted with
 * the itinerary's comparator, the attachment's file name, the date and
 * time labels, and the links printed under an item.
 */
module Export {
  import opened Wrappers
  import opened Json
  import opened Strings
  import opened Store
  import opened ItemOrder

  /** `trip.days.forEach((d) => d.items.sort(tbd))`: every day's items, each array sorted in place. */
  method SortEachDay(days: seq<array<Item>>)
    requires forall i, j :: 0 <= i < j < |days| ==> days[i] != days[j]
    modifies set d | d in days
    ensures forall i :: 0 <= i < |days| ==> Sorted(days[i][..])
    ensures forall i :: 0 <= i < |days| ==> multiset(days[i][..]) == multiset(old(days[i][..]))
  {
    var k := 0;
    while k < |days|
      invariant 0 <= k <= |days|
      invariant forall i :: 0 <= i < k ==> Sorted(days[i][..])
      invariant forall i :: 0 <= i < k ==> multiset(days[i][..]) == multiset(old(days[i][..]))
      invariant forall i :: k <= i < |days| ==> days[i][..] == old(days[i][..])
    {
      SortItems(days[k]);
      k := k + 1;
    }
  }

  /** A character the pattern `[^a-z0-9]` with the `i` flag leaves alone. */
  predicate IsAsciiAlnum(c: char) {
    ('a' <= c <= 'z') || ('A' <= c <= 'Z') || ('0' <= c <= '9')
  }

  /** `name.replace(/[^a-z0-9]/gi, '-')`. */
  function FileStem(name: string): (s: string)
    ensures |s| == |name|
    ensures forall i :: 0 <= i < |s| ==> s[i] == (if IsAsciiAlnum(name[i]) then name[i] else '-')
  {
    if name == [] then [] else [if IsAsciiAlnum(name[0]) then name[0] else '-'] + FileStem(name[1..])
  }

  /** The stem holds only letters, digits and dashes, and sanitising it again changes nothing. */
  lemma FileStemIsSafe(name: string)
    ensures forall i :: 0 <= i < |FileStem(name)| ==> IsAsciiAlnum(FileStem(name)[i]) || FileStem(name)[i] == '-'
    ensures FileStem(FileStem(name)) == FileStem(name)
  {
  }

  /** The `filename` of the `Content-Disposition` header. */
  function FileName(tripName: string): (f: string)
    ensures |f| == |tripName| + 22
    ensures StartsWith(f, "issavie-") && EndsWith(f, "-itinerary.pdf")
  {
    "issavie-" + FileStem(tripName) + "-itinerary.pdf"
  }

  /** Text made only of ASCII letters, digits, dashes and dots. */
  predicate PlainFileText(s: string) {
    forall i :: 0 <= i < |s| ==> IsAsciiAlnum(s[i]) || s[i] == '-' || s[i] == '.'
  }

  /** Joining plain file text gives plain file text. */
  lemma PlainFileTextAppend(a: string, b: string)
    requires PlainFileText(a) && PlainFileText(b)
    ensures PlainFileText(a + b)
  {
    forall i | 0 <= i < |a + b|
      ensures IsAsciiAlnum((a + b)[i]) || (a + b)[i] == '-' || (a + b)[i] == '.'
    {
      if i >= |a| {
        assert (a + b)[i] == b[i - |a|];
      }
    }
  }

  /**
   * The file name holds only letters, digits, dashes and dots, whatever the
   * trip is called, so it cannot end the header's quoted string, start a
   * new header line or name another directory.
   */
  lemma FileNameCannotBreakHeader(tripName: string)
    ensures PlainFileText(FileName(tripName))
    ensures '"' !in FileName(tripName) && '\n' !in FileName(tripName) && '\r' !in FileName(tripName)
    ensures '/' !in FileName(tripName) && '\\' !in FileName(tripName)
  {
    var stem := FileStem(tripName);
    assert PlainFileText(stem);
    assert PlainFileText("issavie-");
    assert PlainFileText("-itinerary.pdf");
    PlainFileTextAppend("issavie-", stem);
    PlainFileTextAppend("issavie-" + stem, "-itinerary.pdf");
    var f := FileName(tripName);
    forall c | c in f
      ensures IsAsciiAlnum(c) || c == '-' || c == '.'
    {
      var i :| 0 <= i < |f| && f[i] == c;
    }
  }

  /** `s.slice(0, 10)`: the date part of an ISO timestamp. */
  function DateLabel(iso: string): (d: string)
    ensures |d| <= 10 && StartsWith(iso, d)
    ensures |iso| >= 10 ==> |d| == 10
  {
    if |iso| <= 10 then iso else iso[..10]
  }

  /**
   * The time line under an item: 'TBD' when neither time is set; otherwise
   * the start time (or 'TBD') followed by ' – ' and the end time when set.
   */
  function TimeLabel(startTime: Json, endTime: Json): (line: string)
    ensures !Truthy(startTime) && !Truthy(endTime) ==> line == "TBD"
    ensures Truthy(startTime) ==> StartsWith(line, ToJsString(startTime))
    ensures !Truthy(startTime) ==> StartsWith(line, "TBD")
    ensures Truthy(endTime) ==> EndsWith(line, " – " + ToJsString(endTime))
    ensures Truthy(startTime) && Truthy(endTime) ==> line == ToJsString(startTime) + " – " + ToJsString(endTime)
    ensures !Truthy(startTime) && Truthy(endTime) ==> line == "TBD – " + ToJsString(endTime)
    ensures !Truthy(endTime) ==> line == (if Truthy(startTime) then ToJsString(startTime) else "TBD")
  {
    if !Truthy(startTime) && !Truthy(endTime) then "TBD"
    else
      var first := if Truthy(startTime) then ToJsString(startTime) else "TBD";
      if Truthy(endTime) then first + " – " + ToJsString(endTime) else first
  }

  /** A string link is used as is; an object link by its `url`, else its `href`; a falsy one is skipped. */
  function LinkHref(l: Json): (h: Option<string>)
    ensures l.JStr? ==> h == (if l.s == "" then None else Some(l.s))
    ensures !l.JStr? && !l.JObj? ==> h.None?
    ensures l.JObj? && TruthyOpt(Field(l.fields, "url")) ==> h == Some(ToJsString(l.fields["url"]))
    ensures l.JObj? && !TruthyOpt(Field(l.fields, "url")) ==>
              h == (if TruthyOpt(Field(l.fields, "href")) then Some(ToJsString(l.fields["href"])) else None)
  {
    match l
    case JStr(s) => if s == "" then None else Some(s)
    case JObj(f) =>
      var href := if TruthyOpt(Field(f, "url")) then Field(f, "url") else Field(f, "href");
      if TruthyOpt(href) then Some(ToJsString(href.value)) else None
    case _ => None
  }

  /** The links printed for a list of link entries, in order. */
  function Hrefs(links: seq<Json>): (hs: seq<string>)
    ensures |hs| <= |links|
  {
    if links == [] then []
    else
      match LinkHref(links[0])
      case None => Hrefs(links[1..])
      case Some(h) => [h] + Hrefs(links[1..])
  }

  /** One entry prints its own href, or nothing when it has none. */
  lemma HrefsOfOne(l: Json)
    ensures Hrefs([l]) == (if LinkHref(l).Some? then [LinkHref(l).value] else [])
  {
    assert [l][1..] == [];
  }

  /** The links of a concatenation are the links of each part, in order. */
  lemma {:induction false} HrefsAppend(a: seq<Json>, b: seq<Json>)
    ensures Hrefs(a + b) == Hrefs(a) + Hrefs(b)
  {
    if a != [] {
      assert (a + b)[0] == a[0] && (a + b)[1..] == a[1..] + b;
      HrefsAppend(a[1..], b);
      if LinkHref(a[0]).Some? {
        assert [LinkHref(a[0]).value] + (Hrefs(a[1..]) + Hrefs(b))
            == ([LinkHref(a[0]).value] + Hrefs(a[1..])) + Hrefs(b);
      }
    } else {
      assert a + b == b;
    }
  }

  /** A list of non-empty link strings is printed exactly as stored. */
  lemma {:induction false} HrefsOfStrings(links: seq<Json>)
    requires forall i :: 0 <= i < |links| ==> links[i].JStr? && links[i].s != ""
    ensures |Hrefs(links)| == |links|
    ensures forall i :: 0 <= i < |links| ==> Hrefs(links)[i] == links[i].s
  {
    if links != [] {
      HrefsOfStrings(links[1..]);
    }
  }

  /**
   * The links under an item: `JSON.parse(item.externalLinks || '[]')`,
   * nothing when the text is not JSON (`parse` gives None) or not an array.
   */
  function ExportLinks(column: Cell, parse: string -> Option<Json>): (hs: seq<string>)
    ensures column.Encoded? && column.doc.JArr? ==> hs == Hrefs(column.doc.elems)
    ensures column.Encoded? && !column.doc.JArr? ==> hs == []
    ensures !CellTruthy(column) ==> hs == []
  {
    var parsed := match column
      case Encoded(doc) => Some(doc)
      case Plain(v) => if Truthy(v) then parse(ToJsString(v)) else Some(EmptyArray);
    if parsed.Some? && parsed.value.JArr? then Hrefs(parsed.value.elems) else []
  }
}
