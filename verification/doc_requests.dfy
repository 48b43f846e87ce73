/** The Google Docs batch-update requests the document handler sends: one
    text replacement per placeholder entry, then the company logo. */
module DocRequests {

  /** One placeholder entry of the request body's `replacements` record, in
      the order the record's entries are enumerated. */
  datatype Replacement = Replacement(key: string, value: string)

  /** A size in a unit ("PT"). */
  datatype Dimension = Dimension(magnitude: int, unit: string)

  /** The two request kinds the handler builds. */
  datatype DocRequest =
    | ReplaceAllText(text: string, matchCase: bool, replaceText: string)
    | InsertInlineImage(index: int, uri: string, height: Dimension, width: Dimension)

  const LogoServicePrefix: string := "https://logo.clearbit.com/"

  /** The logo service address for a website. */
  function LogoUri(website: string): (uri: string)
    ensures |uri| == |LogoServicePrefix| + |website|
    ensures uri[..|LogoServicePrefix|] == LogoServicePrefix
    ensures uri[|LogoServicePrefix|..] == website
  {
    LogoServicePrefix + website
  }

  /** The logo insertion: at index 1, 100 PT square. */
  function LogoRequest(website: string): (q: DocRequest)
    ensures q.InsertInlineImage? && q.index == 1 && q.uri == LogoUri(website)
    ensures q.height == Dimension(100, "PT") && q.width == Dimension(100, "PT")
  {
    InsertInlineImage(1, LogoUri(website), Dimension(100, "PT"), Dimension(100, "PT"))
  }

  /** The replacement for one placeholder entry (case-sensitive match). */
  function ReplaceRequest(entry: Replacement): DocRequest {
    ReplaceAllText(entry.key, true, entry.value)
  }

  /** The batch-update request list: one case-sensitive replacement per entry,
      in entry order, followed by exactly one logo insertion. */
  function BuildRequests(entries: seq<Replacement>, website: string): (r: seq<DocRequest>)
    ensures |r| == |entries| + 1
    ensures forall i :: 0 <= i < |entries| ==>
      r[i].ReplaceAllText? && r[i].matchCase && r[i].text == entries[i].key && r[i].replaceText == entries[i].value
    ensures r[|entries|] == LogoRequest(website)
  {
    ReplacementsToRequests(entries) + [LogoRequest(website)]
  }

  /** The `map` over the replacement entries. */
  function ReplacementsToRequests(entries: seq<Replacement>): (r: seq<DocRequest>)
    ensures |r| == |entries|
    ensures forall i :: 0 <= i < |entries| ==> r[i] == ReplaceRequest(entries[i])
  {
    if |entries| == 0 then [] else [ReplaceRequest(entries[0])] + ReplacementsToRequests(entries[1..])
  }

  /** Reads the placeholder entries back out of a request list: every
      text replacement, in order. */
  function EntriesOf(requests: seq<DocRequest>): seq<Replacement> {
    if |requests| == 0 then []
    else
      match requests[0]
      case ReplaceAllText(text, _, replaceText) => [Replacement(text, replaceText)] + EntriesOf(requests[1..])
      case InsertInlineImage(_, _, _, _) => EntriesOf(requests[1..])
  }

  /** How many logo insertions a request list holds. */
  function ImageCount(requests: seq<DocRequest>): nat {
    if |requests| == 0 then 0
    else (if requests[0].InsertInlineImage? then 1 else 0) + ImageCount(requests[1..])
  }

  /** The request list carries exactly the placeholder entries it was built
      from, in order, and exactly one image. */
  lemma {:induction false} BuildRequestsRoundTrip(entries: seq<Replacement>, website: string)
    ensures EntriesOf(BuildRequests(entries, website)) == entries
    ensures ImageCount(BuildRequests(entries, website)) == 1
  {
    var rs := ReplacementsToRequests(entries);
    ConcatEntries(rs, [LogoRequest(website)]);
    ConcatImages(rs, [LogoRequest(website)]);
    ReplacementsRoundTrip(entries);
    assert [LogoRequest(website)][1..] == [];
  }

  lemma {:induction false} ReplacementsRoundTrip(entries: seq<Replacement>)
    ensures EntriesOf(ReplacementsToRequests(entries)) == entries
    ensures ImageCount(ReplacementsToRequests(entries)) == 0
    decreases |entries|
  {
    if |entries| > 0 {
      var rs := ReplacementsToRequests(entries);
      assert rs[1..] == ReplacementsToRequests(entries[1..]);
      ReplacementsRoundTrip(entries[1..]);
      assert entries == [entries[0]] + entries[1..];
    }
  }

  lemma {:induction false} ConcatEntries(a: seq<DocRequest>, b: seq<DocRequest>)
    ensures EntriesOf(a + b) == EntriesOf(a) + EntriesOf(b)
    decreases |a|
  {
    if |a| > 0 {
      assert (a + b)[1..] == a[1..] + b;
      ConcatEntries(a[1..], b);
    } else {
      assert a + b == b;
    }
  }

  lemma {:induction false} ConcatImages(a: seq<DocRequest>, b: seq<DocRequest>)
    ensures ImageCount(a + b) == ImageCount(a) + ImageCount(b)
    decreases |a|
  {
    if |a| > 0 {
      assert (a + b)[1..] == a[1..] + b;
      ConcatImages(a[1..], b);
    } else {
      assert a + b == b;
    }
  }
}
