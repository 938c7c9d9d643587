/**
 * PineconeService.js: the projection of vector-search matches into results
 * (`searchSimilar`) and the plain-text context block built from them for the
 * assistant (`formatContextForAI`). The embedding request and the index query
 * are network calls; their outcome is an input here.
 */
module PineconeService {
  import opened Common
  import Transcript

  /** `match.metadata`: every field may be absent. */
  datatype Metadata = Metadata(text: Option<string>, summary: Option<string>, source: Option<string>, tags: Option<seq<string>>)

  /** One entry of `searchResponse.matches`; `metadata` may be absent. */
  datatype Match = Match(score: real, metadata: Option<Metadata>)

  /** One element of the array `searchSimilar` resolves to. */
  datatype SearchResult = SearchResult(score: real, text: Option<string>, summary: Option<string>, source: Option<string>, tags: seq<string>)

  /** The body of the `matches.map` callback. */
  function ToResult(score: real, md: Metadata): (r: SearchResult)
    ensures r.score == score && r.text == md.text && r.summary == md.summary && r.source == md.source
    ensures md.tags.Some? ==> r.tags == md.tags.value
    ensures md.tags.None? ==> r.tags == []
  {
    SearchResult(score, md.text, md.summary, md.source, if md.tags.Some? then md.tags.value else [])
  }

  /** `matches.map(...)`: None when some match has no metadata (the callback throws). */
  function Project(matches: seq<Match>): (r: Option<seq<SearchResult>>)
    ensures r.Some? <==> forall i :: 0 <= i < |matches| ==> matches[i].metadata.Some?
    ensures r.Some? ==> |r.value| == |matches|
    ensures r.Some? ==> forall i :: 0 <= i < |matches| ==> r.value[i] == ToResult(matches[i].score, matches[i].metadata.value)
  {
    if matches == [] then Some([])
    else if matches[0].metadata.None? then None
    else
      var rest := Project(matches[1..]);
      if rest.None? then None
      else Some([ToResult(matches[0].score, matches[0].metadata.value)] + rest.value)
  }

  /** `searchSimilar`. `indexReady` is `this.index` being set; `response` is the query's
      `matches`, None when the embedding request or the query failed or `matches` is absent.
      Every failure is caught and yields the empty array. */
  function SearchSimilar(indexReady: bool, response: Option<seq<Match>>): (r: seq<SearchResult>)
    ensures !indexReady || response.None? ==> r == []
    ensures indexReady && response.Some? && Project(response.value).Some? ==> |r| == |response.value|
  {
    if !indexReady || response.None? then []
    else
      var projected := Project(response.value);
      if projected.None? then [] else projected.value
  }

  /** The mapping keeps the length and order of the matches, copies score, text, summary and
      source, and defaults absent tags to the empty list. */
  lemma SearchKeepsMatches(response: seq<Match>)
    requires forall i :: 0 <= i < |response| ==> response[i].metadata.Some?
    ensures var r := SearchSimilar(true, Some(response));
      && |r| == |response|
      && forall i :: 0 <= i < |r| ==>
        var md := response[i].metadata.value;
        && r[i].score == response[i].score && r[i].text == md.text && r[i].summary == md.summary
        && r[i].source == md.source && r[i].tags == (if md.tags.Some? then md.tags.value else [])
  {
  }

  /** A match without metadata makes the whole search come back empty. */
  lemma MissingMetadataYieldsEmpty(response: seq<Match>, k: int)
    requires 0 <= k < |response| && response[k].metadata.None?
    ensures SearchSimilar(true, Some(response)) == []
  {
  }

  // ---- decimal numerals, as a template literal prints a non-negative integer ----

  function Digit(d: nat): (c: char)
    requires d < 10
    ensures '0' <= c <= '9'
  {
    (48 + d) as char
  }

  /** `${n}` for a non-negative integer. */
  function Decimal(n: nat): (s: string)
    ensures |s| > 0
    ensures forall i :: 0 <= i < |s| ==> '0' <= s[i] <= '9'
  {
    if n < 10 then [Digit(n)] else Decimal(n / 10) + [Digit(n % 10)]
  }

  /** The value of a string of decimal digits. */
  function DecimalValue(s: string): nat
    requires forall i :: 0 <= i < |s| ==> '0' <= s[i] <= '9'
  {
    if s == [] then 0 else DecimalValue(s[..|s| - 1]) * 10 + (s[|s| - 1] as int - 48)
  }

  /** Reading the numeral back gives the number. */
  lemma {:induction false} DecimalRoundTrip(n: nat)
    ensures DecimalValue(Decimal(n)) == n
  {
    if n >= 10 {
      DecimalRoundTrip(n / 10);
      var s := Decimal(n);
      assert s[..|s| - 1] == Decimal(n / 10);
    }
  }

  /** Distinct numbers print as distinct numerals. */
  lemma DecimalInjective(m: nat, n: nat)
    requires Decimal(m) == Decimal(n)
    ensures m == n
  {
    DecimalRoundTrip(m);
    DecimalRoundTrip(n);
  }

  // ---- the context text ----

  const Header: string := "Informações encontradas sobre a pergunta:\n\n"

  /** `${result.text}`: an absent text prints as "undefined". */
  function Show(text: Option<string>): string
  {
    if text.Some? then text.value else "undefined"
  }

  /** `[Informação k]\n`. */
  function Heading(k: nat): string
  {
    "[Informação " + Decimal(k) + "]\n"
  }

  /** `Fonte: source\n` when the source is truthy, nothing otherwise. */
  function SourceLine(source: Option<string>): (line: string)
    ensures line != [] <==> Truthy(source)
  {
    if Truthy(source) then "Fonte: " + source.value + "\n" else ""
  }

  /** The block one `forEach` iteration appends for the result numbered `k`. */
  function Block(k: nat, r: SearchResult): string
  {
    Heading(k) + Show(r.text) + "\n" + SourceLine(r.source) + "\n"
  }

  /** The block for each result, in input order, result i numbered k + i. */
  function BlockList(rs: seq<SearchResult>, k: nat): (bs: seq<string>)
    ensures |bs| == |rs|
    ensures forall i :: 0 <= i < |rs| ==> bs[i] == Block(k + i, rs[i])
  {
    seq(|rs|, i requires 0 <= i < |rs| => Block(k + i, rs[i]))
  }

  /** What `formatContextForAI` returns: null for a null or empty list, otherwise the header
      followed by exactly one block per result, in input order, numbered 1 to n. */
  function FormatContext(results: Option<seq<SearchResult>>): (r: Option<string>)
    ensures r.None? <==> results.None? || |results.value| == 0
    ensures r.Some? ==> Header <= r.value
  {
    if results.None? || |results.value| == 0 then None
    else Some(Header + Transcript.Concat(BlockList(results.value, 1)))
  }

  /** `formatContextForAI`: the `forEach` loop appending to `context`. */
  method FormatContextForAI(results: Option<seq<SearchResult>>) returns (context: Option<string>)
    ensures context == FormatContext(results)
  {
    if results.None? || |results.value| == 0 {
      return None;
    }
    var rs := results.value;
    ghost var blocks := BlockList(rs, 1);
    var c := Header;
    var i := 0;
    while i < |rs|
      invariant 0 <= i <= |rs|
      invariant c == Header + Transcript.Concat(blocks[..i])
    {
      ghost var before := c;
      c := c + "[Informação " + Decimal(i + 1) + "]\n";
      c := c + Show(rs[i].text) + "\n";
      ghost var withText := c;
      if Truthy(rs[i].source) {
        c := c + "Fonte: " + rs[i].source.value + "\n";
      }
      assert c == withText + SourceLine(rs[i].source);
      c := c + "\n";
      AppendedBlock(before, withText, c, i + 1, rs[i]);
      NextPart(Header, before, c, blocks, i);
      i := i + 1;
    }
    assert blocks[..|rs|] == blocks;
    return Some(c);
  }

  /** The appends of one iteration add exactly the result's block. */
  lemma AppendedBlock(before: string, withText: string, after: string, k: nat, r: SearchResult)
    requires withText == before + "[Informação " + Decimal(k) + "]\n" + Show(r.text) + "\n"
    requires after == withText + SourceLine(r.source) + "\n"
    ensures after == before + Block(k, r)
  {
  }

  /** Appending the next part keeps the text equal to the header and the parts so far. */
  lemma NextPart(header: string, before: string, after: string, parts: seq<string>, i: nat)
    requires i < |parts|
    requires before == header + Transcript.Concat(parts[..i])
    requires after == before + parts[i]
    ensures after == header + Transcript.Concat(parts[..i + 1])
  {
    ConcatSnoc(parts[..i], parts[i]);
    assert parts[..i] + [parts[i]] == parts[..i + 1];
  }

  /** Concatenating one more part appends it. */
  lemma {:induction false} ConcatSnoc(parts: seq<string>, last: string)
    ensures Transcript.Concat(parts + [last]) == Transcript.Concat(parts) + last
    decreases |parts|
  {
    if parts == [] {
      assert [last][1..] == [];
    } else {
      assert (parts + [last])[1..] == parts[1..] + [last];
      ConcatSnoc(parts[1..], last);
    }
  }

  /** Block headings are distinct: no two results get the same number. */
  lemma HeadingsDistinct(j: nat, k: nat)
    requires j != k
    ensures Heading(j) != Heading(k)
  {
    var p := "[Informação ";
    if Heading(j) == Heading(k) {
      var hj, hk := Heading(j), Heading(k);
      assert |Decimal(j)| == |Decimal(k)|;
      assert Decimal(j) == hj[|p|..|hj| - 2];
      assert Decimal(k) == hk[|p|..|hk| - 2];
      DecimalInjective(j, k);
    }
  }

  /** Every block opens with its own heading, result i with number i + 1. */
  lemma BlocksNumbered(rs: seq<SearchResult>)
    ensures var bs := BlockList(rs, 1);
      |bs| == |rs| && forall i :: 0 <= i < |rs| ==> Heading(i + 1) <= bs[i]
  {
  }

  /** A block has a line after its text exactly when the result's source is truthy, and that
      line is `Fonte: ` and the source. */
  lemma SourceLineIffTruthy(k: nat, r: SearchResult)
    ensures var at := |Heading(k)| + |Show(r.text)| + 1;
      && (|Block(k, r)| > at + 1 <==> Truthy(r.source))
      && (Truthy(r.source) ==> OccursAt(Block(k, r), "Fonte: " + r.source.value + "\n", at))
  {
    var at := |Heading(k)| + |Show(r.text)| + 1;
    var b := Block(k, r);
    assert b == (Heading(k) + Show(r.text) + "\n") + SourceLine(r.source) + "\n";
    assert b[at..at + |SourceLine(r.source)|] == SourceLine(r.source);
  }
}
