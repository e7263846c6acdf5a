/** The search bar's dispatch: which result pages a search opens for each engine choice. */
module Search {
  import opened Text

  const GoogleUrl := "https://www.google.com/search?q="
  const PerplexityUrl := "https://www.perplexity.ai/search?q="
  const YouUrl := "https://you.com/search?q="
  const PhindUrl := "https://www.phind.com/search?q="

  /** The engine choice the search bar starts with. */
  const InitialEngine := "both"

  /** The pages opened for an engine choice, in the order they are opened; anything unknown falls to "both". */
  function Bases(engine: string): (r: seq<string>)
    ensures |r| > 0
  {
    if engine == "google" then [GoogleUrl]
    else if engine == "ai" then [PerplexityUrl, YouUrl, PhindUrl, YouUrl]
    else [GoogleUrl, PerplexityUrl]
  }

  /** The pages opened by a search and the query text left in the box. */
  datatype Outcome = Outcome(pages: seq<string>, query: string)

  /**
   * `onSearch` for query `q`: a blank query opens nothing and is left as
   * typed; otherwise every base of the engine is opened with the encoded
   * trimmed query appended, and the box is cleared.
   */
  function OnSearch(q: string, engine: string, encode: string -> string): (r: Outcome)
    ensures AllSpace(q) ==> r == Outcome([], q)
    ensures !AllSpace(q) ==> r.query == "" && |r.pages| == |Bases(engine)|
    ensures !AllSpace(q) ==> forall i :: 0 <= i < |r.pages| ==> r.pages[i] == Bases(engine)[i] + encode(Trim(q))
  {
    TrimEmpty(q);
    if Trim(q) == "" then Outcome([], q)
    else
      var enc := encode(Trim(q));
      Outcome(seq(|Bases(engine)|, i requires 0 <= i < |Bases(engine)| => Bases(engine)[i] + enc), "")
  }

  /** Every base is an https address. */
  lemma BasesHttps(engine: string)
    ensures forall i :: 0 <= i < |Bases(engine)| ==> StartsWith(Bases(engine)[i], "https://")
  {
  }

  /** Every page a search opens is an https address ending in the encoded query. */
  lemma OpenedPages(q: string, engine: string, encode: string -> string)
    requires !AllSpace(q)
    ensures |OnSearch(q, engine, encode).pages| > 0
    ensures forall i :: 0 <= i < |OnSearch(q, engine, encode).pages| ==>
      var u := OnSearch(q, engine, encode).pages[i];
      StartsWith(u, "https://") && EndsWith(u, encode(Trim(q)))
  {
    var r := OnSearch(q, engine, encode);
    var enc := encode(Trim(q));
    BasesHttps(engine);
    forall i | 0 <= i < |r.pages|
      ensures StartsWith(r.pages[i], "https://") && EndsWith(r.pages[i], enc)
    {
      var b := Bases(engine)[i];
      assert r.pages[i] == b + enc;
      assert (b + enc)[..|"https://"|] == b[..|"https://"|];
      assert (b + enc)[|b|..] == enc;
    }
  }

  /** The "ai" choice opens four pages, two of them the same You.com search. */
  lemma AiOpensYouTwice(q: string, encode: string -> string)
    requires !AllSpace(q)
    ensures |OnSearch(q, "ai", encode).pages| == 4
    ensures OnSearch(q, "ai", encode).pages[1] == OnSearch(q, "ai", encode).pages[3] == YouUrl + encode(Trim(q))
  {
  }

  /** A search with the initial choice opens Google, then Perplexity. */
  lemma InitialSearch(q: string, encode: string -> string)
    requires !AllSpace(q)
    ensures OnSearch(q, InitialEngine, encode).pages == [GoogleUrl + encode(Trim(q)), PerplexityUrl + encode(Trim(q))]
  {
  }
}
