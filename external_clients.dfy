/** The two search clients' filters. The document and news lists the mock
    clients are built with are parameters here. */
module ExternalClients {
  import opened Text
  import opened Seqs

  datatype Document = Document(id: string, text: string, metadata: map<string, string>)

  /** One hit of the knowledge-base query. */
  datatype Match = Match(score: real, metadata: map<string, string>, text: string)

  datatype NewsItem = NewsItem(title: string, content: string, url: string)

  const DefaultTopK: int := 5
  const HitScore: real := 0.9

  predicate DocumentMatches(query: string, d: Document)
  {
    Contains(Lower(d.text), Lower(query))
  }

  function ToMatch(d: Document): Match
  {
    Match(HitScore, d.metadata, d.text)
  }

  function ToMatches(ds: seq<Document>): (ms: seq<Match>)
    ensures |ms| == |ds|
    ensures forall i :: 0 <= i < |ds| ==> ms[i] == ToMatch(ds[i])
  {
    seq(|ds|, i requires 0 <= i < |ds| => ToMatch(ds[i]))
  }

  /** `MockPineconeClient.query`: the documents whose lower-cased text
      contains the lower-cased query, in stored order, cut to `topK`. */
  function Query(documents: seq<Document>, query: string, topK: int): (r: seq<Match>)
    ensures topK >= 0 ==> |r| <= topK
    ensures forall i :: 0 <= i < |r| ==> r[i].score == HitScore
  {
    Take(ToMatches(Filter(d => DocumentMatches(query, d), documents)), topK)
  }

  /** Each hit is a stored document that contains the query; the hits are
      always the first ones of the matching documents in stored order, as
      many as `topK` allows, and when `topK` does not cut, every such
      document is a hit. */
  lemma QueryExact(documents: seq<Document>, query: string, topK: int)
    ensures forall i :: 0 <= i < |Query(documents, query, topK)| ==>
              exists d :: d in documents && DocumentMatches(query, d)
                          && Query(documents, query, topK)[i] == ToMatch(d)
    ensures topK >= |documents| ==>
              Query(documents, query, topK) == ToMatches(Filter(d => DocumentMatches(query, d), documents))
    ensures topK >= |documents| ==>
              forall d :: d in documents && DocumentMatches(query, d) ==> ToMatch(d) in Query(documents, query, topK)
    ensures var all := ToMatches(Filter(d => DocumentMatches(query, d), documents));
            Query(documents, query, topK) == all[..|Query(documents, query, topK)|]
            && (topK >= 0 ==> |Query(documents, query, topK)| == if topK < |all| then topK else |all|)
  {
    var p := d => DocumentMatches(query, d);
    var kept := Filter(p, documents);
    FilterIsSubsequence(p, documents);
    var r := Query(documents, query, topK);
    forall i | 0 <= i < |r|
      ensures exists d :: d in documents && DocumentMatches(query, d) && r[i] == ToMatch(d)
    {
      assert kept[i] in kept;
    }
    if topK >= |documents| {
      forall d | d in documents && DocumentMatches(query, d) ensures ToMatch(d) in r {
        var j :| 0 <= j < |kept| && kept[j] == d;
        assert r[j] == ToMatch(d);
      }
    }
  }

  /** An empty query matches every document, up to `topK`. */
  lemma EmptyQueryMatchesAll(documents: seq<Document>, topK: int)
    requires topK >= 0
    ensures Query(documents, "", topK) == Take(ToMatches(documents), topK)
  {
    forall i | 0 <= i < |documents| ensures DocumentMatches("", documents[i]) {
      ContainsEmpty(Lower(documents[i].text));
    }
    FilterAll(d => DocumentMatches("", d), documents);
  }

  predicate MentionsAnyTerm(terms: seq<string>, content: string)
  {
    exists t :: t in terms && Contains(Lower(content), t)
  }

  predicate ItemMatches(query: string, item: NewsItem)
  {
    MentionsAnyTerm(Words(Lower(query)), item.content)
  }

  /** `MockTavilyClient.search`: the items whose lower-cased content contains
      at least one whitespace-separated term of the lower-cased query. */
  function Search(items: seq<NewsItem>, query: string): (r: seq<NewsItem>)
    ensures |r| <= |items|
  {
    Filter((item: NewsItem) => ItemMatches(query, item), items)
  }

  /** The result keeps exactly the items mentioning some term, in stored order. */
  lemma SearchSelects(items: seq<NewsItem>, query: string)
    ensures IsSubsequence(Search(items, query), items)
    ensures forall item :: item in Search(items, query) <==>
              item in items && ItemMatches(query, item)
  {
    FilterIsSubsequence((item: NewsItem) => ItemMatches(query, item), items);
  }

  lemma LowerKeepsSpace(s: string)
    ensures AllSpace(Lower(s)) <==> AllSpace(s)
  {
    assert forall i :: 0 <= i < |s| ==> (IsSpace(Lower(s)[i]) <==> IsSpace(s[i]));
  }

  /** A query with no terms (empty or only whitespace) finds nothing. */
  lemma SearchWithoutTerms(items: seq<NewsItem>, query: string)
    requires AllSpace(query)
    ensures Search(items, query) == []
  {
    LowerKeepsSpace(query);
    WordsEmpty(Lower(query));
    FilterEmpty((item: NewsItem) => ItemMatches(query, item), items);
  }
}
