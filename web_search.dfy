/**
 * `WebTools.search_urls` (web_tools.py): the result blocks of a search page
 * become result records, at most five, skipping social-network links and
 * blocks that lack a title, a link or a snippet.
 */
module WebSearch {
  import opened Wrappers
  import opened Str

  /** One `div.g` block of the results page. Each field is `None` when the
      lookup fails: the `h3` title, the `a` link's href (a missing anchor and
      an anchor without an href both fail), and the `div.VwiC3b` snippet. */
  datatype Block = Block(title: Option<string>, link: Option<string>, snippet: Option<string>)

  datatype SearchResult = SearchResult(url: string, title: string, snippet: string)

  /** Only the first this many blocks are read. */
  const MaxBlocks: nat := 5

  /** Words that mark a URL as a social-network page. */
  const BlockedWords: seq<string> := ["linkedin", "facebook", "twitter", "instagram", "youtube"]

  predicate Blocked(url: string)
  {
    ContainsAny(Lower(url), BlockedWords)
  }

  /** What one block contributes: nothing when a lookup fails or the URL is blocked. */
  function ResultOf(b: Block): (r: Option<SearchResult>)
  {
    if b.title.None? || b.link.None? || b.snippet.None? then None
    else if Blocked(b.link.value) then None
    else Some(SearchResult(b.link.value, b.title.value, b.snippet.value))
  }

  /** The results of a run of blocks, in block order. */
  function Kept(blocks: seq<Block>): seq<SearchResult>
  {
    if blocks == [] then []
    else
      var last := ResultOf(blocks[|blocks| - 1]);
      Kept(blocks[..|blocks| - 1]) + (if last.Some? then [last.value] else [])
  }

  function FirstBlocks(blocks: seq<Block>): (r: seq<Block>)
    ensures |r| <= MaxBlocks && |r| <= |blocks| && r == blocks[..|r|]
    ensures |blocks| >= MaxBlocks ==> |r| == MaxBlocks
    ensures |blocks| < MaxBlocks ==> r == blocks
  {
    if |blocks| <= MaxBlocks then blocks else blocks[..MaxBlocks]
  }

  /** The results for a page: `None` is a page that could not be searched at all. */
  function SearchSpec(page: Option<seq<Block>>): seq<SearchResult>
  {
    if page.None? then [] else Kept(FirstBlocks(page.value))
  }

  /** `search_urls(query)` over the page the query leads to. */
  method SearchUrls(page: Option<seq<Block>>) returns (results: seq<SearchResult>)
    ensures results == SearchSpec(page)
  {
    if page.None? {
      return [];
    }
    var blocks := FirstBlocks(page.value);
    results := [];
    for i := 0 to |blocks|
      invariant results == Kept(blocks[..i])
    {
      var b := blocks[i];
      assert blocks[..i + 1][..i] == blocks[..i];
      if b.title.None? || b.link.None? || b.snippet.None? {
        continue;
      }
      var result := SearchResult(b.link.value, b.title.value, b.snippet.value);
      if ContainsAny(Lower(result.url), BlockedWords) {
        continue;
      }
      results := results + [result];
    }
    assert blocks[..|blocks|] == blocks;
  }

  // ---------------------------------------------------------------------------
  // Lemmas

  /** No more results than blocks, and no result from a blocked URL. */
  lemma {:induction false} KeptBound(blocks: seq<Block>)
    ensures |Kept(blocks)| <= |blocks|
    ensures forall k | 0 <= k < |Kept(blocks)| :: !Blocked(Kept(blocks)[k].url)
    decreases |blocks|
  {
    if blocks != [] {
      KeptBound(blocks[..|blocks| - 1]);
    }
  }

  /** A result is kept exactly when some block yields it. */
  lemma {:induction false} KeptMembers(blocks: seq<Block>, r: SearchResult)
    ensures r in Kept(blocks) <==> exists j | 0 <= j < |blocks| :: ResultOf(blocks[j]) == Some(r)
    decreases |blocks|
  {
    if blocks != [] {
      var init := blocks[..|blocks| - 1];
      KeptMembers(init, r);
      if exists j | 0 <= j < |init| :: ResultOf(init[j]) == Some(r) {
        var j :| 0 <= j < |init| && ResultOf(init[j]) == Some(r);
        assert blocks[j] == init[j];
      }
      if exists j | 0 <= j < |blocks| :: ResultOf(blocks[j]) == Some(r) {
        var j :| 0 <= j < |blocks| && ResultOf(blocks[j]) == Some(r);
        if j < |init| {
          assert init[j] == blocks[j];
        }
      }
    }
  }

  /** Results keep the order of their blocks: the results of a concatenation
      are the results of each part, one after the other. */
  lemma {:induction false} KeptConcat(a: seq<Block>, b: seq<Block>)
    ensures Kept(a + b) == Kept(a) + Kept(b)
    decreases |b|
  {
    if b == [] {
      assert a + b == a;
    } else {
      var init := b[..|b| - 1];
      KeptConcat(a, init);
      assert (a + b)[..|a + b| - 1] == a + init;
      assert (a + b)[|a + b| - 1] == b[|b| - 1];
    }
  }

  /** At most five results, none from a social network, every one drawn from
      one of the first five blocks, and none at all when the search fails. */
  lemma SearchShape(page: Option<seq<Block>>)
    ensures |SearchSpec(page)| <= MaxBlocks
    ensures forall k | 0 <= k < |SearchSpec(page)| :: !Blocked(SearchSpec(page)[k].url)
    ensures forall r | r in SearchSpec(page) ::
      page.Some? && exists j | 0 <= j < |page.value| && j < MaxBlocks :: ResultOf(page.value[j]) == Some(r)
    ensures page.None? ==> SearchSpec(page) == []
  {
    if page.Some? {
      var blocks := FirstBlocks(page.value);
      KeptBound(blocks);
      forall r | r in SearchSpec(page)
        ensures exists j | 0 <= j < |page.value| && j < MaxBlocks :: ResultOf(page.value[j]) == Some(r)
      {
        KeptMembers(blocks, r);
        var j :| 0 <= j < |blocks| && ResultOf(blocks[j]) == Some(r);
        assert page.value[j] == blocks[j];
      }
    }
  }

  /** The blocked-word test ignores case: "LinkedIn" in any capitalisation blocks a URL. */
  lemma BlockedIgnoresCase(url: string)
    ensures Blocked(url) <==> exists k | 0 <= k < |BlockedWords| :: Contains(Lower(url), BlockedWords[k])
    ensures Blocked(url) == Blocked(Lower(url))
  {
    LowerIdempotent(url);
  }
}
