/**
 * `WebTools.get_website_content` (web_tools.py): the about, services and
 * clients sections of a page, and two keyword flags over its lower-cased
 * body text.
 */
module WebContent {
  import opened Wrappers
  import opened Str

  /** What a loaded page offers: its body text and, per section, the texts of
      the elements its CSS selector finds, in document order. */
  datatype PageView = PageView(body: string, about: seq<string>, services: seq<string>, clients: seq<string>)

  datatype Content = Content(about: string, services: string, clients: string, hasAiMention: bool, hasEnterprise: bool)

  const AiKeywords: seq<string> := ["artificial intelligence", "ai", "machine learning", "ml", "deep learning", "automation"]
  const EnterpriseKeywords: seq<string> := ["enterprise", "corporate", "fortune 500", "large business", "multinational"]

  /** The first element's text, or "" when the selector finds nothing. */
  function FirstText(texts: seq<string>): (r: string)
    ensures texts == [] ==> r == ""
    ensures texts != [] ==> r == texts[0]
  {
    if texts == [] then "" else texts[0]
  }

  /** The content of a page; `None` when the page cannot be loaded. */
  function GetWebsiteContent(page: Option<PageView>): Option<Content>
  {
    if page.None? then None
    else
      var p := page.value;
      var bodyText := Lower(p.body);
      Some(Content(FirstText(p.about), FirstText(p.services), FirstText(p.clients),
                   ContainsAny(bodyText, AiKeywords), ContainsAny(bodyText, EnterpriseKeywords)))
  }

  // ---------------------------------------------------------------------------
  // Lemmas

  /** Each flag is set exactly when some keyword occurs, as plain text, in the
      lower-cased body; each section is the first match's text or "". */
  lemma ContentFlags(page: PageView)
    ensures GetWebsiteContent(Some(page)).Some?
    ensures var c := GetWebsiteContent(Some(page)).value;
      && (c.hasAiMention <==> exists k | 0 <= k < |AiKeywords| :: Contains(Lower(page.body), AiKeywords[k]))
      && (c.hasEnterprise <==> exists k | 0 <= k < |EnterpriseKeywords| :: Contains(Lower(page.body), EnterpriseKeywords[k]))
      && (c.about == if page.about == [] then "" else page.about[0])
      && (c.services == if page.services == [] then "" else page.services[0])
      && (c.clients == if page.clients == [] then "" else page.clients[0])
  {
  }

  /** A page that cannot be loaded gives no content. */
  lemma UnloadedPage()
    ensures GetWebsiteContent(None) == None
  {
  }

  /** The AI test is a substring test: any page whose text mentions "email"
      (in any capitalisation) counts as mentioning AI, since "email" holds "ai". */
  lemma EmailCountsAsAi(page: PageView)
    requires Contains(Lower(page.body), "email")
    ensures GetWebsiteContent(Some(page)).value.hasAiMention
  {
    assert StartsWith("email"[2..], "ai");
    assert Contains("email", "ai");
    ContainsTrans(Lower(page.body), "email", "ai");
    assert Contains(Lower(page.body), AiKeywords[1]);
  }

  /** Capitalisation does not matter to the flags. */
  lemma FlagsIgnoreCase(page: PageView)
    ensures GetWebsiteContent(Some(page)) == GetWebsiteContent(Some(page.(body := Lower(page.body))))
  {
    LowerIdempotent(page.body);
  }
}
