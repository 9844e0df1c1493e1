/**
 * `WebTools.extract_contact_info` (web_tools.py) over page snapshots: social
 * links from the homepage and its footers, the choice of contact pages to
 * visit, what each page contributes, and the final de-duplication.
 */
module WebContacts {
  import opened Wrappers
  import opened Str

  /** An `<a>` element: its text and its `href` attribute, if any. `text` is
      the element's first text-node child, which is what XPath's `text()`
      gives inside `translate(...)`, not the rendered text of the whole
      element: a label held in a nested element such as a `<span>` is not
      part of it, so such an anchor never matches a contact text. */
  datatype Anchor = Anchor(text: string, href: Option<string>)

  /** A `<p>` element: its text and whether the UK postcode pattern occurs in it. */
  datatype Paragraph = Paragraph(text: string, hasPostcode: bool)

  /** What the homepage offers: the hrefs of its social anchors, the social
      anchor hrefs inside each footer element, and all its anchors, each list
      in document order. */
  datatype Homepage = Homepage(socialHrefs: seq<Option<string>>, footers: seq<seq<Option<string>>>, anchors: seq<Anchor>)

  /** What a contact page offers: the email and phone pattern matches of its
      body text, its social anchor hrefs, the texts of its address-like
      elements, and its paragraphs. */
  datatype ContactPage = ContactPage(
    emailMatches: seq<string>,
    phoneMatches: seq<string>,
    socialHrefs: seq<Option<string>>,
    addressTexts: seq<string>,
    paragraphs: seq<Paragraph>)

  /** A site: the homepage (`None` when it cannot be loaded) and the pages that
      load, by URL; a URL outside `pages` fails to load. */
  datatype Site = Site(home: Option<Homepage>, pages: map<string, ContactPage>)

  /** The five lists of `contact_info`. */
  datatype ContactInfo = ContactInfo(
    emails: seq<string>,
    phones: seq<string>,
    linkedin: seq<string>,
    instagram: seq<string>,
    addresses: seq<string>)

  const NoContacts: ContactInfo := ContactInfo([], [], [], [], [])

  /** The anchor texts tried, in order, to find a contact page. */
  const ContactTerms: seq<string> :=
    ["contact", "contact us", "get in touch", "say hi", "reach out", "talk to us", "connect", "let's talk", "write to us"]

  /** The paths tried when no contact link is found. */
  const FallbackPaths: seq<string> := ["/contact", "/contact-us", "/get-in-touch", "/connect", "/about", "/about-us"]

  /** Words that mark an email address as a placeholder. */
  const PlaceholderWords: seq<string> := ["example", "domain", "email"]

  /** An address must be longer than this once trimmed. */
  const MinAddressLength: nat := 10

  // ---------------------------------------------------------------------------
  // Social links

  datatype Network = LinkedIn | Instagram | Neither

  function Classify(href: string): (n: Network)
  {
    if Contains(href, "linkedin.com") then LinkedIn
    else if Contains(href, "instagram.com") then Instagram
    else Neither
  }

  /** One social href: a missing or empty one is ignored. */
  function AddSocial(info: ContactInfo, href: Option<string>): ContactInfo
  {
    if href.None? || href.value == "" then info
    else match Classify(href.value)
      case LinkedIn => info.(linkedin := info.linkedin + [href.value])
      case Instagram => info.(instagram := info.instagram + [href.value])
      case Neither => info
  }

  function AddSocials(info: ContactInfo, hrefs: seq<Option<string>>): ContactInfo
  {
    if hrefs == [] then info else AddSocial(AddSocials(info, hrefs[..|hrefs| - 1]), hrefs[|hrefs| - 1])
  }

  function AddFooters(info: ContactInfo, footers: seq<seq<Option<string>>>): ContactInfo
  {
    if footers == [] then info else AddSocials(AddFooters(info, footers[..|footers| - 1]), footers[|footers| - 1])
  }

  // ---------------------------------------------------------------------------
  // Finding the contact page

  /** A term with a single quote breaks the quoted XPath literal it is placed
      in; the query fails and the term is skipped. */
  predicate QueryBroken(term: string)
  {
    '\'' in term
  }

  /** The anchor's text, lower-cased, is the term (`exact`) or contains it. */
  predicate Hit(a: Anchor, term: string, exact: bool)
  {
    if exact then Lower(a.text) == term else Contains(Lower(a.text), term)
  }

  /** The first anchor the query finds, by position. */
  function FirstHit(anchors: seq<Anchor>, term: string, exact: bool): (r: Option<nat>)
    ensures r.Some? ==> r.value < |anchors| && Hit(anchors[r.value], term, exact)
    ensures r.Some? ==> forall j | 0 <= j < r.value :: !Hit(anchors[j], term, exact)
    ensures r.None? ==> forall j | 0 <= j < |anchors| :: !Hit(anchors[j], term, exact)
  {
    if anchors == [] then None
    else if Hit(anchors[0], term, exact) then Some(0)
    else
      var rest := FirstHit(anchors[1..], term, exact);
      if rest.Some? then Some(rest.value + 1) else None
  }

  /** The outcome of the search over terms: `None` when no term hits, else the
      href of the first hit (which may itself be missing). Per term, an exact
      match is looked for before a containing one. */
  function LinkSearch(anchors: seq<Anchor>, terms: seq<string>): Option<Option<string>>
  {
    if terms == [] then None
    else if QueryBroken(terms[0]) then LinkSearch(anchors, terms[1..])
    else
      var exact := FirstHit(anchors, terms[0], true);
      if exact.Some? then Some(anchors[exact.value].href)
      else
        var partial := FirstHit(anchors, terms[0], false);
        if partial.Some? then Some(anchors[partial.value].href)
        else LinkSearch(anchors, terms[1..])
  }

  /** A search outcome counts as a link when it is a non-empty href. */
  predicate LinkFound(link: Option<Option<string>>)
  {
    link.Some? && link.value.Some? && link.value.value != ""
  }

  function FallbackUrls(url: string): seq<string>
  {
    [url + FallbackPaths[0], url + FallbackPaths[1], url + FallbackPaths[2],
     url + FallbackPaths[3], url + FallbackPaths[4], url + FallbackPaths[5]]
  }

  /** The pages to visit. */
  function ContactUrls(url: string, link: Option<Option<string>>): seq<string>
  {
    if LinkFound(link) then [link.value.value] else FallbackUrls(url)
  }

  // ---------------------------------------------------------------------------
  // What a contact page contributes

  predicate IsPlaceholder(email: string)
  {
    ContainsAny(Lower(email), PlaceholderWords)
  }

  /** The email matches that are not placeholders, in order. */
  function KeptEmails(matches: seq<string>): seq<string>
  {
    if matches == [] then []
    else
      var last := matches[|matches| - 1];
      KeptEmails(matches[..|matches| - 1]) + (if IsPlaceholder(last) then [] else [last])
  }

  /** The texts of paragraphs with a postcode, in order. */
  function PostcodeTexts(ps: seq<Paragraph>): seq<string>
  {
    if ps == [] then []
    else
      var last := ps[|ps| - 1];
      PostcodeTexts(ps[..|ps| - 1]) + (if last.hasPostcode then [last.text] else [])
  }

  /** Where addresses are read from: the address elements, or, only when there
      are none, the postcode paragraphs. */
  function AddressSources(page: ContactPage): seq<string>
  {
    if page.addressTexts != [] then page.addressTexts else PostcodeTexts(page.paragraphs)
  }

  predicate AcceptedAddress(text: string)
  {
    Strip(text) != "" && |Strip(text)| > MinAddressLength
  }

  /** The trimmed texts that are long enough, in order. */
  function Addresses(texts: seq<string>): seq<string>
  {
    if texts == [] then []
    else
      var last := texts[|texts| - 1];
      Addresses(texts[..|texts| - 1]) + (if AcceptedAddress(last) then [Strip(last)] else [])
  }

  function AddPage(info: ContactInfo, page: ContactPage): ContactInfo
  {
    var withText := info.(emails := info.emails + KeptEmails(page.emailMatches), phones := info.phones + page.phoneMatches);
    var withSocial := AddSocials(withText, page.socialHrefs);
    withSocial.(addresses := withSocial.addresses + Addresses(AddressSources(page)))
  }

  /** The candidate pages in order; one that fails to load adds nothing. */
  function AddCandidates(info: ContactInfo, urls: seq<string>, pages: map<string, ContactPage>): ContactInfo
  {
    if urls == [] then info
    else
      var before := AddCandidates(info, urls[..|urls| - 1], pages);
      var url := urls[|urls| - 1];
      if url in pages then AddPage(before, pages[url]) else before
  }

  // ---------------------------------------------------------------------------
  // De-duplication and the whole extraction

  /** `list(dict.fromkeys(xs))`: the first occurrence of each value, in order. */
  function Dedup(xs: seq<string>): seq<string>
  {
    if xs == [] then []
    else
      var init := Dedup(xs[..|xs| - 1]);
      if xs[|xs| - 1] in init then init else init + [xs[|xs| - 1]]
  }

  function DedupAll(info: ContactInfo): ContactInfo
  {
    ContactInfo(Dedup(info.emails), Dedup(info.phones), Dedup(info.linkedin), Dedup(info.instagram), Dedup(info.addresses))
  }

  /** Everything gathered before de-duplication. */
  function Gathered(url: string, home: Homepage, pages: map<string, ContactPage>): ContactInfo
  {
    var fromHome := AddFooters(AddSocials(NoContacts, home.socialHrefs), home.footers);
    AddCandidates(fromHome, ContactUrls(url, LinkSearch(home.anchors, ContactTerms)), pages)
  }

  function ContactSpec(url: string, site: Site): Option<ContactInfo>
  {
    if site.home.None? then None else Some(DedupAll(Gathered(url, site.home.value, site.pages)))
  }

  // ---------------------------------------------------------------------------
  // The `contact_info` dictionary

  class ContactLists {
    var emails: seq<string>
    var phones: seq<string>
    var linkedin: seq<string>
    var instagram: seq<string>
    var addresses: seq<string>

    function Snapshot(): ContactInfo
      reads this
    {
      ContactInfo(emails, phones, linkedin, instagram, addresses)
    }

    constructor()
      ensures Snapshot() == NoContacts
    {
      emails, phones, linkedin, instagram, addresses := [], [], [], [], [];
    }

    /** The loop over social anchors, shared by the homepage, footers and contact pages. */
    method AddSocialLinks(hrefs: seq<Option<string>>)
      modifies this
      ensures Snapshot() == AddSocials(old(Snapshot()), hrefs)
    {
      ghost var start := Snapshot();
      for i := 0 to |hrefs|
        invariant Snapshot() == AddSocials(start, hrefs[..i])
      {
        assert hrefs[..i + 1][..i] == hrefs[..i];
        var href := hrefs[i];
        if href.Some? && href.value != "" {
          if Contains(href.value, "linkedin.com") {
            linkedin := linkedin + [href.value];
          } else if Contains(href.value, "instagram.com") {
            instagram := instagram + [href.value];
          }
        }
      }
      assert hrefs[..|hrefs|] == hrefs;
    }

    /** The body of the loop over candidate pages, for a page that loads. */
    method AddContactPage(page: ContactPage)
      modifies this
      ensures Snapshot() == AddPage(old(Snapshot()), page)
    {
      emails := emails + KeptEmails(page.emailMatches);
      phones := phones + page.phoneMatches;
      AddSocialLinks(page.socialHrefs);
      var sources := page.addressTexts;
      if sources == [] {
        sources := PostcodeParagraphs(page.paragraphs);
      }
      AddAddresses(sources);
    }

    /** The loop over address elements. */
    method AddAddresses(sources: seq<string>)
      modifies this
      ensures Snapshot() == old(Snapshot()).(addresses := old(addresses) + Addresses(sources))
    {
      ghost var found := addresses;
      for i := 0 to |sources|
        invariant addresses == found + Addresses(sources[..i])
        invariant emails == old(emails) && phones == old(phones)
        invariant linkedin == old(linkedin) && instagram == old(instagram)
      {
        assert sources[..i + 1][..i] == sources[..i];
        var addrText := Strip(sources[i]);
        if addrText != "" && |addrText| > MinAddressLength {
          addresses := addresses + [addrText];
        }
      }
      assert sources[..|sources|] == sources;
    }

    /** Rebuild every list without duplicates. */
    method RemoveDuplicates()
      modifies this
      ensures Snapshot() == DedupAll(old(Snapshot()))
    {
      emails := Dedup(emails);
      phones := Dedup(phones);
      linkedin := Dedup(linkedin);
      instagram := Dedup(instagram);
      addresses := Dedup(addresses);
    }
  }

  /** The loop over paragraphs that collects those with a postcode. */
  method PostcodeParagraphs(paragraphs: seq<Paragraph>) returns (texts: seq<string>)
    ensures texts == PostcodeTexts(paragraphs)
  {
    texts := [];
    for i := 0 to |paragraphs|
      invariant texts == PostcodeTexts(paragraphs[..i])
    {
      assert paragraphs[..i + 1][..i] == paragraphs[..i];
      if paragraphs[i].hasPostcode {
        texts := texts + [paragraphs[i].text];
      }
    }
    assert paragraphs[..|paragraphs|] == paragraphs;
  }

  /** The search over contact terms, stopping at the first hit. */
  method FindContactLink(anchors: seq<Anchor>) returns (link: Option<Option<string>>)
    ensures link == LinkSearch(anchors, ContactTerms)
  {
    link := None;
    var t := 0;
    while t < |ContactTerms|
      invariant 0 <= t <= |ContactTerms|
      invariant LinkSearch(anchors, ContactTerms) == LinkSearch(anchors, ContactTerms[t..])
    {
      var term := ContactTerms[t];
      assert ContactTerms[t..][0] == term && ContactTerms[t..][1..] == ContactTerms[t + 1..];
      if !QueryBroken(term) {
        var exact := FirstHit(anchors, term, true);
        if exact.Some? {
          return Some(anchors[exact.value].href);
        }
        var partial := FirstHit(anchors, term, false);
        if partial.Some? {
          return Some(anchors[partial.value].href);
        }
      }
      t := t + 1;
    }
  }

  /** `extract_contact_info(url)` over a site's snapshots. */
  method ExtractContactInfo(url: string, site: Site) returns (info: Option<ContactInfo>)
    ensures info == ContactSpec(url, site)
  {
    if site.home.None? {
      return None;
    }
    var home := site.home.value;
    var lists := new ContactLists();
    lists.AddSocialLinks(home.socialHrefs);
    ghost var afterHome := lists.Snapshot();
    for i := 0 to |home.footers|
      invariant lists.Snapshot() == AddFooters(afterHome, home.footers[..i])
    {
      assert home.footers[..i + 1][..i] == home.footers[..i];
      lists.AddSocialLinks(home.footers[i]);
    }
    assert home.footers[..|home.footers|] == home.footers;

    var contactLink := FindContactLink(home.anchors);
    var contactUrls := if LinkFound(contactLink) then [contactLink.value.value] else FallbackUrls(url);

    ghost var beforePages := lists.Snapshot();
    for i := 0 to |contactUrls|
      invariant lists.Snapshot() == AddCandidates(beforePages, contactUrls[..i], site.pages)
    {
      assert contactUrls[..i + 1][..i] == contactUrls[..i];
      if contactUrls[i] in site.pages {
        lists.AddContactPage(site.pages[contactUrls[i]]);
      }
    }
    assert contactUrls[..|contactUrls|] == contactUrls;

    lists.RemoveDuplicates();
    return Some(lists.Snapshot());
  }

  // ---------------------------------------------------------------------------
  // Lemmas

  predicate NoDuplicates(xs: seq<string>)
  {
    forall i, j | 0 <= i < j < |xs| :: xs[i] != xs[j]
  }

  /** Social hrefs only ever extend the two social lists: an href lands in the
      LinkedIn list only if it names linkedin.com, in the Instagram list only if
      it names instagram.com and not linkedin.com, so never in both. */
  lemma {:induction false} SocialsSorted(info: ContactInfo, hrefs: seq<Option<string>>)
    ensures var r := AddSocials(info, hrefs);
      && r.emails == info.emails && r.phones == info.phones && r.addresses == info.addresses
      && |r.linkedin| >= |info.linkedin| && r.linkedin[..|info.linkedin|] == info.linkedin
      && |r.instagram| >= |info.instagram| && r.instagram[..|info.instagram|] == info.instagram
      && |r.linkedin| - |info.linkedin| + |r.instagram| - |info.instagram| <= |hrefs|
      && (forall k | |info.linkedin| <= k < |r.linkedin| :: Contains(r.linkedin[k], "linkedin.com"))
      && (forall k | |info.instagram| <= k < |r.instagram| ::
            Contains(r.instagram[k], "instagram.com") && !Contains(r.instagram[k], "linkedin.com"))
    decreases |hrefs|
  {
    if hrefs != [] {
      var before := AddSocials(info, hrefs[..|hrefs| - 1]);
      SocialsSorted(info, hrefs[..|hrefs| - 1]);
      var r := AddSocial(before, hrefs[|hrefs| - 1]);
      assert r.linkedin[..|before.linkedin|] == before.linkedin;
      assert r.instagram[..|before.instagram|] == before.instagram;
      assert r.linkedin[..|info.linkedin|] == before.linkedin[..|info.linkedin|];
      assert r.instagram[..|info.instagram|] == before.instagram[..|info.instagram|];
    }
  }

  /** "let's talk" is the one contact term whose query always fails. */
  lemma OnlyLetsTalkBroken()
    ensures QueryBroken(ContactTerms[7]) && ContactTerms[7] == "let's talk"
    ensures forall k | 0 <= k < |ContactTerms| && k != 7 :: !QueryBroken(ContactTerms[k])
  {
    assert ContactTerms[7][3] == '\'';
  }

  /** An exact match is also a containing match. */
  lemma ExactIsContained(a: Anchor, term: string)
    requires Hit(a, term, true)
    ensures Hit(a, term, false)
  {
    assert StartsWith(Lower(a.text)[0..], term);
  }

  /** The search finds nothing exactly when no usable term is contained in any
      anchor's lower-cased text. */
  lemma {:induction false} LinkSearchMisses(anchors: seq<Anchor>, terms: seq<string>)
    ensures LinkSearch(anchors, terms).None? <==>
      forall k, j | 0 <= k < |terms| && 0 <= j < |anchors| && !QueryBroken(terms[k]) :: !Hit(anchors[j], terms[k], false)
    decreases |terms|
  {
    if terms != [] {
      LinkSearchMisses(anchors, terms[1..]);
      assert forall k | 1 <= k < |terms| :: terms[k] == terms[1..][k - 1];
      if !QueryBroken(terms[0]) {
        var exact := FirstHit(anchors, terms[0], true);
        if exact.Some? {
          ExactIsContained(anchors[exact.value], terms[0]);
        }
      }
    }
  }

  /** When the search hits, it returns the href of an anchor (`j`) that
      contains a usable term (`k`), and no earlier usable term is contained in
      any anchor. */
  lemma {:induction false} LinkSearchHits(anchors: seq<Anchor>, terms: seq<string>) returns (k: nat, j: nat)
    requires LinkSearch(anchors, terms).Some?
    ensures k < |terms| && j < |anchors|
    ensures !QueryBroken(terms[k]) && Hit(anchors[j], terms[k], false)
    ensures LinkSearch(anchors, terms).value == anchors[j].href
    ensures forall k2, j2 | 0 <= k2 < k && 0 <= j2 < |anchors| && !QueryBroken(terms[k2]) ::
      !Hit(anchors[j2], terms[k2], false)
    decreases |terms|
  {
    var exact := FirstHit(anchors, terms[0], true);
    var partial := FirstHit(anchors, terms[0], false);
    if !QueryBroken(terms[0]) && exact.Some? {
      k, j := 0, exact.value;
      ExactIsContained(anchors[j], terms[0]);
    } else if !QueryBroken(terms[0]) && partial.Some? {
      k, j := 0, partial.value;
    } else {
      var k1, j1 := LinkSearchHits(anchors, terms[1..]);
      k, j := k1 + 1, j1;
      assert terms[k] == terms[1..][k1];
      forall k2, j2 | 0 <= k2 < k && 0 <= j2 < |anchors| && !QueryBroken(terms[k2])
        ensures !Hit(anchors[j2], terms[k2], false)
      {
        if k2 > 0 {
          assert terms[k2] == terms[1..][k2 - 1];
        }
      }
    }
  }

  /** Exact before containing: when a usable term matches some anchor exactly,
      the first exact match is the link, even if an earlier anchor merely
      contains the term. */
  lemma ExactMatchWins(anchors: seq<Anchor>, term: string, rest: seq<string>, j: nat)
    requires !QueryBroken(term) && j < |anchors| && Hit(anchors[j], term, true)
    requires forall i | 0 <= i < j :: !Hit(anchors[i], term, true)
    ensures LinkSearch(anchors, [term] + rest) == Some(anchors[j].href)
  {
    assert FirstHit(anchors, term, true) == Some(j);
    assert ([term] + rest)[0] == term;
  }

  /** With no usable link the six fallback pages are tried, in this order;
      otherwise only the link. */
  lemma CandidateUrls(url: string, link: Option<Option<string>>)
    ensures !LinkFound(link) ==>
      ContactUrls(url, link) == [url + "/contact", url + "/contact-us", url + "/get-in-touch", url + "/connect", url + "/about", url + "/about-us"]
    ensures LinkFound(link) ==> ContactUrls(url, link) == [link.value.value]
  {
  }

  /** No kept email mentions a placeholder word in any capitalisation, and an
      email is kept exactly when it was matched and is not a placeholder. */
  lemma {:induction false} EmailsFiltered(matches: seq<string>)
    ensures |KeptEmails(matches)| <= |matches|
    ensures forall k, w | 0 <= k < |KeptEmails(matches)| && 0 <= w < |PlaceholderWords| ::
      !Contains(Lower(KeptEmails(matches)[k]), PlaceholderWords[w])
    ensures forall e :: e in KeptEmails(matches) <==> e in matches && !IsPlaceholder(e)
    decreases |matches|
  {
    if matches != [] {
      var init := matches[..|matches| - 1];
      EmailsFiltered(init);
      assert matches == init + [matches[|matches| - 1]];
    }
  }

  /** Every kept address is the trimmed text of a source longer than ten characters. */
  lemma {:induction false} AddressesLongEnough(texts: seq<string>)
    ensures |Addresses(texts)| <= |texts|
    ensures forall k | 0 <= k < |Addresses(texts)| ::
      |Addresses(texts)[k]| > MinAddressLength && exists t | t in texts :: Addresses(texts)[k] == Strip(t)
    decreases |texts|
  {
    if texts != [] {
      var init := texts[..|texts| - 1];
      var last := texts[|texts| - 1];
      var before := Addresses(init);
      var after := Addresses(texts);
      assert after == before + (if AcceptedAddress(last) then [Strip(last)] else []);
      AddressesLongEnough(init);
      forall k | 0 <= k < |after|
        ensures |after[k]| > MinAddressLength && exists t | t in texts :: after[k] == Strip(t)
      {
        if k < |before| {
          assert after[k] == before[k];
          var t :| t in init && before[k] == Strip(t);
          assert t in texts;
        } else {
          assert after[k] == Strip(last);
          assert last in texts;
        }
      }
    }
  }

  /** Postcode paragraphs matter only on a page without address elements. */
  lemma ParagraphsIgnoredWithAddressElements(info: ContactInfo, page: ContactPage, paragraphs: seq<Paragraph>)
    requires page.addressTexts != []
    ensures AddPage(info, page.(paragraphs := paragraphs)) == AddPage(info, page)
  {
  }

  /** Candidate pages none of which loads add nothing. */
  lemma {:induction false} UnloadedPagesAddNothing(info: ContactInfo, urls: seq<string>, pages: map<string, ContactPage>)
    requires forall k | 0 <= k < |urls| :: urls[k] !in pages
    ensures AddCandidates(info, urls, pages) == info
    decreases |urls|
  {
    if urls != [] {
      UnloadedPagesAddNothing(info, urls[..|urls| - 1], pages);
    }
  }

  /** One candidate page that fails to load adds nothing and does not stop
      the pages after it: the result is that of the same list without it. */
  lemma {:induction false} UnloadedPageSkipped(info: ContactInfo, a: seq<string>, u: string, b: seq<string>, pages: map<string, ContactPage>)
    requires u !in pages
    ensures AddCandidates(info, a + [u] + b, pages) == AddCandidates(info, a + b, pages)
    decreases |b|
  {
    if b == [] {
      assert a + [u] + b == a + [u];
      CandidatesSnoc(info, a, u, pages);
      assert a + b == a;
    } else {
      var b', v := b[..|b| - 1], b[|b| - 1];
      UnloadedPageSkipped(info, a, u, b', pages);
      assert a + [u] + b == (a + [u] + b') + [v];
      assert a + b == (a + b') + [v];
      CandidatesSnoc(info, a + [u] + b', v, pages);
      CandidatesSnoc(info, a + b', v, pages);
    }
  }

  /** The candidates visited so far, then one more. */
  lemma CandidatesSnoc(info: ContactInfo, urls: seq<string>, url: string, pages: map<string, ContactPage>)
    ensures AddCandidates(info, urls + [url], pages)
         == if url in pages then AddPage(AddCandidates(info, urls, pages), pages[url]) else AddCandidates(info, urls, pages)
  {
    assert (urls + [url])[..|urls|] == urls;
  }

  /** Visiting one more candidate page only appends: what was gathered before
      stays at the front of every list. */
  lemma AddPageAppends(info: ContactInfo, page: ContactPage)
    ensures var r := AddPage(info, page);
      && |r.emails| >= |info.emails| && r.emails[..|info.emails|] == info.emails
      && |r.phones| >= |info.phones| && r.phones[..|info.phones|] == info.phones
      && |r.linkedin| >= |info.linkedin| && r.linkedin[..|info.linkedin|] == info.linkedin
      && |r.instagram| >= |info.instagram| && r.instagram[..|info.instagram|] == info.instagram
      && |r.addresses| >= |info.addresses| && r.addresses[..|info.addresses|] == info.addresses
  {
    var withText := info.(emails := info.emails + KeptEmails(page.emailMatches), phones := info.phones + page.phoneMatches);
    SocialsSorted(withText, page.socialHrefs);
    var r := AddPage(info, page);
    assert r.emails[..|info.emails|] == info.emails;
    assert r.phones[..|info.phones|] == info.phones;
  }

  /** The first occurrence of each value, in order: no duplicates, the same values. */
  lemma {:induction false} DedupFacts(xs: seq<string>)
    ensures NoDuplicates(Dedup(xs))
    ensures forall x :: x in Dedup(xs) <==> x in xs
    ensures |Dedup(xs)| <= |xs|
    decreases |xs|
  {
    if xs != [] {
      DedupFacts(xs[..|xs| - 1]);
      assert xs == xs[..|xs| - 1] + [xs[|xs| - 1]];
    }
  }

  /** First-seen order: de-duplicating a longer list only appends to the
      de-duplication of its prefix. */
  lemma {:induction false} DedupExtends(xs: seq<string>, ys: seq<string>)
    ensures |Dedup(xs + ys)| >= |Dedup(xs)|
    ensures Dedup(xs + ys)[..|Dedup(xs)|] == Dedup(xs)
    decreases |ys|
  {
    if ys == [] {
      assert xs + ys == xs;
    } else {
      var init := ys[..|ys| - 1];
      DedupExtends(xs, init);
      assert (xs + ys)[..|xs + ys| - 1] == xs + init;
      var d := Dedup(xs + init);
      assert Dedup(xs + ys)[..|d|] == d;
      assert Dedup(xs + ys)[..|Dedup(xs)|] == d[..|Dedup(xs)|];
    }
  }

  /** A list without duplicates is left as it is. */
  lemma {:induction false} DedupKeeps(xs: seq<string>)
    requires NoDuplicates(xs)
    ensures Dedup(xs) == xs
    decreases |xs|
  {
    if xs != [] {
      var init := xs[..|xs| - 1];
      DedupKeeps(init);
      assert xs[|xs| - 1] !in init by {
        forall i | 0 <= i < |init|
          ensures init[i] != xs[|xs| - 1]
        {
          assert init[i] == xs[i];
        }
      }
    }
  }

  /** Extraction fails exactly when the homepage does not load; otherwise each
      of the five lists is duplicate-free and holds exactly the values gathered. */
  lemma ExtractionOutcome(url: string, site: Site)
    ensures ContactSpec(url, site).None? <==> site.home.None?
    ensures ContactSpec(url, site).Some? ==>
      var r := ContactSpec(url, site).value;
      var g := Gathered(url, site.home.value, site.pages);
      && NoDuplicates(r.emails) && (forall x :: x in r.emails <==> x in g.emails)
      && NoDuplicates(r.phones) && (forall x :: x in r.phones <==> x in g.phones)
      && NoDuplicates(r.linkedin) && (forall x :: x in r.linkedin <==> x in g.linkedin)
      && NoDuplicates(r.instagram) && (forall x :: x in r.instagram <==> x in g.instagram)
      && NoDuplicates(r.addresses) && (forall x :: x in r.addresses <==> x in g.addresses)
  {
    if site.home.Some? {
      var g := Gathered(url, site.home.value, site.pages);
      DedupFacts(g.emails);
      DedupFacts(g.phones);
      DedupFacts(g.linkedin);
      DedupFacts(g.instagram);
      DedupFacts(g.addresses);
    }
  }
}
