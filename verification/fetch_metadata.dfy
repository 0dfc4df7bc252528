/** The job-page metadata route of src/app/api/fetch-metadata/route.ts: where company and
    role come from, the title split, and the whitespace clean-up with length caps. The
    page download and the three HTML matchers (`og:site_name`, `og:title`, `<title>`) are
    parameters: a matcher that finds its tag gives `Some` of the captured text. */
module FetchMetadata {
  import opened Types
  import opened Strings
  import TitleSplit
  import ApplicationForm

  /** Company is cut to 100 characters, role to 200. */
  const CompanyCap: nat := 100
  const RoleCap: nat := 200

  /** The captures of the three matchers on the downloaded HTML. */
  datatype PageMeta = PageMeta(siteName: Option<string>, ogTitle: Option<string>, title: Option<string>)

  /** What downloading the page gave: a thrown error (network or body read), a response
      that is not OK, or the page's metadata. */
  datatype PageFetch = FetchThrew | NotOk | Fetched(meta: PageMeta)

  /** The JSON body: unparsable, or an object whose `url` may be missing. */
  datatype RequestBody = MalformedBody | RequestUrl(url: Option<string>)

  datatype MetadataResponse = UrlRequired400 | Metadata(company: string, role: string)

  /** Company and role before clean-up. */
  datatype Raw = Raw(company: string, role: string)

  /** `s.replace(/\s+/g, " ").trim().slice(0, cap)` */
  function Cleanup(s: string, cap: nat): (r: string)
    ensures |r| <= cap
    ensures SingleSpaced(r)
    ensures r == "" || !IsJsSpace(r[0])
    ensures |r| <= |Trim(CollapseSpaces(s))| && r == Trim(CollapseSpaces(s))[..|r|]
    ensures |Trim(CollapseSpaces(s))| <= cap ==> r == Trim(CollapseSpaces(s))
    ensures |r| == if |Trim(CollapseSpaces(s))| <= cap then |Trim(CollapseSpaces(s))| else cap
  {
    var t := Trim(CollapseSpaces(s));
    TrimKeepsSingleSpaced(CollapseSpaces(s));
    var r := Take(t, cap);
    SingleSpacedSlice(t, 0, |r|);
    assert r == t[0..|r|];
    r
  }

  /** Trimming a single-spaced string leaves it single-spaced. */
  lemma TrimKeepsSingleSpaced(s: string)
    requires SingleSpaced(s)
    ensures SingleSpaced(Trim(s))
  {
    var i, j :| 0 <= i <= j <= |s| && Trim(s) == s[i..j] && AllSpace(s[..i]) && AllSpace(s[j..]);
    SingleSpacedSlice(s, i, j);
  }

  /** Trimming only removes whitespace: the visible characters stay. */
  lemma TrimKeepsVisible(s: string)
    ensures Visible(Trim(s)) == Visible(s)
  {
    var i, j :| 0 <= i <= j <= |s| && Trim(s) == s[i..j] && AllSpace(s[..i]) && AllSpace(s[j..]);
    assert s == s[..i] + (s[i..j] + s[j..]);
    VisibleOfSpaces(s[..i], s[i..j] + s[j..]);
    VisibleOfConcat(s[i..j], s[j..]);
    VisibleOfSpaces(s[j..], "");
    assert s[j..] + "" == s[j..];
  }

  /** Clean-up never loses a visible character unless the cap cuts it off: below the cap
      the result shows exactly the characters of the input, in order. */
  lemma CleanupKeepsVisible(s: string, cap: nat)
    requires |Trim(CollapseSpaces(s))| <= cap
    ensures Visible(Cleanup(s, cap)) == Visible(s)
  {
    TrimKeepsVisible(CollapseSpaces(s));
  }

  /** Text without whitespace that fits under the cap comes through the clean-up as it is. */
  lemma CleanTextIsKept(s: string, cap: nat)
    requires |s| <= cap
    requires forall i :: 0 <= i < |s| ==> !IsJsSpace(s[i])
    ensures Cleanup(s, cap) == s
  {
    CollapseWithoutSpaces(s);
    TrimWithoutSpaces(s);
  }

  /** The role and company a title yields, with the `at` split tried before the dash
      split; both regular expressions run on the same trimmed title. */
  function SplitTitle(role: string): (r: Raw)
    ensures TitleSplit.Match(role, TitleSplit.At).Some? ==>
      var m := TitleSplit.Match(role, TitleSplit.At).value;
      r == Raw(Trim(role[m.second.start..m.second.end]), Trim(role[m.first.start..m.first.end]))
    ensures TitleSplit.Match(role, TitleSplit.At).None? && TitleSplit.Match(role, TitleSplit.Dash).Some? ==>
      var m := TitleSplit.Match(role, TitleSplit.Dash).value;
      r == Raw(Trim(role[m.second.start..m.second.end]), Trim(role[m.first.start..m.first.end]))
    ensures TitleSplit.Match(role, TitleSplit.At).None? && TitleSplit.Match(role, TitleSplit.Dash).None? ==>
      r == Raw("", role)
  {
    match TitleSplit.Match(role, TitleSplit.At)
    case Some(m) => Groups(role, m)
    case None =>
      match TitleSplit.Match(role, TitleSplit.Dash)
      case Some(m) => Groups(role, m)
      case None => Raw("", role)
  }

  /** The trimmed capture groups: the first is the role, the second the company. */
  function Groups(s: string, m: TitleSplit.Split): Raw
    requires m.first.start <= m.first.end <= |s| && m.second.start <= m.second.end <= |s|
  {
    Raw(Trim(s[m.second.start..m.second.end]), Trim(s[m.first.start..m.first.end]))
  }

  /** Company and role from the page, before clean-up. */
  function Extract(meta: PageMeta): (r: Raw)
    ensures meta.ogTitle.Some? && meta.ogTitle.value != "" ==> r.role == meta.ogTitle.value
    ensures meta.siteName.Some? && meta.siteName.value != "" ==> r.company == meta.siteName.value
    ensures (meta.ogTitle.None? || meta.ogTitle.value == "") && meta.title.None? ==>
      r == Raw(meta.siteName.GetOr(""), "")
    ensures (meta.ogTitle.None? || meta.ogTitle.value == "") && meta.title.Some? ==>
      r == (if meta.siteName.GetOr("") != "" then Raw(meta.siteName.value, Trim(meta.title.value))
            else SplitTitle(Trim(meta.title.value)))
  {
    var company := meta.siteName.GetOr("");
    var role := meta.ogTitle.GetOr("");
    if role != "" then Raw(company, role)
    else match meta.title
      case None => Raw(company, role)
      case Some(t) =>
        var trimmed := Trim(t);
        if company != "" then Raw(company, trimmed)
        else SplitTitle(trimmed)
  }

  /** `POST /api/fetch-metadata`. */
  function Handle(body: RequestBody, fetch: string -> PageFetch): (r: MetadataResponse)
    ensures r == UrlRequired400 <==> body.RequestUrl? && !Truthy(body.url)
    ensures body.MalformedBody? ==> r == Metadata("", "")
    ensures body.RequestUrl? && Truthy(body.url) && !fetch(body.url.value).Fetched? ==> r == Metadata("", "")
    ensures r.Metadata? ==> |r.company| <= CompanyCap && |r.role| <= RoleCap
    ensures r.Metadata? ==> SingleSpaced(r.company) && SingleSpaced(r.role)
    ensures r.Metadata? ==> (r.company == "" || !IsJsSpace(r.company[0])) && (r.role == "" || !IsJsSpace(r.role[0]))
    ensures body.RequestUrl? && Truthy(body.url) && fetch(body.url.value).Fetched? ==>
      var raw := Extract(fetch(body.url.value).meta);
      r == Metadata(Cleanup(raw.company, CompanyCap), Cleanup(raw.role, RoleCap))
  {
    match body
    case MalformedBody => Metadata("", "")
    case RequestUrl(url) =>
      if !Truthy(url) then UrlRequired400
      else match fetch(url.value)
        case Fetched(meta) =>
          var raw := Extract(meta);
          Metadata(Cleanup(raw.company, CompanyCap), Cleanup(raw.role, RoleCap))
        case _ => Metadata("", "")
  }

  /** The title is split only when no site name gave a company; otherwise the whole
      trimmed title is the role. */
  lemma SiteNameBlocksTitleSplit(site: string, title: string)
    requires site != ""
    ensures Extract(PageMeta(Some(site), None, Some(title))) == Raw(site, Trim(title))
  {
  }

  /** `og:title` wins over `<title>`: with a non-empty `og:title` the title tag is never
      looked at. */
  lemma OgTitleWins(site: Option<string>, og: string, t1: Option<string>, t2: Option<string>)
    requires og != ""
    ensures Extract(PageMeta(site, Some(og), t1)) == Extract(PageMeta(site, Some(og), t2))
  {
  }

  /** When the trimmed title matches the `at` pattern, its split is used even if the dash
      pattern matches too. */
  lemma AtSplitWins(title: string)
    requires TitleSplit.Match(Trim(title), TitleSplit.At).Some?
    ensures var m := TitleSplit.Match(Trim(title), TitleSplit.At).value;
      Extract(PageMeta(None, None, Some(title))) == Groups(Trim(title), m)
  {
  }

  /** When the `at` pattern does not match the trimmed title but the dash pattern does,
      the dash split gives role and company; when neither matches, the whole trimmed
      title is the role and the company stays empty. */
  lemma DashSplitOrWholeTitle(title: string)
    requires TitleSplit.Match(Trim(title), TitleSplit.At).None?
    ensures var t := Trim(title);
      var r := Extract(PageMeta(None, None, Some(title)));
      && (TitleSplit.Match(t, TitleSplit.Dash).Some? ==> r == Groups(t, TitleSplit.Match(t, TitleSplit.Dash).value))
      && (TitleSplit.Match(t, TitleSplit.Dash).None? ==> r == Raw("", t))
  {
  }

  /** The cap is applied after trimming, so a cut can end on a space: a two-character
      cap on `"a b"` leaves `"a "`. */
  lemma CapCanLeaveTrailingSpace()
    ensures Cleanup("a b", 2) == "a "
  {
    CollapseSingleSpaced();
    TrimUntouched();
  }

  lemma CollapseSingleSpaced()
    ensures CollapseSpaces("a b") == "a b"
  {
    assert CollapseSpaces("b") == "b";
    assert SkipSpaces(" b", 0) == 1;
    assert " b"[1..] == "b";
    assert CollapseSpaces(" b") == " b";
    assert "a b"[1..] == " b";
  }

  lemma TrimUntouched()
    ensures Trim("a b") == "a b"
  {
    assert SkipSpaces("a b", 0) == 0;
    assert SkipSpacesBack("a b", 3) == 3;
  }

  /** How the form reads the route's reply: `response.ok` fails only for the 400. */
  function AsReply(r: MetadataResponse): ApplicationForm.MetadataReply {
    match r
    case UrlRequired400 => ApplicationForm.MetadataNotOk
    case Metadata(company, role) => ApplicationForm.MetadataOk(company, role)
  }

  /** Auto-fill through the route: the form sends its own non-empty URL, so the reply is
      never the 400; a page that cannot be read leaves the form as it was, and a fetched
      page fills company and role with the cleaned page values whenever these are
      non-empty. */
  lemma AutoFillThroughRoute(form: ApplicationForm.FormData, fetch: string -> PageFetch)
    requires form.url != ""
    ensures var r := Handle(RequestUrl(Some(form.url)), fetch);
      var after := ApplicationForm.AutoFill(form, AsReply(r));
      && r != UrlRequired400
      && (!fetch(form.url).Fetched? ==> after == form)
      && (r.Metadata? && r.company != "" ==> after.company == r.company && |after.company| <= CompanyCap)
      && (r.Metadata? && r.role != "" ==> after.role == r.role && |after.role| <= RoleCap)
      && (fetch(form.url).Fetched? ==>
            var raw := Extract(fetch(form.url).meta);
            && r == Metadata(Cleanup(raw.company, CompanyCap), Cleanup(raw.role, RoleCap))
            && after.company == (if r.company != "" then r.company else form.company)
            && after.role == (if r.role != "" then r.role else form.role))
  {
  }
  /** A page whose `og:site_name` is a single word that fits the cap fills the form's
      company with exactly that word. */
  lemma SiteNameReachesForm(form: ApplicationForm.FormData, fetch: string -> PageFetch, site: string)
    requires form.url != ""
    requires fetch(form.url).Fetched? && fetch(form.url).meta.siteName == Some(site)
    requires site != "" && |site| <= CompanyCap
    requires forall i :: 0 <= i < |site| ==> !IsJsSpace(site[i])
    ensures ApplicationForm.AutoFill(form, AsReply(Handle(RequestUrl(Some(form.url)), fetch))).company == site
  {
    CleanTextIsKept(site, CompanyCap);
    assert Extract(fetch(form.url).meta).company == site;
  }
}
