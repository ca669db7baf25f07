/** The identifier checks and the text extractions `edgar.py` performs on
    EDGAR pages: `check_cik`, `check_sic`, `get_cik`, `get_activity` and
    `get_sic`. Requests and HTML parsing are not modelled: their outcomes are
    inputs, as the text the scraper reads out of the parsed page. */
module Scrape {
  import opened Wrappers
  import opened Text
  import Configuration

  /** The outcome of `requests.get`: it raised, or a response arrived. */
  datatype Response = Failed | Response(status: int, content: string)

  /** The parts of an EDGAR company browse page the scraper reads. */
  datatype BrowsePage =
    | Unreachable
      // `get` raised
    | Page(content: string, companyName: Option<string>, identLink: Option<IdentLink>)
      // `companyName`: the text of the first `companyName` span, if any;
      // `identLink`: the first link of the `identInfo` paragraph, if any

  /** The first link of the `identInfo` paragraph, through the text of the
      node that follows it (`sic`) and of the node after that (`activity`). */
  datatype IdentLink = IdentLink(sic: string, activity: string)

  /** The marker that precedes the CIK in the company name line. */
  const CikMarker: string := "CIK#:"

  /** The marker that precedes the activity after the SIC link. */
  const ActivityMarker: string := "- "

  /** The value `get_activity` and `get_sic` return when nothing is found. */
  const NotAvailable: string := "N/A"

  /** The value `get_cik` returns when no CIK can be obtained. */
  const CikError: string := "ERROR"

  /** The page EDGAR serves for an unknown ticker. The source tests the same
      message twice, so a page with the second error message passes. */
  predicate UnknownTicker(content: string) {
    Contains(content, Configuration.ErrorMessage1) || Contains(content, Configuration.ErrorMessage1)
  }

  /** A string without the first character of `sep` does not contain `sep`. */
  lemma MissingFirstChar(s: string, sep: string)
    requires |sep| > 0 && sep[0] !in s
    ensures !Contains(s, sep)
  {
  }

  /** The page EDGAR serves with its second error message only is not taken
      for an unknown ticker: `get_cik`, `get_activity` and `get_sic` go on to
      parse it as a company page. */
  lemma SecondMessageNotUnknown(content: string)
    requires Contains(content, Configuration.ErrorMessage2) && !Contains(content, Configuration.ErrorMessage1)
    ensures !UnknownTicker(content)
    ensures forall name, link :: GetActivity(Page(content, name, Some(link))) == ActivityFromText(link.activity)
    ensures forall name, link :: GetSic(Page(content, name, Some(link)))
              == if CheckSic(link.sic) then link.sic else NotAvailable
  {
  }

  /** The second error message on its own is such a page. */
  lemma SecondMessageAlone()
    ensures Contains(Configuration.ErrorMessage2, Configuration.ErrorMessage2)
    ensures !UnknownTicker(Configuration.ErrorMessage2)
  {
    var m := Configuration.ErrorMessage2;
    assert OccursAt(m, m, 0);
    FirstCharOfFirstMessage();
    MissingFirstChar(m, Configuration.ErrorMessage1);
  }

  /** The first character of the first error message, a capital `N`, does
      not occur in the second. */
  lemma FirstCharOfFirstMessage()
    ensures Configuration.ErrorMessage1[0] !in Configuration.ErrorMessage2
  {
    assert Configuration.ErrorMessage1[0] == 'N';
  }

  /** The format part of `check_cik`: ten characters, all digits. */
  predicate CikFormat(cik: string) {
    |cik| == 10 && IsDigits(cik)
  }

  /** `check_cik`: the format is tested first; only a well-formed CIK is
      probed, and it is accepted when the probe answers with status 200. */
  function CheckCik(cik: string, probe: Response): (ok: bool)
    ensures !CikFormat(cik) ==> !ok
    ensures ok ==> probe.Response? && probe.status == 200
  {
    if !CikFormat(cik) then false
    else
      match probe
      case Failed => false
      case Response(status, _) => status == 200
  }

  /** A CIK whose length is not ten or that holds a non-digit is rejected
      whatever the probe answers; a well-formed one is accepted exactly when
      the probe answers 200. */
  lemma CheckCikDecision(cik: string, probe: Response)
    ensures |cik| != 10 ==> !CheckCik(cik, probe)
    ensures (exists i :: 0 <= i < |cik| && !IsDigit(cik[i])) ==> !CheckCik(cik, probe)
    ensures |cik| == 10 && (forall i :: 0 <= i < |cik| ==> IsDigit(cik[i]))
            ==> (CheckCik(cik, probe) <==> probe.Response? && probe.status == 200)
  {
  }

  /** `check_sic`: four characters, all digits. */
  function CheckSic(sic: string): (ok: bool)
    ensures ok <==> |sic| == 4 && forall i :: 0 <= i < |sic| ==> '0' <= sic[i] <= '9'
  {
    |sic| == 4 && IsDigits(sic)
  }

  /** The CIK in the company name line: the first whitespace-delimited token
      after the first `CIK#:` marker, or `None` where the source's indexing
      would raise. */
  function ExtractCik(name: string): (r: Option<string>)
    ensures r.Some? ==> Contains(name, CikMarker)
    ensures r.Some? ==> |r.value| > 0 && forall i :: 0 <= i < |r.value| ==> !IsSpace(r.value[i])
  {
    var pieces := Split(name, CikMarker);
    if |pieces| < 2 then None
    else
      var tokens := Tokens(pieces[1]);
      if |tokens| == 0 then None else Some(tokens[0])
  }

  /** The extracted CIK is the first token of the second piece of the split
      on the marker, the text between the first marker and the next one (see
      `Text.SplitSecondPiece`); it is missing exactly when there is no marker
      or that text is blank. */
  lemma {:induction false} ExtractCikLocatesToken(name: string)
    ensures ExtractCik(name).None?
            <==> !Contains(name, CikMarker)
                 || forall i :: 0 <= i < |Split(name, CikMarker)[1]| ==> IsSpace(Split(name, CikMarker)[1][i])
    ensures ExtractCik(name).Some? ==>
            var segment := Split(name, CikMarker)[1];
            WordAt(segment, LeadingSpaces(segment), ExtractCik(name).value)
  {
    var pieces := Split(name, CikMarker);
    if |pieces| >= 2 && |Tokens(pieces[1])| > 0 {
      FirstToken(pieces[1]);
    }
  }

  /** `get_cik`: "ERROR" when the page cannot be fetched or names an unknown
      ticker; the extracted CIK when it passes `check_cik`; and otherwise an
      exception, either from the indexing of the extraction or from the
      logging of an unbound name in the rejection branch. */
  function GetCik(page: BrowsePage, probe: Response): (r: Outcome<string>)
    ensures page.Unreachable? ==> r == Returned(CikError)
    ensures page.Page? && UnknownTicker(page.content) ==> r == Returned(CikError)
    ensures r.Returned? && r.value != CikError ==> CheckCik(r.value, probe)
    ensures r.Returned? && r.value != CikError ==>
            page.Page? && page.companyName.Some? && ExtractCik(page.companyName.value) == Some(r.value)
  {
    match page
    case Unreachable => Returned(CikError)
    case Page(content, name, _) =>
      if UnknownTicker(content) then Returned(CikError)
      else if name.None? then Raised
      else
        match ExtractCik(name.value)
        case None => Raised
        case Some(cik) => if CheckCik(cik, probe) then Returned(cik) else Raised
  }

  /** On a reachable page of a known ticker `get_cik` never returns "ERROR":
      it returns a CIK or raises, and it raises exactly when no CIK can be
      extracted or the extracted one fails `check_cik`. */
  lemma GetCikRaises(page: BrowsePage, probe: Response)
    requires page.Page? && !UnknownTicker(page.content)
    ensures GetCik(page, probe) != Returned(CikError)
    ensures GetCik(page, probe).Raised?
            <==> page.companyName.None?
                 || ExtractCik(page.companyName.value).None?
                 || !CheckCik(ExtractCik(page.companyName.value).value, probe)
  {
    if page.companyName.Some? {
      var e := ExtractCik(page.companyName.value);
      if e.Some? && e.value == CikError {
        assert !CikFormat(e.value);
      }
    }
  }

  /** The activity rewrite: the text between the first `"- "` and the next
      one (or the end), with every comma turned into `" &"`; "N/A" when the
      text has no `"- "`, where the source's indexing raises and the handler
      answers "N/A". */
  function ActivityFromText(text: string): (r: string)
    ensures ',' !in r
    ensures !Contains(text, ActivityMarker) ==> r == NotAvailable
  {
    var pieces := Split(text, ActivityMarker);
    if |pieces| < 2 then NotAvailable
    else ReplaceChar(pieces[1], ',', " &")
  }

  /** When the marker is present, the activity is the rewritten segment that
      follows the first marker and stops at the next one. */
  lemma {:induction false} ActivitySegment(text: string)
    requires Contains(text, ActivityMarker)
    ensures var i := Find(text, ActivityMarker);
            var rest := text[i + |ActivityMarker|..];
            var segment := if Contains(rest, ActivityMarker) then rest[..Find(rest, ActivityMarker)] else rest;
            0 <= i && !Contains(segment, ActivityMarker)
            && ActivityFromText(text) == ReplaceChar(segment, ',', " &")
  {
    var i := Find(text, ActivityMarker);
    var rest := text[i + |ActivityMarker|..];
    SplitSecondPiece(text, ActivityMarker);
    SplitFirstPiece(rest, ActivityMarker);
  }

  /** `get_activity`: "N/A" when the page cannot be fetched, names an unknown
      ticker or has no link to read; otherwise the activity rewrite of the
      text after the link. */
  function GetActivity(page: BrowsePage): (r: string)
    ensures ',' !in r
    ensures page.Unreachable? || page.identLink.None? ==> r == NotAvailable
    ensures page.Page? && UnknownTicker(page.content) ==> r == NotAvailable
    ensures page.Page? && !UnknownTicker(page.content) && page.identLink.Some?
            ==> r == ActivityFromText(page.identLink.value.activity)
  {
    match page
    case Unreachable => NotAvailable
    case Page(content, _, link) =>
      if UnknownTicker(content) || link.None? then NotAvailable
      else ActivityFromText(link.value.activity)
  }

  /** `get_sic`: the text after the link when it passes `check_sic`, and
      "N/A" in every other case. */
  function GetSic(page: BrowsePage): (r: string)
    ensures r == NotAvailable || CheckSic(r)
    ensures page.Page? && UnknownTicker(page.content) ==> r == NotAvailable
    ensures r != NotAvailable ==> page.Page? && page.identLink.Some? && r == page.identLink.value.sic
    ensures (page.Page? && !UnknownTicker(page.content) && page.identLink.Some?
             && CheckSic(page.identLink.value.sic)) ==> r == page.identLink.value.sic
  {
    match page
    case Unreachable => NotAvailable
    case Page(content, _, link) =>
      if UnknownTicker(content) || link.None? then NotAvailable
      else if !CheckSic(link.value.sic) then NotAvailable
      else link.value.sic
  }
}
