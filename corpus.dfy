/** `create_training_database`: the training table built from the companies
    of the index file, one company table after another, and the number of
    companies it holds. The file system, the downloads and the clock are
    inputs: whether the index file exists and parses, what each company's
    lookups answer, whether attaching its table succeeds, whether a training
    file already exists, whether the final write succeeds, and today's date. */
module Corpus {
  import opened Wrappers
  import opened Text
  import Facts
  import Scrape

  /** The index file: missing, not readable as a table, or the tickers of its
      first column. */
  datatype IndexFile = Missing | Malformed | Listed(tickers: seq<string>)

  /** What the outside world answers for one company of the index: the
      browse page `get_cik` reads and the answer of the registry probe
      `check_cik` sends, the outcome of fetching the company-facts document
      once a CIK is known, the sector and industry lookups, the browse pages
      `get_activity` and `get_sic` each fetch, and whether attaching the
      company's table to the main table succeeds. */
  datatype Fetched = Fetched(
    cikPage: Scrape.BrowsePage, probe: Scrape.Response, facts: Outcome<Facts.CompanyJson>,
    sector: string, industry: string,
    activityPage: Scrape.BrowsePage, sicPage: Scrape.BrowsePage, attaches: bool)

  /** A file operation the procedure performs. */
  datatype Effect =
    | Backup(source: string, target: string)   // copy of the previous training file
    | Store(path: string, table: seq<Facts.Row>) // the training table written out

  /** A calendar date. */
  datatype Date = Date(year: int, month: int, day: int)

  /** `download_company_raw_json`: the empty document when `get_cik` answers
      "ERROR"; the exception when `get_cik` raises; otherwise what fetching
      the document gives, which is the empty document on every caught
      failure and an exception on the uncaught ones. */
  function Download(w: Fetched): (r: Outcome<Facts.CompanyJson>)
    ensures Scrape.GetCik(w.cikPage, w.probe) == Returned(Scrape.CikError) ==> r == Returned(Facts.EmptyJson)
    ensures Scrape.GetCik(w.cikPage, w.probe).Raised? ==> r.Raised?
    ensures r.Raised? ==> Scrape.GetCik(w.cikPage, w.probe).Raised? || w.facts.Raised?
    ensures r.Returned? ==> r.value.EmptyJson? || w.facts == r
    ensures Scrape.GetCik(w.cikPage, w.probe).Returned? && Scrape.GetCik(w.cikPage, w.probe).value != Scrape.CikError
            ==> r == w.facts
  {
    match Scrape.GetCik(w.cikPage, w.probe)
    case Raised => Raised
    case Returned(cik) => if cik == Scrape.CikError then Returned(Facts.EmptyJson) else w.facts
  }

  /** Every fetched document's concepts carry at least one unit, as
      `create_table_for_company` requires. */
  predicate Downloadable(w: Fetched) {
    w.facts.Returned? && w.facts.value.CompanyJson? && Facts.UsGaap in w.facts.value.facts
    ==> Facts.UnitsPresent(w.facts.value.facts[Facts.UsGaap])
  }

  /** One answer per ticker, each downloadable. */
  predicate Answers(tickers: seq<string>, world: seq<Fetched>) {
    |world| == |tickers| && forall i :: 0 <= i < |world| ==> Downloadable(world[i])
  }

  /** Building a ticker's table raises: the ticker is not empty, so the
      download runs, and an exception escapes it. */
  predicate Aborts(ticker: string, w: Fetched) {
    ticker != "" && Download(w).Raised?
  }

  /** No ticker's table raises: the loop runs to its end. */
  predicate Completes(tickers: seq<string>, world: seq<Fetched>) {
    Answers(tickers, world) && forall i :: 0 <= i < |tickers| ==> !Aborts(tickers[i], world[i])
  }

  /** The company columns of a ticker: the ticker itself, the sector and
      industry lookups, and what `get_activity` and `get_sic` make of their
      pages. */
  function InfoOf(ticker: string, w: Fetched): (info: Facts.CompanyInfo)
    ensures info.ticker == ticker
    ensures info.sector == w.sector && info.industry == w.industry
    ensures info.activity == Scrape.GetActivity(w.activityPage) && info.sic == Scrape.GetSic(w.sicPage)
    ensures ',' !in info.activity
    ensures info.sic == Scrape.NotAvailable || Scrape.CheckSic(info.sic)
  {
    Facts.CompanyInfo(ticker, w.sector, w.industry, Scrape.GetActivity(w.activityPage), Scrape.GetSic(w.sicPage))
  }

  /** The table `create_table_for_company` returns for a ticker whose table
      does not raise. */
  function TableOf(ticker: string, w: Fetched): seq<Facts.Row>
    requires Downloadable(w) && !Aborts(ticker, w)
  {
    if ticker == "" then [] else Facts.CompanyTable(ticker, Download(w).value, InfoOf(ticker, w))
  }

  /** A company enters the main table when its table is non-empty and
      attaching it succeeds. */
  predicate Included(ticker: string, w: Fetched)
    requires Downloadable(w) && !Aborts(ticker, w)
  {
    |TableOf(ticker, w)| > 0 && w.attaches
  }

  /** The main table: the tables of the included companies, in index order. */
  function Attached(tickers: seq<string>, world: seq<Fetched>): seq<Facts.Row>
    requires Completes(tickers, world)
  {
    if |tickers| == 0 then []
    else
      var n := |tickers| - 1;
      Attached(tickers[..n], world[..n])
      + (if Included(tickers[n], world[n]) then TableOf(tickers[n], world[n]) else [])
  }

  /** The number of included companies. */
  function AttachedCount(tickers: seq<string>, world: seq<Fetched>): nat
    requires Completes(tickers, world)
  {
    if |tickers| == 0 then 0
    else
      var n := |tickers| - 1;
      AttachedCount(tickers[..n], world[..n]) + (if Included(tickers[n], world[n]) then 1 else 0)
  }

  /** The fixed part of the backup file name. */
  const BackupStem: string := "01_EDGAR_TRAINING_TABLE_"

  /** The decimal digit `d`. */
  function DigitChar(d: int): (c: char)
    requires 0 <= d < 10
    ensures IsDigit(c) && c as int - '0' as int == d
  {
    ('0' as int + d) as char
  }

  /** The last `width` decimal digits of `n`, zero-padded on the left. */
  function Padded(n: nat, width: nat): (s: string)
    ensures |s| == width
    ensures forall i :: 0 <= i < |s| ==> IsDigit(s[i])
  {
    if width == 0 then "" else Padded(n / 10, width - 1) + [DigitChar(n % 10)]
  }

  /** The number a string of decimal digits denotes. */
  function DecimalValue(s: string): nat
    requires forall i :: 0 <= i < |s| ==> IsDigit(s[i])
  {
    if |s| == 0 then 0
    else
      assert IsDigit(s[|s| - 1]);
      DecimalValue(s[..|s| - 1]) * 10 + (s[|s| - 1] as int - '0' as int)
  }

  /** Ten to the power `w`. */
  function Pow10(w: nat): (p: nat)
    ensures p >= 1
  {
    if w == 0 then 1 else 10 * Pow10(w - 1)
  }

  /** Padding a number that fits in `width` digits loses nothing: reading the
      digits back gives the number. */
  lemma {:induction false} PaddedValue(n: nat, width: nat)
    requires n < Pow10(width)
    ensures DecimalValue(Padded(n, width)) == n
  {
    if width > 0 {
      var s := Padded(n, width);
      assert n / 10 < Pow10(width - 1);
      PaddedValue(n / 10, width - 1);
      assert s[..|s| - 1] == Padded(n / 10, width - 1);
      assert (n / 10) * 10 + n % 10 == n;
    }
  }

  /** A date `strftime` renders: a four-digit year and a real month and day. */
  predicate ValidDate(d: Date) {
    1000 <= d.year <= 9999 && 1 <= d.month <= 12 && 1 <= d.day <= DaysInMonth(d.year, d.month)
  }

  /** The Gregorian length of a month. */
  function DaysInMonth(year: int, month: int): (n: int)
    ensures 28 <= n <= 31
  {
    if month == 2 then (if (year % 4 == 0 && year % 100 != 0) || year % 400 == 0 then 29 else 28)
    else if month == 4 || month == 6 || month == 9 || month == 11 then 30
    else 31
  }

  /** The `%Y%m%d` rendering of a date. */
  function DateStamp(d: Date): (s: string)
    requires ValidDate(d)
    ensures |s| == 8 && forall i :: 0 <= i < |s| ==> IsDigit(s[i])
  {
    Padded(d.year, 4) + Padded(d.month, 2) + Padded(d.day, 2)
  }

  /** Reading a `%Y%m%d` stamp back into a date. */
  function ParseDateStamp(s: string): Date
    requires |s| == 8 && forall i :: 0 <= i < |s| ==> IsDigit(s[i])
  {
    Date(DecimalValue(s[..4]), DecimalValue(s[4..6]), DecimalValue(s[6..]))
  }

  /** The stamp of a date reads back as that date, so different dates give
      different stamps. */
  lemma DateStampRoundTrip(d: Date)
    requires ValidDate(d)
    ensures ParseDateStamp(DateStamp(d)) == d
  {
    var s := DateStamp(d);
    assert s[..4] == Padded(d.year, 4);
    assert s[4..6] == Padded(d.month, 2);
    assert s[6..] == Padded(d.day, 2);
    PaddedValue(d.year, 4);
    PaddedValue(d.month, 2);
    PaddedValue(d.day, 2);
  }

  /** The name of the copy made of an existing training file. */
  function BackupName(backupPath: string, today: Date): (name: string)
    requires ValidDate(today)
    ensures |name| == |backupPath| + |BackupStem| + 12
    ensures name[..|backupPath|] == backupPath
    ensures name[|name| - 4..] == ".csv"
  {
    backupPath + BackupStem + DateStamp(today) + ".csv"
  }

  /** The backup name records the date: the eight characters after the stem
      read back as today's date. */
  lemma BackupNameDate(backupPath: string, today: Date)
    requires ValidDate(today)
    ensures var name := BackupName(backupPath, today);
            var at := |backupPath| + |BackupStem|;
            name[|backupPath|..at] == BackupStem
            && (forall i :: at <= i < at + 8 ==> IsDigit(name[i]))
            && ParseDateStamp(name[at..at + 8]) == today
  {
    var name := BackupName(backupPath, today);
    var at := |backupPath| + |BackupStem|;
    assert name[at..at + 8] == DateStamp(today);
    assert name[|backupPath|..at] == BackupStem;
    DateStampRoundTrip(today);
  }

  /** `create_training_database`: 0 when the index file is missing or
      malformed; otherwise every ticker's table is built and the non-empty
      ones are attached in order and counted, unless building one raises,
      which ends the run with that exception before any file is touched;
      then an existing training file is backed up, the main table is stored,
      and the count is returned, or 0 when the store fails. */
  method CreateTrainingDatabase(
    index: IndexFile, world: seq<Fetched>, trainingFile: string, backupPath: string,
    priorExists: bool, writeOk: bool, today: Date)
    returns (result: Outcome<nat>, effects: seq<Effect>)
    requires index.Listed? ==> Answers(index.tickers, world)
    requires ValidDate(today)
    ensures !index.Listed? ==> result == Returned(0) && effects == []
    ensures index.Listed? ==> (result.Raised? <==> !Completes(index.tickers, world))
    ensures result.Raised? ==> effects == []
    ensures index.Listed? && Completes(index.tickers, world) ==>
              var table := Attached(index.tickers, world);
              effects == (if priorExists then [Backup(trainingFile, BackupName(backupPath, today))] else [])
                         + [Store(trainingFile, table)]
              && result == Returned(if writeOk then AttachedCount(index.tickers, world) else 0)
  {
    if index.Missing? {
      return Returned(0), [];
    }
    if index.Malformed? {
      return Returned(0), [];
    }
    var tickers := index.tickers;
    var table: seq<Facts.Row> := [];
    var count := 0;
    var i := 0;
    while i < |tickers|
      invariant 0 <= i <= |tickers|
      invariant Completes(tickers[..i], world[..i])
      invariant table == Attached(tickers[..i], world[..i])
      invariant count == AttachedCount(tickers[..i], world[..i])
    {
      var w := world[i];
      var built := Facts.CreateTableForCompany(
        tickers[i], Download(w), w.sector, w.industry, Scrape.GetActivity(w.activityPage), Scrape.GetSic(w.sicPage));
      if built.Raised? {
        // nothing catches the exception: the run ends here
        assert Aborts(tickers[i], world[i]);
        return Raised, [];
      }
      var companyTable := built.value;
      if |companyTable| == 0 {
        // the company is reported and left out
      } else if !w.attaches {
        // attaching raised; the company is reported and left out
      } else {
        table := table + companyTable;
        count := count + 1;
      }
      AttachedStep(tickers, world, i);
      i := i + 1;
    }
    assert tickers[..i] == tickers;
    assert world[..i] == world;
    effects := [];
    if priorExists {
      // the copy's outcome is only reported
      effects := effects + [Backup(trainingFile, BackupName(backupPath, today))];
    }
    effects := effects + [Store(trainingFile, table)];
    if !writeOk {
      return Returned(0), effects;
    }
    return Returned(count), effects;
  }

  /** Extending the visited part of the index by one entry that does not
      raise appends that entry's table and count when it is included. */
  lemma AttachedStep(tickers: seq<string>, world: seq<Fetched>, i: int)
    requires Answers(tickers, world) && 0 <= i < |tickers|
    requires Completes(tickers[..i], world[..i]) && !Aborts(tickers[i], world[i])
    ensures Completes(tickers[..i + 1], world[..i + 1])
    ensures Attached(tickers[..i + 1], world[..i + 1])
            == Attached(tickers[..i], world[..i])
               + (if Included(tickers[i], world[i]) then TableOf(tickers[i], world[i]) else [])
    ensures AttachedCount(tickers[..i + 1], world[..i + 1])
            == AttachedCount(tickers[..i], world[..i]) + (if Included(tickers[i], world[i]) then 1 else 0)
  {
    assert tickers[..i + 1][..i] == tickers[..i];
    assert world[..i + 1][..i] == world[..i];
  }

  /** For a non-empty ticker the run aborts exactly when the CIK page is
      reachable and names a known ticker, and then the company name is
      missing, no CIK can be extracted from it, the extracted CIK fails
      `check_cik` (its format, or a probe that does not answer 200), or
      fetching the document raises. */
  lemma AbortCases(ticker: string, w: Fetched)
    requires ticker != ""
    ensures Aborts(ticker, w)
            <==> w.cikPage.Page? && !Scrape.UnknownTicker(w.cikPage.content)
                 && (w.cikPage.companyName.None?
                     || Scrape.ExtractCik(w.cikPage.companyName.value).None?
                     || !Scrape.CheckCik(Scrape.ExtractCik(w.cikPage.companyName.value).value, w.probe)
                     || w.facts.Raised?)
  {
    if w.cikPage.Page? && !Scrape.UnknownTicker(w.cikPage.content) {
      Scrape.GetCikRaises(w.cikPage, w.probe);
    }
  }

  /** A company whose CIK page cannot be fetched or names an unknown ticker
      neither aborts the run nor enters the main table. */
  lemma UnknownCompanySkipped(ticker: string, w: Fetched)
    requires Downloadable(w)
    requires w.cikPage.Unreachable? || Scrape.UnknownTicker(w.cikPage.content)
    ensures !Aborts(ticker, w) && TableOf(ticker, w) == [] && !Included(ticker, w)
  {
  }

  /** At most one company is counted per index entry. */
  lemma {:induction false} CountBounded(tickers: seq<string>, world: seq<Fetched>)
    requires Completes(tickers, world)
    ensures AttachedCount(tickers, world) <= |tickers|
  {
    if |tickers| > 0 {
      var n := |tickers| - 1;
      CountBounded(tickers[..n], world[..n]);
    }
  }

  /** A positive count and a non-empty main table go together: every
      counted company brings at least one row. */
  lemma {:induction false} CountMatchesRows(tickers: seq<string>, world: seq<Fetched>)
    requires Completes(tickers, world)
    ensures AttachedCount(tickers, world) == 0 <==> Attached(tickers, world) == []
  {
    if |tickers| > 0 {
      var n := |tickers| - 1;
      CountMatchesRows(tickers[..n], world[..n]);
    }
  }

  /** Index order is kept: the main table built from the first `k` entries
      of the index is the beginning of the main table built from all of it,
      and counts no more companies. */
  lemma {:induction false} AttachedPrefix(tickers: seq<string>, world: seq<Fetched>, k: nat)
    requires Completes(tickers, world) && k <= |tickers|
    ensures Completes(tickers[..k], world[..k])
    ensures Attached(tickers[..k], world[..k]) <= Attached(tickers, world)
    ensures AttachedCount(tickers[..k], world[..k]) <= AttachedCount(tickers, world)
    decreases |tickers|
  {
    if k < |tickers| {
      var n := |tickers| - 1;
      assert tickers[..k] == tickers[..n][..k];
      assert world[..k] == world[..n][..k];
      AttachedPrefix(tickers[..n], world[..n], k);
    } else {
      assert tickers[..k] == tickers;
      assert world[..k] == world;
    }
  }

  /** Every row of the main table belongs to a ticker of the index, carries
      an activity without commas and a SIC that is "N/A" or four digits. */
  lemma {:induction false} AttachedRowsWellFormed(tickers: seq<string>, world: seq<Fetched>)
    requires Completes(tickers, world)
    ensures forall r :: r in Attached(tickers, world) ==>
              r.company.ticker in tickers
              && ',' !in r.company.activity
              && (r.company.sic == Scrape.NotAvailable || Scrape.CheckSic(r.company.sic))
  {
    if |tickers| > 0 {
      var n := |tickers| - 1;
      AttachedRowsWellFormed(tickers[..n], world[..n]);
      var info := InfoOf(tickers[n], world[n]);
      if tickers[n] != "" {
        Facts.CompanyColumnsUniform(tickers[n], Download(world[n]).value, info);
      }
      forall r | r in Attached(tickers, world)
        ensures r.company.ticker in tickers
      {
        if r in Attached(tickers[..n], world[..n]) {
          var k :| 0 <= k < n && tickers[..n][k] == r.company.ticker;
          assert tickers[k] == r.company.ticker;
        }
      }
    }
  }

  /** Which index entries are included. */
  function Inclusions(tickers: seq<string>, world: seq<Fetched>): (b: seq<bool>)
    requires Completes(tickers, world)
    ensures |b| == |tickers|
    ensures forall i :: 0 <= i < |b| ==> (b[i] <==> Included(tickers[i], world[i]))
  {
    seq(|tickers|, i requires 0 <= i < |tickers| => Included(tickers[i], world[i]))
  }

  /** The positions of a sequence of flags that are set. */
  function SetPositions(b: seq<bool>): set<int> {
    set i | 0 <= i < |b| && b[i]
  }

  /** Counting the set flags from the front, one at a time. */
  function CountSet(b: seq<bool>): nat {
    if |b| == 0 then 0 else CountSet(b[..|b| - 1]) + (if b[|b| - 1] then 1 else 0)
  }

  /** The running count of set flags is the number of set positions. */
  lemma {:induction false} CountSetPositions(b: seq<bool>)
    ensures CountSet(b) == |SetPositions(b)|
  {
    if |b| > 0 {
      var n := |b| - 1;
      CountSetPositions(b[..n]);
      if b[n] {
        assert SetPositions(b) == SetPositions(b[..n]) + {n};
      } else {
        assert SetPositions(b) == SetPositions(b[..n]);
      }
    }
  }

  /** The count is the running count of the inclusion flags. */
  lemma {:induction false} CountIsCountSet(tickers: seq<string>, world: seq<Fetched>)
    requires Completes(tickers, world)
    ensures AttachedCount(tickers, world) == CountSet(Inclusions(tickers, world))
  {
    if |tickers| > 0 {
      var n := |tickers| - 1;
      CountIsCountSet(tickers[..n], world[..n]);
      assert Inclusions(tickers, world)[..n] == Inclusions(tickers[..n], world[..n]);
    }
  }

  /** The count names exactly the included companies: it is the number of
      index positions whose company is included. */
  lemma CountIsIncludedPositions(tickers: seq<string>, world: seq<Fetched>)
    requires Completes(tickers, world)
    ensures AttachedCount(tickers, world)
            == |set i | 0 <= i < |tickers| && Included(tickers[i], world[i])|
  {
    var b := Inclusions(tickers, world);
    CountIsCountSet(tickers, world);
    CountSetPositions(b);
    assert SetPositions(b) == set i | 0 <= i < |tickers| && Included(tickers[i], world[i]);
  }
}
