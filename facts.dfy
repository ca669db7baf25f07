/** `create_table_for_company`: the flattening of a company's EDGAR
    company-facts document into one table row per reported fact. The
    outcome of the download (a document or an exception), the Yahoo sector
    and industry lookups and the EDGAR activity and SIC lookups are inputs. */
module Facts {
  import opened Wrappers

  /** A JSON scalar as it appears in a fact record. */
  datatype Scalar = Number(x: real) | Text(s: string) | Boolean(b: bool) | Null

  /** One fact record of a concept: a JSON object. */
  type Record = map<string, Scalar>

  /** The `units` object of a concept: unit name to fact records, in the
      order of the document. */
  type Units = seq<(string, seq<Record>)>

  /** The concepts of a taxonomy: concept name to its `units` object, in the
      order of the document. */
  type Concepts = seq<(string, Units)>

  /** The downloaded company-facts document: the empty object the download
      answers on every failure, or a document whose `facts` maps each
      taxonomy name to its concepts. */
  datatype CompanyJson = EmptyJson | CompanyJson(facts: map<string, Concepts>)

  /** The only taxonomy the table is built from. */
  const UsGaap: string := "us-gaap"

  /** The record fields kept as columns. */
  const Fields: seq<string> := ["val", "fy", "form", "frame"]

  /** A flattened fact: the four kept fields (`None` where the record lacks
      the field and the normaliser fills in NaN), then the unit and the
      concept columns. */
  datatype FactRow = FactRow(
    val: Option<Scalar>, fy: Option<Scalar>, form: Option<Scalar>, frame: Option<Scalar>,
    unit: string, concept: string)

  /** The company columns stamped on every row. */
  datatype CompanyInfo = CompanyInfo(ticker: string, sector: string, industry: string, activity: string, sic: string)

  /** A row of the company table. */
  datatype Row = Row(fact: FactRow, company: CompanyInfo)

  /** Every concept has at least one unit: the source takes the first key of
      `units` without a guard. */
  predicate UnitsPresent(cs: Concepts) {
    forall j :: 0 <= j < |cs| ==> |cs[j].1| > 0
  }

  /** The value of a field of a record, `None` where it is missing. */
  function Field(r: Record, name: string): (v: Option<Scalar>)
    ensures v.Some? <==> name in r
    ensures v.Some? ==> v.value == r[name]
  {
    if name in r then Some(r[name]) else None
  }

  /** The normaliser makes a column for every key some record has. */
  predicate HasColumn(records: seq<Record>, name: string) {
    exists k :: 0 <= k < |records| && name in records[k]
  }

  /** Selecting the kept columns succeeds only when all four exist. */
  predicate HasFields(records: seq<Record>) {
    forall f :: f in Fields ==> HasColumn(records, f)
  }

  /** The rows of the normalised table of a non-empty array once the four
      columns are selected and the unit and concept columns added. */
  function NormalizedRows(records: seq<Record>, unit: string, concept: string): (rows: seq<FactRow>)
    ensures |rows| == |records|
    ensures forall k :: 0 <= k < |rows| ==>
              rows[k] == FactRow(Field(records[k], "val"), Field(records[k], "fy"),
                                 Field(records[k], "form"), Field(records[k], "frame"), unit, concept)
  {
    seq(|records|, k requires 0 <= k < |records| =>
      FactRow(Field(records[k], "val"), Field(records[k], "fy"),
              Field(records[k], "form"), Field(records[k], "frame"), unit, concept))
  }

  /** A concept contributes rows when the array of its first unit is non-empty
      and holds all four kept fields. */
  predicate Contributes(units: Units)
    requires |units| > 0
  {
    |units[0].1| > 0 && HasFields(units[0].1)
  }

  /** The rows one concept adds to the company table. */
  function ConceptRows(concept: string, units: Units): (rows: seq<FactRow>)
    requires |units| > 0
    ensures !Contributes(units) ==> rows == []
    ensures |rows| == if Contributes(units) then |units[0].1| else 0
    ensures forall k :: 0 <= k < |rows| ==> rows[k].concept == concept && rows[k].unit == units[0].0
  {
    if Contributes(units) then NormalizedRows(units[0].1, units[0].0, concept) else []
  }

  /** The rows of the concepts, concept after concept, in document order. */
  function FlattenConcepts(cs: Concepts): (rows: seq<FactRow>)
    requires UnitsPresent(cs)
  {
    if |cs| == 0 then []
    else FlattenConcepts(cs[..|cs| - 1]) + ConceptRows(cs[|cs| - 1].0, cs[|cs| - 1].1)
  }

  /** The company columns added to every row. */
  function Stamp(rows: seq<FactRow>, info: CompanyInfo): (table: seq<Row>)
    ensures |table| == |rows|
    ensures forall k :: 0 <= k < |table| ==> table[k].fact == rows[k] && table[k].company == info
  {
    seq(|rows|, k requires 0 <= k < |rows| => Row(rows[k], info))
  }

  /** The table `create_table_for_company` returns. */
  function CompanyTable(ticker: string, download: CompanyJson, info: CompanyInfo): (table: seq<Row>)
    requires download.CompanyJson? && UsGaap in download.facts ==> UnitsPresent(download.facts[UsGaap])
  {
    if ticker == "" || download.EmptyJson? || UsGaap !in download.facts then []
    else Stamp(FlattenConcepts(download.facts[UsGaap]), info)
  }

  /** `create_table_for_company`: an empty ticker gives the empty table
      before anything is downloaded; an exception escaping the download
      escapes here too; otherwise the concepts are visited in order, each
      concept's normalised rows appended to the table, and the company
      columns stamped on the result. */
  method CreateTableForCompany(
    ticker: string, fetched: Outcome<CompanyJson>, sector: string, industry: string, activity: string, sic: string)
    returns (r: Outcome<seq<Row>>)
    requires fetched.Returned? && fetched.value.CompanyJson? && UsGaap in fetched.value.facts
             ==> UnitsPresent(fetched.value.facts[UsGaap])
    ensures ticker == "" ==> r == Returned([])
    ensures ticker != "" ==> (r.Raised? <==> fetched.Raised?)
    ensures ticker != "" && fetched.Returned? ==>
              r == Returned(CompanyTable(ticker, fetched.value, CompanyInfo(ticker, sector, industry, activity, sic)))
  {
    if ticker == "" {
      return Returned([]);
    }
    if fetched.Raised? {
      return Raised;
    }
    var download := fetched.value;
    if download.EmptyJson? {
      return Returned([]);
    }
    if UsGaap !in download.facts {
      return Returned([]);
    }
    var concepts := download.facts[UsGaap];
    var rows: seq<FactRow> := [];
    var i := 0;
    while i < |concepts|
      invariant 0 <= i <= |concepts|
      invariant rows == FlattenConcepts(concepts[..i])
    {
      var concept := concepts[i].0;
      var unit := concepts[i].1[0].0;
      var records := concepts[i].1[0].1;
      if |records| == 0 {
        // an empty array is skipped
      } else if !HasFields(records) {
        // the column selection raises and the concept is skipped
      } else {
        rows := rows + NormalizedRows(records, unit, concept);
      }
      assert concepts[..i + 1][..i] == concepts[..i];
      i := i + 1;
    }
    assert concepts[..i] == concepts;
    r := Returned(Stamp(rows, CompanyInfo(ticker, sector, industry, activity, sic)));
  }

  /** An empty ticker, an empty download and a document without the `us-gaap`
      taxonomy all give the empty table; otherwise the table is empty exactly
      when no concept contributes a row. */
  lemma EmptyTableCases(ticker: string, download: CompanyJson, info: CompanyInfo)
    requires download.CompanyJson? && UsGaap in download.facts ==> UnitsPresent(download.facts[UsGaap])
    ensures ticker == "" ==> CompanyTable(ticker, download, info) == []
    ensures download.EmptyJson? ==> CompanyTable(ticker, download, info) == []
    ensures download.CompanyJson? && UsGaap !in download.facts ==> CompanyTable(ticker, download, info) == []
    ensures ticker != "" && download.CompanyJson? && UsGaap in download.facts ==>
              var cs := download.facts[UsGaap];
              (CompanyTable(ticker, download, info) == [] <==> forall j :: 0 <= j < |cs| ==> !Contributes(cs[j].1))
  {
    if ticker != "" && download.CompanyJson? && UsGaap in download.facts {
      NoRows(download.facts[UsGaap]);
    }
  }

  /** The flattening is empty exactly when no concept contributes. */
  lemma {:induction false} NoRows(cs: Concepts)
    requires UnitsPresent(cs)
    ensures FlattenConcepts(cs) == [] <==> forall j :: 0 <= j < |cs| ==> !Contributes(cs[j].1)
  {
    if |cs| > 0 {
      var init := cs[..|cs| - 1];
      NoRows(init);
      assert forall j :: 0 <= j < |init| ==> init[j] == cs[j];
      if Contributes(cs[|cs| - 1].1) {
        assert |ConceptRows(cs[|cs| - 1].0, cs[|cs| - 1].1)| > 0;
      }
    }
  }

  /** Flattening distributes over concatenation: the rows of earlier concepts
      come before the rows of later ones. */
  lemma {:induction false} FlattenAppend(a: Concepts, b: Concepts)
    requires UnitsPresent(a) && UnitsPresent(b)
    ensures UnitsPresent(a + b)
    ensures FlattenConcepts(a + b) == FlattenConcepts(a) + FlattenConcepts(b)
    decreases |b|
  {
    if |b| > 0 {
      var b' := b[..|b| - 1];
      assert (a + b)[..|a + b| - 1] == a + b';
      FlattenAppend(a, b');
    } else {
      assert a + b == a;
    }
  }

  /** The total number of records in the arrays of the contributing concepts. */
  function ContributedRecords(cs: Concepts): nat
    requires UnitsPresent(cs)
  {
    if |cs| == 0 then 0
    else
      ContributedRecords(cs[..|cs| - 1])
      + (if Contributes(cs[|cs| - 1].1) then |cs[|cs| - 1].1[0].1| else 0)
  }

  /** The table has exactly one row per record of a contributing concept. */
  lemma {:induction false} FlattenLength(cs: Concepts)
    requires UnitsPresent(cs)
    ensures |FlattenConcepts(cs)| == ContributedRecords(cs)
  {
    if |cs| > 0 {
      FlattenLength(cs[..|cs| - 1]);
    }
  }

  /** Every row is tagged with the name of a concept of the document and
      with that same concept's first unit. */
  lemma {:induction false} RowsTagged(cs: Concepts)
    requires UnitsPresent(cs)
    ensures forall k :: 0 <= k < |FlattenConcepts(cs)| ==>
              exists j :: 0 <= j < |cs|
                && FlattenConcepts(cs)[k].concept == cs[j].0
                && FlattenConcepts(cs)[k].unit == cs[j].1[0].0
  {
    if |cs| > 0 {
      var init := cs[..|cs| - 1];
      var last := |cs| - 1;
      RowsTagged(init);
      var rows := FlattenConcepts(cs);
      var front := FlattenConcepts(init);
      var tail := ConceptRows(cs[last].0, cs[last].1);
      assert rows == front + tail;
      forall k | 0 <= k < |rows|
        ensures exists j :: 0 <= j < |cs| && rows[k].concept == cs[j].0 && rows[k].unit == cs[j].1[0].0
      {
        if k < |front| {
          var j :| 0 <= j < |init| && front[k].concept == init[j].0 && front[k].unit == init[j].1[0].0;
          assert rows[k] == front[k];
          assert cs[j] == init[j];
        } else {
          assert rows[k] == tail[k - |front|];
          assert rows[k].concept == cs[last].0 && rows[k].unit == cs[last].1[0].0;
        }
      }
    } else {
      assert FlattenConcepts(cs) == [];
    }
  }

  /** A concept whose first unit has an empty array, or lacks one of the kept
      fields in all its records, adds no rows. */
  lemma SkippedConcept(cs: Concepts, concept: string, units: Units)
    requires UnitsPresent(cs) && |units| > 0 && !Contributes(units)
    ensures UnitsPresent(cs + [(concept, units)])
    ensures FlattenConcepts(cs + [(concept, units)]) == FlattenConcepts(cs)
  {
    assert (cs + [(concept, units)])[..|cs|] == cs;
  }

  /** Within a contributing concept the rows follow the records in order and
      carry their fields. */
  lemma ConceptRowsFollowRecords(concept: string, units: Units, k: int)
    requires |units| > 0 && Contributes(units) && 0 <= k < |units[0].1|
    ensures var r := units[0].1[k];
            ConceptRows(concept, units)[k]
              == FactRow(Field(r, "val"), Field(r, "fy"), Field(r, "form"), Field(r, "frame"), units[0].0, concept)
  {
  }

  /** Every row of a company table carries the same company columns. */
  lemma CompanyColumnsUniform(ticker: string, download: CompanyJson, info: CompanyInfo)
    requires download.CompanyJson? && UsGaap in download.facts ==> UnitsPresent(download.facts[UsGaap])
    ensures forall k :: 0 <= k < |CompanyTable(ticker, download, info)| ==>
              CompanyTable(ticker, download, info)[k].company == info
  {
  }
}
