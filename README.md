# sarAI EDGAR core in Dafny

This project models the data-gathering core of sarAI, which builds a
training table from the SEC's EDGAR database. The model is verified in
Dafny.

- **`Configuration`** (`configuration.dfy`) holds the static tables of
  `source/configuration.py`:
  - the 34 synonym groups of US-GAAP taxonomy tags (72 tags);
  - `financial_statements`, the list of those groups;
  - `columns_translation`, which renames the first tag of 32 groups to a
    short column name;
  - `years`, with the current year as a parameter;
  - the EDGAR error messages.

  Tags, groups and columns are numbered: each is a small integer type with
  one named constant per member. A tag constant is spelled exactly as the
  taxonomy tag, groups are numbered in `financial_statements` order, and a
  column's string is given by `Name`. Lemmas state how consistent the
  tables are with each other. Where a fact needs a case analysis too large
  for one proof, numbered helper lemmas prove it for a range of groups or
  columns first.
- **`Text`** (`text.dfy`) gives the Python `str` operations the scraper
  relies on, over `seq<char>`:
  - `in` and `find`;
  - `split(sep)` and `join`;
  - whitespace `split()`;
  - one-character `replace`;
  - `isdigit`.
- **`Scrape`** (`scrape.dfy`) covers `check_cik`, `check_sic`, `get_cik`,
  `get_activity` and `get_sic` from `source/edgar.py`. The functions work on
  the page text and parsed fragments the scraper reads. The registry probe
  of `check_cik` is an input response.
- **`Facts`** (`facts.dfy`) models `create_table_for_company`:
  - The company-facts download is an input: an exception, the empty
    document, or a `facts` map from taxonomy to concepts in document order.
    An exception escapes `create_table_for_company` unchanged.
  - `CreateTableForCompany` is the imperative loop over the `us-gaap`
    concepts. It is proved equal to the specification function
    `CompanyTable`.
  - Lemmas give the guards, row tagging, skipping, order, row count and
    company columns.
- **`Corpus`** (`corpus.dfy`) models `create_training_database`:
  - Every outside answer is an input: the index file, whether a training
    file exists, whether the write succeeds, and today's date. Each
    company's answers form a `Fetched` value:
    - the browse page `get_cik` reads, and the probe answer `check_cik` gets;
    - the outcome of fetching the company-facts document, which may raise;
    - the sector and industry lookups;
    - the browse pages `get_activity` and `get_sic` read;
    - whether attaching its table succeeds.
  - `Download` models `download_company_raw_json` on top of `get_cik`. An
    exception raised by `get_cik` or by the fetch escapes both
    `create_table_for_company` and the loop, and ends the run.
  - `CreateTrainingDatabase` is the loop that builds the main table and
    counts the companies. It either raises, when some company's table
    raises, or reports the backup it attempts and the table it stores.
  - It is proved against the specification functions `Attached` and
    `AttachedCount`. Lemmas cover the count and the order.

`Wrappers` (`wrappers.dfy`) holds the `Option` type and `Outcome`, a value
returned or an exception raised.

## Model

| member | source | states |
|---|---|---|
| `Configuration.Synonyms` | source/configuration.py:9-45 | Every synonym group is non-empty, and its first tag is the group's canonical tag. |
| `Configuration.TagOwnedBy` | source/configuration.py:9-45 | A tag listed by a group is assigned to that group by `GroupOf`. |
| `Configuration.NoTagInTwoGroups` | source/configuration.py:9-45 | No taxonomy tag appears in two different synonym groups. |
| `Configuration.GroupOfListsTag` | source/configuration.py:9-45 | Every tag is listed in the group it is assigned to, so the groups partition the tags. |
| `Configuration.FinancialStatementsOrder` | source/configuration.py:48-50 | `financial_statements` has exactly 34 entries, at fixed positions, with no group listed twice. |
| `Configuration.EveryGroupListed` | source/configuration.py:48-50 | Every synonym group occurs in `financial_statements`. |
| `Configuration.TranslationKeyIsCanonical` | source/configuration.py:53-61 | Every key of `columns_translation` is the first tag of its group, and its column maps back to it. |
| `Configuration.KeyTranslates` | source/configuration.py:53-61 | Every column is the translation of its key. |
| `Configuration.TranslationInjective` | source/configuration.py:53-61 | Two distinct keys of `columns_translation` never give the same column. |
| `Configuration.TranslatedNamesDistinct` | source/configuration.py:53-61 | The 32 values of `columns_translation` are pairwise distinct strings. |
| `Configuration.NameInjective` | source/configuration.py:53-61 | Distinct columns have distinct name strings. |
| `Configuration.UntranslatedHeads` | source/configuration.py:53-61 | A group's first tag has a translation if and only if the group is neither `taxesExpense` nor `netIncome`. |
| `Configuration.Years` | source/configuration.py:89 | The list holds the consecutive years from 2009 up to the current year, excluding the current year, in increasing order; it is empty when the current year is 2009 or earlier. |
| `Configuration.YearsMembership` | source/configuration.py:89 | A year is listed exactly when 2009 <= year < current year. |
| `Text.Find` | source/edgar.py:182 | The result is -1 exactly when the separator does not occur; otherwise it is the first occurrence. |
| `Text.Split` | source/edgar.py:182 | `split(sep)` yields at least one piece, and a single piece exactly when `sep` is absent; no piece contains `sep`. |
| `Text.JoinSplit` | source/edgar.py:182 | Joining the pieces of a split with the separator gives back the string. |
| `Text.SplitFirstPiece` | source/edgar.py:227 | The first piece is the text before the first occurrence, or the whole string. |
| `Text.AroundFirst` | source/edgar.py:227 | A string with an occurrence is the text before it, the separator, and the rest. |
| `Text.SplitSecondPiece` | source/edgar.py:182 | The second piece of the split is the first piece of the split of the text after the first occurrence. |
| `Text.Tokens` | source/edgar.py:182 | `split()` gives non-empty tokens without whitespace, and none exactly when the string is all whitespace. |
| `Text.FirstToken` | source/edgar.py:182 | `split()[0]` is the maximal non-whitespace run that follows the leading whitespace. |
| `Text.ReplaceChar` | source/edgar.py:227 | `replace` leaves a string without the character unchanged, and the character is gone when the replacement does not contain it. A one-character string becomes the replacement when it is the character, and is unchanged otherwise. |
| `Text.ReplaceCharLength` | source/edgar.py:227 | The length grows by `len(r) - 1` for each replaced character. |
| `Text.ReplaceCharAppend` | source/edgar.py:227 | Replacing distributes over concatenation. |
| `Scrape.CheckCik` | source/edgar.py:191-209 | A CIK that fails the format check is rejected; an accepted CIK had a probe answer with status 200. |
| `Scrape.CheckCikDecision` | source/edgar.py:194-209 | A length other than 10, or any non-digit, rejects the CIK whatever the probe answers. A well-formed CIK is accepted exactly when the probe answers 200. |
| `Scrape.CheckSic` | source/edgar.py:271-278 | Accepted exactly when the string has length 4 and consists of digits. |
| `Scrape.ExtractCik` | source/edgar.py:182 | An extracted CIK is a non-empty whitespace-free token, and the name line contains `CIK#:`. |
| `Scrape.ExtractCikLocatesToken` | source/edgar.py:182 | No CIK is extracted exactly when there is no marker or the text after it up to the next marker is blank. Otherwise the CIK is the first whitespace-delimited run of that text. |
| `Scrape.SecondMessageNotUnknown` | source/edgar.py:177 | A page with only the second error message is not taken for an unknown ticker. `get_activity` and `get_sic` go on to read its link. |
| `Scrape.SecondMessageAlone` | source/edgar.py:177 | The second error message on its own is such a page. |
| `Scrape.GetCik` | source/edgar.py:167-188 | An unreachable page and a page naming an unknown ticker give "ERROR". Any other returned value passes `check_cik` and is the CIK extracted from the company name. |
| `Scrape.GetCikRaises` | source/edgar.py:177-188 | On a reachable page of a known ticker the result is never "ERROR". It raises exactly when the name is missing, extraction fails, or the CIK fails `check_cik`. |
| `Scrape.ActivityFromText` | source/edgar.py:226-233 | The activity never contains a comma, and it is "N/A" when the text has no `"- "`. |
| `Scrape.ActivitySegment` | source/edgar.py:227 | With a marker present, the activity is the segment between the first `"- "` and the next one, with commas replaced by `" &"`. |
| `Scrape.GetActivity` | source/edgar.py:211-236 | The result has no comma. It is "N/A" for an unreachable page, an unknown ticker or a page with no link. Otherwise it is the activity rewrite of the text after the link. |
| `Scrape.GetSic` | source/edgar.py:239-268 | The result is "N/A" or a valid SIC, and "N/A" for an unknown ticker. Any other value is the text after the link, and a valid SIC there on a known ticker's page is returned. |
| `Facts.Field` | source/edgar.py:149 | A missing record field becomes `None`, the model of NaN; a present one keeps its value. |
| `Facts.NormalizedRows` | source/edgar.py:149-154 | One row per record, in order, with its four fields and the given unit and concept. |
| `Facts.ConceptRows` | source/edgar.py:135-156 | A concept contributes no rows when its first unit's array is empty or lacks a kept field; otherwise one row per record. Each row is tagged with the concept and its first unit. |
| `Facts.Stamp` | source/edgar.py:158-162 | Stamping keeps every row and its order, and sets the same company columns on each. |
| `Facts.CreateTableForCompany` | source/edgar.py:117-164 | An empty ticker gives the empty table. Otherwise it raises exactly when the download raised, and else the loop over the concepts returns exactly `CompanyTable` for the ticker, download and company columns. |
| `Facts.EmptyTableCases` | source/edgar.py:122-132 | An empty ticker, an empty download, or no `us-gaap` taxonomy gives an empty table. Otherwise the table is empty exactly when no concept contributes. |
| `Facts.NoRows` | source/edgar.py:133-156 | The flattening is empty exactly when no concept contributes. |
| `Facts.FlattenAppend` | source/edgar.py:133-156 | Rows come in concept order: flattening concatenated concept lists concatenates their rows. |
| `Facts.FlattenLength` | source/edgar.py:144-156 | The row count is the sum of the array lengths of the contributing concepts. |
| `Facts.RowsTagged` | source/edgar.py:133-156 | Every row carries the name of a concept of the document and that same concept's first unit key. |
| `Facts.SkippedConcept` | source/edgar.py:144-151 | A concept with an empty array, or without a kept field in any record, adds no rows. |
| `Facts.ConceptRowsFollowRecords` | source/edgar.py:149-156 | Within a concept, row k comes from record k and carries its fields. |
| `Facts.CompanyColumnsUniform` | source/edgar.py:158-162 | Every row of a company table carries the same ticker, sector, industry, activity and SIC. |
| `Corpus.Download` | source/edgar.py:68-114 | "ERROR" from `get_cik` gives the empty document, and an exception from `get_cik` escapes. Any other CIK gives the outcome of fetching the document: the document, the empty document on a caught failure, or an exception. |
| `Corpus.AbortCases` | source/edgar.py:167-188 | For a non-empty ticker, building its table raises exactly when the CIK page is reachable and names a known ticker, and the name is missing, no CIK is extracted, the CIK fails `check_cik`, or the fetch raises. |
| `Corpus.UnknownCompanySkipped` | source/edgar.py:171-179 | A company whose CIK page is unreachable or names an unknown ticker does not end the run, gets an empty table and is not counted. |
| `Corpus.InfoOf` | source/edgar.py:158-162 | The company columns carry the ticker, the sector and industry lookups, and what `get_activity` and `get_sic` make of their pages. So the activity has no comma and the SIC is "N/A" or four digits. |
| `Corpus.CreateTrainingDatabase` | source/edgar.py:17-65 | A missing or malformed index gives 0 and no file operation. The run raises, with no file operation, exactly when some company's table raises. Otherwise, when a training file exists, the backup is attempted first, then the main table (`Attached`) is stored; the result is the number of companies (`AttachedCount`), or 0 when the write fails. |
| `Corpus.AttachedStep` | source/edgar.py:32-45 | Visiting one more ticker appends its table, and adds one to the count, exactly when its table is non-empty and attaching succeeds. |
| `Corpus.CountBounded` | source/edgar.py:32-45 | The count never exceeds the number of index entries. |
| `Corpus.CountMatchesRows` | source/edgar.py:32-45 | The count is zero exactly when the main table is empty. |
| `Corpus.AttachedPrefix` | source/edgar.py:32-45 | Index order is kept: the table built from a prefix of the index begins the full table, and counts no more companies. |
| `Corpus.CountIsIncludedPositions` | source/edgar.py:32-45 | The count equals the number of index positions whose table is non-empty and attached. |
| `Corpus.AttachedRowsWellFormed` | source/edgar.py:32-45 | Every row of the main table belongs to an index ticker, has an activity without commas, and has a SIC that is "N/A" or four digits. |
| `Corpus.PaddedValue` | source/edgar.py:51 | Zero-padding a number that fits the width loses nothing: the digits read back as the number. |
| `Corpus.DateStamp` | source/edgar.py:51 | The `%Y%m%d` stamp of a date is eight digits. |
| `Corpus.DateStampRoundTrip` | source/edgar.py:51 | The stamp reads back as the date, so distinct dates get distinct stamps. |
| `Corpus.BackupName` | source/edgar.py:51 | The backup name starts with the backup path, ends with `.csv`, and has the fixed length path + 36. |
| `Corpus.BackupNameDate` | source/edgar.py:51 | After the path comes `01_EDGAR_TRAINING_TABLE_`, then eight digits that read back as today's date. |

## Left out

- HTTP requests, HTML parsing and logging are not modelled:
  - The browse pages are reduced to the parts the scraper reads: the page
    text, the company-name text, and the two nodes after the first
    `identInfo` link.
  - A probe response is a status code or a failure.
  - The `companyName` span being absent and the CIK being absent are both
    modelled as an uncaught exception (`Raised`).
- `download_company_raw_json` (source/edgar.py:68-114) is modelled only on
  top of `get_cik`. The fetch and the JSON file are network and file I/O,
  so their outcome is an input: a document, the empty document for the
  caught failures, or an exception. The exceptions the source does not
  catch are the missing `content-type` header (line 87, and line 113 where
  a 204 response without that header is logged) and the failing `open`
  (line 103).
- The backup copy of the company's JSON file (source/edgar.py:94-101) is not
  modelled. Its outcome is only logged and cannot change the result.
- source/yahoo.py is not modelled; the sector and industry are input
  strings, and an exception raised there is not modelled.
- source/test.py is not part of this model.
- The folder helpers of source/configuration.py:92-165 are not modelled,
  because they are file-system side effects.
- The per-year frame matching that source/test.py calls is not modelled,
  because it is not defined in the modelled files.
- Configuration names used but not defined in source/configuration.py
  (`EDGAR_INDEX_FILE_PATH`, `EDGAR_TRAINING_FILE`, `EDGAR_HEADERS`) become
  parameters. The attribute error their absence would cause is not modelled.
- File system outcomes are not modelled either; each is a boolean input:
  - whether the index exists and parses;
  - whether a training file exists;
  - whether the write succeeds.
- Whether `pd.concat` succeeds is also a boolean input.
- The outcome of the backup copy is not an input: the source only logs it,
  so it cannot change the result.
- `Facts.CreateTableForCompany` requires that every `us-gaap` concept has at
  least one unit. The source indexes the first unit key without a guard
  (source/edgar.py:135) and would raise.
- A non-empty download without a `facts` key, or a concept without `units`,
  raises an uncaught `KeyError` in the source. The model's document type
  always has both.
- JSON objects (the `Units` and `Concepts` types of `Facts`) are sequences
  of pairs in document order, so the model allows duplicate keys, which a parsed JSON
  object (a Python `dict`) cannot have. No property relies on them.
- pandas details are not modelled: dtypes, the DataFrame index written by
  `to_csv`, and the column flattening `json_normalize` applies to nested
  objects. Record fields are scalars, and a missing field is `None` (NaN).
- Floating-point values are modelled as `real`.
- `Text.IsDigits`, `Text.IsSpace`: Python's `isdigit` and `split()` also
  accept non-ASCII digits and whitespace; the model covers ASCII only.
- The page text is taken as the text the scraper tests for the error
  message. The source tests `str(f.content)`, the `repr` of the bytes;
  escape sequences are not modelled.
- `Scrape.UnknownTicker`: modelled as written. It tests the first EDGAR
  error message twice and never the second (source/edgar.py:177, 221, 249).
- Index entries are modelled as strings. A blank cell of the index's first
  column reads as NaN in the source, which passes the empty-ticker test
  (source/edgar.py:122) and then raises a `TypeError` when the file name is
  built (source/edgar.py:73), ending the run. The model has no such entry:
  its empty ticker gives an empty table and is skipped.
- `Corpus.ValidDate` restricts today's date to four-digit years, where
  `%Y` is exactly four characters.
- `Configuration.Years`: the current year is a parameter rather than the
  clock.
