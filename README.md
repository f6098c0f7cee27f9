# Unified stock import — a Dafny model

This project models the one-off import routine `importar_dados_para_supabase`
of the stock-location search app (app.py:2-49). The routine reads two sheets:
the lot sheet ("FRACIONAMENTO") and the generic-product sheet ("SPEX/GENERICO").
It maps both, by column position only, onto one unified table with the
columns `lote`, `descricao`, `endereco` and `origem`. Lot rows come first,
then product rows. It then cleans the text columns in place and hands the
rows, as a list of records, to the database insert.

Modules, leaf first:

- `Wrappers` (wrappers.dfy): `Option` and `Result`.
- `Text` (text.dfy): Python's `str.upper()` and `str.strip()` and the field
  normalisation `Normalize` = strip after upper-case. It also holds the
  lemmas about them: normal form, idempotence, the two steps commute, and
  when a value normalises to `"NAN"`.
- `Schema` (schema.dfy): pandas cells (`Text`, `NaN`, and `Null` for Python's None), sheets, and
  the positional mapping and concatenation that build `df_total`.
- `Cleaning` (cleaning.dfy): the three column rewrites of lines 36-38. Each
  is a function on one row, and `CleanColumns` applies them in place to an
  array, one column after the other.
- `Importer` (importer.dfy): the conversion to records (line 41), the whole
  import as a function (`Import`) and as the routine that builds, cleans and
  converts an array (`RunImport`), and the properties of the result.

The cleaning replaces `"NAN"` only in the `lote` column, and with None.
`descricao` and `endereco` keep a literal `"NAN"`.

## Model

| member | source | states |
|---|---|---|
| Text.UpperChar | app.py:36-38 | definition of `str.upper()` on one character; its properties are stated by `Text.UpperCharFacts` and `Text.UpperCharNA` |
| Text.Upper | app.py:36-38 | definition of `str.upper()` on text; its properties are stated by `Text.UpperFacts`, `Text.UpperFixpoint` and `Text.UpperIsNan` |
| Text.UpperCharFacts | app.py:36-38 | upper-casing one character changes it exactly when it is in `ChangedByUpper` (a-z and the Latin-1 letters `str.upper()` maps elsewhere; not Python's `islower()`); the result holds no such character, keeps the character's whitespace class, and has length 1 except for sharp s ("SS") |
| Text.UpperFacts | app.py:36-38 | `str.upper()` leaves no character it would change again, never shortens the text, and is empty only for empty text |
| Text.TrimStart | app.py:36-38 | definition of `str.lstrip()`; its properties are stated by `Text.TrimStartFacts` |
| Text.TrimStartFacts | app.py:36-38 | `lstrip()` returns a suffix of the input; everything it removed is whitespace; it does not start with whitespace |
| Text.TrimEnd | app.py:36-38 | definition of `str.rstrip()`; its properties are stated by `Text.TrimEndFacts` |
| Text.TrimEndFacts | app.py:36-38 | `rstrip()` returns a prefix of the input; everything it removed is whitespace; it does not end with whitespace |
| Text.Trim | app.py:36-38 | definition of `str.strip()`; its properties are stated by `Text.TrimIsStrip`, `Text.StripOfUnique` and `Text.TrimTrimmed` |
| Text.TrimIsStrip | app.py:36-38 | `strip()` removes exactly the leading and trailing whitespace and keeps the slice in between |
| Text.StripOfUnique | app.py:36-38 | the slice left after removing leading and trailing whitespace is unique, so the characterisation determines `strip()` |
| Text.TrimTrimmed | app.py:36-38 | stripping text that has no surrounding whitespace changes nothing |
| Text.UpperFixpoint | app.py:36-38 | upper-casing text that holds no character in `ChangedByUpper` changes nothing |
| Text.Normalize | app.py:36-38 | definition of the field cleaning, upper-case then strip; its properties are stated by `Text.NormalizeIsNormal`, `Text.NormalizeIdempotent` and `Text.NormalizeIsNan` |
| Text.NormalizeIsNormal | app.py:36-38 | a cleaned field has no character upper-casing would change and no leading or trailing whitespace |
| Text.UpperTrimCommute | app.py:36-38 | upper-casing then stripping (the order of the source) gives the same text as stripping then upper-casing |
| Text.NormalizeNormal | app.py:36-38 | a field already in normal form is left unchanged by the cleaning |
| Text.NormalizeIdempotent | app.py:36-38 | cleaning a field twice gives the same text as cleaning it once |
| Text.UpperIsNan | app.py:38 | text upper-cases to "NAN" exactly when it is three letters spelling nan in any mix of cases |
| Text.NormalizeIsNan | app.py:38 | a raw value normalises to "NAN" exactly when, after stripping, it spells nan in any mix of cases |
| Schema.MapLotRow | app.py:15-18 | definition of one lot row's mapping (columns 0, 1, 2, origin FRACIONAMENTO); its properties are stated by `Importer.LotRecordFields` and `Importer.FrameReadsPrefix` |
| Schema.MapGenericRow | app.py:26-29 | definition of one product row's mapping (no lot, columns 0, 1, origin SPEX/GENERICO); its properties are stated by `Importer.GenericRecordFields` and `Importer.FrameReadsPrefix` |
| Schema.LotFrame | app.py:14-19 | lot row i becomes unified row i, with lot, description and address taken from columns 0, 1 and 2 and the origin FRACIONAMENTO |
| Schema.GenericFrame | app.py:25-30 | product row j becomes unified row j, with no lot (None), description and address from columns 0 and 1 and the origin SPEX/GENERICO |
| Schema.Frame | app.py:33 | the concatenation has one row per lot row plus one per product row: lot rows first in input order, then product rows in input order |
| Cleaning.ToText | app.py:36-38 | definition of `astype(str)` on one cell (a string stays itself, NaN is "nan", None is "None"); used by `Cleaning.NanTextKept`, `Cleaning.NormalizeNan` and `Cleaning.GenericLotAsWritten` |
| Cleaning.CleanText | app.py:36-37 | definition of the `descricao`/`endereco` rewrite; its properties are stated by `Cleaning.CleanTextNormal` and `Cleaning.NanTextKept` |
| Cleaning.CleanTextNormal | app.py:36-37 | a rewritten description or address is text in normal form |
| Cleaning.CleanLotAsWritten | app.py:38 | definition of the `lote` rewrite as written; its properties are stated by `Cleaning.CleanLotAsWrittenShape` and `Cleaning.GenericLotAsWritten` |
| Cleaning.CleanLotAsWrittenShape | app.py:38 | the lot rewrite as written yields either no lot or normal-form text other than "NAN" |
| Cleaning.CleanLot | app.py:38 | definition of the corrected `lote` rewrite that `Importer.Import` uses; its properties are stated by `Cleaning.CleanLotShape`, `Cleaning.LotAbsentIff` and `Cleaning.GenericLotAbsent` |
| Cleaning.CleanLotShape | app.py:38 | the lot rewrite yields either no lot or normal-form text other than "NAN" |
| Cleaning.CleanEntry | app.py:36-38 | definition of the three column rewrites on one row; its properties are stated by `Cleaning.CleanEntryIsClean`, `Cleaning.CleanEntryOfClean` and `Cleaning.CleanIdempotent` |
| Cleaning.CleanAll | app.py:36-38 | the cleaned table has the same number of rows, and row i is the cleaning of row i |
| Cleaning.CleanAllAppend | app.py:33-38 | cleaning the concatenated table equals concatenating the cleaned lot rows and the cleaned product rows |
| Cleaning.CleanEntryIsClean | app.py:36-38 | every cleaned row is clean (normal description and address, lot absent or normal and not "NAN"), and its origin is unchanged |
| Cleaning.CleanEntryOfClean | app.py:36-38 | cleaning a clean row changes nothing |
| Cleaning.CleanIdempotent | app.py:36-38 | cleaning a row twice gives the same row as cleaning it once |
| Cleaning.LotAbsentIff | app.py:38 | a lot cell becomes absent exactly when it holds no value (None), is missing (NaN), or is text that, stripped, spells nan in any mix of cases; any other lot is kept in normal form |
| Cleaning.LotStringAbsentIff | app.py:38 | a lot string becomes absent exactly when, stripped, it spells nan in any mix of cases, so " nan " is dropped |
| Cleaning.NormalizeNan | app.py:38 | the text pandas gives a missing cell, "nan", normalises to exactly "NAN", the value the lot replacement matches |
| Cleaning.MissingLotAbsent | app.py:38 | a missing lot cell (NaN, rendered "nan") becomes absent |
| Cleaning.NanTextKept | app.py:36-37 | the "NAN" replacement is not applied to description or address: a missing or "nan" cell there becomes the text "NAN" |
| Cleaning.LotContainingNanKept | app.py:38 | the replacement is whole-value only: the lot "banana" is kept, as "BANANA" |
| Cleaning.GenericLotAsWritten | app.py:26-38 | as written, the None lot of a product row is rendered as "None" and kept as the lot "NONE" |
| Cleaning.GenericLotAbsent | app.py:26-38 | with the intended rewrite, a product row's lot is absent after cleaning, unlike the as-written result |
| Cleaning.RewriteColumn | app.py:36-38 | one column assignment in place: afterwards row k holds the rewrite of the old row k, for every k |
| Cleaning.CleanColumns | app.py:36-38 | the three column rewrites in place leave the array equal to the cleaning of its old contents |
| Importer.ToRecord | app.py:41 | definition of one record of `to_dict(orient='records')`; its properties are stated by `Importer.LotRecordFields` and `Importer.GenericRecordFields` |
| Importer.ToRecords | app.py:41 | `to_dict(orient='records')` yields one record per row, in row order |
| Importer.ToRecordsAppend | app.py:41 | converting a concatenated table to records equals concatenating the records of its two parts |
| Importer.Import | app.py:14-49 | the import fails exactly when the lot sheet has fewer than three columns or the product sheet fewer than two, the lot sheet's failure taking precedence; otherwise it yields one record per input row |
| Importer.NewTable | app.py:33 | the concatenated table is materialised as a fresh array holding exactly the unified rows |
| Importer.RunImport | app.py:14-41 | building the table, cleaning it in place and converting it yields exactly the result of `Import` |
| Importer.ImportAt | app.py:14-41 | record i is the cleaned record of lot row i when i is below the number of lot rows, and otherwise the cleaned record of the corresponding product row |
| Importer.LotRecords | app.py:14-19 | the lot sheet contributes one record per row, record i being the cleaned record of lot row i |
| Importer.GenericRecords | app.py:25-30 | the product sheet contributes one record per row, record j being the cleaned record of product row j |
| Importer.ImportOrder | app.py:33-46 | a successful import is exactly the lot records in input order followed by the product records in input order, so the count reported is lot rows plus product rows |
| Importer.LotRecordFields | app.py:15-18 | a lot record has the cleaned columns 1 and 2 as description and address and the origin FRACIONAMENTO; its lot is absent exactly when column 0 is None, is missing (NaN), or is text that, stripped, spells nan in any mix of cases, and is otherwise column 0's normal form |
| Importer.GenericRecordFields | app.py:26-29 | a product record has no lot, the cleaned columns 0 and 1 as description and address, and the origin SPEX/GENERICO |
| Importer.FrameReadsPrefix | app.py:14-33 | sheets that agree on the first three (lot) and the first two (product) columns give the same unified table |
| Importer.ExtraColumnsIgnored | app.py:14-41 | sheets that agree on the columns the mapping reads give the same import result, whatever the other columns hold |
| Importer.Provenance | app.py:18-29 | a record is tagged FRACIONAMENTO exactly when it comes from the lot sheet and SPEX/GENERICO exactly when it comes from the product sheet, whatever the cells hold |
| Importer.ImportIsClean | app.py:36-41 | every imported description and address is upper-case and stripped, and every lot is absent or upper-case, stripped and not "NAN" |
| Importer.GenericRecordsHaveNoLot | app.py:26-38 | every record from the product sheet has no lot |

## Left out

- Reading the two CSV files from the URLs kept in the app's secrets (app.py:6-11, app.py:22) is I/O. The sheets are parameters.
- The pandas CSV parser's type inference is not modelled. Each cell is given either as the text `astype(str)` would produce, as a missing value (NaN, rendered "nan"), or as None. So a numeric lot such as `00123` read as the integer 123 is outside the model.
- A sheet is assumed rectangular (`Schema.Rectangular`), as every pandas data frame is.
- The database insert (app.py:44) is an external client. The model ends with the list of records the insert receives.
- The progress, success and error messages and the sidebar button (app.py:3, app.py:46, app.py:49, app.py:52-53) are presentation. The count in the success message is `Importer.ImportOrder`'s length.
- The blanket `except` (app.py:48-49) is modelled only for the failures of the transformation itself: a sheet with too few columns for `iloc`. Every I/O failure it also catches is outside the model.
- `Text.UpperCharFacts`: upper-casing follows Python on ASCII and Latin-1 only. It includes sharp s to "SS", y-diaeresis to U+0178 and micro sign to U+039C. Every other character is left unchanged, although Python upper-cases many more. Whitespace is Python's full `str.isspace()` set.
- `Cleaning.CleanLot`: for the None lot of product rows it follows the intended behaviour (no lot), not the code as written; see Findings. `Cleaning.CleanLotAsWritten` keeps the behaviour as written.
- `Cleaning.ToText`: the renderings of `astype(str)` (NaN to "nan", None to "None") are those of pandas 1.x and 2.x. The column dtypes that `read_csv` and `pd.concat` pick are not modelled, so a None that `pd.concat` turns into NaN (a numeric lot column) is outside the model.
- `Series.replace('NAN', None)` is modelled with its pandas 2.x meaning: the matching value is replaced by None. Older pandas 1.x releases read an explicitly passed None as a request to fill from the previous row; that behaviour is not modelled. Together with the `astype(str)` renderings above, which pandas 1.x and 2.x share, the model assumes pandas 2.x.
- The lot matching, the inventory-API token handling and the edit reconciliation of the wider application are not in app.py. They are not part of this model.

## Findings

| source | as written | input that shows it | evidently intended | confidence | as-written member | corrected member |
|---|---|---|---|---|---|---|
| app.py:26-38 | product rows get the lot None. `astype(str)` renders it as "None", the cleaning makes it "NONE", and `replace('NAN', None)` does not match it, so, when the lot sheet's column 0 holds text (object dtype, the usual case for lot codes), every product record is stored with the lot "NONE". When pandas reads that column as numbers, `pd.concat` turns the None into NaN, which is dropped as intended | a product sheet with the one row ["dipirona", "b-05"] | product records carry no lot, like lot rows whose lot cell is missing | medium; not executed; it rests on pandas rendering a None cell as "None" under `astype(str)`, as pandas 1.x and 2.x do, and holds only when the lot sheet's column 0 is read as text | Cleaning.GenericLotAsWritten | Importer.GenericRecordsHaveNoLot |
