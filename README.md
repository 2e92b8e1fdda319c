# NF-e ingestion core, modelled in Dafny

`concatenar_nfs.py` builds three national tables of electronic invoices (NF-e): items, events and invoices.
It starts from monthly ZIP archives.
The script does the following:

- It indexes the archives by the six-digit period (YYYYMM) that starts their names. This is `mapear_arquivos_e_periodos`, an insertion-ordered dict where the last listed name wins.
- It unpacks each archive in the dict's order.
- It skips a period whose scratch directory does not hold exactly three files.
- It gives the three files their roles with three list comprehensions and `[0]`.
- It reads each file into a DataFrame and tags every row with `YYYY-MM`.
- It appends each frame to one of three lists.
- It concatenates each list.
- It converts the declared columns of the items and invoices tables in place (`converter_dados`).
- It adds the `sinal` column (+1 or -1) derived from the CFOP operation code (`adicionar_coluna_sinal`).

The model follows the same structure, one module per part:

- `outcomes.dfy`: `Option`, `Result`, and the exceptions the run can end with.
- `cells.dfy`: cell values, the dtype pandas infers for a column, and Python's `str()` of a held value. It also covers integer text as `pd.to_numeric` reads it and thousands separators.
- `tables.dfy`: a table as a value (`Table`), the mutable DataFrame (`Frame`, whose `SetColumn` is `df[c] = ...`), and `pd.concat(..., ignore_index=True)`.
- `period_index.dfy`: the period indexer, as a loop over the listing (`IndexByPeriod`) proved against `IndexUpTo`. The dict is an ordered key list plus a map.
- `classification.dfy`: the three comprehensions and their `[0]`.
- `normalisation.dfy`: the two schemas, the three conversion branches, and the in-place loop `ConvertData`. The loop is proved equal to `Normalise`, and each branch is a `Frame` method. The lemmas about the loop take the conversion as a parameter (`Conversion`); `Normalise` instantiates it with `ByDeclaredType(parseDate)`.
- `sign.dfy`: the sign lambda, and `DeriveSign` on a `Frame`.
- `pipeline.dfy`: one period (`ProcessPeriod`), the main loop (`Gather`, appending to the three lists), post-processing (`Conclude`) and the whole script (`Run`). Each is proved equal to a function.
- `run_properties.dfy`: properties of the whole run.

The file system is an input (`Pipeline.Directory`). It supplies three things:

- the listing of the source directory;
- the names an archive unpacks into;
- the table `pd.read_csv` makes of each extracted file.

Day-first date parsing of one string is also an input (`parseDate`).

The code behaves as follows where a more careful design might differ, and the model does what the code does:

- When a role has no candidate, `[0]` raises IndexError, and nothing catches it. The whole run aborts with `NoFileFor(role)`; the period is not skipped. This is proved in `RunProperties.RunFailsOnUnclassifiable`.
- There is no check that a role is unambiguous. With two "item" files, the listing order decides which one becomes the items table and which one the invoices table (`Classification.AmbiguousItemsDependOnOrder`).
- `re.match(r'^\d{6}', name)` also accepts names with more than six leading digits, and keys them on the first six.
- The int64 branch strips `,` only when pandas holds the column as `object`. In that case `.str.replace` also turns every non-string value of the column into NaN (`Normalisation.IntColumnParsed`).

## Model

| member | source | states |
|---|---|---|
| Cells.DtypeOf | concatenar_nfs.py:105 | a column is `object` exactly when it holds a string, or mixes timestamps and integers; a datetime64 column holds only timestamps and NaT; an int64 column holds only integers |
| Cells.ParseInteger | concatenar_nfs.py:107 | text still holding a ',' (or empty) is refused, which is why separators are stripped first; a negative value was written with a leading '-' |
| Cells.Render | concatenar_nfs.py:116-117 | `str()` of a string is the string; an integer's text is non-empty and starts with '-' exactly when it is negative, otherwise with a digit; NaN/NaT never starts with a digit |
| Cells.DecimalTextParses | concatenar_nfs.py:107 | integer text as `str()` writes it reads back through `pd.to_numeric` as the same integer |
| Cells.StripCommas | concatenar_nfs.py:106 | removing the separators leaves no ',' and never lengthens the text |
| Cells.StripCommasUngroups | concatenar_nfs.py:106 | removing the separators from digits grouped by threes gives back the digits |
| Cells.ThousandsTextParses | concatenar_nfs.py:106-107 | a number written with thousands separators ("1,234") reads as that number once its ',' are removed |
| Cells.NaturalTextStartsWithLeadingDigit | concatenar_nfs.py:117 | the first character of a non-negative integer's text is its leading decimal digit |
| Tables.WithColumn | concatenar_nfs.py:150 | assigning a column keeps the table well formed and its height; the column then holds the given cells; every other column is kept, and no column is added or dropped besides it |
| Tables.WithColumnTwice | concatenar_nfs.py:106-107 | assigning a column twice is the same as assigning only the second value |
| Tables.Frame.constructor | concatenar_nfs.py:145-147 | a new frame holds the loaded table |
| Tables.Frame.SetColumn | concatenar_nfs.py:150 | `df[c] = cells` changes the frame into `WithColumn` of its old value and keeps it well formed |
| Tables.NewColumns | concatenar_nfs.py:162 | the names a later frame adds are exactly those the earlier columns lack, without repeats |
| Tables.UnionColumns | concatenar_nfs.py:162 | the concatenated columns are distinct and are exactly those some frame has |
| Tables.Missings | concatenar_nfs.py:162 | a column that a frame lacks is filled with NaN, one per row |
| Tables.Column | concatenar_nfs.py:162 | a frame contributes one cell per row to every column |
| Tables.Stacked | concatenar_nfs.py:162 | a stacked column has as many rows as the frames together |
| Tables.ConcatAll | concatenar_nfs.py:162-164 | concatenation fails exactly on an empty list, with `NoObjectsToConcatenate`; otherwise the result is well formed, its height is the sum of the heights, and its columns are exactly those some frame has |
| Tables.StackedKeepsRow | concatenar_nfs.py:162 | stacking more frames keeps every row already stacked at its position |
| Tables.StackedRowOrigin | concatenar_nfs.py:162 | row j of frame k is row `RowsBefore(k) + j` of the stacked column |
| Tables.ConcatRowOrigin | concatenar_nfs.py:162-164 | row j of frame k is row `RowsBefore(k) + j` of the concatenation, in every column; NaN where the frame lacks the column |
| PeriodIndex.IndexByPeriod | concatenar_nfs.py:88-98 | the loop over the listing builds the same dict as `IndexUpTo` over all names |
| PeriodIndex.Assign | concatenar_nfs.py:96 | after `mapa[p] = name`, p maps to name; reassigning a key does not move it in the dict's order |
| PeriodIndex.AssignKeepsOthers | concatenar_nfs.py:96 | every other key keeps its archive, the existing keys keep their places, and at most one key is added, last |
| PeriodIndex.IndexUpTo | concatenar_nfs.py:90-96 | the dict holds at most one key per visited name |
| PeriodIndex.FirstListed | concatenar_nfs.py:92-96 | the position of the first listed name carrying a period: it carries it, and no earlier name does |
| PeriodIndex.IndexWellFormed | concatenar_nfs.py:90-96 | every key appears once in the dict's order, and the order lists exactly the keys |
| PeriodIndex.IndexKeysAndArchives | concatenar_nfs.py:92-96 | a period is a key exactly when some listed name starts with its six digits; each archive is a listed name starting with its key; a name whose first six characters are not all digits (a shorter name included) is never an archive |
| PeriodIndex.IndexOfUnrelatedNames | concatenar_nfs.py:92-94 | a listing with no six-digit prefix gives an empty dict |
| PeriodIndex.IndexLastWins | concatenar_nfs.py:92-96 | the archive of a key is the last listed name with that prefix |
| PeriodIndex.IndexOrderFirstListed | concatenar_nfs.py:90-96 | keys are iterated in the order their period was first listed, and each key was listed |
| PeriodIndex.FormatPeriod | concatenar_nfs.py:149 | the tag has 7 characters, a '-' at position 4, and gives back the period once the '-' is removed |
| PeriodIndex.FormatPeriodInjective | concatenar_nfs.py:149 | distinct periods get distinct tags |
| Classification.Lower | concatenar_nfs.py:141-142 | the lowered name has the same length and contains no capital letter A-Z |
| Classification.MentionsIgnoresCase | concatenar_nfs.py:141-142 | two names that differ only in the case of their letters mention the same substrings |
| Classification.CapitalisedRoleMentioned | concatenar_nfs.py:141-142 | "202401_NFe_NotaFiscalItem.csv" mentions "item" and "202401_NFe_NotaFiscalEvento.csv" mentions "evento", despite their capitals |
| Classification.Mentioning | concatenar_nfs.py:141-142 | the comprehension never lengthens the listing |
| Classification.MentioningSpec | concatenar_nfs.py:141-142 | the comprehension keeps only listed names mentioning the substring; it is empty exactly when no name mentions it; its head is the first listed name that does |
| Classification.Others | concatenar_nfs.py:143 | the comprehension never lengthens the listing |
| Classification.OthersSpec | concatenar_nfs.py:143 | the comprehension keeps only names other than the two chosen ones; it is empty exactly when every name is one of them; its head is the first listed name that is neither |
| Classification.Classify | concatenar_nfs.py:141-143 | classification can only fail with the IndexError of a role |
| Classification.ClassifyOutcome | concatenar_nfs.py:141-143 | items is the first name mentioning "item"; events is the first mentioning "evento"; invoices is the first name that is neither; items fails exactly when no name mentions "item"; events fails exactly when some name mentions "item" and none mentions "evento"; invoices fails only when every name mentions one of the two |
| Classification.InvoicesAlwaysFound | concatenar_nfs.py:141-143 | with three distinct names, as a directory listing gives, the invoices `[0]` never raises |
| Classification.MentioningHeadUnique | concatenar_nfs.py:141-142 | when a single name mentions the substring, every listing of the same names picks it |
| Classification.OthersHeadUnique | concatenar_nfs.py:143 | when a single name is neither chosen one, every listing of the same names picks it |
| Classification.ClassifyIgnoresOrder | concatenar_nfs.py:141-143 | when no role is ambiguous, reordering the listing does not change the outcome |
| Classification.ClassifiesTriple | concatenar_nfs.py:141-143 | the outcome on three given names: the first "item" name, the "evento" name, and the remaining name |
| Classification.AmbiguousItemsDependOnOrder | concatenar_nfs.py:141-143 | with two "item" names, swapping them in the listing swaps the items and invoices roles |
| Normalisation.ConvertFrom | concatenar_nfs.py:107 | a conversion succeeds with one converted value per row, or fails exactly when some value is refused, naming the first refused row |
| Normalisation.ToDatetime | concatenar_nfs.py:103 | an accepted column keeps its row count; a refusal names a row whose string does not parse as a date |
| Normalisation.ToNumeric | concatenar_nfs.py:107 | an accepted column keeps its row count; a refusal names a row whose string is not integer text |
| Normalisation.HeldForParsing | concatenar_nfs.py:105-106 | the column handed to the parser keeps its row count, and none of its strings holds a ',' |
| Normalisation.Converted | concatenar_nfs.py:102-109 | an accepted column keeps its row count; the `str` branch never raises; the others raise only `UnparseableValue` for this column at an existing row |
| Normalisation.AsStr | concatenar_nfs.py:109 | `astype(str)` keeps the row count and yields only strings |
| Normalisation.ByDeclaredType | concatenar_nfs.py:101-109 | the branch chosen by the declared type is applied to the column, and an accepted column keeps its length |
| Normalisation.Step | concatenar_nfs.py:102-109 | one iteration keeps the frame well formed, with the same height and column order, and touches no other column |
| Normalisation.StepOutcome | concatenar_nfs.py:102-109 | an iteration completes exactly when the column is present and converts, and the column then holds its conversion |
| Normalisation.NormaliseUpTo | concatenar_nfs.py:100-110 | after n iterations the frame is well formed, with the same height and columns; every column not among the first n declared ones is unchanged; a completed run found every declared column |
| Normalisation.Normalise | concatenar_nfs.py:100-110 | the result is well formed with the same row count and column order; an undeclared column is unchanged; a completed run found every declared column |
| Normalisation.ErrorIsFinal | concatenar_nfs.py:101-109 | once an iteration raises, later iterations do not run and the frame stays as it was |
| Normalisation.ParseIntColumn | concatenar_nfs.py:105-107 | the int64 branch on a frame changes it as `Step` does, including the stripped column left behind when parsing fails |
| Normalisation.ConvertColumn | concatenar_nfs.py:101-109 | one iteration on a frame changes it as `Step` does |
| Normalisation.ConvertData | concatenar_nfs.py:100-110 | the in-place loop leaves the frame and the exception that `Normalise` computes |
| Normalisation.NormaliseCompletes | concatenar_nfs.py:100-110 | with distinct declared names, the run completes when each declared column is present and converts |
| Normalisation.ColumnSettled | concatenar_nfs.py:101-109 | once its own iteration is over, a column declared once is not touched again |
| Normalisation.NormaliseConvertsEach | concatenar_nfs.py:100-110 | after a completed run, a column declared once was present and holds its branch's conversion of the original column |
| Normalisation.NormaliseCompletesIff | concatenar_nfs.py:100-110 | with distinct declared names, the run completes exactly when every declared column is present and converts |
| Normalisation.IntColumnParsed | concatenar_nfs.py:104-107 | an accepted int64 column holds integers or NaN; when held as `object`, each string reads as its value without ',' and every non-string becomes NaN; otherwise integers are kept |
| Normalisation.StrippedNumbersParsed | concatenar_nfs.py:105-107 | parsing a stripped `object` column reads each string without its ',' and leaves every non-string NaN |
| Normalisation.NumbersParsed | concatenar_nfs.py:107 | an accepted `pd.to_numeric` yields integers or NaN and keeps every integer |
| Normalisation.IntColumnRefused | concatenar_nfs.py:104-107 | an int64 column is refused exactly when it is held as `object` and some string is not integer text once its ',' are removed |
| Normalisation.ThousandsSeparatedReadsBack | concatenar_nfs.py:106-107 | "1,234" in an `object` int64 column becomes 1234 |
| Normalisation.DateColumnParsed | concatenar_nfs.py:102-103 | a date column is refused exactly when some string does not parse; an accepted one holds timestamps or NaT, each parsed string giving its own timestamp |
| Normalisation.DatesRefused | concatenar_nfs.py:103 | `pd.to_datetime` refuses exactly when some string is not a date |
| Normalisation.DatesParsed | concatenar_nfs.py:103 | an accepted `pd.to_datetime` yields timestamps or NaT, and each parsed string becomes its own timestamp |
| Normalisation.StrColumnRendered | concatenar_nfs.py:108-109 | a `str` column is always accepted and holds only strings; strings are kept; integers of an int64 column become text that reads back as the same integer |
| Normalisation.StrColumnIdempotent | concatenar_nfs.py:108-109 | converting a `str` column a second time changes nothing |
| Sign.SignOf | concatenar_nfs.py:117 | the lambda yields 1 or -1 |
| Sign.WithSign | concatenar_nfs.py:112-119 | fails exactly when the code column is missing, with that column named; otherwise adds "sinal" holding only 1 or -1, keeps the height, and leaves every other column unchanged |
| Sign.DeriveSign | concatenar_nfs.py:112-119 | on a frame: either raises and leaves the frame unchanged, or leaves the frame `WithSign` computes |
| Sign.SignOfCode | concatenar_nfs.py:117 | a non-negative code is outgoing (1) exactly when its leading digit is 5, 6 or 7, whatever the dtype |
| Sign.SignOfNonCodes | concatenar_nfs.py:117 | negative and missing codes get -1 |
| Sign.SignOfTypicalCodes | concatenar_nfs.py:117 | 5102, 6108 and 7102 get 1 (also as float64); 1102 and 2101 get -1 |
| Pipeline.PeriodMap | concatenar_nfs.py:123 | every period in the dict's order has an archive |
| Pipeline.Tagged | concatenar_nfs.py:150-152 | tagging keeps the table well formed and its height, writes the period's tag into every row, and keeps every other column |
| Pipeline.Contribute | concatenar_nfs.py:137-152 | a period is skipped exactly when it does not unpack into three files; it raises exactly when it does and classification fails, and only with a role's IndexError; a loaded period's three tables carry its tag in every row |
| Pipeline.ContributionValid | concatenar_nfs.py:145-152 | well-formed files give well-formed tagged tables |
| Pipeline.ConsistentAppend | concatenar_nfs.py:154-156 | appending three well-formed tables tagged with a period keeps the lists in step, and each entry tagged with its period |
| Pipeline.AccumulateUpTo | concatenar_nfs.py:131-156 | the main loop can only raise a role's IndexError |
| Pipeline.Accumulate | concatenar_nfs.py:131-156 | the main loop over the whole dict can only raise a role's IndexError |
| Pipeline.ItemsOutput | concatenar_nfs.py:166-167 | converting and signing the items keeps the table well formed and its row count, and adds "sinal" |
| Pipeline.InvoicesOutput | concatenar_nfs.py:168 | converting the invoices keeps the table well formed and its row count |
| Pipeline.Finish | concatenar_nfs.py:162-168 | an empty items list always makes it raise `NoObjectsToConcatenate`; a completed post-processing yields well-formed tables, the items with the sign column |
| Pipeline.AccumulateFailsIff | concatenar_nfs.py:131-156 | the main loop raises exactly when some period unpacks into three files that cannot all be given a role |
| Pipeline.AccumulatedPeriods | concatenar_nfs.py:138-156 | the list entries come from exactly the periods that unpacked into three files, in the dict's order |
| Pipeline.AccumulatedConsistent | concatenar_nfs.py:150-156 | the three lists grow together; entry j of each is well formed and every row carries the tag of the j-th appended period |
| Pipeline.AccumulateFailureIsFinal | concatenar_nfs.py:131-156 | the first exception ends the loop and is the one the run raises |
| Pipeline.LoadTagged | concatenar_nfs.py:145-152 | reading a file into a frame and assigning "periodo" gives the tagged table |
| Pipeline.ProcessPeriod | concatenar_nfs.py:134-152 | the body of the loop for one period computes `Contribute` |
| Pipeline.Visit | concatenar_nfs.py:131-156 | one iteration advances the lists as `AccumulateUpTo` does |
| Pipeline.Gather | concatenar_nfs.py:127-158 | the main loop builds the lists `AccumulateUpTo` describes, or raises its exception |
| Pipeline.PrepareItems | concatenar_nfs.py:166-167 | converting and signing an items frame computes `ItemsOutput` |
| Pipeline.PrepareInvoices | concatenar_nfs.py:168 | converting an invoices frame computes `InvoicesOutput` |
| Pipeline.Conclude | concatenar_nfs.py:162-168 | concatenation and post-processing compute `Finish` |
| Pipeline.Run | concatenar_nfs.py:121-168 | the script computes `RunSpec`: the first exception raised, or the three final tables |
| Pipeline.RunSpec | concatenar_nfs.py:121-168 | an exception of the main loop is the run's exception, before any concatenation; a completed run yields three well-formed tables, the items with the sign column |
| RunProperties.SchemaColumns | concatenar_nfs.py:17-71 | "periodo" is declared once, as `str`, in both schemas; "CFOP" is declared once, as `int64`, in the items schema |
| RunProperties.NoneOpened | concatenar_nfs.py:138-140 | when no period unpacks into three files, no period is loaded |
| RunProperties.RunFailsWithoutData | concatenar_nfs.py:162 | when no period unpacks into three files, the run raises `NoObjectsToConcatenate` |
| RunProperties.RunOnEmptyListing | concatenar_nfs.py:88-98 | a source directory with no six-digit name makes the run raise `NoObjectsToConcatenate` |
| RunProperties.RunFailsOnUnclassifiable | concatenar_nfs.py:141-143 | a period with three files that cannot all be given a role aborts the run with a role's IndexError |
| RunProperties.RunOutputs | concatenar_nfs.py:127-168 | a completed run post-processes consistent lists with one entry per period that unpacked into three files, in the dict's order |
| RunProperties.FinishRowCounts | concatenar_nfs.py:162-164 | each output has as many rows as the tables appended to its list together, and at least one period was loaded |
| RunProperties.ConcatKeepsTag | concatenar_nfs.py:150-164 | every row keeps its period's tag after concatenation, at its offset |
| RunProperties.TagSurvivesNormalise | concatenar_nfs.py:100-110 | a completed conversion keeps every row's tag, because "periodo" is declared `str` |
| RunProperties.InvoicesOutputKeepsTag | concatenar_nfs.py:168 | every invoices row keeps its period's tag in the output |
| RunProperties.ItemsOutputKeepsTag | concatenar_nfs.py:166-167 | every items row keeps its period's tag through conversion and signing |
| RunProperties.ItemsOutputSigned | concatenar_nfs.py:112-119 | each items row has an integer or missing code and a sign of 1 or -1 computed from that row's code |
| RunProperties.ItemsSigned | concatenar_nfs.py:166-167 | the same property for the items output of the whole run |

## Left out

- Listing the source directory, unpacking archives, listing the scratch directory, and deleting it with `shutil.rmtree`: these are file-system effects. Their results are the inputs of `Pipeline.Directory`. The skipped path does not reach `rmtree`, which the model does not represent.
- CSV reading with `;` and windows-1252: `Directory.load` gives the table directly. Read errors are not modelled, and every file is assumed to read as a well-formed table (`LoadsValid`).
- Day-first date parsing inside `pd.to_datetime`: it is the parameter `parseDate`, applied one string at a time. pandas' format inference over a whole column is not modelled.
- Writing timestamps to text (`Cells.TimestampText`) follows `str(Timestamp)` without time zones.
- Normalisation.AsStr: a datetime64 column is converted as each value's `str(Timestamp)`. pandas formats such a column as a whole (the date alone when every time is midnight, one sub-second precision shared by all rows), and that is not modelled. The run only meets this when a loaded table already holds timestamps; `read_csv` without `parse_dates` does not produce them.
- `pd.to_numeric` forms other than an optional sign followed by digits (decimals, exponents, whitespace, "inf") are refused. Their float results are not modelled.
- Cells.Render / Normalisation.NumberOf: integers are unbounded. int64 overflow is not modelled, nor `pd.to_numeric` falling back to uint64 or float64 beyond that range. In a float64 column an integer is rendered as its digits followed by ".0", whereas Python writes floats of 1e16 and above in exponent form (`1e+16`) and rounds beyond 2^53. Floats other than whole integers are not modelled.
- `str.lower()` and `\d` are modelled on ASCII: `Classification.Lower` lowers only A-Z, and `IsDigit` accepts only 0-9.
- Timestamped logging, `print`, `tqdm`, `os.makedirs`, and the Parquet and pickle outputs: these are I/O and clock effects.
- `consultar_nfs.py` is not part of this model. It runs DuckDB queries over the outputs.
- The commented partitioning sketch at the end of the file is not executed code.
- DataFrames are values that are copied into a `Tables.Frame` when one is mutated, so aliasing between frames is not modelled. The source assigns the returned frame to a new name, but both names refer to the same object.
- RunProperties.SchemaColumns: proves that only "periodo" and "CFOP" are declared once. Distinctness of all the other declared names is not stated.
