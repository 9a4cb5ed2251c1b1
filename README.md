# Wildlife prediction converters, modelled in Dafny

This project models three small batch transforms from a repository that
post-processes wildlife-camera predictions. The input is a JSON document
whose `predictions` list holds one record per image: scalar fields, a
`classifications` object (`classes` taxonomy strings and `scores`, paired by
position) and a `detections` list (category, label, confidence and `bbox`).

- **JSON to CSV** (`JsonToCsv`, `json_to_csv.dfy`). `split_taxonomy` parses a
  `;`-separated taxonomy string into eight named fields. The body of `main`
  flattens each prediction into one summary row, one classification row per
  class string and one detection row per detection, with every bbox padded
  to four values by `""`.
- **JSON to SQLite** (`JsonToSqlite`, `json_to_sqlite.dfy`). `parse_tax_string`
  is the seven-slot parse, padded with `None`. `insert_image_and_relations`
  inserts an `images` row and then its child rows under the new id.
  `process_file` and `main` count the inserted predictions. The database is a
  class `Database` with three `seq` tables and the `nextId` that
  `AUTOINCREMENT` hands out next.
- **Mosaic page** (`Mosaic`, `make_mosaic.dfy`). This covers `detect_column`,
  the derivation of the output file name, the cleaning and filtering of path
  values, and the page assembly with one card per path. `MosaicExamples`
  (`mosaic_examples.dfy`) works concrete inputs through this model.

Shared pieces:
- `Text` (`text.dfy`) models Python's `str.split`/`join`, list padding,
  ASCII lower-casing and `str.strip`.
- `Json` (`json.dfy`) holds the input records. An absent key is an `Option`,
  and JSON `null`/Python `None` is `Scalar.Null`.
- `Wrappers` (`wrappers.dfy`) holds `Option`.

The two converters disagree, and the model keeps both behaviours:

| | CSV converter | SQLite loader |
|---|---|---|
| rows per prediction | one per class string; surplus scores give no row | `max(len(classes), len(scores))` |
| rank | 1-based `class_rank` | 0-based `rank_integer` |
| taxonomy | 8 named fields (9 slots padded with `""`) | 7 columns padded with `None` |
| missing value | `""` | `None` (SQL NULL) |
| empty class string | split anyway: `class_uuid` is `""`, the rest `""` | all seven columns `None` |
| second taxonomy slot | `kingdom` | `tax_class` |

The model follows the code where it departs from the converters' documented
intent:
- The CSV converter writes one classification row per element of `classes`,
  not `max(len(classes), len(scores))` of them.
- It emits eight taxonomy fields, although `split_taxonomy`'s docstring
  describes nine.
- The SQLite loader catches no storage error. A prediction without
  `filepath` violates `NOT NULL` and raises `IntegrityError` out of `main`;
  the model does not continue with the next file.

A `" filepath"` header shows a quirk of the mosaic reader. The column is
chosen among the stripped field names but looked up under the header as
written, so no path is found (`MosaicExamples.PaddedHeaderFindsNothing`).

## Model

| member | source | states |
|---|---|---|
| Json.Classes | src/json_to_csv.py:81 | `pred.get("classifications", {}).get("classes", [])`: the class strings, empty when either key is missing; its properties are stated by JsonToCsv.ClassRowsProperties and JsonToSqlite.ClassificationRecordsProperties |
| Json.Scores | src/json_to_csv.py:82 | `pred.get("classifications", {}).get("scores", [])`: the scores, empty when either key is missing; used by the same lemmas |
| Json.Detections | src/json_to_csv.py:92 | `pred.get("detections", [])`: the detection records, empty when the key is missing; JsonToCsv.DetectionRowsProperties states what is written per element |
| Json.Predictions | src/json_to_csv.py:72 | `data.get("predictions", [])`: the predictions, empty when the key is missing; JsonToCsv.AllSummariesAt states one summary row per element |
| Text.Join | output/species/make_mosaic.py:214 | `sep.join(parts)`, one separator between neighbours: `"\n".join(out)` in Mosaic.Run; for the `split(";")` calls of the converters it only serves as Split's specification, stated by Text.SplitSegments and Text.SplitJoin |
| Text.Split | src/json_to_csv.py:21 | `str.split(";")` always yields at least one segment |
| Text.SplitSegments | src/json_to_csv.py:21 | no segment contains the separator, and joining the segments with it gives back the input |
| Text.SplitJoin | src/json_to_sqlite.py:69 | splitting a join of separator-free parts gives back the parts, so the segmentation is unique |
| Text.Pad | src/json_to_csv.py:23 | `xs += [d] * (n - len(xs))` reaches length max(n, len(xs)), keeps each existing element and fills the rest with `d` |
| Text.PadIdempotent | src/json_to_csv.py:99 | padding a padded list again changes nothing |
| Text.Lower | output/species/make_mosaic.py:137-141 | `str.lower()` on ASCII: same length, each character lower-cased on its own; Text.LowerSlice and Mosaic.StemDropsSuffix use it |
| Text.EndsWith | output/species/make_mosaic.py:137-141 | `str.endswith(suffix)`: the last `len(suffix)` characters are the suffix; Mosaic.StemDropsSuffix states what the two tests cut |
| Text.Strip | output/species/make_mosaic.py:175 | `strip` leaves no dropped character at either end, is empty exactly when every character is dropped, and keeps an already clean string whole |
| Text.TrimSlice | output/species/make_mosaic.py:168 | what `strip` keeps (`TrimEnd` after `TrimStart`, the definition of Text.Strip) is the slice of the value after its leading stripped characters, and every character outside that slice is one `strip` removes |
| JsonToCsv.SplitTaxonomy | src/json_to_csv.py:13-33 | `split_taxonomy`: the eight named fields of a class string; JsonToCsv.SplitTaxonomyFields and JsonToCsv.TaxonomyRoundTrip state what they hold |
| JsonToCsv.SplitTaxonomyFields | src/json_to_csv.py:21-33 | field j (of 8) is segment j when there is one and `""` otherwise; segments from the ninth on never appear |
| JsonToCsv.TaxonomyRoundTrip | src/json_to_csv.py:21-33 | parsing the `;`-join of eight separator-free names gives back those names |
| JsonToCsv.TwoSegmentExample | src/json_to_csv.py:21-33 | `"u;Animalia"` fills `class_uuid` and `kingdom`, and the other six fields are `""` |
| JsonToCsv.PaddedBox | src/json_to_csv.py:97-99 | a padded bbox has at least four values |
| JsonToCsv.PaddedBoxValues | src/json_to_csv.py:145-158 | bbox column k is value k when the list has one, else `""`; a longer list gives its first four; a missing bbox gives four `""` |
| JsonToCsv.SummaryOf | src/json_to_csv.py:73-121 | the summary row of one prediction; JsonToCsv.SummaryProperties states each column |
| JsonToCsv.SummaryProperties | src/json_to_csv.py:73-121 | filepath, country, model_version, prediction, prediction_score and prediction_source are the prediction's own fields, `""` for an absent key; `num_classes` is max(len(classes), len(scores)); top/second class and score come independently from index 0/1 of their own list, `""` when absent; with no detection the label, confidence and bbox columns are `""`, otherwise they mirror the first detection with its padded bbox |
| JsonToCsv.ClassRowsFrom | src/json_to_csv.py:124-141 | the classification rows from a given rank on, one per remaining class string; JsonToCsv.ClassRowsFromAt states row i |
| JsonToCsv.ClassRowsOf | src/json_to_csv.py:124-141 | the classification rows of one prediction, starting at rank 1; JsonToCsv.ClassRowsProperties states them |
| JsonToCsv.ClassRowsFromAt | src/json_to_csv.py:124-141 | row i is built from class i with rank `rank + i` and score i, or `""` past the scores |
| JsonToCsv.ClassRowsProperties | src/json_to_csv.py:124-141 | one classification row per class string, in order, ranked i+1, carrying score i or `""` and the prediction's filepath, country and model_version; no more rows than `num_classes` |
| JsonToCsv.DetectionRowFor | src/json_to_csv.py:145-159 | one detection's row under a given index, with its bbox padded; JsonToCsv.DetectionRowsProperties states its columns |
| JsonToCsv.DetectionRowsOf | src/json_to_csv.py:144-159 | the detection rows of one prediction, numbered from 1; JsonToCsv.DetectionRowsProperties states them |
| JsonToCsv.DetectionRowsFromAt | src/json_to_csv.py:144-159 | row i is the row of detection i, numbered `index + i` |
| JsonToCsv.DetectionRowsProperties | src/json_to_csv.py:144-159 | one detection row per detection, in order, numbered 1..num_detections, with its category, label, confidence and padded bbox, and the prediction's filepath, country and model_version |
| JsonToCsv.AllSummaries | src/json_to_csv.py:72-121 | the summary rows of the `for pred in ...` loop, prediction after prediction; JsonToCsv.AllSummariesAt states them and JsonToCsv.Convert is the loop |
| JsonToCsv.AllSummariesAt | src/json_to_csv.py:72-121 | the summary file holds exactly one row per prediction, in input order |
| JsonToCsv.AllClassRows | src/json_to_csv.py:72-141 | every prediction's classification rows, prediction after prediction; JsonToCsv.AllClassRowsCount states their number and JsonToCsv.Convert is the loop |
| JsonToCsv.AllDetectionRows | src/json_to_csv.py:72-159 | every prediction's detection rows, prediction after prediction; JsonToCsv.DetectionRowsProperties states each prediction's part and JsonToCsv.Convert is the loop |
| JsonToCsv.AllClassRowsCount | src/json_to_csv.py:123-141 | the classification file holds one row per class string of the whole document |
| JsonToCsv.Flatten | src/json_to_csv.py:72-159 | one prediction's summary, classification and detection rows; the in-place padding of the first detection's bbox does not change that detection's row |
| JsonToCsv.WriteClassRows | src/json_to_csv.py:124-141 | the classification loop emits exactly the rows ClassRowsOf specifies |
| JsonToCsv.WriteDetectionRows | src/json_to_csv.py:144-159 | the detection loop, run over the list as the summary step left it, emits the rows of the untouched detections |
| JsonToCsv.Convert | src/json_to_csv.py:72-159 | the three writers receive every prediction's rows, prediction after prediction |
| JsonToSqlite.ParseTaxString | src/json_to_sqlite.py:67-72 | `parse_tax_string` always returns exactly seven components |
| JsonToSqlite.ParseTaxStringComponents | src/json_to_sqlite.py:67-72 | component j is segment j when there is one, `None` otherwise; segments past the seventh are dropped |
| JsonToSqlite.ImageRecordOf | src/json_to_sqlite.py:76-86 | the `images` row of one prediction under a given id, every column `pred.get(...)` with `None` for an absent key; JsonToSqlite.InsertImageAndRelations states that it is the row inserted |
| JsonToSqlite.Storable | src/json_to_sqlite.py:22 | a prediction can be stored exactly when its filepath is present and not null (`NOT NULL`); JsonToSqlite.InsertImageAndRelations and JsonToSqlite.StorablePrefixSpec use it |
| JsonToSqlite.ClassificationRecordFor | src/json_to_sqlite.py:96-107 | the classification row built from one class string, score and rank; JsonToSqlite.RecordForColumns states its columns |
| JsonToSqlite.ClassAt | src/json_to_sqlite.py:96 | `classes[i] if i < len(classes) else None`; JsonToSqlite.ClassificationRecordsUpToAt and JsonToSqlite.ClassificationRecordsProperties use it |
| JsonToSqlite.ScoreAt | src/json_to_sqlite.py:97 | `scores[i] if i < len(scores) else None`, the `float` conversion left out; used by the same lemmas |
| JsonToSqlite.ClassificationRecordsUpTo | src/json_to_sqlite.py:95-107 | the rows the first n rounds of `for i in range(n)` insert; JsonToSqlite.ClassificationRecordsUpToAt states round i |
| JsonToSqlite.ClassificationRecordsOf | src/json_to_sqlite.py:89-107 | the classification rows of one prediction under its image id; JsonToSqlite.ClassificationRecordsProperties states them |
| JsonToSqlite.ClassificationRecordsUpToAt | src/json_to_sqlite.py:95-107 | round i of `for i in range(n)` inserts the row built from class i and score i with rank i |
| JsonToSqlite.RecordForColumns | src/json_to_sqlite.py:96-107 | a classification row carries the image id, rank and score it was given; its taxonomy is the parsed class string, or seven `None` when the class is absent or `""` |
| JsonToSqlite.ClassificationRecordsProperties | src/json_to_sqlite.py:89-107 | one image gets max(len(classes), len(scores)) classification rows, all under its id, ranked 0..n-1 in input order, score `None` past the scores, taxonomy all `None` for an absent or empty class |
| JsonToSqlite.BoxColumns | src/json_to_sqlite.py:115-116 | the bbox always gives exactly four columns |
| JsonToSqlite.BoxColumnsValues | src/json_to_sqlite.py:115-116 | bbox column k is value k when the list has one, else `None`; a missing bbox gives four `None` |
| JsonToSqlite.DetectionRecordFor | src/json_to_sqlite.py:111-120 | the detection row of one detection under the image id, its bbox cut or padded to four; JsonToSqlite.BoxColumnsValues states the bbox columns |
| JsonToSqlite.DetectionRecordsOf | src/json_to_sqlite.py:109-120 | the detection rows of one prediction under its image id; JsonToSqlite.DetectionRecordsFromAt states them |
| JsonToSqlite.DetectionRecordsFromAt | src/json_to_sqlite.py:109-120 | one detection row per detection, in order, each under the image id |
| JsonToSqlite.ChildrenOfOne | src/json_to_sqlite.py:74-122 | every child row that one call inserts carries the id of the image that call inserted |
| JsonToSqlite.StoredImages | src/json_to_sqlite.py:124-134 | storing several predictions adds one image row per prediction, in order, with consecutive ids |
| JsonToSqlite.StoredChildren | src/json_to_sqlite.py:124-134 | every classification and detection row stored for several predictions refers to one of their images' ids |
| JsonToSqlite.StorablePrefix | src/json_to_sqlite.py:128-132 | the number of predictions stored before the first one without filepath is at most their number |
| JsonToSqlite.StorablePrefixSpec | src/json_to_sqlite.py:22 | the predictions of the storable prefix all have a filepath, and the one after it has none |
| JsonToSqlite.StorablePrefixIs | src/json_to_sqlite.py:22 | the storable prefix is determined by the position of the first prediction without filepath |
| JsonToSqlite.Database.constructor | src/json_to_sqlite.py:17-65 | a fresh database has empty tables and hands out id 1 first |
| JsonToSqlite.Database.InsertImage | src/json_to_sqlite.py:83-87 | inserting an image appends one row under `nextId`, above every earlier id, and returns that id; a null filepath fails and changes nothing |
| JsonToSqlite.Database.InsertClassification | src/json_to_sqlite.py:104-107 | a classification row is appended; its image id must exist |
| JsonToSqlite.Database.InsertDetection | src/json_to_sqlite.py:117-120 | a detection row is appended; its image id must exist |
| JsonToSqlite.InsertImageAndRelations | src/json_to_sqlite.py:74-122 | exactly one image row is inserted before any child row and its fresh id is returned; the classification and detection tables grow by exactly that prediction's rows under that id; without filepath nothing changes and IntegrityError results |
| JsonToSqlite.InsertClassifications | src/json_to_sqlite.py:89-107 | the `range(n)` loop appends exactly the classification rows of the prediction |
| JsonToSqlite.InsertDetections | src/json_to_sqlite.py:109-120 | the detection loop appends exactly the detection rows of the prediction |
| JsonToSqlite.StoreNext | src/json_to_sqlite.py:130-132 | one pass of the `process_file` loop extends the tables by the next prediction's rows |
| JsonToSqlite.ProcessFile | src/json_to_sqlite.py:124-134 | one image per prediction with consecutive ids; returns `len(predictions)` when every prediction has a filepath, otherwise raises after storing the ones before the first without |
| JsonToSqlite.PredictionsOfFile | src/json_to_sqlite.py:128 | `data.get("predictions", [])` of one parsed file, none for a path that is not a file; JsonToSqlite.FilePredictionsStep uses it |
| JsonToSqlite.FilePredictions | src/json_to_sqlite.py:124-153 | the predictions `main` hands to `process_file`: each file's `data.get("predictions", [])` (line 128), file after file, a path that is not a file contributing none; JsonToSqlite.FilePredictionsStep and JsonToSqlite.FilePredictionsSplit state how it grows |
| JsonToSqlite.Total | src/json_to_sqlite.py:146-153 | `total += n` over the files, a skipped path adding nothing; JsonToSqlite.TotalCountsPredictions states that it counts the predictions read |
| JsonToSqlite.TotalCountsPredictions | src/json_to_sqlite.py:146-153 | `main`'s total equals the number of predictions in the files it read |
| JsonToSqlite.FilePredictionsStep | src/json_to_sqlite.py:147-153 | one more argument adds its predictions and its count to the total |
| JsonToSqlite.RaisedPrefix | src/json_to_sqlite.py:130-131 | a file that raises leaves stored exactly the storable prefix of all predictions |
| JsonToSqlite.FilePredictionsSplit | src/json_to_sqlite.py:147-153 | the predictions of all files split around file j |
| JsonToSqlite.StorableAppend | src/json_to_sqlite.py:147-153 | files stored in full one after the other consist of storable predictions only |
| JsonToSqlite.LoadFile | src/json_to_sqlite.py:151 | `process_file` within `main` extends the tables by the file's storable prefix under the ids that follow |
| JsonToSqlite.LoadNext | src/json_to_sqlite.py:147-153 | a path that is not a file is skipped with count 0; a JSON file is processed and its count added |
| JsonToSqlite.Load | src/json_to_sqlite.py:136-156 | no argument gives the usage exit and touches nothing; otherwise the total is the sum of per-file counts and the tables hold every prediction's rows in order, or the storable prefix when one raises |
| Mosaic.DetectColumn | output/species/make_mosaic.py:100-103 | the preferred name exactly when it is non-empty and present (or is `""` and is the first name); otherwise the first name, `None` for an empty list; the result is always `None` or a field name |
| Mosaic.Clean | output/species/make_mosaic.py:168 | a cleaned value neither starts nor ends with `"` and is no longer than the raw value |
| Mosaic.Kept | output/species/make_mosaic.py:168-169 | `if val: rows.append(val)` on the cleaned value: that value, or nothing when it is empty; Mosaic.KeptMembers states it |
| Mosaic.KeptMembers | output/species/make_mosaic.py:175-176 | a value is kept exactly when its cleaned form is non-empty, and then the cleaned form is kept |
| Mosaic.LastIndexOf | output/species/make_mosaic.py:173-175 | the last position of a column name in the header, or none when absent |
| Mosaic.RowDict | output/species/make_mosaic.py:173-174 | the dictionary `csv.DictReader` yields for a row: values zipped with the header, a later key overriding an earlier equal one, `None` for the fields a short row lacks |
| Mosaic.FieldValue | output/species/make_mosaic.py:175 | `r.get(col) or ""` on that dictionary; Mosaic.FieldValueLastIndex states it without dictionaries |
| Mosaic.FieldValueLastIndex | output/species/make_mosaic.py:175 | `r.get(col) or ""` is the value under the column's last header occurrence, or `""` when it is absent or past the end of the row |
| Mosaic.FirstColumnValue | output/species/make_mosaic.py:180-182 | one `csv.reader` row: nothing for an empty row, else its first value cleaned and kept when non-empty; Mosaic.FirstColumnPathsMembers states it |
| Mosaic.FirstColumnPaths | output/species/make_mosaic.py:177-182 | the `csv.reader` loops (also lines 166-169): each non-empty row's first value, cleaned and kept when non-empty, in row order; Mosaic.FirstColumnPathsMembers states its members and Mosaic.ReadFirstColumn is the loop |
| Mosaic.ColumnValue | output/species/make_mosaic.py:174-176 | one `DictReader` row: nothing for an empty row, else its value under the column cleaned and kept when non-empty; Mosaic.ColumnPathsMembers states it |
| Mosaic.ColumnPaths | output/species/make_mosaic.py:172-176 | the `DictReader` loop: each non-empty row's value under the column, cleaned and kept when non-empty, in row order; Mosaic.ColumnPathsMembers states its members and Mosaic.ReadColumn is the loop |
| Mosaic.JunkHeader | output/species/make_mosaic.py:164 | the test `len(fn) == 1 and fn[0].lower() in ("", "x")` on the stripped field names; Mosaic.JunkHeaderPathsMembers and Mosaic.HeaderPathsMembers state what each outcome reads |
| Mosaic.FirstColumnPathsMembers | output/species/make_mosaic.py:177-182 | the first-column paths are exactly the non-empty cleaned first values of the non-empty rows |
| Mosaic.ColumnPathsMembers | output/species/make_mosaic.py:171-176 | the column paths are exactly the non-empty cleaned column values of the non-empty rows |
| Mosaic.FirstColumnPathsClean | output/species/make_mosaic.py:177-182 | every path read from the first column is non-empty and neither starts nor ends with `"` |
| Mosaic.ColumnPathsClean | output/species/make_mosaic.py:171-176 | every path read from the chosen column is non-empty and neither starts nor ends with `"` |
| Mosaic.CollectedPaths | output/species/make_mosaic.py:152-182 | the paths of the three reading branches, chosen by the stripped header; Mosaic.CollectedPathsClean, Mosaic.JunkHeaderPathsMembers and Mosaic.HeaderPathsMembers state them |
| Mosaic.CollectedPathsClean | output/species/make_mosaic.py:152-182 | every collected path is non-empty and neither starts nor ends with `"` |
| Mosaic.GetField | output/species/make_mosaic.py:175 | searching the header from its end for the column and reading that position of the row (`""` when absent or past a short row) gives the same value as `r.get(col) or ""` on the row's `DictReader` dictionary |
| Mosaic.StripFields | output/species/make_mosaic.py:158 | stripping the field names keeps their number |
| MosaicExamples.JunkHeaderIsCollected | output/species/make_mosaic.py:164-169 | under a header `x` the header row itself is collected as a path |
| MosaicExamples.PaddedHeaderFindsNothing | output/species/make_mosaic.py:158-176 | a header ` filepath` is matched after stripping but looked up as written, so no path is found |
| Mosaic.JunkHeaderPathsMembers | output/species/make_mosaic.py:164-169 | under a one-field header that strips to `""` or `x` (any case), a path is collected exactly when it is the non-empty cleaned first value of some non-empty row, row 0 (the header row) included |
| Mosaic.HeaderPathsMembers | output/species/make_mosaic.py:156-176 | under any other header, a path is collected exactly when it is the non-empty cleaned value that some non-empty row at index 1 or later holds under the column `detect_column` picks from the stripped names, looked up under the header as written |
| Mosaic.CollectPaths | output/species/make_mosaic.py:152-182 | the reading branches collect exactly CollectedPaths |
| Mosaic.ReadFirstColumn | output/species/make_mosaic.py:177-182 | the `csv.reader` loop appends exactly the first-column paths, in row order |
| Mosaic.ReadColumn | output/species/make_mosaic.py:171-176 | the `DictReader` loop appends exactly the column paths, in row order |
| Mosaic.Stem | output/species/make_mosaic.py:134-142 | the CSV's name without a trailing `.gz` and then without a trailing `.csv`, case-insensitively; Mosaic.StemDropsSuffix states which characters go |
| Mosaic.StemDropsSuffix | output/species/make_mosaic.py:134-142 | the stem is a prefix of the CSV's name and drops a case variant of nothing, `.gz`, `.csv` or `.csv.gz`; nothing exactly when the name ends in neither; a name ending (in any case) in `.csv.gz` loses seven characters, any other `.gz` name three, and a `.csv` name four |
| MosaicExamples.StemOfCompressedCsv | output/species/make_mosaic.py:136-142 | `a.CSV.gz` loses both suffixes |
| MosaicExamples.StemKeepsInnerGz | output/species/make_mosaic.py:136-142 | `a.gz.csv` keeps its `.gz` |
| Mosaic.OutputTarget | output/species/make_mosaic.py:120-145 | an `-o` other than `mosaic.html` is kept unchanged; the default becomes the stem plus `.html` in the CSV's directory |
| Mosaic.DeriveOutput | output/species/make_mosaic.py:133-145 | the step-by-step rewriting of `base` gives OutputTarget |
| Mosaic.Card | output/species/make_mosaic.py:196-208 | each card is four lines |
| Mosaic.Cards | output/species/make_mosaic.py:196-208 | the card loop: the four card lines of every path, in path order; Mosaic.CardsLayout states where each card sits |
| Mosaic.CardsLayout | output/species/make_mosaic.py:196-208 | the cards are four lines per path, card i at lines 4i..4i+3, in path order |
| Mosaic.Footer | output/species/make_mosaic.py:210-212 | `TEMPLATE_FOOT.format(...)` with the lightbox markup and script, or empty strings without the flag; Mosaic.LightboxOnlyWhenEnabled states it |
| Mosaic.PageLines | output/species/make_mosaic.py:194-212 | the lines `out` holds before the join; Mosaic.PageLayout states their layout |
| Mosaic.PageLayout | output/species/make_mosaic.py:194-212 | the page is the head, exactly one card per path in order, then the footer |
| Mosaic.LightboxOnlyWhenEnabled | output/species/make_mosaic.py:199-212 | the lightbox markup and script sit in the footer when enabled; without the flag the page does not depend on them; a card is an `<a>` link exactly in lightbox mode |
| Mosaic.BuildPage | output/species/make_mosaic.py:194-212 | the HTML loop appends exactly the page lines |
| Mosaic.Run | output/species/make_mosaic.py:117-216 | exit 2 for a missing CSV; exit 3 and no page when no path is collected; otherwise the newline-joined page for the collected paths, written to the derived or given target |

## Left out

- File and JSON reading, `csv.DictWriter` header and row output, `print` and the command-line parsing are I/O. The parsed document is a parameter, and the rows handed to each writer are the result.
- JSON of the wrong type is not modelled: a non-string element of `classes`, a `null` list, or a `classifications` that is not an object. A class string is always a string here, so the loader's `if class_str:` sees only present, absent or `""`.
- A file that is not valid JSON (`json.load` raising in `process_file`) is not modelled; an argument is either not a file or a parsed document.
- The SQLite engine itself is not modelled: DDL, PRAGMAs, indexes, `ON DELETE CASCADE`, `created_at`, the child tables' own ids and column type affinity. The `NOT NULL` on `images.filepath` is kept, since it decides whether a prediction is stored.
- JsonToSqlite.Load: `commit` durability is not modelled. When a file raises, the model's tables still show that file's inserted rows, which SQLite would roll back because they were never committed.
- `float(scores[i])` in the loader is not modelled: scores are opaque values, so a non-numeric score does not raise.
- The gzip sniffing, the `seek` re-reading and the CSV dialect of the mosaic script are not modelled. The CSV arrives as its rows of fields.
- `html.escape` and `Path.name` are parameters of the mosaic model, and so is the text of `TEMPLATE_HEAD`, `LIGHTBOX_HTML` and `LIGHTBOX_JS` (`Mosaic.Templates`). The card markup and the text of `TEMPLATE_FOOT` are modelled as written.
- `str.lower()` is modelled on ASCII letters only, so a header that lower-cases to `x` only through Unicode case folding is not covered.
- `open_text_maybe_gzip` and the diagnostic `print`s to standard error are left out as I/O.
