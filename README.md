# Campus food directory: query builders, form checks and CSV export

This project models in Dafny the part of `app.py`, a Flask application over
a PostgreSQL database of stores, foods and reviews, that decides what
reaches the database:

- **Listing query builders** (`stores_list`, `foods_list`): the request's
  stripped query arguments become one SQL text and one parameter tuple. The
  text starts with a fixed `SELECT ... WHERE 1=1`. Each non-blank filter adds
  one `AND ...` conjunct holding one `%s` and pushes one value, in a fixed
  order. A fixed GROUP BY follows, then exactly one ORDER BY picked from a
  fixed table by `sort_by`. The tuple is `None` when no filter is set.
- **CSV export** (`export_foods_csv`): the same food filters without GROUP
  BY; `sort_by` is spliced into the text only after an allow-list check.
  The output buffer gets a byte-order mark, the fixed header row, then one
  five-cell row per result row, in result order.
- **Write handlers** (`store_create`, `store_edit`, `food_create`,
  `food_edit`, `review_create`): each form field is read with
  `.get(key, '').strip()`. A blank required field yields the handler's
  message and no statement. Otherwise one INSERT or UPDATE is issued; blank
  optional fields are bound as NULL (`x if x else None`), and its
  placeholders match its values one for one. A database error rolls the
  statement back.

Modules: `Wrappers` (Option), `PyStr` (`str.strip`, `dict.get`), `SqlText`
(`%s` counting, the parameter tuple), `Listing`, `Export`, `Forms`.

The model states the safety property of the builders by typing. The SQL text
is a function of a *shape*: which filters are set, and the ordering picked
from a closed enumeration. No request string can therefore reach the text.
`BuildStoresQuery`, `BuildFoodsQuery` and `BuildExportQuery` are proved to
produce exactly that text, and a tuple whose length equals the text's number
of `%s`.

The store listing defaults `sort_by` to `'name'`,
and any value outside its five keys falls back to `s.store_id ASC`, not to
the name order. The food listing defaults `sort_by` to `'id'`, which is not
one of its keys, so by default it sorts by `f.food_name ASC`.

## Model

| member | source | states |
|---|---|---|
| PyStr.Strip | app.py:26-29 | `str.strip()` returns a string no longer than its input that neither starts nor ends with a whitespace character |
| PyStr.TrimStartSuffix | app.py:26-29 | `lstrip` keeps a suffix of the input, removes only whitespace, and stops at the first non-whitespace character |
| PyStr.TrimEndPrefix | app.py:26-29 | `rstrip` keeps a prefix of the input, removes only whitespace, and stops at the last non-whitespace character |
| PyStr.StripEmpty | app.py:163 | a stripped field is empty exactly when the raw value is all whitespace, so `if not x` rejects whitespace-only input |
| PyStr.StripIsSlice | app.py:26-29 | the stripped value is a contiguous slice of the raw value with whitespace-only margins on both sides |
| PyStr.StripIdempotent | app.py:26-29 | stripping a stripped value changes nothing |
| PyStr.Field | app.py:26-29 | a value read with `.get(key, default).strip()` has no surrounding whitespace |
| SqlText.PlaceholdersAppend | app.py:45-58 | appending text to SQL that does not end in `%` adds the two placeholder counts |
| SqlText.Bind | app.py:77 | `tuple(params) if params else None` is `None` exactly when there are no values, else the values in order |
| SqlText.Conjuncts3 | app.py:43-62 | fixed head and tail plus three optional one-`%s` conjuncts hold one placeholder per present conjunct |
| SqlText.Conjuncts4 | app.py:249-270 | the same for four optional conjuncts |
| Listing.Like | app.py:48 | the search value is bound as the search text wrapped in one `%` on each side |
| Listing.AddFilter | app.py:46-58 | a non-blank filter appends its conjunct and its value; a blank filter changes neither text nor values |
| Listing.StoreQueryOf | app.py:26-29 | every store field, `sort_by` included, is free of surrounding whitespace; a missing `search` is blank and a missing `sort_by` is `'name'` |
| Listing.StoreArgs | app.py:26-58 | each present store argument, `sort_by` included, reaches the query as its stripped value; a store filter is set exactly when its argument is present and not all whitespace; an unpadded `sort_by` is used as given, and a missing one selects the name ordering |
| Listing.StoreOrderOf | app.py:64-75 | `sort_by` picks the id ordering exactly when it is none of the five keys; otherwise it picks the ordering whose key it is |
| Listing.StoreSortKeyRoundTrip | app.py:64-73 | each named ordering's key selects that ordering |
| Listing.BuildStoresQuery | app.py:31-77 | the text is the shape's fixed text, the values are one per non-blank filter in check order, and `%s` count equals the number of values |
| Listing.StoresPlaceholders | app.py:43-62 | the store text has exactly one `%s` per set filter |
| Listing.StoreParamsOrder | app.py:43-58 | the tuple is `None` iff every filter is blank; the search pattern comes first and the category last |
| Listing.FoodQueryOf | app.py:235-239 | every food field, `sort_by` included, is free of surrounding whitespace; a missing `search` is blank and a missing `sort_by` is the stripped default |
| Listing.FoodArgs | app.py:235-265 | each present food argument, `sort_by` included, reaches the query as its stripped value; a food filter is set exactly when its argument is present and not all whitespace; an unpadded `sort_by` is used as given |
| Listing.FoodsListQueryOf | app.py:239 | with no `sort_by` the food listing's key is `'id'`, which selects the `f.food_name ASC` ordering |
| Listing.FoodOrderOf | app.py:273-282 | `sort_by` picks the name ordering exactly when it is none of the four keys; otherwise the ordering whose key it is |
| Listing.FoodSortKeyRoundTrip | app.py:273-280 | each price or rating ordering's key selects that ordering |
| Listing.BuildFoodsQuery | app.py:241-284 | the text is the shape's fixed text, the values are one per non-blank filter in check order, and `%s` count equals the number of values |
| Listing.FoodsPlaceholders | app.py:249-270 | the food text has exactly one `%s` per set filter |
| Listing.FoodParamsOrder | app.py:249-265 | the tuple is `None` iff every filter is blank; search first, maximum price last, minimum price just before it when both are set |
| Export.ExportColumnOf | app.py:402-405 | the export orders by `sort_by` exactly when it is on the allow-list, and by `food_id` otherwise |
| Export.ExportQueryOf | app.py:380-405 | with no `sort_by` the export's key is `'food_id'`, which the allow-list turns away, so the export orders by `food_id` |
| Export.BuildExportQuery | app.py:386-407 | the export text is fixed text of the filter shape and allowed column, with the listing's values and one `%s` per value |
| Export.ExportPlaceholders | app.py:386-405 | the export text has exactly one `%s` per set filter |
| Export.RowCells | app.py:415 | each result row gives as many cells as the header has |
| Export.WriteCsv | app.py:410-415 | the buffer receives the BOM, the header row, then one row per result row in order, and nothing else |
| Export.CsvText | app.py:410-415 | for any CSV formatting, the exported text is the BOM, the formatted header, then the formatted rows in result order |
| Forms.BlankIsWhitespace | app.py:160-163 | a field counts as blank exactly when it is missing, or its raw value is all whitespace |
| Forms.OrNull | app.py:171 | a blank optional value is bound as NULL, any other as the string itself |
| Forms.SlotListPlaceholders | app.py:443-445 | a VALUES list of `n` slots holds exactly `n` placeholders |
| Forms.StoreInsertSql | app.py:168-171 | the store INSERT text has 2 placeholders |
| Forms.StoreUpdateSql | app.py:196-200 | the store UPDATE text has 3 placeholders |
| Forms.FoodInsertSql | app.py:309-312 | the food INSERT text has 4 placeholders |
| Forms.FoodUpdateSql | app.py:332-336 | the food UPDATE text has 4 placeholders |
| Forms.ReviewInsertSql | app.py:443-446 | the review INSERT text has 7 placeholders |
| Forms.StoreCreate | app.py:157-171 | no write iff `store_name` is blank, then with its message; otherwise an INSERT of the stripped name and the location or NULL, with no blank string bound |
| Forms.StoreEdit | app.py:185-200 | as for creation, as an UPDATE with the store id bound last |
| Forms.FoodCreate | app.py:297-312 | no write iff name, price or store is blank; otherwise an INSERT of name, price, calories or NULL, store |
| Forms.FoodEdit | app.py:321-336 | no write iff name or price is blank; otherwise an UPDATE of name, price, calories or NULL, then the food id |
| Forms.ReviewCreate | app.py:428-454 | no write iff user or food is blank; otherwise an INSERT of the five optional fields or NULL, then user and food |
| Forms.WriteAligned | app.py:443-454 | a write binding as many values as its command takes has one value per `%s` of its text |
| Forms.Submit | app.py:163-177 | an invalid form issues nothing and flashes its message; a valid one issues exactly its validated statement, which is committed exactly when the database reports no error, with the success notice or the failure prefix and the error text flashed |
| Forms.InvalidFormsWriteNothing | app.py:163-165 | for each handler, a blank required field means no statement is issued or committed, and the handler's message is flashed |

## Left out

- `db.py` (connection handling, `execute_query`) and `init_db.py` are not part of this model; the database's answer to a write is a parameter (`None` or an error message).
- PostgreSQL semantics (what rows a query returns, ILIKE matching, aggregation, sorting, type coercion of bound strings) are not modelled; the CSV writer receives result rows as a parameter.
- Flask routing, `redirect`, `flash` storage, `render_template` and the GET branches of the handlers are left out; the flashed text is kept as `Response.notice`.
- `store_detail` and its fixed queries, the delete handlers, `index` and the error pages are outside the modelled core.
- The `csv` module's quoting, separators and line terminator are abstract: `Render` takes the formatting of one row as a function parameter.
- `request.args` and `request.form` are modelled as `map<string, string>`; repeated keys of a MultiDict are not modelled.
- Non-ASCII whitespace is matched to Python's `str.isspace` by a fixed character list; Unicode categories are not derived.
- `export_foods_csv` is modelled as its two steps, the query builder and the CSV loop, not as one handler that runs the query between them.
- The `Response` headers of the export (MIME type, attachment filename) are not modelled.
