# Machines and technicians admin: a Dafny model

This project models the logic of an admin-panel plugin for a commerce
framework that keeps equipment records ("machines") and a technician roster.
What it models:

- **The machines listing endpoint** (`GET /admin/machines`). It turns the
  query string into a storage filter. `status`, `customer_id` and `brand_id`
  become exact matches. `machine_type` becomes a case-insensitive `%v%`
  pattern. A free-text `q` becomes an `$or` of five such patterns. Every
  other parameter is copied through as an exact match. `limit` defaults to
  50 and `offset` to 0. The endpoint then fetches one page and the total
  count. It adds `brand_name`/`brand_code` to every record from the brand
  directory, and falls back to `null` when the record has no brand or the
  lookup fails.
- **The machines creation endpoint** (`POST /admin/machines`). It runs the
  creation workflow. Success answers 201; a `duplicate_error` answers 409;
  an `invalid_data` error answers 400; anything else answers 500.
- **The machine edit form.** Its schema is modelled as a list of field
  checks. Loading a stored record into the form uses `||` fallbacks. The
  customer select shows "none" for no customer.
- **The technicians list page.** It builds the query string for one page of
  the table. It reads the list response, and it shows a status as a label and
  a colour.

Modules, one per file:

| file | module | contents |
|---|---|---|
| values.dfy | `Values` | `Option`, `Result`, `Field` (undefined / null / value), JavaScript truthiness of text |
| decimal.dfy | `Decimal` | decimal numerals of naturals and reading them back |
| matching.dfy | `Matching` | the `$ilike` matcher and what a `%v%` pattern selects |
| machines.dfy | `Machines` | machine, brand and thrown-error records |
| machines_route.dfy | `MachinesRoute` | the filter builder, pagination, enrichment, GET and POST |
| edit_machine_form.dfy | `EditMachineForm` | schema checks, form reset, customer select |
| technicians_page.dfy | `TechniciansPage` | `URLSearchParams`, the query builder, response reading, status badge |

Storage (`query.graph`, `listAndCountMachines`), the brand directory
(`retrieveBrand`) and the creation workflow are not part of this model. They
are passed in as function parameters that return a value or what they threw.
The current year, which the schema reads from the clock, is a parameter.

Three facts about the machines handler shape the model:

- Unknown query keys are copied into the filter as exact matches.
- `limit` and `offset` are passed on as sent, without clamping.
- A 400 answer comes only from a workflow error whose `type` is
  `invalid_data`.

## Model

| member | source | states |
|---|---|---|
| `MachinesRoute.BuildFilters` | src/api/admin/machines/route.ts:13-41 | the filter: every unreserved parameter copied as an exact match (a search replaces a sent `$or`); `status`/`customer_id`/`brand_id` present exactly when sent non-empty, as exact values; `machine_type` only as the `%v%` pattern; `$or` with the five search clauses when `q` is sent non-empty; nothing else |
| `MachinesRoute.QueryFilterUnique` | src/api/admin/machines/route.ts:13-41 | the filter description leaves no choice: two filters that both meet it are equal |
| `MachinesRoute.ReservedNeverCopied` | src/api/admin/machines/route.ts:13-25 | `limit`, `offset` and `q` never appear in the filter; without a search, a `$or` key is the sent text as an exact match |
| `MachinesRoute.PaginationOf` | src/api/admin/machines/route.ts:14-15 | a missing `limit` is 50 and a missing `offset` is 0; sent values are used unchanged |
| `MachinesRoute.EnrichOne` | src/api/admin/machines/route.ts:64-85 | the record is kept unchanged; brand name and code are the brand's when the record names a brand and the lookup succeeds, and both null otherwise |
| `MachinesRoute.Enrich` | src/api/admin/machines/route.ts:62-87 | the output has the page's length, and element i is record i enriched |
| `MachinesRoute.ListResponse` | src/api/admin/machines/route.ts:44-101 | 200, always as a listing, exactly when both the page and the count query succeed, whatever the brand lookups do; otherwise 500 with the failing query's details; a 200 carries the enriched page, the count and the take/skip echoed as `limit`/`offset` |
| `MachinesRoute.Get` | src/api/admin/machines/route.ts:8-102 | the page and the count are both asked for with the request's filter and with the same take/skip, and the response is the listing response for their results |
| `MachinesRoute.Post` | src/api/admin/machines/route.ts:104-141 | 201 with the first created machine exactly when the workflow succeeds; 409 exactly for `duplicate_error`; 400 exactly for `invalid_data`; 500 for every other failure, with "Unknown error" as the details of a thrown non-Error; the error text is "Duplicate machine", "Invalid data" or "Failed to create machine" accordingly |
| `MachinesRoute.SearchMeaning` | src/api/admin/machines/route.ts:33-41 | for search text without wildcards or backslashes, the `$or` clauses select exactly the records in which model number, serial number, machine type, description or notes contains the text, ignoring case |
| `MachinesRoute.MachineTypeMeaning` | src/api/admin/machines/route.ts:30 | for text without wildcards or backslashes, the `machine_type` condition selects exactly the records whose machine type contains the sent text, ignoring case |
| `MachinesRoute.PercentSearchSelectsAll` | src/api/admin/machines/route.ts:33-41 | search text is put into the pattern unescaped: searching for "%" selects every record |
| `Matching.SubstringPattern` | src/api/admin/machines/route.ts:30 | the pattern is the value wrapped in one `%` on each side |
| `Matching.SubstringPatternMeaning` | src/api/admin/machines/route.ts:30 | a `%v%` pattern whose `v` has no wildcard or backslash matches exactly the texts containing `v` up to letter case |
| `Matching.UnescapedPercentMatchesAll` | src/api/admin/machines/route.ts:30 | the pattern built from "%" matches every text |
| `EditMachineForm.FailedChecks` | src/admin/components/edit-machine-form.tsx:21-33 | the issues found are exactly the listed checks the values fail |
| `EditMachineForm.Validate` | src/admin/components/edit-machine-form.tsx:21-33 | an issue is reported exactly when its check fails; no issue exactly when model and serial numbers are non-empty, a year lies in 1800..currentYear + 1, a machine type has at most 100 characters, engine hours are not negative and the status is one of the four |
| `EditMachineForm.SchemaIssues` | src/admin/components/edit-machine-form.tsx:21-33 | each check is reported on its field with the schema's own message ("Model number is required", "Serial number is required", "Year must be valid", "Year cannot be in the future", "Engine hours must be positive"; the library's message for the length and status checks) exactly when the value fails it; every reported entry describes a check the values fail; nothing is reported exactly when the values are acceptable |
| `EditMachineForm.ReportedAreViolations` | src/admin/components/edit-machine-form.tsx:21-33 | every issue shown for a form's values is the description of a check those values fail |
| `EditMachineForm.Report` | src/admin/components/edit-machine-form.tsx:21-33 | one shown issue per issue, in the same order: entry k describes issue k; a check is shown exactly when it was found |
| `EditMachineForm.ResetValues` | src/admin/components/edit-machine-form.tsx:115-127 | no loaded value is null; missing or null texts load as ""; a missing status loads as "active"; year and engine hours load as undefined exactly when missing, null or 0, and unchanged otherwise |
| `EditMachineForm.ResetKeepsAcceptable` | src/admin/components/edit-machine-form.tsx:115-127 | a record the schema accepts loads into values the schema accepts |
| `EditMachineForm.ZeroNumbersCleared` | src/admin/components/edit-machine-form.tsx:120-122 | a stored year or engine-hours value of 0 loads as an empty field; a stored year of 0, which the schema rejects, so loads into values that pass the year checks |
| `EditMachineForm.CustomerSelectValue` | src/admin/components/edit-machine-form.tsx:379 | the select shows the stored id, or "none" when the field is empty, null or missing |
| `EditMachineForm.CustomerFieldValue` | src/admin/components/edit-machine-form.tsx:379 | choosing "none" stores ""; any other choice is stored unchanged |
| `EditMachineForm.CustomerRoundTrip` | src/admin/components/edit-machine-form.tsx:379 | showing a stored id and choosing it again stores it unchanged (for every id but "none"); an empty field shows "none" |
| `EditMachineForm.CustomerChoiceShown` | src/admin/components/edit-machine-form.tsx:379 | the stored value of a choice shows as that choice again |
| `Values.OrEmpty` | src/admin/components/edit-machine-form.tsx:116-126 | the fallback to "" keeps non-empty text and gives "" for missing, null or empty text |
| `TechniciansPage.SearchParams.Append` | src/admin/routes/technicians/page.tsx:208 | appending adds one pair at the end and keeps the earlier ones |
| `TechniciansPage.AppendAll` | src/admin/routes/technicians/page.tsx:211-217 | one pair per selected value is appended, in selection order |
| `TechniciansPage.BuildTechnicianQuery` | src/admin/routes/technicians/page.tsx:186-222 | the parameters sent are `limit`, `offset`, then `q`, every status, every department and `order`, in that order |
| `TechniciansPage.QueryPage` | src/admin/routes/technicians/page.tsx:177-205 | `limit` comes first and is "15"; `offset` comes second and reads back as pageIndex × 15 |
| `TechniciansPage.QueryValues` | src/admin/routes/technicians/page.tsx:207-222 | `q` is sent once when the search is non-empty and never otherwise; the statuses and departments are sent in selection order, nothing when none is selected; `order` is sent once when sorting and never otherwise |
| `TechniciansPage.ValuesOfQuery` | src/admin/routes/technicians/page.tsx:202-222 | the values under any name but `limit`/`offset` are the search, status, department and order values for it, in that order |
| `TechniciansPage.QueryOrderLast` | src/admin/routes/technicians/page.tsx:219-222 | when sorting, `order` is the last parameter; it is "-" + column for descending and the column for ascending |
| `TechniciansPage.NormaliseResponse` | src/admin/routes/technicians/page.tsx:235-238 | a missing or null list reads as []; a missing, null or zero count reads as 0; present values are kept |
| `TechniciansPage.NormaliseIdempotent` | src/admin/routes/technicians/page.tsx:235-238 | reading an already read response changes nothing |
| `TechniciansPage.StatusLabel` | src/admin/routes/technicians/page.tsx:116 | "on_leave" shows as "On Leave"; any other status keeps its length and all but its first character, which is upper-cased |
| `TechniciansPage.StatusColour` | src/admin/routes/technicians/page.tsx:108-114 | green exactly for "active", orange exactly for "on_leave", red for everything else |
| `TechniciansPage.BadgesMatchFilterOptions` | src/admin/routes/technicians/page.tsx:139-156 | each status the filter offers shows as that option's label, and the three statuses get distinct labels and colours |
| `Decimal.NatToString` | src/admin/routes/technicians/page.tsx:203-204 | the numeral has at least one digit, only digits, and no leading zero; 0 is written "0" |
| `Decimal.ParseNatToString` | src/admin/routes/technicians/page.tsx:204 | reading back the numeral of n gives n |

## Left out

- Rendering, hooks, drawers, tables, toasts and console logging are not modelled. They are UI and I/O.
- `fetch`, react-query caching and invalidation are not modelled. They are I/O.
- Storage calls, brand lookups and the creation workflow are function parameters. Their code is not part of this model.
- The per-record brand lookups are a sequential map. They run concurrently in the handler, but results are placed by position.
- `MachinesRoute.ListResponse` takes both query outcomes. `MachinesRoute.Get` asks for the count only after the page succeeded, as the handler does. The oracles are pure, so the two agree.
- `Number(...)` on text is not modelled. `limit` and `offset` arrive as naturals, so NaN and negative values are out of scope.
- A query parameter sent several times (an array value) is not modelled. Every other parameter is a single text value.
- `Matching.ILike` folds only ASCII letters. The database's locale-aware case folding is not modelled. LIKE's backslash escape is not modelled either; `Matching.NoWildcards` excludes the backslash along with `%` and `_`, so for ASCII text the lemmas that require it hold for the database too.
- `MachinesRoute.Column` reads only the text columns. A clause on a number or date column never holds in the model.
- How storage combines the filter's keys (AND across keys) is the store's work. The model states only what each search clause selects.
- `EditMachineForm.Validate` does not model zod's type checks (a number where text is expected, and so on). It also leaves out the library's default messages for the length and enum checks (`Message` is None there).
- The year bound reads the clock once, when the schema is built. The model takes that year as a parameter.
- Engine hours are a `real`. NaN and -0 are left out.
- Text length is counted in characters, not in UTF-16 code units.
- Machine fields the form and the listing never touch are left out: fuel type, horsepower, weight, location, purchase data, metadata and timestamps.
- `TechniciansPage.StatusLabel` upper-cases only ASCII letters. JavaScript's full Unicode `toUpperCase` can change the length of a string.
- `Decimal.NatToString` writes every natural in plain digits. JavaScript switches to exponent notation from 10^21 on.
- The query string's percent-encoding is left out. The model keeps the ordered name/value pairs.
- `MachinesRoute.Post` does not model a thrown `null` or `undefined`. Reading `.type` of those throws again inside the handler.
- For 409 and 400 the details are the error's `message`. An error without a message (JSON drops `undefined`) is not modelled.
- Soft delete, serial-number uniqueness and limit clamping are not modelled. None of them is in the modelled code.
- The machine edit page has its own form validator (brand, model, serial number, year and fuel type required; year numeric) and its own record loader with `||` fallbacks. Both are outside the modelled core and are not part of this model.
- The machines list page, the price-list route, the type declarations and the user-preferences model are not part of this model. They hold wiring, declarations or framework schemas only.
