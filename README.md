# Niedersachsen consulting map: a Dafny model

This project models the logic of the niedersachsen-beratungsmap web application and proves properties of that model. The application is a map directory of consulting companies and cities in Lower Saxony. The model covers:

- **Browsing**: filtering and sorting the company list, the map's clustering and fly-to decisions, the city menus and the company card.
- **Exports**: the CSV, GeoJSON and PDF exports.
- **Admin side**: the company list with its filters, the forms for new cities and companies, the quick-add endpoint, and the server actions over the company, link and city tables.
- **Statistics**: the dashboard and the stats cards.
- **Utilities**: the memoizing wrapper, the throttle hook, and the script that extracts the Niedersachsen outline from a GeoJSON file.

Each source file has one Dafny module. Code that computes a value is written as functions with lemmas about them. Code that changes state step by step is written as classes whose methods state the new state. Examples are the filter state, the forms, the stores, the jsPDF document, the memo cache and the throttle's `lastRun`. Loops become methods with invariants, proved against specification functions: the PDF drawing loop, the dashboard's counting loops and the stats reduce. Shared modules:

- `Wrappers`: Option, Result, and Outcome. An Outcome carries a thrown error, whose message may be unknown.
- `Records`: the record types.
- `Text`: ASCII case mapping, `join`, `split` and number rendering.
- `Seqs`: `filter`, `find`, first-occurrence de-duplication as a `Map`/`Set` keeps insertion order, and occurrence counting.
- `Sorting`: a stable insertion sort standing for `Array.prototype.sort`. ECMAScript requires that sort to be stable.

JavaScript semantics are kept where they decide a branch:

- Truthiness: null, `''` and `0` are falsy.
- `||` versus `??`.
- `find` returns the first match.
- `Map` keeps insertion order.
- A TypeError is a thrown `Error`. Its message text is chosen by the JavaScript engine, so where a modelled path throws one, that text is a parameter.

Anything the code receives from outside is a parameter:

- the answers of the store and the geocoder;
- the clock;
- `localeCompare`, taken as a total preorder `collate`;
- number and date rendering;
- `splitTextToSize`;
- the key encoding of `memoize`.

Store failures are explicit fault parameters, so every error path is modelled.

Some behaviours of the code worth knowing before reading the model:

- `useCompanyFilters` has no city filter. Only the admin company list filters by city.
- The GeoJSON export keeps a company only when both coordinates are truthy (`lib/export/exportToGeoJSON.ts` line 9). A company with either coordinate missing or exactly 0 is dropped.
- CSV headers and PDF texts are the German strings in the code. For example, the PDF footer is `Seite i von n`.
- Some collaborator errors are swallowed, not propagated:
  - `getCities` answers `[]` on a failed read.
  - `createSupabaseCompany` ignores a failed link insert.
  - `updateSupabaseCompany` ignores failed link deletes and inserts.
  - The quick-add endpoint ignores a failed link insert.

## Model

| member | source | states |
|---|---|---|
| CompanyFilters.FilterAndSort | hooks/useCompanyFilters.ts:14-54 | the memo body returns `Apply`, the filter-then-stable-sort pipeline whose contents and order the lemmas below state |
| CompanyFilters.FilteredMultiset | hooks/useCompanyFilters.ts:17-35 | filtering keeps each matching company as often as the input holds it, and drops every other |
| CompanyFilters.SortedByMultiset | hooks/useCompanyFilters.ts:37-51 | each sort option ('alphabetical', 'newest', 'nearest') only reorders: the result is a permutation of its input |
| CompanyFilters.ApplyContents | hooks/useCompanyFilters.ts:14-54 | the visible list holds each company that matches the search query and the selected specializations as often as the input does, and no other |
| CompanyFilters.ApplyKeeps | hooks/useCompanyFilters.ts:18-35 | a company is visible iff its name, description or address contains the lower-cased query (or the query is empty) and, when specializations are selected, one of its specializations is selected |
| CompanyFilters.ApplyWithoutFilters | hooks/useCompanyFilters.ts:18-50 | with an empty query and nothing selected every company is kept as often as given; under 'nearest' the list is exactly the input |
| CompanyFilters.ByNameIsTotalPreorder | hooks/useCompanyFilters.ts:40 | comparing names with a total collation is a total preorder, so the alphabetical sort is well defined |
| CompanyFilters.NewestFirstIsTotalPreorder | hooks/useCompanyFilters.ts:43-46 | comparing creation times newest first is a total preorder |
| CompanyFilters.ApplyOrder | hooks/useCompanyFilters.ts:38-51 | 'alphabetical' orders the result by name, 'newest' by descending creation time, 'nearest' keeps the filtered order, and both sorts keep the input order of companies with equal keys |
| CompanyFilters.ApplyIdempotent | hooks/useCompanyFilters.ts:14-54 | filtering and sorting an already filtered and sorted list changes nothing |
| CompanyFilters.ToggledMembership | hooks/useCompanyFilters.ts:60-67 | after a toggle an id is selected iff it was not selected before; other ids keep their state |
| CompanyFilters.ToggledNoDuplicates | hooks/useCompanyFilters.ts:60-67 | a toggle keeps a duplicate-free selection free of duplicates |
| CompanyFilters.ToggledTwice | hooks/useCompanyFilters.ts:60-67 | toggling the same id twice gives back the same set of ids, and exactly the same list when the id was not selected |
| CompanyFilters.SetSearchQuery | hooks/useCompanyFilters.ts:56-58 | only the query changes |
| CompanyFilters.ToggleSpecialization | hooks/useCompanyFilters.ts:60-67 | afterwards an id is selected iff it was not selected before, other ids keep their state, and the query and sort option are unchanged |
| CompanyFilters.SetSortBy | hooks/useCompanyFilters.ts:69-71 | only the sort option changes |
| CompanyFilters.ClearFilters | hooks/useCompanyFilters.ts:8-79 | the cleared state is the initial one: empty query, nothing selected, 'alphabetical' |
| CsvExport.EscapeCSV | lib/export/exportToCSV.ts:54-59 | a value without comma, double quote or line feed is left as is; any other value is enclosed in double quotes with every quote inside doubled (section 2 of RFC 4180) |
| CsvExport.DoubleQuotesArePaired | lib/export/exportToCSV.ts:56 | after doubling, every double quote inside the field is one of a pair |
| CsvExport.CollapseDoubleQuotes | lib/export/exportToCSV.ts:56 | collapsing doubled quotes undoes the doubling |
| CsvExport.EscapeRoundTrip | lib/export/exportToCSV.ts:54-59 | every escaped value reads back, as an RFC 4180 reader would, as the original value |
| CsvExport.SpecializationNames | lib/export/exportToCSV.ts:32 | the names of the specializations, one per specialization, in list order |
| CsvExport.Row | lib/export/exportToCSV.ts:23-34 | a record has exactly as many fields as the ten-column header |
| CsvExport.Lines | lib/export/exportToCSV.ts:39 | one line per company, in input order, each the company's fields joined with ',' |
| CsvExport.FileContent | lib/export/exportToCSV.ts:43 | the file text is the U+FEFF byte-order mark followed by the CSV text |
| CsvExport.CsvTextEmpty | lib/export/exportToCSV.ts:9-40 | an export of no companies is the header line alone |
| CsvExport.CsvTextSnoc | lib/export/exportToCSV.ts:37-40 | appending a company appends a line feed and its record: records follow the input order |
| CsvExport.RowFields | lib/export/exportToCSV.ts:23-34 | each text field reads back as the company's value, a null or empty value as the empty field; names are joined with '; '; a null or 0 coordinate gives the empty field; the date is the date renderer's output |
| CsvExport.EscapeExample | lib/export/exportToCSV.ts:55-56 | the value `a,"b"` is written as `"a,""b"""` |
| GeoJsonExport.Summaries | lib/export/exportToGeoJSON.ts:24-28 | one summary per specialization, in order, with its name, icon and colour and without its id |
| GeoJsonExport.Features | lib/export/exportToGeoJSON.ts:8-32 | there are never more features than companies |
| GeoJsonExport.FeaturesSnoc | lib/export/exportToGeoJSON.ts:8-32 | appending a company appends its feature exactly when its latitude and longitude are both truthy: features keep the input order |
| GeoJsonExport.FeaturesExactly | lib/export/exportToGeoJSON.ts:9 | every company with both coordinates truthy has its feature, and every feature is that of such a company |
| GeoJsonExport.FeatureDescribesCompany | lib/export/exportToGeoJSON.ts:10-32 | a feature is a Point at `[longitude, latitude]` (sections 3.1.1 and 3.1.2 of RFC 7946) whose properties are the id, name, description, address, website, email, phone and timestamps unchanged, with each specialization summarised by name, icon and colour in order |
| GeoJsonExport.NoUsableNoFeatures | lib/export/exportToGeoJSON.ts:9-37 | without a company with usable coordinates the FeatureCollection is empty |
| Links.LinkRowsFor | app/actions/companies.ts:107-110 | one link row per specialization id, in order, each naming the company |
| Links.LinkRowsForBelong | app/actions/companies.ts:107-110 | the new link rows belong to the company and to no other |
| Links.ReplaceLinksMeaning | app/actions/companies.ts:179-201 | after the delete and insert the company's links are exactly the new ids, in order, and every other company's links are unchanged |
| Records.CompanyCities | components/Admin/CompanyList.tsx:87 | the city of each admin company, one per company, in order |
| CompanyActions.JoinSpecializations | app/actions/companies.ts:44-50 | one company per row, in order, each with the specializations of its own links |
| CompanyActions.SpecsForMembership | app/actions/companies.ts:46-49 | a specialization is listed for a company iff one of that company's links carries it (null join results are dropped) |
| CompanyActions.SpecsForAppend | app/actions/companies.ts:46-49 | the list follows link order |
| CompanyActions.GetCompaniesEmpty | app/actions/companies.ts:22-24 | no company rows give `[]` whatever the link read would return |
| CompanyActions.GetCompaniesMeaning | app/actions/companies.ts:10-57 | the result fails with 'Failed to fetch companies' iff a read fails (the link read only matters when there are rows); otherwise it lists the rows in order with their fields and each row's linked specializations |
| CompanyActions.UpdateRows | app/actions/companies.ts:160-174 | the rows with the id get the patch, all others are unchanged |
| CompanyActions.Resolve | app/actions/companies.ts:120-134 | the embedded select returns one entry per link row, for the same company |
| CompanyActions.Lookup | app/actions/companies.ts:122-129 | the specialization found has the id and is in the table; none is found only when the table has no such id |
| CompanyActions.ResolveAppend | app/actions/companies.ts:120-134 | resolving appended link rows appends their resolutions |
| CompanyActions.SpecsForOthers | app/actions/companies.ts:47 | links of other companies contribute nothing to a company's list |
| CompanyActions.CompanyStore.constructor | app/actions/companies.ts:83-231 | the store starts with no company rows and no links over a given specialization table |
| CompanyActions.CompanyStore.CreateCompany | app/actions/companies.ts:83-147 | a failed company insert changes nothing; otherwise the row is appended; a failed link insert (only attempted for a non-empty list) keeps the links; otherwise one link per id is appended; any failure answers 'Failed to create company'; success returns the new row with the specializations read back |
| CompanyActions.CompanyStore.UpdateCompany | app/actions/companies.ts:152-231 | a failed update or an unknown id changes nothing and fails; success patches the row, replaces the links exactly when ids are given, and returns the patched row with its links read back; it succeeds exactly when the row exists and no step it reaches fails; once the row is patched a later failure keeps the patch, a failed delete keeps the old links, a failed insert leaves the company with no links, and a failed read-back keeps the replaced links; every failure answers 'Failed to update company' |
| CompanyActions.FindRow | app/actions/companies.ts:172-174 | the row `.single()` returns has the id; none is returned only when no row has it |
| CompanyActions.CreatedSpecializations | app/actions/companies.ts:105-134 | a company created with a fresh id lists exactly the requested specializations the table knows, in the order requested |
| CompanyActions.OwnLinks | app/actions/companies.ts:107-134 | the links written for a company read back as the known specializations of its ids, in order |
| SupabaseCompanies.UpdateRows | app/actions/supabase-companies.ts:132-135 | the rows with the id get the patch, all others are unchanged |
| SupabaseCompanies.Patched | app/actions/supabase-companies.ts:130-135 | a nullable column keeps its value when the field is left out, and otherwise takes what was sent, `null` included |
| SupabaseCompanies.AdminStore.constructor | app/actions/supabase-companies.ts:78-167 | the store starts with no company rows and no links |
| SupabaseCompanies.AdminStore.CreateSupabaseCompany | app/actions/supabase-companies.ts:78-121 | an empty name or city, or a coordinate left out (a `null` one passes), is refused with 'Name, Stadt und Koordinaten sind Pflichtfelder' and changes nothing; an insert error is reported with its message; otherwise the row is appended and, when ids are given and the link insert succeeds, one link per id; a failed link insert is swallowed |
| SupabaseCompanies.NullCoordinatesAccepted | app/actions/supabase-companies.ts:82-92 | only a left-out coordinate is refused; coordinates sent as `null` pass the guard and are stored as null, and given ones are stored as given |
| SupabaseCompanies.AdminStore.UpdateSupabaseCompany | app/actions/supabase-companies.ts:126-167 | an update error is reported and changes nothing; otherwise the row is patched with every sent field, `null` included, links stay when no ids are sent, and with ids the result is the replacement, or the old links plus the new rows after an ignored failed delete, or the old links without the company's after an ignored failed insert, or the old links when both fail; ids sent as `null` delete the company's links and then fail with the TypeError of `null.length`, the row staying patched |
| SupabaseCompanies.Tally | app/actions/supabase-companies.ts:207-225 | the reduce loop produces the occurrence count of every key |
| SupabaseCompanies.TallyMeaning | app/actions/supabase-companies.ts:207-210 | the tally has exactly the keys that occur, each with its number of occurrences, and the counts add up to the number of keys |
| SupabaseCompanies.OccPresent | app/actions/supabase-companies.ts:208 | a key that occurs is counted at least once |
| SupabaseCompanies.GetSupabaseStats | app/actions/supabase-companies.ts:194-232 | the total is the count or 0, and the city and specialization tallies are the occurrence counts of the read values, or empty when a read returns nothing |
| Dashboard.SpecIdsOf | app/dashboard/page.tsx:25-26 | the ids of a company's specializations, one per specialization, in order |
| Dashboard.AllIdsLength | app/dashboard/page.tsx:24-28 | the nested loops visit as many ids as the companies have specializations in total |
| Dashboard.CountSpecializations | app/dashboard/page.tsx:23-28 | the nested `forEach` loops leave `specCounts` holding the occurrence count of every id, with the ids in first-insertion order |
| Dashboard.CountsSumToTotal | app/dashboard/page.tsx:23-28 | every inserted id is counted with its number of occurrences, and the counts add up to the number of specialization entries |
| Dashboard.ByCountDescIsTotalPreorder | app/dashboard/page.tsx:29 | the comparator `b[1] - a[1]` orders entries by descending count as a total preorder |
| Dashboard.Entries | app/dashboard/page.tsx:29 | one entry per map key, in insertion order, with its count |
| Dashboard.SortedHeadIsMaximal | app/dashboard/page.tsx:29 | the first entry after the sort is an entry with the largest count |
| Dashboard.SortedHeadIsFirstOfItsCount | app/dashboard/page.tsx:29 | because the sort is stable, the first entry after it is the first entry in insertion order with that count |
| Dashboard.HeadEntry | app/dashboard/page.tsx:29 | the entry the sort puts first sits at a position whose count is maximal and which no earlier entry's count equals |
| Dashboard.FirstMaximum | app/dashboard/page.tsx:29 | an id at such a position has the largest count and every id inserted before it has a smaller one |
| Dashboard.TopOfEntries | app/dashboard/page.tsx:29 | over any non-empty key list the top id exists, has the largest count, and every key before it has a smaller count |
| Dashboard.TopSpecIsFirstMaximum | app/dashboard/page.tsx:23-29 | `topSpecId` is undefined exactly when no company has a specialization; otherwise it is the most used id, and the first inserted among equally used ones |
| Dashboard.FindSpecialization | app/dashboard/page.tsx:30 | with the shared `find`, the specialization found has the top id and is in the list; none is found exactly when the id is undefined or unknown |
| Dashboard.Distribution | app/dashboard/page.tsx:33-38 | one entry per known specialization |
| Dashboard.DistributionCounts | app/dashboard/page.tsx:33-38 | each entry carries its specialization's name, colour and icon, in list order, and its number of uses (0 when unused) |
| Dashboard.CategoryCounts | app/dashboard/page.tsx:41-45 | no category count exceeds the number of cities |
| Dashboard.CategoryCountsCoverAll | app/dashboard/page.tsx:41-45 | when each city has one of the three categories, the three counts add up to the number of cities |
| Dashboard.Recent | app/dashboard/page.tsx:48-50 | the recent list has ten companies, or all of them when there are fewer |
| Dashboard.RecentAreNewest | app/dashboard/page.tsx:48-50 | the recent companies are input companies, newest first, and no company left out is newer than one shown |
| Dashboard.TotalBudgetBounds | app/dashboard/page.tsx:19 | the sum of n budgets within [lo, hi] lies within [n·lo, n·hi] |
| Dashboard.BudgetsOfInit | app/dashboard/page.tsx:19 | budgets bounded for all cities are bounded for the prefix and for the last city |
| Dashboard.BoundsStep | app/dashboard/page.tsx:19 | adding one bounded budget to a bounded sum of m budgets gives a bounded sum of m + 1 |
| Dashboard.AverageBudgetBounds | app/dashboard/page.tsx:18-20 | the average is 0 without cities, and otherwise lies between the smallest and largest budget bound |
| StatsCards.LinkedIdsMembership | components/StatsCards.tsx:17-21 | an id is among the flattened specialization ids iff some company links it (a missing join counts as no links) |
| StatsCards.CitiesAsSet | components/StatsCards.tsx:16 | the set built from the city column is the set of the companies' cities |
| StatsCards.StatsMeaning | components/StatsCards.tsx:13-24 | `totalCompanies` is the number of companies, `uniqueCities` the number of distinct cities and at most `totalCompanies`, `uniqueSpecs` the number of distinct linked ids |
| StatsCards.EmployeesAppend | components/StatsCards.tsx:22 | the employee total of two lists is the sum of their totals |
| StatsCards.EmployeesIgnoreMissing | components/StatsCards.tsx:22 | companies without an employee count add nothing to the total |
| StatsCards.StatsEmpty | components/StatsCards.tsx:13-24 | no companies give four zeros |
| AdminCompanyList.AdminFilteredMembership | components/Admin/CompanyList.tsx:51-68 | a company is shown iff it is loaded, its name or city contains the query ignoring case (or the query is empty), and it is in the selected city (or 'all' is selected) |
| AdminCompanyList.AdminFilteredSubsequence | components/Admin/CompanyList.tsx:51-68 | the shown companies keep the loaded order |
| AdminCompanyList.AdminFilteredMeaning | components/Admin/CompanyList.tsx:51-68 | the shown list is an order-preserving selection of exactly the loaded companies the filter keeps |
| AdminCompanyList.AdminFilteredIdentity | components/Admin/CompanyList.tsx:55-63 | an empty query and 'all' show every loaded company, in order |
| AdminCompanyList.ByCodeUnitsIsTotalPreorder | components/Admin/CompanyList.tsx:87 | the default `sort()` order on UTF-16 code units is a total preorder |
| AdminCompanyList.CityOptionsMeaning | components/Admin/CompanyList.tsx:87 | the city options are sorted, free of duplicates, and exactly the cities that occur |
| AdminCompanyList.CityCountIsOcc | components/Admin/CompanyList.tsx:127 | the count shown next to a city is its number of occurrences in the city column |
| AdminCompanyList.SumCountsIsSumOcc | components/Admin/CompanyList.tsx:127 | the counts of a list of cities add up to their occurrences |
| AdminCompanyList.CityCountsCoverAll | components/Admin/CompanyList.tsx:87-127 | the counts next to the options add up to the number of loaded companies |
| AdminCompanyList.CompanyListView.constructor | components/Admin/CompanyList.tsx:25-29 | the list starts empty and loading, with an empty query and 'all' |
| AdminCompanyList.CompanyListView.LoadCompanies | components/Admin/CompanyList.tsx:37-48 | a successful load sets both lists to the fetched companies; a failed one keeps them; loading ends either way |
| AdminCompanyList.CompanyListView.SetSearchQuery | components/Admin/CompanyList.tsx:111 | only the query changes |
| AdminCompanyList.CompanyListView.SetSelectedCity | components/Admin/CompanyList.tsx:121 | only the selected city changes |
| AdminCompanyList.CompanyListView.RunFilterEffect | components/Admin/CompanyList.tsx:51-68 | the effect sets the shown list to the filter of the loaded companies: exactly the kept companies, in loaded order; nothing else changes |
| QuickAdd.NewRowMeaning | app/api/companies/quick-add/route.ts:20-40 | the stored row has the full address `<address>, <city>, Niedersachsen, Deutschland` and the geocoded coordinates; a missing description or phone becomes '', a missing website null, and given values are kept |
| QuickAdd.QuickAddStore.constructor | app/api/companies/quick-add/route.ts:5-85 | the store starts with no rows and no links |
| QuickAdd.QuickAddStore.Post | app/api/companies/quick-add/route.ts:5-85 | an unreadable body gives 500 'Interner Serverfehler' with its message as details; a missing name, city, address or email gives 400 with the required-fields error before any geocoding; the geocoder is asked for the full address, and its failure gives 500 'Interner Serverfehler' with its message; an insert error gives 500 'Datenbankfehler' with its message; the answer is 201 iff geocoding and the insert succeed, and then it carries `success: true`, the stored row, the success message and the coordinates, and links are added for a non-empty list unless their insert fails, which is ignored; every 500 leaves the tables as they were |
| AddCompanyForm.GeocodeAddress | components/Admin/AddCompanyForm.tsx:23-46 | the geocoder succeeds iff it returns a hit, and then gives the first hit; no hit fails with 'Adresse konnte nicht gefunden werden. Bitte überprüfe die Eingabe.'; a failed request passes its error on |
| AddCompanyForm.OptionalText | components/Admin/AddCompanyForm.tsx:108-111 | an empty field (`value or undefined`) is left out, any other is sent as typed |
| AddCompanyForm.ParsedIfGiven | components/Admin/AddCompanyForm.tsx:112-113 | an empty number field is left out, any other is parsed |
| AddCompanyForm.CompanyDataMeaning | components/Admin/AddCompanyForm.tsx:102-115 | the record carries the coordinates and the selected ids, leaves out exactly the empty optional fields, and passes the create action's required-field check iff name and city are filled in |
| AddCompanyForm.CompanyForm.constructor | components/Admin/AddCompanyForm.tsx:64-67 | the form starts with nothing selected, not geocoding, no message and no coordinates |
| AddCompanyForm.CompanyForm.ToggleSpecialization | components/Admin/AddCompanyForm.tsx:144-150 | an id is selected afterwards iff it was not before; other ids and the rest of the form are unchanged |
| AddCompanyForm.CompanyForm.HandleGeocodePreview | components/Admin/AddCompanyForm.tsx:70-82 | an empty city or address does nothing; otherwise the geocoder is asked, a hit replaces the coordinates, a failure keeps them, and geocoding ends either way |
| AddCompanyForm.CompanyForm.HandleSubmit | components/Admin/AddCompanyForm.tsx:85-139 | previewed coordinates are used without asking the geocoder; otherwise it is asked and a failure becomes the error message with nothing sent; a failed create shows its error; a successful create ends with the error of the throwing `e.currentTarget.reset()`, the selection and coordinates kept and `onSuccess` never scheduled |
| AddCompanyForm.CompanyForm.HandleSubmitIntended | components/Admin/AddCompanyForm.tsx:85-139 | the handler with the form element taken before the first `await`: a successful create shows the success message, clears the selection and the coordinates and schedules `onSuccess`; the failure paths are as written |
| AddCompanyForm.SuccessfulCreate | components/Admin/AddCompanyForm.tsx:118-136 | on the same successful create, the handler as written shows an error and keeps the selection, and the intended one shows the success message, clears the selection and schedules `onSuccess` |
| AddCityForm.ClassifyThresholds | components/Admin/AddCityForm.tsx:60-68 | the category is 'Großstadt' iff the population is at least 100000, 'Mittelstadt' iff it is in [20000, 100000), 'Kleinstadt' iff it is below 20000 |
| AddCityForm.ClassifyMonotone | components/Admin/AddCityForm.tsx:60-68 | a larger population never gets a smaller category |
| AddCityForm.UnparseableIsKleinstadt | components/Admin/AddCityForm.tsx:185 | an unparseable population input (parsed as 0) is classified 'Kleinstadt' |
| AddCityForm.DefaultsAccepted | components/Admin/AddCityForm.tsx:11-53 | with a name of two or more characters the default values pass the schema, and the default category is the one the default population gets |
| AddCityForm.RequestRow | components/Admin/AddCityForm.tsx:103-107 | the stored city carries the form's population, budget and category and the geocoded coordinates |
| AddCityForm.CityForm.constructor | components/Admin/AddCityForm.tsx:34-53 | the form starts without coordinates or messages, idle, with the default category |
| AddCityForm.CityForm.HandlePopulationChange | components/Admin/AddCityForm.tsx:60-68 | the category becomes the classification of the population; nothing else changes |
| AddCityForm.CityForm.HandleGeocode | components/Admin/AddCityForm.tsx:70-90 | an empty name gives 'Bitte Stadtnamen eingeben' without geocoding; otherwise `<name>, Niedersachsen, Deutschland` is geocoded, a hit sets the coordinates and the success text, a failure clears them and shows the error |
| AddCityForm.CityForm.OnSubmit | components/Admin/AddCityForm.tsx:92-118 | without coordinates nothing is sent and 'Bitte zuerst Stadt geocodieren' is shown; otherwise the data with the coordinates is sent, success clears the coordinates and shows the success text, a failure keeps them and shows the error |
| AddCityModal.Classify | components/Modal/AddCityModal.tsx:75-88 | the modal's classification, including its `pop > 0` branch, gives the same category as the form's for every population |
| AddCityModal.DefaultsAccepted | components/Modal/AddCityModal.tsx:11-68 | with a name of two or more characters the modal's defaults pass its schema, and the default category is the one population 0 gets |
| AddCityModal.StoredDefaults | components/Modal/AddCityModal.tsx:129-139 | a missing population or budget is stored as 0, a missing category as 'Kleinstadt', missing specializations as the empty list; the coordinates are the geocoded ones |
| AddCityModal.CityModal.constructor | components/Modal/AddCityModal.tsx:50-68 | the modal starts without coordinates or status, idle, with the default category |
| AddCityModal.CityModal.HandlePopulationChange | components/Modal/AddCityModal.tsx:75-88 | the category becomes the classification of the population; nothing else changes |
| AddCityModal.CityModal.HandleGeocode | components/Modal/AddCityModal.tsx:90-116 | an empty name gives an error status without geocoding; otherwise a hit sets the coordinates and a success status, a failure clears them and shows the error |
| AddCityModal.CityModal.OnSubmit | components/Modal/AddCityModal.tsx:118-161 | without coordinates nothing is sent and 'Bitte zuerst Stadt geocodieren' is shown; otherwise the data with defaults is sent and the status reports success or the error; the coordinates stay until the delayed reset |
| AddCityModal.CityModal.AfterSuccessDelay | components/Modal/AddCityModal.tsx:146-152 | the delayed reset clears the coordinates and the status and restores the default category |
| CityActions.CreateCityRowDefaults | app/actions/cities.ts:63-73 | provided population, budget and category (0 included) are kept and missing ones become 0, 0 and 'Kleinstadt'; description and website are null exactly when missing or empty; name and coordinates are copied |
| CityActions.CreateCity | app/actions/cities.ts:59-94 | the insert succeeds iff the store reports no error, and then returns the row built with defaults; otherwise the error is rethrown as 'Fehler beim Erstellen der Stadt: <message>' |
| CityActions.GetCities | app/actions/cities.ts:10-29 | a successful read returns the rows as read, a failed one the empty list |
| CityActions.CountCategory | app/actions/cities.ts:173-175 | no category count exceeds the number of rows |
| CityActions.GetCityStats | app/actions/cities.ts:153-184 | statistics exist iff the read succeeds with data, and then `total` is the number of rows |
| CityActions.TotalsAppend | app/actions/cities.ts:170-171 | the population and budget totals of two row lists are the sums of their totals |
| CityActions.CategoryCountsSum | app/actions/cities.ts:172-176 | the three category counts add up to the number of rows with one of the three categories |
| CityActions.CategoryCountsCoverTotal | app/actions/cities.ts:168-177 | when every row has one of the three categories, the category counts add up to `total` |
| CityActions.StatsEmpty | app/actions/cities.ts:168-177 | no rows give all-zero statistics |
| PdfExport.PdfDoc.constructor | lib/export/exportToPDF.ts:8 | a new document has one empty page, written to, in jsPDF's default 16 pt normal font |
| PdfExport.PdfDoc.SetFontSize | lib/export/exportToPDF.ts:11 | only the font size changes |
| PdfExport.PdfDoc.SetFont | lib/export/exportToPDF.ts:12 | only the font style changes |
| PdfExport.PdfDoc.Text | lib/export/exportToPDF.ts:90-95 | the text block is appended to the current page in the font in effect; no other page changes |
| PdfExport.PdfDoc.Line | lib/export/exportToPDF.ts:22 | the rule is appended to the current page; no other page changes |
| PdfExport.PdfDoc.AddPage | lib/export/exportToPDF.ts:31 | an empty page is appended and becomes the current page; the font is kept |
| PdfExport.PdfDoc.SetPage | lib/export/exportToPDF.ts:87 | page n (counted from 1) becomes the current page; nothing else changes |
| PdfExport.Names | lib/export/exportToPDF.ts:76 | one name per specialization |
| PdfExport.PlaceTwice | lib/export/exportToPDF.ts:35-81 | writing two groups of items to the last page is writing them together |
| PdfExport.Step | lib/export/exportToPDF.ts:28-82 | a document never loses its last page by writing an entry |
| PdfExport.LayoutOf | lib/export/exportToPDF.ts:10-82 | a laid-out document always has a page |
| PdfExport.WithFooters | lib/export/exportToPDF.ts:85-96 | writing footers adds no page |
| PdfExport.EntryAdvance | lib/export/exportToPDF.ts:35-81 | an entry moves the cursor down by its height: 7 for the name, 5 per description line, per present detail and for specializations, and 5 of spacing, so at least 12 |
| PdfExport.StepPageBreak | lib/export/exportToPDF.ts:29-33 | a page is added exactly when the cursor is past `pageHeight - 40`, earlier pages are untouched, and the entry starts at 20 on a new page |
| PdfExport.PageCountBound | lib/export/exportToPDF.ts:28-33 | the document has at least one page and at most one page more than there are companies |
| PdfExport.HeaderFirst | lib/export/exportToPDF.ts:10-22 | the first page begins with the title, the date line, the count line `Anzahl Unternehmen: <n>` and the rule |
| PdfExport.HeadingsAppend | lib/export/exportToPDF.ts:38 | the headings of two item lists are the headings of each, in order |
| PdfExport.FlattenPlace | lib/export/exportToPDF.ts:35-81 | items written to the last page come last in reading order |
| PdfExport.FlattenNewPage | lib/export/exportToPDF.ts:31 | a new empty page adds nothing to the reading order |
| PdfExport.EntryHeadings | lib/export/exportToPDF.ts:35-81 | an entry has exactly one heading, `<index+1>. <name>` |
| PdfExport.DetailHasNoHeadings | lib/export/exportToPDF.ts:54-72 | a detail line is no heading |
| PdfExport.DescriptionHasNoHeadings | lib/export/exportToPDF.ts:42-48 | the description is no heading |
| PdfExport.SpecializationsHaveNoHeadings | lib/export/exportToPDF.ts:75-79 | the specialization line is no heading |
| PdfExport.HeadingsSingle | lib/export/exportToPDF.ts:36-38 | an item is a heading iff it is text in the 12 pt bold font |
| PdfExport.HeaderHasNoHeadings | lib/export/exportToPDF.ts:10-22 | the header holds no company heading (the title is 18 pt) |
| PdfExport.StepHeadings | lib/export/exportToPDF.ts:28-82 | writing a company adds exactly its heading after the earlier ones |
| PdfExport.NumberedHeadings | lib/export/exportToPDF.ts:38 | one heading per company |
| PdfExport.NumberedHeadingsSnoc | lib/export/exportToPDF.ts:28-38 | the headings of the companies end with the heading of the last |
| PdfExport.HeadingsInOrder | lib/export/exportToPDF.ts:28-82 | the page bodies, before the footers, have exactly one heading per company, numbered from 1, in input order |
| PdfExport.FootersNumbered | lib/export/exportToPDF.ts:85-96 | every page j ends with `Seite <j+1> von <total>` centred at the bottom, and the footers add no page |
| PdfExport.FootersAddNoHeadings | lib/export/exportToPDF.ts:85-96 | the footers, in the 8 pt italic font, add no heading to the document |
| PdfExport.DocumentHeadings | lib/export/exportToPDF.ts:7-96 | the finished document, footers included, has exactly one heading per company, `<i+1>. <name>`, in input order |
| PdfExport.EmptyDocument | lib/export/exportToPDF.ts:7-96 | no companies give one page with the header and `Seite 1 von 1` |
| PdfExport.WriteHeader | lib/export/exportToPDF.ts:10-22 | the header writes the title, date, count and rule to the first page |
| PdfExport.WriteDetail | lib/export/exportToPDF.ts:54-72 | a detail is written iff its field is truthy, as `<caption>: <value>`, and the cursor moves by 5 |
| PdfExport.WriteDescription | lib/export/exportToPDF.ts:42-48 | a truthy description is wrapped and written, moving the cursor by 5 per line |
| PdfExport.WriteSpecializations | lib/export/exportToPDF.ts:75-79 | the names joined with ', ' are written iff there is a specialization |
| PdfExport.WriteEntry | lib/export/exportToPDF.ts:35-81 | the drawing calls for one company write exactly its entry to the last page |
| PdfExport.WriteFooters | lib/export/exportToPDF.ts:85-96 | the footer loop writes `Seite i von n` to each page i |
| PdfExport.ExportToPdf | lib/export/exportToPDF.ts:7-96 | the drawing calls produce the document whose headings, page breaks and footers the lemmas above state |
| CompanyCard.Initials | components/companies/CompanyCard.tsx:27-32 | the avatar shows at most two characters |
| CompanyCard.FirstCharsMeaning | components/companies/CompanyCard.tsx:29-30 | `word[0]` joined with '': one character per non-empty word, its first, in order; empty words (from repeated spaces) add nothing |
| CompanyCard.InitialsMeaning | components/companies/CompanyCard.tsx:27-32 | the initials are the upper-cased first characters of the first two non-empty space-separated words, as many as there are such words up to two |
| CompanyCard.NameOfWords | components/companies/CompanyCard.tsx:27-32 | a name made of words joined by single spaces splits back into those words, and its initials are theirs |
| CompanyCard.VisibleSpecs | components/companies/CompanyCard.tsx:35 | the visible badges are the first three specializations, or all when there are fewer |
| CompanyCard.BadgesMeaning | components/companies/CompanyCard.tsx:35-98 | the '+k mehr' badge is shown iff there are more than three specializations, and k is the number not shown; the badge row is shown iff there is a specialization; visible badges keep the list order |
| CityDropdown.ByCityNameIsTotalPreorder | components/Map/CityDropdown.tsx:23 | comparing cities by name under a total collation is a total preorder |
| CityDropdown.SortedCitiesMeaning | components/Map/CityDropdown.tsx:22-24 | the menu lists the same cities as often as the prop does, ordered by name, with equally named cities in their original order |
| CityDropdown.IsSameCityMeaning | components/Map/CityDropdown.tsx:13-15 | no name or an empty one matches no city; otherwise a city matches iff it has that name |
| CityDropdown.IconMeaning | components/Map/CityDropdown.tsx:131-140 | each of the five known specializations has its emoji; any other name gets the pin; no icon is empty |
| CityDropdown.ShownIcons | components/Map/CityDropdown.tsx:98-105 | the first three specializations, or all when fewer, each as its icon, in order |
| CityDropdown.IconRowMeaning | components/Map/CityDropdown.tsx:96-110 | at most three icons are shown, and the '+k' label appears iff some are hidden, with k the number hidden |
| CityDropdown.Dropdown.constructor | components/Map/CityDropdown.tsx:18-19 | the menu starts closed with no selection and nothing reported |
| CityDropdown.Dropdown.ToggleOpen | components/Map/CityDropdown.tsx:40 | the button flips the menu; the selection is kept |
| CityDropdown.Dropdown.CloseFromOutside | components/Map/CityDropdown.tsx:120-124 | a click outside closes the menu; the selection is kept |
| CityDropdown.Dropdown.HandleCityClick | components/Map/CityDropdown.tsx:26-71 | a click selects the city, closes the menu and reports the city once; the button then shows its name and its row is highlighted |
| CityFilter.DisplayTextMeaning | components/Sidebar/CityFilter.tsx:30-36 | without a selection the label is `Alle Städte (<total>)`; a selected city missing from the list shows ` (0)` |
| CityFilter.DisplayTextOfFirstMatch | components/Sidebar/CityFilter.tsx:30-36 | with a selection the label shows the count of the first entry for that city |
| CityFilter.FilterMenu.constructor | components/Sidebar/CityFilter.tsx:23 | the menu starts closed with nothing reported |
| CityFilter.FilterMenu.ToggleOpen | components/Sidebar/CityFilter.tsx:42 | the button flips the menu |
| CityFilter.FilterMenu.HandleCityClick | components/Sidebar/CityFilter.tsx:25-67 | a click reports the choice (null for all cities) once and closes the menu |
| MapClustering.ShouldClusterMeaning | components/Map/MapWithClustering.tsx:45-75 | markers are clustered iff `enableClustering` is not false and there are more than 20 companies; with the prop left out (default `true`) iff there are more than 20; more companies never switch clustering off |
| MapClustering.SizeClassOf | components/Map/MapWithClustering.tsx:81-89 | a cluster is 'large' iff it has more than 50 markers, 'medium' iff it has 21 to 50, 'small' otherwise |
| MapClustering.SizeClassMonotone | components/Map/MapWithClustering.tsx:84-86 | a bigger cluster never gets a smaller icon |
| MapClustering.FlyTargetMeaning | components/Map/MapWithClustering.tsx:59-68 | with a map and a selected id, the map flies to the first company with that id iff both of its coordinates are truthy, and then to exactly those coordinates |
| MapClustering.NoFlyTarget | components/Map/MapWithClustering.tsx:60-62 | without a map, a selected id or a company with that id the map does not fly |
| Memoize.Memo.constructor | lib/performance.ts:50-51 | the wrapper starts with an empty cache |
| Memoize.Memo.Call | lib/performance.ts:53-63 | the wrapped function runs iff the key is not cached; a cached key answers the cached value and leaves the cache as it was; a new key stores the result; nothing cached is removed or overwritten; without key collisions the cache stays faithful and every call answers what the function answers |
| Throttle.Throttled.constructor | lib/hooks/useThrottle.ts:8-12 | `lastRun` starts at the creation time, with no runs and the delay defaulting to 100 ms |
| Throttle.Throttled.Call | lib/hooks/useThrottle.ts:15-22 | the callback runs iff at least `delay` has passed since `lastRun`, and only a run moves `lastRun`; runs stay at least `delay` apart, the first counted from creation, so a call within `delay` of creation is dropped |
| DownloadMap.MapLeavesSameShape | scripts/download-map.js:55-60 | rounding every leaf keeps every array's length and nesting |
| DownloadMap.RoundCoordinatesMeaning | scripts/download-map.js:55-60 | `roundCoordinates` succeeds iff every array holds only numbers or only arrays, and then it rounds every number and keeps the shape; a number met by `map` or an array met by `toFixed` is a TypeError |
| DownloadMap.SimplifyGeoJson | scripts/download-map.js:41-71 | no Niedersachsen feature throws 'Niedersachsen feature not found in GeoJSON'; otherwise the result is a FeatureCollection (section 3.3 of RFC 7946) of exactly the first such feature, its truthy coordinates rounded, and it fails exactly when those coordinates cannot be walked, and then with the TypeError's message |
| Sorting.SortBy | hooks/useCompanyFilters.ts:40-46 | sorting keeps the length and is a permutation of its input |
| Sorting.SortBySorted | hooks/useCompanyFilters.ts:40-46 | under a total preorder the sorted list is ordered |
| Sorting.SortByStable | hooks/useCompanyFilters.ts:40-46 | the sort is stable: the elements equivalent to any given one appear in their input order |
| Sorting.SortByHeadIsFirstOfClass | app/dashboard/page.tsx:29 | the first element of a stable sort is the earliest input element with an equivalent key |
| Sorting.SortBySortedIsIdentity | hooks/useCompanyFilters.ts:14-54 | sorting an already ordered list changes nothing |
| Text.JoinSplit | components/companies/CompanyCard.tsx:28 | joining the pieces of a split with the separator gives back the string |
| Text.SplitJoin | components/companies/CompanyCard.tsx:28 | splitting pieces joined with a separator they do not contain gives back the pieces |
| Seqs.CountInto | app/dashboard/page.tsx:24-28 | the counting loop extends the occurrence counts and the first-insertion order by the new keys |
| Seqs.Find | components/Sidebar/CityFilter.tsx:34 | `find` answers nothing iff no element matches, and otherwise a matching element of the list |
| Seqs.FindFirst | components/Map/MapWithClustering.tsx:61 | `find` answers the first matching element |

## Left out

- File delivery and serialization are not modelled: `saveAs`, `doc.save`, the `Blob` MIME types, the generated file names, `JSON.stringify` and `JSON.parse`. The exports are modelled as the structures and texts they build.
- The network is not modelled: the Nominatim request, `response.json()` and `parseFloat` of its answer. The geocoder's answer is a parameter.
- Reading a request body is not modelled. `request.json()` is a Result parameter.
- `revalidatePath`, `console` logging, React rendering, animation, theming and the Leaflet map itself are not modelled. They have no effect on the modelled values.
- Null and undefined are one absent value except where the code tells them apart. `Wrappers.Field` keeps the two apart in `createSupabaseCompany`'s coordinate guard and in `updateSupabaseCompany`'s payload and `specialization_ids` test (`app/actions/supabase-companies.ts` lines 82 and 143). Elsewhere the modelled code treats them alike (truthiness, `||`, `??`), or the store normalises them.
- Floating point is not modelled. Coordinates and budgets are reals. `toFixed`, NaN, `parseInt` and `Intl.NumberFormat` are parameters or left out.
- `Text.UpperChar` and `Text.LowerChar` map ASCII letters only. JavaScript's full Unicode case mapping, such as 'ß' to 'SS', is not modelled. Search, initials and the admin filter are therefore stated for ASCII case only.
- Strings are sequences of characters, not UTF-16 code units. For an astral character, `word[0]` in the initials and the default `sort()` order would differ.
- `CityDropdown.IconMeaning`: a specialization named like an `Object.prototype` member would find that member in the icon record. This case is not modelled.
- PdfExport: jsPDF's internals are not modelled: font metrics, `splitTextToSize` (a parameter), `align: 'center'`, and the `pages` array with its unused first slot. `doc.internal.pages.length - 1` is modelled as the number of pages.
- The zod schemas' `.int()`, `.url()` and minimum-length checks are not modelled separately. `SchemaAccepts` states the numeric bounds, and URL validity is a parameter.
- The `specializations` of `AddCityModal` are not stored. The model builds them into the request, but `createCity` drops them, as its code does.
- Deleting companies and cities, `updateCity`, `getCityById` and `getSpecializations` are not modelled. They are plain store calls with nothing to prove beyond what the modelled actions show.
- Store-assigned ids and timestamps are parameters of the create operations.
- `AddCompanyForm.CompanyForm.HandleSubmit`: the create mutation's answer is a parameter. React Query's cache invalidation is not modelled. The 1.5 s delay before `onSuccess` is not modelled; only whether the call is scheduled is. The uncontrolled inputs that `reset()` would clear are not modelled.
- `AddCityModal.CityModal.AfterSuccessDelay` models the body of the 1.5 s `setTimeout`, not the timer. `onClose` and `onSuccess` are the parent's.
- `SupabaseCompanies.GetSupabaseStats` takes the specialization name of each link row as input. With a null join, the source reads `spec.name` of null and throws; that case is not modelled.
- `Throttle.Throttled` keeps `callback` and `delay` fixed. `useCallback` would pick up new ones on a later render.
- `Memoize.Memo.Call`: the answer equals the wrapped function's only when equal keys mean equal results. `JSON.stringify` collisions, such as `undefined` and `null` in an array, break that, and the contract states the condition. A function that throws or has side effects is not modelled.
- `DownloadMap.SimplifyGeoJson` models the document as a list of features with `name`, `GEN` and coordinates. A feature without `properties` or `geometry`, which would throw, is not modelled. Coordinates of types other than numbers and arrays are not modelled. The rounded feature is returned as a new value; the source overwrites the parsed object in place, and no one else sees that object.
- The rest of `download-map.js` is not modelled: the download, file writing and the command-line entry point.
- The other exports of `lib/performance.ts` are not modelled: `debounce` and `throttle`, which are timers around a callback, and `lazyLoadImage`, which works on the DOM.
- The loading flags of the forms are modelled. Their asynchronous interleaving is not modelled: each handler runs to completion with the collaborator's answer given.

## Findings

| source | as written | input that shows it | evidently intended | confidence | as-written member | corrected member |
|---|---|---|---|---|---|---|
| components/Admin/AddCompanyForm.tsx:126 | `e.currentTarget.reset()` runs after `await createMutation.mutateAsync(...)`. By then React has set the event's `currentTarget` to null, so the call throws a TypeError. The catch at lines 133-136 replaces the success message with `❌ Fehler: <TypeError message>`. `setSelectedSpecs([])`, `setCoordinates(null)` and the `onSuccess` timer never run | any submit whose create succeeds, for example previewed coordinates and a create answering a row | show the success message, reset the form, clear the selection and coordinates, and schedule `onSuccess` | high, not executed | AddCompanyForm.CompanyForm.HandleSubmit, AddCompanyForm.SuccessfulCreate | AddCompanyForm.CompanyForm.HandleSubmitIntended |
