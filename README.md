# Business dashboard: ratios, recommendations, sign-up checks, route guard

This project models the logic of a small business web application. Users
enter one financial record per fiscal year: revenue, fixed costs, variable
costs, payroll and cash position. The model covers the following parts:

- **Finance** (`finance.dfy`): the financial record and the ratios that
  both pages derive from it. These are total costs, margin
  (`(revenue − variable costs) / revenue × 100`) and cost ratio
  (`total costs / revenue × 100`). The module also proves lemmas that turn a
  percentage threshold into a threshold on raw amounts.
- **Dashboard** (`dashboard.dfy`): the four KPIs of the most recent year
  (margin, EBE, cost ratio, profitability) and the three strict "good"
  badges. It also covers the evolution chart, which the page builds by
  reversing its most-recent-first state list in place and mapping each record
  to a point. The page is modelled as a class: the loaded rows are an
  `array`, `LoadData` stores them and computes the KPIs, and `Render`
  reverses that array in place as the page does.
- **Recommendations** (`recommendations.dfy`): five fixed threshold rules
  are checked in order, and each rule that fires adds one canned
  recommendation. A sixth "growth" recommendation is always added last.
  `GenerateRecommendations` builds the list by successive appends.
  It is proved equal to `RecommendationsFor`, the catalogue entries whose rule
  fires, kept in rule order. The module also models the three level lookups
  (impact colour, impact label, effort label). Finally, it models the page
  lifecycle, where only a loaded record reaches the rules.
- **SignUp** (`signup.dfy`): the submit handler of the sign-up form. It
  checks the confirmation first, then a minimum length of 6, and only then
  calls the auth provider while `loading` is set. The auth provider's answer
  is a parameter. Calls to the provider and to the router are recorded as a
  trace of effects.
- **Routing** (`routing.dfy`): the three-way decision of the route guard.
- **Options** (`option.dfy`): an `Option` datatype.

The recommendations come from five fixed rules plus the always-present
growth entry. The code compares against no sector benchmark and sorts
nothing, so entries appear in rule order, with ids "1" to "6".

## Model

| member | source | states |
|---|---|---|
| Finance.MarginComplement | src/pages/DashboardPage.tsx:60 | for a positive revenue, the margin plus the variable-cost share of the revenue is exactly 100 |
| Finance.MarginBelow | src/pages/RecommendationsPage.tsx:59-62 | a margin below (above) t percent is the same as variable costs above (below) (100 − t) percent of the revenue |
| Finance.CostRatioAbove | src/pages/RecommendationsPage.tsx:58-60 | a cost ratio above (below) t percent is the same as total costs above (below) t percent of the revenue |
| Dashboard.CalculateKpis | src/pages/DashboardPage.tsx:58-66 | EBE plus total costs is the revenue; profitability is 100 minus the cost ratio; margin plus variable-cost share is 100; EBE > 0 iff profitability > 0 iff cost ratio < 100 |
| Dashboard.BadgesByAmounts | src/pages/DashboardPage.tsx:145-173 | the three strict badges in raw amounts: margin good iff variable costs < 70% of revenue, EBE good iff total costs < revenue, profitability good iff total costs < 90% of revenue |
| Dashboard.ChartSeries | src/pages/DashboardPage.tsx:97-102 | one chart point per record, same length, each point carrying its record's year, revenue, cash and fixed + variable + payroll total |
| Dashboard.ReversedAt | src/pages/DashboardPage.tsx:97 | `reverse()` keeps the length and puts element n−1−k at position k |
| Dashboard.ReverseInPlace | src/pages/DashboardPage.tsx:97 | the array afterwards holds the reverse of its old contents |
| Dashboard.RenderAsWritten | src/pages/DashboardPage.tsx:68-102 | one render as written: loading placeholder while loading, empty state for no rows, otherwise the first row as latest, and both the state list left behind and the chart are the rows in reverse order, point k being the point of row n−1−k |
| Dashboard.RenderView | src/pages/DashboardPage.tsx:68-102 | loading placeholder while loading, empty state for no rows, otherwise the first row as latest, chart point k equal to the point (year, revenue, total costs, cash) of row n−1−k, and the evolution chart only for more than one row |
| Dashboard.RenderViewOrder | src/pages/DashboardPage.tsx:96-102 | on most-recent-first rows the record shown as latest has the largest year and the chart is in ascending year order |
| Dashboard.FirstRenderAgrees | src/pages/DashboardPage.tsx:96-102 | the first render as written shows exactly the corrected view |
| Dashboard.SecondRenderShowsOldest | src/pages/DashboardPage.tsx:96-97 | as written, a render leaves the state list reversed; rendering that state again shows the oldest record as latest and a most-recent-first chart |
| Dashboard.SecondRenderExample | src/pages/DashboardPage.tsx:96-97 | rows for 2024 and 2023: the first render analyses 2024, the second analyses 2023 |
| Dashboard.DashboardPage.constructor | src/pages/DashboardPage.tsx:27-29 | no rows, no KPIs, loading |
| Dashboard.DashboardPage.LoadData | src/pages/DashboardPage.tsx:37-56 | a non-empty answer is stored and the KPIs are those of its first row; an error or no rows leaves rows and KPIs unchanged; loading ends in every case |
| Dashboard.DashboardPage.Render | src/pages/DashboardPage.tsx:68-102 | the view and the new state list are those of one render as written, including the in-place reversal |
| Dashboard.FirstVisit | src/pages/DashboardPage.tsx:37-102 | mount, load and one render show the corrected view with the KPIs of the most recent row, or the empty state when nothing was returned |
| Recommendations.Fires | src/pages/RecommendationsPage.tsx:58-106 | the five rules of the page and the always-firing growth rule; rule 1 fires iff variable costs exceed 70% of the revenue (so a margin of exactly 30 does not fire), rule 2 iff total costs exceed 80% of the revenue |
| Recommendations.RecommendationsFor | src/pages/RecommendationsPage.tsx:56-127 | a recommendation is in the list iff it is the catalogue entry of a rule that fires |
| Recommendations.MarginVerdictsExclusive | src/pages/RecommendationsPage.tsx:62 | the dashboard's "good margin" badge and rule 1 never hold together, and at a margin of exactly 30 neither holds |
| Recommendations.CatalogueIncreasing | src/pages/RecommendationsPage.tsx:62-124 | the six canned entries carry the ids "1" to "6" in that order; categories are not unique (rules 2 and 5 are both "Coûts") |
| Recommendations.ListShape | src/pages/RecommendationsPage.tsx:117-126 | a generated list has between 1 and 6 entries and its last entry is the growth advice |
| Recommendations.ListInRuleOrder | src/pages/RecommendationsPage.tsx:62-126 | every id is one of "1".."6" and ids strictly increase along the list, so none repeats and no reordering happens |
| Recommendations.ListHasRule | src/pages/RecommendationsPage.tsx:62-124 | the entry of rule k (and an entry with id k) is in the list iff rule k fires |
| Recommendations.EntriesMatchProfile | src/pages/RecommendationsPage.tsx:63-124 | each entry's impact, effort and category are those fixed for its id; only id "5" has medium impact; no entry has a low level |
| Recommendations.ScenarioA | src/pages/RecommendationsPage.tsx:56-127 | revenue 500000, fixed 50000, variable 300000, payroll 100000, cash 20000 gives exactly the cost advice (at 90%), the cash advice and the growth advice |
| Recommendations.ImpactColor | src/pages/RecommendationsPage.tsx:129-136 | green "#10b981" for "high", amber "#f59e0b" for "medium", and the grey of "low" exactly when the level is neither, so an unknown level looks like "low" |
| Recommendations.ImpactLabel | src/pages/RecommendationsPage.tsx:138-145 | "Impact élevé" for "high", "Impact moyen" for "medium", "Impact faible" for "low", and any other string returned unchanged, in both directions |
| Recommendations.EffortLabel | src/pages/RecommendationsPage.tsx:147-154 | "Effort important" for "high", "Effort modéré" for "medium", "Effort faible" for "low", and any other string returned unchanged, in both directions |
| Recommendations.LabelsTellLevelsApart | src/pages/RecommendationsPage.tsx:138-154 | on stored levels both labels differ from the level name and distinct levels get distinct labels |
| Recommendations.RecommendationsPage.constructor | src/pages/RecommendationsPage.tsx:25-26 | empty list, loading |
| Recommendations.RecommendationsPage.GenerateRecommendations | src/pages/RecommendationsPage.tsx:56-127 | the list stored by the successive conditional appends is exactly the catalogue entries whose rule fires, in rule order |
| Recommendations.RecommendationsPage.LoadRecommendations | src/pages/RecommendationsPage.tsx:34-54 | only a returned record reaches the rules; an error or no record leaves the list as it was; loading ends in every case |
| Recommendations.RecommendationsPage.View | src/pages/RecommendationsPage.tsx:156-178 | the generating placeholder iff loading; the "no data" message iff loaded with an empty list; otherwise the (non-empty) list held in state |
| Recommendations.VisitPage | src/pages/RecommendationsPage.tsx:25-167 | after mount and load the page is never still generating, shows "no data" iff no record was loaded, and otherwise lists the recommendations for the record |
| SignUp.Utf16Length | src/pages/SignUpPage.tsx:23 | a string's JavaScript length is between its number of characters and twice that, and equals it when all characters are in the Basic Multilingual Plane |
| SignUp.Validate | src/pages/SignUpPage.tsx:19-25 | the form passes iff the passwords match and have length of at least 6; a mismatch is reported whatever the length; matching but short gives the length error |
| SignUp.Submit | src/pages/SignUpPage.tsx:15-37 | the provider is called iff validation passes, exactly once, with loading set, and loading is cleared afterwards; with no call, the validation error is shown and loading is unchanged; the effects of a validated submit are exactly that one call followed by a navigation to /profile iff the call succeeds, so a failed call navigates nowhere; the error is empty iff the call succeeds (it is reset on each submit), and generic iff the call fails |
| SignUp.SignUpPage.constructor | src/pages/SignUpPage.tsx:7-11 | empty fields, no error, not loading, no effects |
| SignUp.SignUpPage.Edit | src/pages/SignUpPage.tsx:80-104 | the three inputs take the typed values |
| SignUp.SignUpPage.HandleSubmit | src/pages/SignUpPage.tsx:15-37 | error, loading and the effects appended are those of `Submit` for the current fields and the provider's answer |
| Routing.ProtectedRoute | src/components/ProtectedRoute.tsx:4-25 | placeholder iff loading; otherwise a replacing redirect to /login iff there is no user, and the children unchanged iff there is one |

## Findings

| source | as written | input that shows it | evidently intended | confidence | as-written member | corrected member |
|---|---|---|---|---|---|---|
| src/pages/DashboardPage.tsx:96-97 | `financialData.reverse()` reverses the state array in place while rendering, so every later render of the same state reverses it again | records for 2024 and 2023 stored most recent first, and any re-render after loading (for instance an auth context update): the second render shows 2023 as the year analysed and draws the chart from 2024 down to 2023 | every render shows the most recent year as latest and draws the chart in ascending year order, leaving the state list untouched | medium, not executed; only shows once the page re-renders after loading | Dashboard.SecondRenderShowsOldest | Dashboard.RenderView |

`Dashboard.SecondRenderExample` shows the discrepancy on concrete records.
`Dashboard.RenderViewOrder` proves the intended property about the corrected
view. `Dashboard.DashboardPage.Render` still models the page as written.

## Left out

- Queries to the hosted data store and the auth provider are not modelled. A query's result is an input (`Fetched`: an error, or the data). The auth provider's answer to the sign-up call is a boolean parameter. A `null` data field without an error is treated like an empty answer.
- Recommendations.RecommendationsPage.LoadRecommendations: requires a positive revenue on a returned record. The page divides by the revenue unguarded, so at revenue 0 it would build its texts from Infinity or NaN. The same precondition is on `Finance.Margin`, `Finance.CostRatio`, `Dashboard.CalculateKpis`, `Recommendations.RecommendationsFor` and `Recommendations.RecommendationsPage.GenerateRecommendations`.
- Dashboard.DashboardPage.LoadData: requires a positive revenue on the first returned row, for the same reason.
- Amounts are exact reals. IEEE-754 rounding is not modelled, for example the double `revenue * 0.4`.
- `toFixed(1)` and `toLocaleString('fr-FR')` are not modelled. The two descriptions that quote a percentage keep it as a value (`Text.WithPercent`) instead of formatted text.
- A recommendation's title and description are given by its `Advice` (through `Title` and `Description`). They are not stored as two string fields.
- The record's `id`, `user_id` and `notes` columns are not modelled, because no modelled code reads them.
- JSX markup, styles, icons and charts are not modelled. The views keep only the data they show. The bar chart of the latest record's three cost items is not modelled, because it only displays fields.
- React state batching and asynchrony are not modelled. Each handler runs to completion, and its state updates happen in order. The intermediate `setError('')` is overwritten when a check fails.
- Both pages start loading only once the auth context has a user (the `useEffect` on `[user]`, src/pages/DashboardPage.tsx:31-35 and src/pages/RecommendationsPage.tsx:28-32). Without a user they stay on their loading view. `Dashboard.FirstVisit` and `Recommendations.VisitPage` model a visit where the load runs.
- The browser's own form checks are not modelled: the `required` attributes and `type="email"` (src/pages/SignUpPage.tsx:77-82, 93-95, 106-107) can block a submit before `handleSubmit` runs. `SignUp.Submit` takes any strings.
- The `console.error` logging and `preventDefault` are not modelled. The sign-up button being disabled while `loading` is not modelled either.
- LandingPage, LoginPage, Navbar, DataEntryPage, ProfilePage, App.tsx and the PDF-analysis edge function are not part of this model.
