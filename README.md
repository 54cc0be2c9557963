# Tessera dashboard generation, modelled in Dafny

`tessera-generate.py` reads a YAML configuration and builds a Tessera
dashboard definition from it. The configuration holds dashboard metadata,
graph templates and node groups. The definition is a tree:

- a root `d0` holding a flat `queries` table and a list of sections;
- sections hold rows, rows hold cells, and each cell holds one graph.

For every node value, and for every template in sorted name order, the
script renders the template's query for that value and stores it in the
table under a sequential query id. It then places a graph that refers to
that id in a cell.

This project models that core and proves what it guarantees:

- **Range expansion** (`RangeExpansion`, `RangeExpansionProperties`).
  - The pattern `(.*-)(\d+)--(\d+)(.*)` is written out as an explicit
    matcher with the semantics of `re.search`: the first start position,
    a greedy prefix ending in `-`, and `.` stopping at a newline.
  - `_develop_range` then expands a matched token into
    `range(start, end + 1)`, each number zero-padded to the width of the
    first number.
- **Decimal text** (`Decimal`): `str(n)`, `int(s)` and `"%0<w>d"`.
- **Identifier generator** (`ItemIds`): `_generate_item_id` is a class
  with a counter, and yields `d5`, `d6`, …; the root is `d0`.
- **Configuration** (`Configuration`), covering:
  - the metadata merge (defaults, then YAML, then truthy `--<key>`
    options);
  - `multiple_graphs`;
  - the node sources (YAML `nodes`, otherwise stdin lines, otherwise an
    error).
- **The document** (`Documents`): the tree as datatypes, plus the three
  appends of the build loop and the query-table write. It also gives the
  cells and identifiers of a document in order.
- **The builder.**
  - `DashboardBuilder` specifies one step of the `__init__` loop per
    function. `AddValues` folds those steps over the (group, value) pairs.
  - `DashboardObject.Dashboard` runs the same nested loops imperatively,
    on a `spec` field and an `IdAllocator`. It is proved to compute
    `Build`, or to stop with `Build`'s error.
  - `BuilderProperties` proves what the build yields:
    - one section per value;
    - rows by mode;
    - a query table keyed exactly `0 .. V*G-1`, where entry `k` is
      template `k mod G` rendered for value `k div G`, and exactly one
      graph refers to each id;
    - unique identifiers;
    - the precise failure for a template without `query`.
- **Rendering** (`Template`): jinja2 is kept symbolic. A query target is
  the value `Rendered(template, variable, value)`, and no other module
  depends on its text. `Template` is an optional approximation of that
  text, replacing every `{{variable}}` left to right like `str.replace`,
  with a few laws proved about it.

### Behaviour as coded

Some of what the code does differs from what a reader of the script's
comments or usage text might expect. The model follows the code:

- Every node value appends a new section, even with a single template
  (lines 153-157). Only the rows depend on the mode:
  - with several templates, each value gets its own row;
  - with one template, a single row is created, in the first value's
    section, and every cell goes into it while the later sections stay
    empty;
  - with no template at all, `query_id` never moves, so every value gets
    an empty row.
- With the `-` flag, every stdin line rebinds the group `node`, so only
  the last line counts. No lines at all gives no node group and no error
  (lines 91-93).
- A template may override `item_id` through `graph.update`. Identifier
  uniqueness is therefore proved for configurations whose templates do
  not (`BuilderProperties.NoIdOverride`).
- `--tags` is stored as the raw option value. The override loop
  (lines 110-113) does not split it.

## Model

| member | source | states |
|---|---|---|
| RangeExpansion.DigitRun | tessera-generate.py:76 | the greedy `\d+` stops at the first non-digit: everything before the end is a digit and the end is not |
| RangeExpansion.FindPrefixEnd | tessera-generate.py:76 | a prefix group found by the greedy `(.*-)` ends in `-` and is followed by `(\d+)--(\d+)` |
| RangeExpansion.Search | tessera-generate.py:183 | whatever `re.search` returns is a well-formed match: a `-`-terminated prefix, two digit groups, a suffix not starting with a digit, and no newline |
| RangeExpansionProperties.FindPrefixEndLongest | tessera-generate.py:76 | the greedy prefix is the longest one that can be followed by the two digit groups |
| RangeExpansionProperties.FindPrefixEndNone | tessera-generate.py:76 | a failed search means no prefix group can end anywhere on the line |
| RangeExpansionProperties.GroupsAtToken | tessera-generate.py:76 | the four groups of a match, joined with `--`, spell out the rest of the line from the match start |
| RangeExpansionProperties.SearchLocated | tessera-generate.py:183 | the text of a match occurs in the searched string at or after the start position |
| RangeExpansionProperties.MatchLocated | tessera-generate.py:183-188 | a match is well formed and its text occurs in the token |
| RangeExpansionProperties.MatchWholeToken | tessera-generate.py:75-76 | on a token without a newline, a match covers the whole token |
| RangeExpansionProperties.MatchComplete | tessera-generate.py:75-76 | every well-formed range token is matched, as a whole, with a prefix at least as long as the one it was written with |
| RangeExpansion.Match | tessera-generate.py:183 | a match found on a token is well formed: a `-`-terminated prefix, two digit groups and a suffix |
| RangeExpansion.Expand | tessera-generate.py:189-191 | `range(start, end + 1)` has `end - start + 1` elements, none when start > end; element `k` splits into the prefix, a digit string that parses to `start + k` and is as wide as the first number or `str(start + k)`, whichever is wider, and the suffix |
| RangeExpansion.DevelopRange | tessera-generate.py:183-193 | a token that does not match gives `[o]`; a matching one gives `end - start + 1` elements, each the prefix, then `start + k` zero-padded to the first number's width, then the suffix |
| RangeExpansion.PaddedPieces | tessera-generate.py:189-190 | prefix + `"%0<w>d" % n` + suffix splits back into the prefix, a digit string that parses to `n`, and the suffix |
| RangeExpansionProperties.ExpandDistinct | tessera-generate.py:189-191 | the elements of an expansion are pairwise distinct |
| RangeExpansionProperties.DevelopRangeDistinct | tessera-generate.py:190-191 | no element is listed twice |
| RangeExpansionProperties.DevelopRangeAscending | tessera-generate.py:189-191 | when every number fits the first number's width, the elements are in strictly ascending string order |
| RangeExpansionProperties.ExpandAscending | tessera-generate.py:189-191 | the same for a match: padded numbers of one width sort like the numbers |
| RangeExpansionProperties.PaddedRangeAscending | tessera-generate.py:189-191 | a run of consecutive numbers that all fit one width, padded to it between a common prefix and suffix, is in strictly ascending string order |
| RangeExpansionProperties.NumericIsLexicographic | tessera-generate.py:189 | for digit strings of equal width, numeric order is string order |
| RangeExpansionProperties.ParseBound | tessera-generate.py:186-187 | `int(s)` of `w` digits is below `10^w` |
| RangeExpansionProperties.ParseFront | tessera-generate.py:186-187 | `int(s)` is its first digit times `10^(w-1)` plus `int` of the rest |
| RangeExpansionProperties.DigitsWidth | tessera-generate.py:189 | a number below `10^w` has at most `w` digits, so `%0<w>d` adds only zeros |
| Decimal.Digits | tessera-generate.py:201 | `str(n)` is a non-empty digit string with no leading zero unless `n == 0` |
| Decimal.ParseDigits | tessera-generate.py:186-187 | `int(str(n)) == n` |
| Decimal.DigitsInjective | tessera-generate.py:268 | different numbers have different `str` texts |
| Decimal.ParseLeadingZeros | tessera-generate.py:186 | leading zeros do not change `int(s)` |
| Decimal.Pad | tessera-generate.py:189-190 | `"%0<w>d" % n` is a digit string of length `max(w, len(str(n)))` that parses back to `n` |
| Decimal.IntText | tessera-generate.py:207 | `str(i)` is non-empty and starts with `-` exactly when `i < 0`; the rest is a digit string that parses back to the absolute value of `i`, with no leading zero unless `i == 0` |
| ItemIds.ItemId | tessera-generate.py:201 | `"d" + str(n)` is `d` followed by digits that parse back to `n`, with no leading zero unless `n == 0`, so the generator yields `d5`, `d6`, …; it is never the root's `d0` for `n >= 1` |
| ItemIds.ItemIdInjective | tessera-generate.py:197-201 | two counter values give the same identifier exactly when they are equal |
| ItemIds.IdRangeDistinct | tessera-generate.py:197-201 | successive identifiers are pairwise distinct, with strictly increasing numbers, and none is `d0` |
| ItemIds.DistinctOnce | tessera-generate.py:197-201 | a list without repetitions holds each value at most once |
| ItemIds.IdRangeOnce | tessera-generate.py:197-201 | each identifier occurs at most once among those drawn, and `d0` not at all |
| ItemIds.IdRangeSplit | tessera-generate.py:197-201 | drawing up to `mid` and then up to `hi` is drawing up to `hi` |
| ItemIds.IdAllocator.constructor | tessera-generate.py:198 | a fresh generator has counter 4 |
| ItemIds.IdAllocator.Next | tessera-generate.py:199-201 | `next()` increments the counter and yields `d<counter>` |
| ItemIds.DrawMany | tessera-generate.py:197-201 | `n` successive `next()` calls yield exactly the next `n` identifiers of the range |
| Ordering.LessIrreflexive | tessera-generate.py:166 | Python string order is irreflexive |
| Ordering.LessTransitive | tessera-generate.py:166 | string order is transitive |
| Ordering.LessTotal | tessera-generate.py:166 | any two different strings are ordered one way |
| Ordering.LessAsymmetric | tessera-generate.py:166 | string order is asymmetric |
| Ordering.LeastExists | tessera-generate.py:166 | a non-empty set of names has a least element |
| Ordering.Least | tessera-generate.py:166 | the least name of a set is in it and below every other |
| Ordering.SortedKeys | tessera-generate.py:166 | `sorted(d)` lists exactly the keys of `d`, each once |
| Ordering.SortedKeysAscending | tessera-generate.py:166 | `sorted(d)` is strictly ascending |
| Configuration.DefaultMetadata | tessera-generate.py:99-106 | the defaults define exactly the six metadata keys |
| Configuration.ApplyOverrides | tessera-generate.py:110-113 | the in-place pass gives every key its truthy `--<key>` value, keeps all others and adds no key, in any visiting order |
| Configuration.SetDashboardMetadata | tessera-generate.py:98-115 | the merged metadata is the defaults updated by the YAML values and then overridden from the command line |
| Configuration.MetadataPrecedence | tessera-generate.py:99-115 | key by key: default keys survive; options add no key; a truthy option beats the YAML value, which beats the default |
| Configuration.Split | tessera-generate.py:93 | `line.split(' ')` is never empty and no field holds a space |
| Configuration.SplitJoin | tessera-generate.py:93 | joining the fields with the separator gives the line back |
| Configuration.LeadingSpaces | tessera-generate.py:93 | the leading run of whitespace `strip()` removes |
| Configuration.TrailingSpaces | tessera-generate.py:93 | the trailing run of whitespace `strip()` removes |
| Configuration.Strip | tessera-generate.py:93 | `strip()` gives the text that follows the leading whitespace and is followed only by whitespace; it neither starts nor ends with whitespace, and it is empty iff the input is all whitespace |
| Configuration.LineTokens | tessera-generate.py:93 | a stdin line gives as many tokens as it has space-separated fields, and token `i` is field `i` with its surrounding whitespace removed |
| Configuration.ReadStdinGroups | tessera-generate.py:91-93 | the stdin loop leaves the single group `node` bound to the last line's tokens, and no group without lines |
| Configuration.ResolveNodes | tessera-generate.py:86-95 | node resolution as intended: a non-empty YAML `nodes` wins and every token is range-expanded; otherwise `-` reads stdin; otherwise `NoNodes` |
| Configuration.ResolveNodesAsWritten | tessera-generate.py:87-90 | node resolution as written: a non-empty `nodes` section raises `AttributeError` |
| Configuration.ResolveNodesDiscrepancy | tessera-generate.py:87-90 | the two resolutions differ exactly when a `nodes` section is present; there the code fails and the intended one succeeds |
| Configuration.LoadConfiguration | tessera-generate.py:71-95 | loading fails on a missing `dashboard_metadata` or `dashboard_graphs` or on missing nodes; otherwise it gives the merged metadata, the templates, `multiple_graphs == (len > 1)` and the nodes of the corrected node resolution (`ResolveNodes`), not the `AttributeError` the script raises on a `nodes` section |
| Configuration.LoadedConfigValid | tessera-generate.py:79-84 | a loaded configuration has every default metadata key and a `multiple_graphs` that matches the template count |
| Template.Placeholder | tessera-generate.py:266-267 | the placeholder of `key` is `{{`, then `key`, then `}}` |
| Template.Replace | tessera-generate.py:266-267 | replacing the pattern by itself leaves every text unchanged |
| Template.Render | tessera-generate.py:266-267 | rendering with the variable bound to its own placeholder gives the template's text back |
| Template.ReplaceAbsent | tessera-generate.py:266-267 | replacement leaves a text without the placeholder unchanged |
| Template.ReplaceJoin | tessera-generate.py:266-267 | an occurrence is replaced and the text around it is kept |
| Template.RenderConstant | tessera-generate.py:266-267 | a query without the placeholder renders to itself |
| Template.RenderLeading | tessera-generate.py:266-267 | a query made of the placeholder followed by placeholder-free text renders to the value followed by that text |
| Documents.AppendSection | tessera-generate.py:157 | appending a section keeps the queries, the root id and every earlier section, and puts the new one last |
| Documents.AppendRow | tessera-generate.py:163 | appending a row changes only the last section, whose rows gain the new row at the end |
| Documents.AppendCell | tessera-generate.py:171 | appending a cell changes only the current row of section `j`, whose cells gain the new cell at the end |
| Documents.SetQuery | tessera-generate.py:267 | the query write adds or replaces exactly entry `k` and touches nothing else |
| Documents.AppendsKeepFields | tessera-generate.py:157-171 | the appends keep the root's own fields, and a cell append keeps the section's layout and the item types |
| DocumentProperties.CellsAppendSection | tessera-generate.py:157 | a new, empty section adds no cell |
| DocumentProperties.CellsAppendRow | tessera-generate.py:163 | a new, empty row adds no cell |
| DocumentProperties.CellsAppendCell | tessera-generate.py:171 | appending to the row of the last section that has rows adds that cell at the end of the document's cells |
| DocumentProperties.IdsAppendSection | tessera-generate.py:157 | the document's identifiers gain exactly the section's |
| DocumentProperties.IdsAppendRow | tessera-generate.py:163 | the document's identifiers gain exactly the row's |
| DocumentProperties.IdsAppendCell | tessera-generate.py:171 | the document's identifiers gain exactly the cell's and its graph's |
| DashboardBuilder.CreateDashboardMetadata | tessera-generate.py:204-216 | the metadata keeps the dashboard id; its href is the API prefix followed by the id's text, the definition href is that plus `/definition`, and category, tags and title come from the metadata |
| DashboardBuilder.CreateEmptyDashboard | tessera-generate.py:218-226 | the empty dashboard is the root `d0` of type `dashboard_definition`, with no query, no cell and no other identifier; its dashboard href is the API prefix followed by the id's text, and its href that plus `/definition` |
| DashboardBuilder.NewItemIds | tessera-generate.py:228-248 | about the definitions `NewSection`, `NewRow` and `NewCell` (`create_empty_section`, `create_empty_row`, `create_cell` once their ids are drawn): a new section or row holds only its own identifier and no cell; a new cell holds its own identifier and its graph's, and only that graph |
| DashboardBuilder.DashboardHref | tessera-generate.py:210 | `'/api/dashboard/%s' % id` starts with the API prefix, and removing the prefix gives the id's text |
| DashboardBuilder.DefinitionHref | tessera-generate.py:207 | the definition href is the dashboard href followed by `/definition` |
| DashboardBuilder.NewGraphFields | tessera-generate.py:251-268 | about the definitions `GraphFields`, `MoveQuery` and `NewGraph` (the graph `create_graph` builds), field by field: the defaults survive only where the template is silent; the template's fields are kept except `query` (now `str(query_id)`) and, with one template, `title` (now the node value) |
| DashboardBuilder.StartValue | tessera-generate.py:152-163 | opening a value leaves the table, `query_id` and every earlier section alone and appends one section with the configured layout, titled by the value with several templates and `''` otherwise; exactly with several templates or while `query_id` is 0 a second identifier is drawn and the new section holds one new empty row with it, which becomes the current row; otherwise the new section has no row and the current row stays |
| DashboardBuilder.AddGraphs | tessera-generate.py:166-173 | a failing template loop names a template without `query`; a successful one advances `query_id` by one per template and keeps the current row |
| DashboardBuilder.AddValue | tessera-generate.py:151-173 | a failing value pass names a template without `query`; a successful one advances `query_id` by one per template |
| DashboardBuilder.AddValues | tessera-generate.py:147-173 | a failing loop names a template without `query` |
| DashboardBuilder.Flat | tessera-generate.py:148-151 | the visited (group, value) pairs are exactly the values of the groups, each paired with its group's name |
| DashboardBuilder.Build | tessera-generate.py:147-173 | a failing build names a configured template without `query` |
| DashboardBuilder.TemplateNames | tessera-generate.py:166 | the iterated names are templates of the configuration |
| DashboardBuilder.FlatConcat | tessera-generate.py:148-151 | visiting two runs of groups is visiting one and then the other |
| DashboardBuilder.AddGraphsErrSticky | tessera-generate.py:166-173 | once a template fails, later templates keep that first error |
| DashboardBuilder.AddValuesErrSticky | tessera-generate.py:148-173 | once a value fails, later values keep that first error |
| DashboardBuilder.AddGraphsStop | tessera-generate.py:166-173 | a template that fails is the error of the whole template loop |
| DashboardBuilder.AddValuesConcat | tessera-generate.py:148-173 | the value loop over two runs of pairs continues the second from where the first stopped |
| DashboardObject.Dashboard.constructor | tessera-generate.py:132-144 | a fresh generator (counter 4), the empty dashboard `d0` and its metadata for the configured dashboard id |
| DashboardObject.Dashboard.CreateEmptySection | tessera-generate.py:228-235 | draws one id and returns an empty section with the title and the configured layout |
| DashboardObject.Dashboard.CreateCell | tessera-generate.py:242-248 | draws one id and wraps the graph, with the span `cellspan` or 3 |
| DashboardObject.Dashboard.CreateGraph | tessera-generate.py:251-269 | draws one id; a template without `query` fails and leaves the table alone; otherwise the query is moved into the table under `query_id` |
| DashboardObject.Dashboard.AddGraphStep | tessera-generate.py:166-173 | one template pass computes the fold's `AddGraph`, or its error |
| DashboardObject.Dashboard.StartValueStep | tessera-generate.py:152-163 | the section and, when due, the row computed as `StartValue` |
| DashboardObject.Dashboard.AddGraphsLoop | tessera-generate.py:166-173 | the template loop computes `AddGraphs`, or its first error |
| DashboardObject.Dashboard.AddValueStep | tessera-generate.py:151-173 | one value pass computes `AddValue`, or its error |
| DashboardObject.Dashboard.AddGroupStep | tessera-generate.py:148-173 | one node group's values computes `AddValues` over its pairs, or the first error |
| DashboardObject.Dashboard.Populate | tessera-generate.py:147-173 | the whole build loop computes `Build`, or stops with exactly `Build`'s error |
| DashboardObject.NewDashboard | tessera-generate.py:132-173 | `Dashboard(config)` gives `Build`'s document and the metadata, or `Build`'s error |
| BuilderProperties.JobsLength | tessera-generate.py:148-168 | V values and G templates make V*G graphs |
| BuilderProperties.JobsAt | tessera-generate.py:148-173 | graph `i*G + g` is template `g` for value `i` |
| BuilderProperties.MatchesAt | tessera-generate.py:267-268 | query `k` and cell `k` belong to graph `k` |
| BuilderProperties.InitialInv | tessera-generate.py:141-147 | the empty dashboard satisfies the loop invariant, and its only identifier is `d0` |
| BuilderProperties.StartValueInv | tessera-generate.py:152-163 | opening a value keeps the invariant and adds its section |
| BuilderProperties.StartValueIds | tessera-generate.py:153-163 | opening a value adds exactly the identifiers it draws |
| BuilderProperties.GraphAndQueryCases | tessera-generate.py:251-269 | about the definition `GraphAndQuery`: `create_graph` succeeds iff the template has `query`; it then yields the new graph with `query` set to `str(query_id)` and the query entry `{name: str(query_id), targets: [the template's query rendered for the value]}`; otherwise it fails with the template's `KeyError` |
| BuilderProperties.AddGraphUnfold | tessera-generate.py:251-271 | about the definition `AddGraph`: a template step fails iff the template has no `query`; otherwise it writes entry `query_id` and appends the graph's cell to the current row |
| BuilderProperties.AddGraphInv | tessera-generate.py:166-173 | a template step keeps the invariant with one more graph |
| BuilderProperties.AddGraphIds | tessera-generate.py:242-256 | a template step adds exactly the two identifiers it draws |
| BuilderProperties.AddGraphsInv | tessera-generate.py:166-173 | the template loop keeps the invariant with one more value and its graphs |
| BuilderProperties.AddValuesInv | tessera-generate.py:147-173 | the whole loop maintains the invariant |
| BuilderProperties.AddValuesIds | tessera-generate.py:147-173 | the identifiers are always `d0` plus exactly those drawn so far |
| BuilderProperties.AddValuesShape | tessera-generate.py:153-171 | sections, rows and cells grow by mode, as `BuildLayout` describes |
| BuilderProperties.MissingIndex | tessera-generate.py:166 | the first template in sorted order without `query`: all before it have one |
| BuilderProperties.AddGraphsFails | tessera-generate.py:166-173 | a value's template loop fails iff some template lacks `query`, with the `KeyError` of the first such template |
| BuilderProperties.AddValuesFails | tessera-generate.py:147-173 | the loop fails iff there is a value and some template lacks `query`, with that first template's error |
| BuilderProperties.BuildFails | tessera-generate.py:147-173 | the build fails iff some group has a value and some template lacks `query`; the error names the first such template in sorted order |
| BuilderProperties.BuildInv | tessera-generate.py:147-173 | a successful build satisfies the invariant for every pair and graph, and has the identifiers and the shape above |
| BuilderProperties.BuildSections | tessera-generate.py:151-157 | one section per value, in order, titled by the value with several templates and `''` otherwise, with the configured layout |
| BuilderProperties.BuildQueries | tessera-generate.py:264-268 | the `queries` keys are exactly `0 .. V*G-1`, and entry `k` is `{name: str(k), targets: [graph k's template query rendered for its value]}` |
| BuilderProperties.QueryTable | tessera-generate.py:267 | under the invariant, entry `k` of the table is graph `k`'s rendered query |
| BuilderProperties.BuildCells | tessera-generate.py:242-268 | there are V*G cells; cell `k` wraps the graph built from graph `k`'s template for its value, with query `str(k)` |
| BuilderProperties.CellTable | tessera-generate.py:242-268 | under the invariant, cell `k` wraps graph `k` |
| BuilderProperties.OneGraphPerQuery | tessera-generate.py:268 | under the invariant, each cell holds one graph and exactly one graph refers to each query id |
| BuilderProperties.BuildOneGraphPerQuery | tessera-generate.py:267-268 | after a build, exactly one graph refers to each query id |
| BuilderProperties.BuildLayout | tessera-generate.py:153-171 | several templates: every section has one row of G cells; one template: the first section's row holds all V cells and later sections are empty; no template: every section has one empty row |
| BuilderProperties.IdsOnce | tessera-generate.py:197-201 | `d0` plus distinct drawn identifiers are each used at most once |
| BuilderProperties.BuildIdsUnique | tessera-generate.py:197-201 | without an `item_id` override, the identifiers are `d0` and `d5 .. d<counter>`, each used exactly once |
| BuilderProperties.TemplateOrder | tessera-generate.py:166 | the templates are visited in strictly ascending name order, each exactly once |

## Left out

- Command-line parsing with docopt (lines 14-67 and the script entry) is not modelled: the options arrive as a map from option names to values.
- YAML loading (line 77) is not modelled. The loaded document is a value whose `nodes` entries are single range tokens; a list of tokens under a group name is not modelled.
- Reading standard input (line 92) is not modelled: its lines are a parameter.
- Python 2 dict iteration order is not modelled. Node groups are an ordered sequence, and the metadata override pass is proved order-independent.
- Template.Replace: its contract states only that replacing the pattern by itself is the identity. That every occurrence is replaced is proved only for a leading occurrence followed by pattern-free text (`ReplaceJoin`, `RenderLeading`), not for texts with several occurrences.
- jinja2 rendering (lines 266-267) stays symbolic. `Template` approximates it by plain `{{key}}` replacement; filters, spacing inside the braces and control blocks are not modelled.
- `"%s" % v` for a list or mapping gives the empty string here, since Python's `repr` text is not modelled; it only matters for a non-scalar `dashboard-id`.
- `TesseraAPIClient`, `Dashboard.commit` and the send path (lines 136 and 273 on) are not modelled: they are HTTP calls, `json.dumps` and debug prints.
- `Configuration.to_json` (lines 119-124) is serialisation only and is not modelled.
- Query ids are natural-number keys. The JSON conversion of integer keys to strings is not modelled.
- The loop-carried `row` variable is an alias into the document. The model holds the index `rowAt` of its section instead; the aliasing itself is not modelled.
- The model has no exceptions. A `KeyError` or `AttributeError` is an `Err` value, and a raised `Exception` for missing nodes is `Err(NoNodes)`.
- The generator's endless `while True` is modelled as a counter and a `Next` method.
- RangeExpansionProperties.DevelopRangeAscending is proved only when every number of the range fits the first number's width; wider numbers break string order, which is the script's behaviour.
- Configuration.LoadConfiguration: follows the corrected node resolution `ResolveNodes`. On a non-empty `nodes` section the script, as written, raises `AttributeError` (line 90; see Findings), and `ResolveNodesAsWritten` models that. `Build` and the dashboard object start from this corrected configuration.
- BuilderProperties.BuildIdsUnique assumes no template sets `item_id`; a template that does can duplicate an identifier.
- RangeExpansionProperties.MatchComplete states that the greedy prefix is at least as long as the written one, not that it is equal, because a suffix can itself hold a later range.

## Findings

| source | as written | input that shows it | evidently intended | confidence | as-written member | corrected member |
|---|---|---|---|---|---|---|
| tessera-generate.py:90 | `Configuration.__init__` calls `self._develop_range`, which only `Dashboard` defines (line 176), so any non-empty `nodes` section raises `AttributeError` | a YAML file with `nodes: {node: web-001--002}` | every token of the `nodes` section is range-expanded, since the method uses `self.RANGE_RE`, which only `Configuration` defines | not executed; high, as neither `Configuration` nor `object` defines the method | Configuration.ResolveNodesAsWritten | Configuration.ResolveNodes |
