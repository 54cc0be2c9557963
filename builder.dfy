/** `Dashboard`: the document builder. The value-level functions below
    specify one step of the build loop each (`create_empty_section`,
    `create_empty_row`, `create_graph`, `create_cell` and the appends), and
    `AddValues` folds them over the node values; the class runs the same
    loop imperatively and is proved to compute that fold. */
module DashboardBuilder {
  import opened Wrappers
  import opened Values
  import opened Decimal
  import opened Ordering
  import opened ItemIds
  import opened Documents
  import opened Configuration

  /** The `KeyError` of `graph['query']` in `create_graph`. */
  datatype BuildError = MissingQuery(template: string)

  // ---------- record builders ----------

  const ApiPrefix: string := "/api/dashboard/"

  /** The API path of a dashboard: `'/api/dashboard/%s' % dashboard_id`.
      Removing the prefix gives back the id's text, which is how `commit`
      recovers the id of a created dashboard. */
  function DashboardHref(id: Value): (h: string)
    ensures |h| >= |ApiPrefix| && h[..|ApiPrefix|] == ApiPrefix
    ensures h[|ApiPrefix|..] == Show(id)
  {
    ApiPrefix + Show(id)
  }

  /** `'/api/dashboard/%s/definition' % dashboard_id`. */
  function DefinitionHref(id: Value): (h: string)
    ensures h == DashboardHref(id) + "/definition"
  {
    "/api/dashboard/" + Show(id) + "/definition"
  }

  datatype DashboardMetadata = DashboardMetadata(
    category: Value,
    definitionHref: string,
    description: string,
    summary: string,
    href: string,
    id: Value,
    tags: Value,
    title: Value,
    viewHref: string,
    importedFrom: string)

  /** `create_dashboard_metadata`: category, tags and title come from the
      merged metadata; both hrefs are built from the dashboard id. */
  function CreateDashboardMetadata(metadata: map<string, Value>, id: Value): (r: DashboardMetadata)
    ensures r.id == id && |r.href| >= |ApiPrefix| && r.href[..|ApiPrefix|] == ApiPrefix && r.href[|ApiPrefix|..] == Show(id)
    ensures r.definitionHref == r.href + "/definition"
    ensures r.category == Get(metadata, "category") && r.tags == Get(metadata, "tags") && r.title == Get(metadata, "title")
  {
    DashboardMetadata(
      Get(metadata, "category"), DefinitionHref(id), "", "", DashboardHref(id), id,
      Get(metadata, "tags"), Get(metadata, "title"), "/dashboards/1/hop", "")
  }

  /** `create_empty_dashboard`: the root `d0` with no queries and no sections. */
  function CreateEmptyDashboard(id: Value): (d: Document)
    ensures d.queries == map[] && Cells(d) == [] && Ids(d) == multiset{RootId}
    ensures d.itemId == RootId && d.itemType == "dashboard_definition"
    ensures |d.dashboardHref| >= |ApiPrefix| && d.dashboardHref[..|ApiPrefix|] == ApiPrefix
    ensures d.dashboardHref[|ApiPrefix|..] == Show(id) && d.href == d.dashboardHref + "/definition"
  {
    Document(map[], RootId, "dashboard_definition", DashboardHref(id), DefinitionHref(id), [])
  }

  /** `create_empty_section(title)` once its id is drawn. */
  function NewSection(id: string, title: string, layout: Value): Section {
    Section(title, id, layout, "section", [])
  }

  /** `create_empty_row(row_id)`. */
  function NewRow(id: string): Row {
    Row(id, "row", [])
  }

  /** `create_cell(graph)` once its id is drawn: the span is the graph's
      `cellspan`, 3 without one. */
  function NewCell(id: string, graph: Graph): Cell {
    Cell(id, GetOr(graph, "cellspan", Int(3)), "cell", [graph])
  }

  /** What the new items hold: a fresh section or row only its own
      identifier and no cell, a fresh cell its own identifier, its graph's,
      and the graph alone. */
  lemma NewItemIds(id: string, title: string, layout: Value, graph: Graph)
    ensures SectionIds(NewSection(id, title, layout)) == multiset{id} && RowsCells(NewSection(id, title, layout).items) == []
    ensures RowIds(NewRow(id)) == multiset{id} && RowsCells([NewRow(id)]) == []
    ensures CellIds(NewCell(id, graph)) == multiset{id} + GraphIds(graph) && NewCell(id, graph).items == [graph]
  {
    assert RowsIds([]) == multiset{};
    assert CellsIds([]) == multiset{};
    assert [graph][..0] == [];
    assert GraphsIds([graph]) == GraphIds(graph);
    assert [NewRow(id)][..0] == [];
  }

  /** The graph of `create_graph` before its query is moved: the defaults
      overlaid by the template, then the title set to the node value unless
      there are several templates. */
  function GraphFields(id: string, template: GraphTemplate, multi: bool, value: string): Graph {
    var graph := map["item_id" := Str(id), "item_type" := Str("standard_time_series")] + template;
    if multi then graph else graph["title" := Str(value)]
  }

  /** The graph `create_graph` returns: its `query` now holds the query id. */
  function MoveQuery(fields: Graph, queryId: nat): Graph {
    fields["query" := Str(Digits(queryId))]
  }

  function NewGraph(id: string, template: GraphTemplate, multi: bool, value: string, queryId: nat): Graph {
    MoveQuery(GraphFields(id, template, multi, value), queryId)
  }

  /** Field by field: the defaults survive only where the template is silent,
      the template's fields are kept except the query (moved) and, with a
      single template, the title (the node value). */
  lemma NewGraphFields(id: string, template: GraphTemplate, multi: bool, value: string, queryId: nat)
    ensures var g := NewGraph(id, template, multi, value, queryId);
      && g.Keys == {"item_id", "item_type", "query"} + template.Keys + (if multi then {} else {"title"})
      && g["query"] == Str(Digits(queryId))
      && (!multi ==> g["title"] == Str(value))
      && (forall k :: k in template && k != "query" && (multi || k != "title") ==> g[k] == template[k])
      && ("item_id" !in template ==> g["item_id"] == Str(id))
      && ("item_type" !in template ==> g["item_type"] == Str("standard_time_series"))
      && ("query" in GraphFields(id, template, multi, value) <==> "query" in template)
      && ("query" in template ==> GraphFields(id, template, multi, value)["query"] == template["query"])
  {
  }

  // ---------- the build loop as a fold ----------

  /** The loop state: the document, the id generator's counter, `query_id`,
      and the index of the section holding the loop-carried `row`. */
  datatype State = State(doc: Document, counter: nat, queryId: nat, rowAt: nat)

  /** What the loop reads from the configuration. */
  datatype Params = Params(templates: map<string, GraphTemplate>, multi: bool, layout: Value)

  /** The state before the loop: the empty dashboard, a fresh generator. */
  function Initial(id: Value): State {
    State(CreateEmptyDashboard(id), 4, 0, 0)
  }

  /** For one node value: append a new section, titled by the value when
      there are several templates, and a new row in it when there are
      several templates or no query has been made yet. The section id is
      drawn before the row id. */
  function StartValue(st: State, p: Params, value: string): (r: State)
    ensures r.doc.queries == st.doc.queries && r.queryId == st.queryId
    ensures |r.doc.items| == |st.doc.items| + 1
    ensures r.doc.items[|st.doc.items|].title == (if p.multi then value else "")
    ensures p.multi || st.queryId == 0 ==> r.counter == st.counter + 2 && r.rowAt == |st.doc.items|
    ensures !(p.multi || st.queryId == 0) ==> r.counter == st.counter + 1 && r.rowAt == st.rowAt
    ensures forall i :: 0 <= i < |st.doc.items| ==> r.doc.items[i] == st.doc.items[i]
    ensures r.doc.items[|st.doc.items|].layout == p.layout
    ensures p.multi || st.queryId == 0 ==> r.doc.items[|st.doc.items|].items == [NewRow(ItemId(st.counter + 2))]
    ensures !(p.multi || st.queryId == 0) ==> r.doc.items[|st.doc.items|].items == []
  {
    var section := NewSection(ItemId(st.counter + 1), if p.multi then value else "", p.layout);
    var doc := AppendSection(st.doc, section);
    if p.multi || st.queryId == 0 then
      State(AppendRow(doc, NewRow(ItemId(st.counter + 2))), st.counter + 2, st.queryId, |st.doc.items|)
    else
      State(doc, st.counter + 1, st.queryId, st.rowAt)
  }

  /** `create_graph` once its id is drawn: the graph and its entry of the
      `queries` table, or the `KeyError` of a template without `query`. */
  function GraphAndQuery(name: string, id: string, template: GraphTemplate, multi: bool,
                         node: string, value: string, queryId: nat): (r: Result<(Graph, Query), BuildError>)
  {
    var fields := GraphFields(id, template, multi, value);
    if "query" !in fields then Err(MissingQuery(name))
    else Ok((MoveQuery(fields, queryId), Query(Digits(queryId), [Rendered(fields["query"], node, value)])))
  }

  /** For one template: the graph (its id drawn first), its query entry, then
      its cell (the second id) appended to the current row. */
  function AddGraph(st: State, p: Params, name: string, node: string, value: string)
    : (r: Result<State, BuildError>)
    requires name in p.templates
  {
    match GraphAndQuery(name, ItemId(st.counter + 1), p.templates[name], p.multi, node, value, st.queryId)
    case Err(e) => Err(e)
    case Ok(made) =>
      Ok(State(AppendCell(SetQuery(st.doc, st.queryId, made.1), st.rowAt, NewCell(ItemId(st.counter + 2), made.0)),
               st.counter + 2, st.queryId + 1, st.rowAt))
  }

  predicate Known(names: seq<string>, p: Params) {
    forall n :: n in names ==> n in p.templates
  }

  /** The templates of one value, in the given order; the first failure stops
      the build. */
  function AddGraphs(st: State, p: Params, names: seq<string>, node: string, value: string)
    : (r: Result<State, BuildError>)
    requires Known(names, p)
    ensures r.Err? ==> r.error.template in p.templates && "query" !in p.templates[r.error.template]
    ensures r.Ok? ==> r.value.queryId == st.queryId + |names| && r.value.rowAt == st.rowAt
    decreases |names|
  {
    if names == [] then Ok(st)
    else
      match AddGraphs(st, p, names[..|names| - 1], node, value)
      case Err(e) => Err(e)
      case Ok(s) => AddGraph(s, p, names[|names| - 1], node, value)
  }

  function AddValue(st: State, p: Params, names: seq<string>, pair: (string, string))
    : (r: Result<State, BuildError>)
    requires Known(names, p)
    ensures r.Err? ==> r.error.template in p.templates && "query" !in p.templates[r.error.template]
    ensures r.Ok? ==> r.value.queryId == st.queryId + |names|
  {
    AddGraphs(StartValue(st, p, pair.1), p, names, pair.0, pair.1)
  }

  /** The (group name, value) pairs in loop order. */
  function AddValues(st: State, p: Params, names: seq<string>, pairs: seq<(string, string)>)
    : (r: Result<State, BuildError>)
    requires Known(names, p)
    ensures r.Err? ==> r.error.template in p.templates && "query" !in p.templates[r.error.template]
    decreases |pairs|
  {
    if pairs == [] then Ok(st)
    else
      match AddValues(st, p, names, pairs[..|pairs| - 1])
      case Err(e) => Err(e)
      case Ok(s) => AddValue(s, p, names, pairs[|pairs| - 1])
  }

  /** The values of one group, each paired with the group's name. */
  function GroupPairs(name: string, values: seq<string>): (pairs: seq<(string, string)>)
    ensures |pairs| == |values|
    ensures forall i :: 0 <= i < |values| ==> pairs[i] == (name, values[i])
  {
    seq(|values|, i requires 0 <= i < |values| => (name, values[i]))
  }

  /** Every (group name, value) pair, group after group. */
  function Flat(groups: seq<NodeGroup>): (pairs: seq<(string, string)>)
    ensures forall x :: x in pairs <==> exists g :: 0 <= g < |groups| && x.0 == groups[g].name && x.1 in groups[g].values
    decreases |groups|
  {
    if groups == [] then []
    else Flat(groups[..|groups| - 1]) + GroupPairs(groups[|groups| - 1].name, groups[|groups| - 1].values)
  }

  function ParamsOf(cfg: Config): Params {
    Params(cfg.dashboardGraphs, cfg.multipleGraphs, Get(cfg.dashboardMetadata, "layout"))
  }

  function DashboardId(cfg: Config): Value {
    Get(cfg.dashboardMetadata, "dashboard-id")
  }

  function TemplateNames(cfg: Config): (names: seq<string>)
    ensures Known(names, ParamsOf(cfg))
  {
    SortedKeys(cfg.dashboardGraphs.Keys)
  }

  /** The whole of `Dashboard.__init__` after the metadata. */
  function Build(cfg: Config): (r: Result<State, BuildError>)
    ensures r.Err? ==> r.error.template in cfg.dashboardGraphs && "query" !in cfg.dashboardGraphs[r.error.template]
  {
    AddValues(Initial(DashboardId(cfg)), ParamsOf(cfg), TemplateNames(cfg), Flat(cfg.nodes))
  }

  // ---------- facts the loop proof needs ----------

  lemma GroupPairsStep(name: string, values: seq<string>, k: nat)
    requires k < |values|
    ensures GroupPairs(name, values[..k + 1]) == GroupPairs(name, values[..k]) + [(name, values[k])]
  {
  }

  lemma GroupPairsSplit(name: string, values: seq<string>, k: nat)
    requires k <= |values|
    ensures GroupPairs(name, values) == GroupPairs(name, values[..k]) + GroupPairs(name, values[k..])
  {
  }

  lemma FlatStep(groups: seq<NodeGroup>, k: nat)
    requires k < |groups|
    ensures Flat(groups[..k + 1]) == Flat(groups[..k]) + GroupPairs(groups[k].name, groups[k].values)
  {
    assert groups[..k + 1][..k] == groups[..k];
  }

  lemma AddValuesStep(st: State, p: Params, names: seq<string>, pairs: seq<(string, string)>,
                      pair: (string, string))
    requires Known(names, p)
    ensures AddValues(st, p, names, pairs + [pair]) ==
      match AddValues(st, p, names, pairs)
      case Err(e) => Err(e)
      case Ok(s) => AddValue(s, p, names, pair)
  {
    assert (pairs + [pair])[..|pairs|] == pairs;
  }

  lemma AddGraphsStep(st: State, p: Params, names: seq<string>, k: nat, node: string, value: string)
    requires Known(names, p) && k < |names|
    ensures AddGraphs(st, p, names[..k + 1], node, value) ==
      match AddGraphs(st, p, names[..k], node, value)
      case Err(e) => Err(e)
      case Ok(s) => AddGraph(s, p, names[k], node, value)
  {
    assert names[..k + 1][..k] == names[..k];
  }

  lemma AddGraphsStepErr(st: State, p: Params, names: seq<string>, k: nat, node: string, value: string,
                         e: BuildError)
    requires Known(names, p) && k < |names|
    requires AddGraphs(st, p, names[..k], node, value) == Err(e)
    ensures AddGraphs(st, p, names[..k + 1], node, value) == Err(e)
  {
    AddGraphsStep(st, p, names, k, node, value);
  }

  /** One more template that renders extends the fold by its state. */
  lemma AddGraphsNext(st: State, p: Params, names: seq<string>, k: nat, node: string, value: string,
                      s: State, s': State)
    requires Known(names, p) && k < |names|
    requires AddGraphs(st, p, names[..k], node, value) == Ok(s)
    requires AddGraph(s, p, names[k], node, value) == Ok(s')
    ensures AddGraphs(st, p, names[..k + 1], node, value) == Ok(s')
  {
    AddGraphsStep(st, p, names, k, node, value);
  }

  /** One more template that fails is the error of the whole fold. */
  lemma AddGraphsStop(st: State, p: Params, names: seq<string>, k: nat, node: string, value: string,
                      s: State, e: BuildError)
    requires Known(names, p) && k < |names|
    requires AddGraphs(st, p, names[..k], node, value) == Ok(s)
    requires AddGraph(s, p, names[k], node, value) == Err(e)
    ensures AddGraphs(st, p, names, node, value) == Err(e)
  {
    AddGraphsStep(st, p, names, k, node, value);
    AddGraphsErrSticky(st, p, names, k + 1, node, value);
  }

  /** A failure is final: more templates keep the first error. */
  lemma {:induction false} AddGraphsErrSticky(st: State, p: Params, names: seq<string>, k: nat,
                                             node: string, value: string)
    requires Known(names, p) && k <= |names|
    requires AddGraphs(st, p, names[..k], node, value).Err?
    ensures AddGraphs(st, p, names, node, value) == AddGraphs(st, p, names[..k], node, value)
    decreases |names| - k
  {
    if k < |names| {
      AddGraphsStepErr(st, p, names, k, node, value, AddGraphs(st, p, names[..k], node, value).error);
      AddGraphsErrSticky(st, p, names, k + 1, node, value);
    } else {
      assert names[..k] == names;
    }
  }

  /** A failure is final: more values keep the first error. */
  lemma {:induction false} AddValuesErrSticky(st: State, p: Params, names: seq<string>,
                                             pairs: seq<(string, string)>, more: seq<(string, string)>)
    requires Known(names, p)
    requires AddValues(st, p, names, pairs).Err?
    ensures AddValues(st, p, names, pairs + more) == AddValues(st, p, names, pairs)
    decreases |more|
  {
    if more == [] {
      assert pairs + more == pairs;
    } else {
      var init := more[..|more| - 1];
      assert pairs + more == (pairs + init) + [more[|more| - 1]];
      AddValuesErrSticky(st, p, names, pairs, init);
      AddValuesStep(st, p, names, pairs + init, more[|more| - 1]);
    }
  }

  lemma FlatConcat(a: seq<NodeGroup>, b: seq<NodeGroup>)
    ensures Flat(a + b) == Flat(a) + Flat(b)
    decreases |b|
  {
    if b != [] {
      var init := b[..|b| - 1];
      assert (a + b)[..|a + b| - 1] == a + init;
      FlatConcat(a, init);
    } else {
      assert a + b == a;
    }
  }

  /** Folding over two lists of pairs is folding over the first, then over
      the second from where the first stopped. */
  lemma {:induction false} AddValuesConcat(st: State, p: Params, names: seq<string>,
                                          a: seq<(string, string)>, b: seq<(string, string)>)
    requires Known(names, p)
    ensures AddValues(st, p, names, a + b) ==
      match AddValues(st, p, names, a)
      case Err(e) => Err(e)
      case Ok(s) => AddValues(s, p, names, b)
    decreases |b|
  {
    if b == [] {
      assert a + b == a;
    } else {
      var init := b[..|b| - 1];
      var last := b[|b| - 1];
      assert a + b == (a + init) + [last];
      AddValuesConcat(st, p, names, a, init);
      AddValuesStep(st, p, names, a + init, last);
      match AddValues(st, p, names, a)
      case Err(e) => {}
      case Ok(s) => {
        AddValuesStep(s, p, names, init, last);
        assert b == init + [last];
      }
    }
  }

  lemma FlatRest(groups: seq<NodeGroup>, gi: nat)
    requires gi < |groups|
    ensures Flat(groups) == Flat(groups[..gi + 1]) + Flat(groups[gi + 1..])
  {
    assert groups == groups[..gi + 1] + groups[gi + 1..];
    FlatConcat(groups[..gi + 1], groups[gi + 1..]);
  }

  /** One group of the build loop: the value loop up to group `gi + 1` is
      the loop up to group `gi` continued with that group's pairs, and a
      failure there is the failure over all the groups. */
  lemma AddValuesGroup(st: State, p: Params, names: seq<string>, groups: seq<NodeGroup>, gi: nat, mid: State)
    requires Known(names, p) && gi < |groups|
    requires AddValues(st, p, names, Flat(groups[..gi])) == Ok(mid)
    ensures var r := AddValues(mid, p, names, GroupPairs(groups[gi].name, groups[gi].values));
      && (r.Ok? ==> AddValues(st, p, names, Flat(groups[..gi + 1])) == r)
      && (r.Err? ==> AddValues(st, p, names, Flat(groups)) == r)
  {
    var pairs := GroupPairs(groups[gi].name, groups[gi].values);
    FlatStep(groups, gi);
    AddValuesConcat(st, p, names, Flat(groups[..gi]), pairs);
    if AddValues(mid, p, names, pairs).Err? {
      FlatRest(groups, gi);
      AddValuesErrSticky(st, p, names, Flat(groups[..gi + 1]), Flat(groups[gi + 1..]));
    }
  }
}
