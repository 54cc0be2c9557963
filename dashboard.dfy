/** `Dashboard`, imperatively: the object `__init__` fills in, with its id
    generator, run through the same loop as the fold `DashboardBuilder.Build`
    and proved to compute it. */
module DashboardObject {
  import opened Wrappers
  import opened Values
  import opened Decimal
  import opened Ordering
  import opened ItemIds
  import opened Documents
  import opened Configuration
  import opened DashboardBuilder

  /** `AddGraph` fails exactly as `create_graph` does. */
  lemma AddGraphErr(st: State, p: Params, name: string, node: string, value: string)
    requires name in p.templates
    ensures
      var made := GraphAndQuery(name, ItemId(st.counter + 1), p.templates[name], p.multi, node, value, st.queryId);
      made.Err? ==> AddGraph(st, p, name, node, value) == Err(made.error)
  {
  }

  /** A template `AddGraph` can render: the query entry `create_graph`
      makes, then the cell in the current row. */
  lemma AddGraphOk(st: State, p: Params, name: string, node: string, value: string,
                   graph: Graph, mid: Document, cell: Cell)
    requires name in p.templates
    requires
      var made := GraphAndQuery(name, ItemId(st.counter + 1), p.templates[name], p.multi, node, value, st.queryId);
      made.Ok? && graph == made.value.0 && mid == SetQuery(st.doc, st.queryId, made.value.1)
    requires cell == NewCell(ItemId(st.counter + 2), graph)
    ensures AddGraph(st, p, name, node, value)
      == Ok(State(AppendCell(mid, st.rowAt, cell), st.counter + 2, st.queryId + 1, st.rowAt))
  {
  }

  class Dashboard {
    const config: Config
    var spec: Document
    var metadata: DashboardMetadata
    const ids: IdAllocator

    /** The part of `__init__` before the loop: a fresh id generator, the
        empty dashboard and its metadata for the configured dashboard id
        (a key the defaults always supply). */
    constructor (config: Config)
      ensures this.config == config && fresh(ids) && ids.counter == 4
      ensures spec == CreateEmptyDashboard(DashboardId(config))
      ensures metadata == CreateDashboardMetadata(config.dashboardMetadata, DashboardId(config))
    {
      this.config := config;
      ids := new IdAllocator();
      var dashId := Get(config.dashboardMetadata, "dashboard-id");
      spec := CreateEmptyDashboard(dashId);
      metadata := CreateDashboardMetadata(config.dashboardMetadata, dashId);
    }

    /** `create_empty_section`: draws the section's id. */
    method CreateEmptySection(title: string) returns (section: Section)
      modifies ids
      ensures ids.counter == old(ids.counter) + 1
      ensures section == NewSection(ItemId(ids.counter), title, Get(config.dashboardMetadata, "layout"))
    {
      var id := ids.Next();
      section := Section(title, id, Get(config.dashboardMetadata, "layout"), "section", []);
    }

    /** `create_cell`: draws the cell's id and wraps the graph. */
    method CreateCell(graph: Graph) returns (cell: Cell)
      modifies ids
      ensures ids.counter == old(ids.counter) + 1
      ensures cell == NewCell(ItemId(ids.counter), graph)
    {
      var id := ids.Next();
      var span := Int(3);
      if "cellspan" in graph {
        span := graph["cellspan"];
      }
      cell := Cell(id, span, "cell", [graph]);
    }

    /** `create_graph`: draws the graph's id, overlays the template, sets the
        title, then moves the rendered query into the `queries` table under
        `queryId`; a template without `query` fails. */
    method CreateGraph(name: string, node: string, value: string, queryId: nat)
      returns (r: Result<Graph, BuildError>)
      requires name in config.dashboardGraphs
      modifies this, ids
      ensures ids.counter == old(ids.counter) + 1
      ensures metadata == old(metadata)
      ensures
        var made := GraphAndQuery(name, ItemId(ids.counter), config.dashboardGraphs[name], config.multipleGraphs,
                                  node, value, queryId);
        && (made.Err? ==> r == Err(made.error) && spec == old(spec))
        && (made.Ok? ==> r == Ok(made.value.0) && spec == SetQuery(old(spec), queryId, made.value.1))
    {
      var id := ids.Next();
      var graph: Graph := map["item_id" := Str(id), "item_type" := Str("standard_time_series")];
      graph := graph + config.dashboardGraphs[name];
      if !config.multipleGraphs {
        graph := graph["title" := Str(value)];
      }
      if "query" !in graph {
        return Err(MissingQuery(name));
      }
      var query := Rendered(graph["query"], node, value);
      spec := spec.(queries := spec.queries[queryId := Query(Digits(queryId), [query])]);
      graph := graph["query" := Str(Digits(queryId))];
      r := Ok(graph);
    }

    /** One pass of the template loop of `__init__`: the graph, then its
        cell appended to the row in section `rowAt`. */
    method AddGraphStep(name: string, node: string, value: string, queryId: nat, rowAt: nat)
      returns (err: Option<BuildError>, queryId': nat)
      requires name in config.dashboardGraphs
      modifies this, ids
      ensures metadata == old(metadata)
      ensures
        var r := AddGraph(State(old(spec), old(ids.counter), queryId, rowAt), ParamsOf(config), name, node, value);
        (err.None? ==> r == Ok(State(spec, ids.counter, queryId', rowAt)))
        && (err.Some? ==> r == Err(err.value))
    {
      ghost var st := State(spec, ids.counter, queryId, rowAt);
      var graph := CreateGraph(name, node, value, queryId);
      if graph.Err? {
        AddGraphErr(st, ParamsOf(config), name, node, value);
        return Some(graph.error), queryId;
      }
      var cell := CreateCell(graph.value);
      AddGraphOk(st, ParamsOf(config), name, node, value, graph.value, spec, cell);
      spec := AppendCell(spec, rowAt, cell);
      queryId' := queryId + 1;
      err := None;
    }

    /** The start of one pass of the value loop of `__init__`: the section,
        then the row when one is due. */
    method StartValueStep(value: string, queryId: nat, rowAt: nat) returns (rowAt': nat)
      modifies this, ids
      ensures metadata == old(metadata)
      ensures State(spec, ids.counter, queryId, rowAt')
        == StartValue(State(old(spec), old(ids.counter), queryId, rowAt), ParamsOf(config), value)
    {
      ghost var before := State(spec, ids.counter, queryId, rowAt);
      ghost var p := ParamsOf(config);
      rowAt' := rowAt;
      var title := "";
      if config.multipleGraphs {
        title := value;
      }
      var section := CreateEmptySection(title);
      assert section == NewSection(ItemId(before.counter + 1), if p.multi then value else "", p.layout);
      spec := AppendSection(spec, section);
      ghost var doc := spec;
      if config.multipleGraphs || queryId == 0 {
        var rowId := ids.Next();
        rowAt' := |spec.items| - 1;
        spec := AppendRow(spec, NewRow(rowId));
        assert State(spec, ids.counter, queryId, rowAt')
          == State(AppendRow(doc, NewRow(ItemId(before.counter + 2))), before.counter + 2, queryId, |before.doc.items|);
      }
    }

    /** The template loop of `__init__` for one node value: a graph and a
        cell per template, in order, until one fails. */
    method AddGraphsLoop(names: seq<string>, node: string, value: string, queryId: nat, rowAt: nat)
      returns (err: Option<BuildError>, queryId': nat)
      requires Known(names, ParamsOf(config))
      modifies this, ids
      ensures metadata == old(metadata)
      ensures
        var r := AddGraphs(State(old(spec), old(ids.counter), queryId, rowAt), ParamsOf(config), names, node, value);
        (err.None? ==> r == Ok(State(spec, ids.counter, queryId', rowAt)))
        && (err.Some? ==> r == Err(err.value))
    {
      ghost var p := ParamsOf(config);
      ghost var started := State(spec, ids.counter, queryId, rowAt);
      queryId' := queryId;
      var k := 0;
      while k < |names|
        invariant 0 <= k <= |names|
        invariant metadata == old(metadata)
        invariant AddGraphs(started, p, names[..k], node, value) == Ok(State(spec, ids.counter, queryId', rowAt))
      {
        ghost var current := State(spec, ids.counter, queryId', rowAt);
        var failure;
        failure, queryId' := AddGraphStep(names[k], node, value, queryId', rowAt);
        if failure.Some? {
          AddGraphsStop(started, p, names, k, node, value, current, failure.value);
          return failure, queryId';
        }
        AddGraphsNext(started, p, names, k, node, value, current, State(spec, ids.counter, queryId', rowAt));
        k := k + 1;
      }
      assert names[..|names|] == names;
      err := None;
    }

    /** One pass of the value loop of `__init__`: the section, the row when
        one is due, then a graph and a cell per template in order. */
    method AddValueStep(names: seq<string>, node: string, value: string, queryId: nat, rowAt: nat)
      returns (err: Option<BuildError>, queryId': nat, rowAt': nat)
      requires Known(names, ParamsOf(config))
      modifies this, ids
      ensures metadata == old(metadata)
      ensures
        var r := AddValue(State(old(spec), old(ids.counter), queryId, rowAt), ParamsOf(config), names, (node, value));
        (err.None? ==> r == Ok(State(spec, ids.counter, queryId', rowAt')))
        && (err.Some? ==> r == Err(err.value))
    {
      rowAt' := StartValueStep(value, queryId, rowAt);
      err, queryId' := AddGraphsLoop(names, node, value, queryId, rowAt');
    }

    /** The value loop of `__init__` for one node group. */
    method AddGroupStep(names: seq<string>, group: NodeGroup, queryId: nat, rowAt: nat)
      returns (err: Option<BuildError>, queryId': nat, rowAt': nat)
      requires Known(names, ParamsOf(config))
      modifies this, ids
      ensures metadata == old(metadata)
      ensures
        var r := AddValues(State(old(spec), old(ids.counter), queryId, rowAt), ParamsOf(config), names,
                           GroupPairs(group.name, group.values));
        (err.None? ==> r == Ok(State(spec, ids.counter, queryId', rowAt')))
        && (err.Some? ==> r == Err(err.value))
    {
      ghost var p := ParamsOf(config);
      ghost var start := State(spec, ids.counter, queryId, rowAt);
      queryId', rowAt' := queryId, rowAt;
      var vi := 0;
      while vi < |group.values|
        invariant 0 <= vi <= |group.values|
        invariant metadata == old(metadata)
        invariant AddValues(start, p, names, GroupPairs(group.name, group.values[..vi]))
          == Ok(State(spec, ids.counter, queryId', rowAt'))
      {
        var value := group.values[vi];
        AddValuesStep(start, p, names, GroupPairs(group.name, group.values[..vi]), (group.name, value));
        GroupPairsStep(group.name, group.values, vi);
        var failure;
        failure, queryId', rowAt' := AddValueStep(names, group.name, value, queryId', rowAt');
        if failure.Some? {
          GroupPairsSplit(group.name, group.values, vi + 1);
          AddValuesErrSticky(start, p, names, GroupPairs(group.name, group.values[..vi + 1]),
                             GroupPairs(group.name, group.values[vi + 1..]));
          return failure, queryId', rowAt';
        }
        vi := vi + 1;
      }
      assert group.values[..vi] == group.values;
      err := None;
    }

    /** The build loop of `__init__`: every group, every value, every
        template in sorted name order. It computes `Build`, or stops with
        `Build`'s error. */
    method Populate() returns (err: Option<BuildError>)
      requires State(spec, ids.counter, 0, 0) == Initial(DashboardId(config))
      modifies this, ids
      ensures metadata == old(metadata)
      ensures err.None? ==>
        (Build(config).Ok?
         && Build(config).value.doc == spec
         && Build(config).value.counter == ids.counter)
      ensures err.Some? ==> Build(config) == Err(err.value)
    {
      var names := TemplateNames(config);
      ghost var p := ParamsOf(config);
      ghost var init := Initial(DashboardId(config));
      var queryId: nat := 0;
      var rowAt: nat := 0;
      var gi := 0;
      assert Flat(config.nodes[..0]) == [];
      assert init == State(spec, ids.counter, queryId, rowAt);
      while gi < |config.nodes|
        invariant 0 <= gi <= |config.nodes|
        invariant metadata == old(metadata)
        invariant AddValues(init, p, names, Flat(config.nodes[..gi])) == Ok(State(spec, ids.counter, queryId, rowAt))
      {
        ghost var current := State(spec, ids.counter, queryId, rowAt);
        var group := config.nodes[gi];
        var failure;
        failure, queryId, rowAt := AddGroupStep(names, group, queryId, rowAt);
        AddValuesGroup(init, p, names, config.nodes, gi, current);
        if failure.Some? {
          return failure;
        }
        gi := gi + 1;
      }
      assert config.nodes[..gi] == config.nodes;
      assert Build(config) == AddValues(init, p, names, Flat(config.nodes));
      err := None;
    }
  }

  /** `Dashboard(config)`: the dashboard, or the build's error. */
  method NewDashboard(config: Config) returns (r: Result<Dashboard, BuildError>)
    ensures r.Ok? ==>
      (Build(config).Ok?
       && r.value.config == config
       && r.value.spec == Build(config).value.doc
       && r.value.metadata == CreateDashboardMetadata(config.dashboardMetadata, DashboardId(config)))
    ensures r.Err? ==> Build(config) == Err(r.error)
  {
    var d := new Dashboard(config);
    var err := d.Populate();
    if err.Some? {
      return Err(err.value);
    }
    r := Ok(d);
  }
}
