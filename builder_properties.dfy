/** What the build loop guarantees, proved about the fold `AddValues` that
    `Dashboard.Populate` computes. With V node values and G templates:
    V sections, V*G queries keyed 0 .. V*G-1, one graph per query id, the
    row layout of each mode, distinct identifiers, and which configurations
    fail. */
module BuilderProperties {
  import opened Wrappers
  import opened Values
  import opened Decimal
  import opened Ordering
  import opened ItemIds
  import opened Documents
  import opened DocumentProperties
  import opened Configuration
  import opened DashboardBuilder

  /** One graph the loop makes: the group name, the value, the template name. */
  datatype Job = Job(node: string, value: string, name: string)

  /** The graphs of one value, one per template in order. */
  function ValueJobs(pair: (string, string), names: seq<string>): (jobs: seq<Job>)
    ensures |jobs| == |names|
    ensures forall g :: 0 <= g < |names| ==> jobs[g] == Job(pair.0, pair.1, names[g])
  {
    seq(|names|, g requires 0 <= g < |names| => Job(pair.0, pair.1, names[g]))
  }

  lemma ValueJobsSnoc(pair: (string, string), names: seq<string>)
    requires names != []
    ensures ValueJobs(pair, names) == ValueJobs(pair, names[..|names| - 1]) + [Job(pair.0, pair.1, names[|names| - 1])]
  {
  }

  /** The graphs of all values, in the order the loop makes them. */
  function Jobs(pairs: seq<(string, string)>, names: seq<string>): seq<Job>
    decreases |pairs|
  {
    if pairs == [] then [] else Jobs(pairs[..|pairs| - 1], names) + ValueJobs(pairs[|pairs| - 1], names)
  }

  lemma {:induction false} JobsLength(pairs: seq<(string, string)>, names: seq<string>)
    ensures |Jobs(pairs, names)| == |pairs| * |names|
    decreases |pairs|
  {
    if pairs != [] {
      JobsLength(pairs[..|pairs| - 1], names);
      assert |pairs| * |names| == (|pairs| - 1) * |names| + |names|;
    }
  }

  /** Graph `g` of value `i` is graph number `i * G + g`. */
  lemma {:induction false} JobsAt(pairs: seq<(string, string)>, names: seq<string>, i: nat, g: nat)
    requires i < |pairs| && g < |names|
    ensures i * |names| + g < |Jobs(pairs, names)|
    ensures Jobs(pairs, names)[i * |names| + g] == Job(pairs[i].0, pairs[i].1, names[g])
    decreases |pairs|
  {
    var init := pairs[..|pairs| - 1];
    JobsLength(init, names);
    JobsLength(pairs, names);
    if i == |pairs| - 1 {
      assert i * |names| == |Jobs(init, names)|;
    } else {
      JobsAt(init, names, i, g);
      assert (i + 1) * |names| <= (|pairs| - 1) * |names| by {
        MulMonotone(i + 1, |pairs| - 1, |names|);
      }
      assert i * |names| + g < (i + 1) * |names|;
    }
  }

  lemma MulMonotone(a: nat, b: nat, c: nat)
    requires a <= b
    ensures a * c <= b * c
  {
  }

  // ---------- the invariant of the loop ----------

  /** Entry `k` of the `queries` table for a graph: its name is `str(k)`, its
      one target the template's query rendered for the value. */
  predicate QueryFor(q: Query, p: Params, job: Job, k: nat) {
    job.name in p.templates && "query" in p.templates[job.name]
    && q == Query(Digits(k), [Rendered(p.templates[job.name]["query"], job.node, job.value)])
  }

  /** Cell `k` wraps the graph built from the job's template with query id `k`. */
  ghost predicate CellFor(c: Cell, p: Params, job: Job, k: nat)
    requires job.name in p.templates
  {
    exists cid: string, gid: string :: c == NewCell(cid, NewGraph(gid, p.templates[job.name], p.multi, job.value, k))
  }

  /** The loop-carried `row` exists once there is a section, and no later
      section holds a row. */
  predicate RowReady(st: State) {
    && (st.doc.items == [] ==> st.queryId == 0)
    && (st.doc.items != [] ==>
          HasRow(st.doc, st.rowAt) && forall i :: st.rowAt < i < |st.doc.items| ==> st.doc.items[i].items == [])
  }

  /** Query `k` and cell `k` belong to graph `k`, for every graph so far. */
  ghost predicate Matches(queries: map<nat, Query>, cells: seq<Cell>, p: Params, jobs: seq<Job>)
    decreases |jobs|
  {
    if jobs == [] then true
    else
      var n := |jobs| - 1;
      && Matches(queries, cells, p, jobs[..n])
      && n in queries && n < |cells| && jobs[n].name in p.templates
      && QueryFor(queries[n], p, jobs[n], n)
      && CellFor(cells[n], p, jobs[n], n)
  }

  lemma {:induction false} MatchesAt(queries: map<nat, Query>, cells: seq<Cell>, p: Params, jobs: seq<Job>, k: nat)
    requires Matches(queries, cells, p, jobs) && k < |jobs|
    ensures k in queries && k < |cells| && jobs[k].name in p.templates
    ensures QueryFor(queries[k], p, jobs[k], k) && CellFor(cells[k], p, jobs[k], k)
    decreases |jobs|
  {
    var n := |jobs| - 1;
    if k < n {
      MatchesAt(queries, cells, p, jobs[..n], k);
      assert jobs[..n][k] == jobs[k];
    }
  }

  /** Matching survives adding entries past the graphs it speaks of. */
  lemma {:induction false} MatchesFrame(queries: map<nat, Query>, cells: seq<Cell>,
                                        queries': map<nat, Query>, cells': seq<Cell>, p: Params, jobs: seq<Job>)
    requires Matches(queries, cells, p, jobs)
    requires forall i :: i in queries && i < |jobs| ==> i in queries' && queries'[i] == queries[i]
    requires forall i :: 0 <= i < |jobs| && i < |cells| ==> i < |cells'| && cells'[i] == cells[i]
    ensures Matches(queries', cells', p, jobs)
    decreases |jobs|
  {
    if jobs != [] {
      MatchesFrame(queries, cells, queries', cells', p, jobs[..|jobs| - 1]);
    }
  }

  ghost predicate Inv(st: State, p: Params, pairs: seq<(string, string)>, jobs: seq<Job>) {
    && |st.doc.items| == |pairs|
    && (forall i :: 0 <= i < |pairs| ==>
          st.doc.items[i].title == (if p.multi then pairs[i].1 else "") && st.doc.items[i].layout == p.layout)
    && st.queryId == |jobs| && |Cells(st.doc)| == |jobs|
    && (forall k: nat :: k in st.doc.queries <==> k < |jobs|)
    && Matches(st.doc.queries, Cells(st.doc), p, jobs)
    && RowReady(st)
  }

  /** No template overrides `item_id`. */
  predicate NoIdOverride(p: Params) {
    forall n :: n in p.templates ==> "item_id" !in p.templates[n]
  }

  /** The identifiers are the root's and exactly those drawn so far. */
  predicate IdsExact(st: State) {
    st.counter >= 4 && Ids(st.doc) == multiset{RootId} + multiset(IdRange(5, st.counter + 1))
  }

  lemma InitialInv(id: Value, p: Params)
    ensures Inv(Initial(id), p, [], [])
    ensures IdsExact(Initial(id))
  {
    assert IdRange(5, 5) == [];
  }

  lemma IdRangeNext(c: nat)
    requires c >= 4
    ensures multiset(IdRange(5, c + 2)) == multiset(IdRange(5, c + 1)) + multiset{ItemId(c + 1)}
  {
    IdRangeSplit(5, c + 1, c + 2);
    assert IdRange(c + 1, c + 2) == [ItemId(c + 1)];
  }

  /** Drawing identifier `c + 1` keeps the identifiers exact. */
  lemma IdsGrow(before: multiset<string>, after: multiset<string>, c: nat)
    requires c >= 4
    requires before == multiset{RootId} + multiset(IdRange(5, c + 1))
    requires after == before + multiset{ItemId(c + 1)}
    ensures after == multiset{RootId} + multiset(IdRange(5, c + 2))
  {
    IdRangeNext(c);
  }

  /** Drawing identifiers `c + 1` and `c + 2` keeps the identifiers exact. */
  lemma IdsGrowTwice(before: multiset<string>, after: multiset<string>, c: nat)
    requires c >= 4
    requires before == multiset{RootId} + multiset(IdRange(5, c + 1))
    requires after == before + (multiset{ItemId(c + 2)} + multiset{ItemId(c + 1)})
    ensures after == multiset{RootId} + multiset(IdRange(5, c + 3))
  {
    var half := before + multiset{ItemId(c + 1)};
    IdsGrow(before, half, c);
    IdsGrow(half, after, c + 1);
  }

  lemma SnocSplit<T>(s: seq<T>)
    requires s != []
    ensures s == s[..|s| - 1] + [s[|s| - 1]]
  {
  }

  lemma ConcatSnoc<T>(a: seq<T>, b: seq<T>, x: T)
    ensures a + (b + [x]) == (a + b) + [x]
  {
  }

  // ---------- opening a value ----------

  /** `t` is `st` with one more section: a fresh one-row section that
      becomes current when `rowAdded`, an empty one otherwise. */
  predicate Opened(st: State, t: State, rowAdded: bool) {
    && |t.doc.items| == |st.doc.items| + 1
    && t.queryId == st.queryId
    && (forall i :: 0 <= i < |st.doc.items| ==> t.doc.items[i] == st.doc.items[i])
    && (rowAdded ==>
          t.rowAt == |st.doc.items| && |t.doc.items[t.rowAt].items| == 1 && t.doc.items[t.rowAt].items[0].items == [])
    && (!rowAdded ==> t.rowAt == st.rowAt && t.doc.items[|st.doc.items|].items == [])
  }

  /** Everything `StartValue` does: the new section's place, title and
      layout, and no new cell or query. */
  ghost predicate Opening(st: State, t: State, p: Params, value: string) {
    && Opened(st, t, p.multi || st.queryId == 0)
    && t.doc.queries == st.doc.queries
    && Cells(t.doc) == Cells(st.doc)
    && t.doc.items[|st.doc.items|].title == (if p.multi then value else "")
    && t.doc.items[|st.doc.items|].layout == p.layout
  }

  lemma StartValueLayout(st: State, p: Params, value: string)
    ensures Opened(st, StartValue(st, p, value), p.multi || st.queryId == 0)
  {
  }

  lemma StartValueOpening(st: State, p: Params, value: string)
    ensures Opening(st, StartValue(st, p, value), p, value)
  {
    StartValueLayout(st, p, value);
    StartValueCells(st, p, value);
  }

  /** Opening a value adds no cell and no query. */
  lemma StartValueCells(st: State, p: Params, value: string)
    ensures Cells(StartValue(st, p, value).doc) == Cells(st.doc)
    ensures StartValue(st, p, value).doc.queries == st.doc.queries
  {
    var section := NewSection(ItemId(st.counter + 1), if p.multi then value else "", p.layout);
    var doc := AppendSection(st.doc, section);
    CellsAppendSection(st.doc, section);
    assert RowsCells([]) == [];
    assert Cells(doc) == Cells(st.doc);
    if p.multi || st.queryId == 0 {
      var row := NewRow(ItemId(st.counter + 2));
      CellsAppendRow(doc, row);
      assert Cells(doc) + row.items == Cells(doc);
    }
  }

  /** Opening a value keeps the current row well placed. */
  lemma OpenedReady(st: State, t: State, rowAdded: bool)
    requires RowReady(st) && Opened(st, t, rowAdded)
    requires st.doc.items == [] ==> rowAdded
    ensures RowReady(t)
  {
    if !rowAdded {
      assert t.doc.items[st.rowAt] == st.doc.items[st.rowAt];
    }
  }

  lemma StartValueReady(st: State, p: Params, value: string)
    requires RowReady(st)
    ensures RowReady(StartValue(st, p, value))
    ensures |StartValue(st, p, value).doc.items| == |st.doc.items| + 1
  {
    StartValueLayout(st, p, value);
    OpenedReady(st, StartValue(st, p, value), p.multi || st.queryId == 0);
  }

  /** Opening a value keeps the invariant: one more section, no new cell. */
  lemma OpeningInv(st: State, t: State, p: Params, pairs: seq<(string, string)>, jobs: seq<Job>,
                   pair: (string, string), pairs': seq<(string, string)>)
    requires Inv(st, p, pairs, jobs) && Opening(st, t, p, pair.1)
    requires pairs' == pairs + [pair]
    ensures Inv(t, p, pairs', jobs)
  {
    OpenedReady(st, t, p.multi || st.queryId == 0);
    forall i | 0 <= i < |pairs'|
      ensures t.doc.items[i].title == (if p.multi then pairs'[i].1 else "") && t.doc.items[i].layout == p.layout
    {
      if i < |pairs| {
        assert pairs'[i] == pairs[i] && t.doc.items[i] == st.doc.items[i];
      } else {
        assert pairs'[i] == pair;
      }
    }
    assert Matches(t.doc.queries, Cells(t.doc), p, jobs);
  }

  lemma StartValueInv(st: State, p: Params, pairs: seq<(string, string)>, jobs: seq<Job>,
                      pair: (string, string), pairs': seq<(string, string)>)
    requires Inv(st, p, pairs, jobs)
    requires pairs' == pairs + [pair]
    ensures Inv(StartValue(st, p, pair.1), p, pairs', jobs)
  {
    StartValueOpening(st, p, pair.1);
    OpeningInv(st, StartValue(st, p, pair.1), p, pairs, jobs, pair, pairs');
  }

  lemma StartValueIds(st: State, p: Params, value: string)
    requires IdsExact(st)
    ensures IdsExact(StartValue(st, p, value))
  {
    var c := st.counter;
    var section := NewSection(ItemId(c + 1), if p.multi then value else "", p.layout);
    var doc := AppendSection(st.doc, section);
    IdsAppendSection(st.doc, section);
    assert SectionIds(section) == multiset{ItemId(c + 1)} by {
      assert RowsIds([]) == multiset{};
    }
    IdsGrow(Ids(st.doc), Ids(doc), c);
    if p.multi || st.queryId == 0 {
      var row := NewRow(ItemId(c + 2));
      IdsAppendRow(doc, row);
      assert RowIds(row) == multiset{ItemId(c + 2)} by {
        assert CellsIds([]) == multiset{};
      }
      IdsGrow(Ids(doc), Ids(AppendRow(doc, row)), c + 1);
    }
  }

  // ---------- one template step ----------

  /** `s` is `st` after entering `query` under the next query id and
      appending `cell` to the current row, two identifiers later. */
  predicate Placed(st: State, s: State, query: Query, cell: Cell) {
    && s.doc == AppendCell(SetQuery(st.doc, st.queryId, query), st.rowAt, cell)
    && s.counter == st.counter + 2 && s.queryId == st.queryId + 1 && s.rowAt == st.rowAt
  }

  function GraphOf(st: State, p: Params, name: string, value: string): Graph
    requires name in p.templates
  {
    NewGraph(ItemId(st.counter + 1), p.templates[name], p.multi, value, st.queryId)
  }

  /** `create_graph` fails exactly when the template has no query. */
  lemma GraphAndQueryCases(name: string, id: string, template: GraphTemplate, multi: bool,
                           node: string, value: string, queryId: nat)
    ensures GraphAndQuery(name, id, template, multi, node, value, queryId).Ok? <==> "query" in template
    ensures "query" in template ==>
      GraphAndQuery(name, id, template, multi, node, value, queryId)
        == Ok((NewGraph(id, template, multi, value, queryId), Query(Digits(queryId), [Rendered(template["query"], node, value)])))
    ensures "query" !in template ==> GraphAndQuery(name, id, template, multi, node, value, queryId) == Err(MissingQuery(name))
  {
    NewGraphFields(id, template, multi, value, queryId);
  }

  /** What one template step makes: the graph and query of `GraphAndQuery`. */
  lemma AddGraphUnfold(st: State, p: Params, name: string, node: string, value: string)
    requires name in p.templates
    ensures AddGraph(st, p, name, node, value).Ok? <==> "query" in p.templates[name]
    ensures "query" in p.templates[name] ==>
      Placed(st, AddGraph(st, p, name, node, value).value,
             Query(Digits(st.queryId), [Rendered(p.templates[name]["query"], node, value)]),
             NewCell(ItemId(st.counter + 2), GraphOf(st, p, name, value)))
    ensures "query" !in p.templates[name] ==> AddGraph(st, p, name, node, value) == Err(MissingQuery(name))
  {
    GraphAndQueryCases(name, ItemId(st.counter + 1), p.templates[name], p.multi, node, value, st.queryId);
  }

  /** A placement keeps the current row well placed. */
  lemma PlacedReady(st: State, s: State, query: Query, cell: Cell)
    requires RowReady(st) && st.doc.items != [] && Placed(st, s, query, cell)
    ensures RowReady(s) && |s.doc.items| == |st.doc.items|
  {
    assert HasRow(SetQuery(st.doc, st.queryId, query), st.rowAt);
  }

  lemma AddGraphReady(st: State, p: Params, name: string, node: string, value: string, s: State)
    requires name in p.templates && st.doc.items != []
    requires RowReady(st)
    requires AddGraph(st, p, name, node, value) == Ok(s)
    ensures RowReady(s) && |s.doc.items| == |st.doc.items|
  {
    AddGraphUnfold(st, p, name, node, value);
    PlacedReady(st, s, Query(Digits(st.queryId), [Rendered(p.templates[name]["query"], node, value)]),
                NewCell(ItemId(st.counter + 2), GraphOf(st, p, name, value)));
  }

  /** A placement keeps every section's title and layout. */
  lemma PlacedSections(st: State, s: State, query: Query, cell: Cell)
    requires HasRow(st.doc, st.rowAt) && Placed(st, s, query, cell)
    ensures |s.doc.items| == |st.doc.items|
    ensures forall i :: 0 <= i < |st.doc.items| ==>
      s.doc.items[i].title == st.doc.items[i].title && s.doc.items[i].layout == st.doc.items[i].layout
  {
    assert HasRow(SetQuery(st.doc, st.queryId, query), st.rowAt);
  }

  /** A placement of graph `job` adds query and cell number `|jobs|`. */
  lemma PlacedTable(st: State, s: State, p: Params, jobs: seq<Job>, job: Job, query: Query, cell: Cell, jobs': seq<Job>)
    requires st.doc.items != [] && RowReady(st) && Placed(st, s, query, cell)
    requires st.queryId == |jobs| && |Cells(st.doc)| == |jobs|
    requires forall k: nat :: k in st.doc.queries <==> k < |jobs|
    requires Matches(st.doc.queries, Cells(st.doc), p, jobs)
    requires job.name in p.templates
    requires QueryFor(query, p, job, st.queryId) && CellFor(cell, p, job, st.queryId)
    requires jobs' == jobs + [job]
    ensures |Cells(s.doc)| == |jobs'|
    ensures forall k: nat :: k in s.doc.queries <==> k < |jobs'|
    ensures Matches(s.doc.queries, Cells(s.doc), p, jobs')
  {
    var queried := SetQuery(st.doc, st.queryId, query);
    CellsAppendCell(queried, st.rowAt, cell);
    assert Cells(queried) == Cells(st.doc);
    MatchesFrame(st.doc.queries, Cells(st.doc), s.doc.queries, Cells(s.doc), p, jobs);
    assert jobs'[..|jobs|] == jobs;
  }

  /** A placement of graph `job` keeps the invariant: one more query and
      one more cell. */
  lemma PlacedInv(st: State, s: State, p: Params, pairs: seq<(string, string)>, jobs: seq<Job>,
                  job: Job, query: Query, cell: Cell, jobs': seq<Job>)
    requires pairs != [] && Inv(st, p, pairs, jobs) && Placed(st, s, query, cell)
    requires job.name in p.templates
    requires QueryFor(query, p, job, st.queryId) && CellFor(cell, p, job, st.queryId)
    requires jobs' == jobs + [job]
    ensures Inv(s, p, pairs, jobs')
  {
    PlacedReady(st, s, query, cell);
    PlacedSections(st, s, query, cell);
    PlacedTable(st, s, p, jobs, job, query, cell, jobs');
  }

  lemma AddGraphInv(st: State, p: Params, pairs: seq<(string, string)>, jobs: seq<Job>,
                    name: string, pair: (string, string), s: State, jobs': seq<Job>)
    requires name in p.templates && pairs != []
    requires Inv(st, p, pairs, jobs)
    requires AddGraph(st, p, name, pair.0, pair.1) == Ok(s)
    requires jobs' == jobs + [Job(pair.0, pair.1, name)]
    ensures Inv(s, p, pairs, jobs')
  {
    AddGraphUnfold(st, p, name, pair.0, pair.1);
    var job := Job(pair.0, pair.1, name);
    var query := Query(Digits(st.queryId), [Rendered(p.templates[name]["query"], pair.0, pair.1)]);
    var cell := NewCell(ItemId(st.counter + 2), GraphOf(st, p, name, pair.1));
    assert QueryFor(query, p, job, st.queryId);
    assert CellFor(cell, p, job, st.queryId);
    PlacedInv(st, s, p, pairs, jobs, job, query, cell, jobs');
  }

  /** A new cell carries its own identifier and its graph's. */
  lemma NewCellIds(cid: string, gid: string, template: GraphTemplate, multi: bool, value: string, k: nat)
    requires "item_id" !in template
    ensures CellIds(NewCell(cid, NewGraph(gid, template, multi, value, k))) == multiset{cid} + multiset{gid}
  {
    var graph := NewGraph(gid, template, multi, value, k);
    NewGraphFields(gid, template, multi, value, k);
    assert "item_id" in graph && graph["item_id"] == Str(gid);
    assert GraphIds(graph) == multiset{gid};
    var none: seq<Graph> := [];
    assert GraphsIds(none) == multiset{};
    assert [graph][..0] == none;
    assert GraphsIds([graph]) == GraphsIds(none) + GraphIds(graph);
  }

  /** Placing a graph adds its identifier and its cell's. */
  lemma PlacedIds(st: State, s: State, query: Query, template: GraphTemplate, multi: bool, value: string)
    requires IdsExact(st) && HasRow(st.doc, st.rowAt) && "item_id" !in template
    requires Placed(st, s, query, NewCell(ItemId(st.counter + 2), NewGraph(ItemId(st.counter + 1), template, multi, value, st.queryId)))
    ensures IdsExact(s)
  {
    var c := st.counter;
    var cell := NewCell(ItemId(c + 2), NewGraph(ItemId(c + 1), template, multi, value, st.queryId));
    var queried := SetQuery(st.doc, st.queryId, query);
    IdsAppendCell(queried, st.rowAt, cell);
    NewCellIds(ItemId(c + 2), ItemId(c + 1), template, multi, value, st.queryId);
    assert Ids(queried) == Ids(st.doc);
    IdsGrowTwice(Ids(st.doc), Ids(s.doc), c);
  }

  lemma AddGraphIds(st: State, p: Params, name: string, node: string, value: string, s: State)
    requires name in p.templates && NoIdOverride(p)
    requires IdsExact(st) && HasRow(st.doc, st.rowAt)
    requires AddGraph(st, p, name, node, value) == Ok(s)
    ensures IdsExact(s)
  {
    AddGraphUnfold(st, p, name, node, value);
    PlacedIds(st, s, Query(Digits(st.queryId), [Rendered(p.templates[name]["query"], node, value)]),
              p.templates[name], p.multi, value);
  }

  // ---------- the loops ----------

  /** The templates of one value keep the invariant. */
  lemma {:induction false} AddGraphsInv(st: State, p: Params, names: seq<string>, pair: (string, string),
                                       pairs: seq<(string, string)>, jobs: seq<Job>, s: State)
    requires Known(names, p) && pairs != []
    requires Inv(st, p, pairs, jobs)
    requires AddGraphs(st, p, names, pair.0, pair.1) == Ok(s)
    ensures Inv(s, p, pairs, jobs + ValueJobs(pair, names))
    decreases |names|
  {
    if names == [] {
      assert jobs + ValueJobs(pair, names) == jobs;
    } else {
      var init, last := names[..|names| - 1], names[|names| - 1];
      var r := AddGraphs(st, p, init, pair.0, pair.1);
      assert r.Ok?;
      AddGraphsInv(st, p, init, pair, pairs, jobs, r.value);
      ValueJobsSnoc(pair, names);
      ConcatSnoc(jobs, ValueJobs(pair, init), Job(pair.0, pair.1, last));
      AddGraphInv(r.value, p, pairs, jobs + ValueJobs(pair, init), last, pair, s, jobs + ValueJobs(pair, names));
    }
  }

  /** The templates of one value keep the identifiers exact. */
  lemma {:induction false} AddGraphsIds(st: State, p: Params, names: seq<string>, node: string, value: string, s: State)
    requires Known(names, p) && NoIdOverride(p) && st.doc.items != []
    requires IdsExact(st) && RowReady(st)
    requires AddGraphs(st, p, names, node, value) == Ok(s)
    ensures IdsExact(s) && RowReady(s) && |s.doc.items| == |st.doc.items|
    decreases |names|
  {
    if names != [] {
      var init, last := names[..|names| - 1], names[|names| - 1];
      var r := AddGraphs(st, p, init, node, value);
      assert r.Ok?;
      AddGraphsIds(st, p, init, node, value, r.value);
      AddGraphReady(r.value, p, last, node, value, s);
      AddGraphIds(r.value, p, last, node, value, s);
    }
  }

  /** The whole loop keeps the invariant, starting from any state it holds in. */
  lemma {:induction false} AddValuesInv(st: State, p: Params, names: seq<string>, pairs: seq<(string, string)>, s: State)
    requires Known(names, p)
    requires Inv(st, p, [], [])
    requires AddValues(st, p, names, pairs) == Ok(s)
    ensures Inv(s, p, pairs, Jobs(pairs, names))
    decreases |pairs|
  {
    if pairs == [] {
      assert s == st;
    } else {
      var init, last := pairs[..|pairs| - 1], pairs[|pairs| - 1];
      var r := AddValues(st, p, names, init);
      assert r.Ok?;
      AddValuesInv(st, p, names, init, r.value);
      SnocSplit(pairs);
      StartValueInv(r.value, p, init, Jobs(init, names), last, pairs);
      AddGraphsInv(StartValue(r.value, p, last.1), p, names, last, pairs, Jobs(init, names), s);
    }
  }

  /** The whole loop keeps the identifiers exact. */
  lemma {:induction false} AddValuesIds(st: State, p: Params, names: seq<string>, pairs: seq<(string, string)>, s: State)
    requires Known(names, p) && NoIdOverride(p)
    requires IdsExact(st) && RowReady(st)
    requires AddValues(st, p, names, pairs) == Ok(s)
    ensures IdsExact(s) && RowReady(s)
    decreases |pairs|
  {
    if pairs != [] {
      var init, last := pairs[..|pairs| - 1], pairs[|pairs| - 1];
      var r := AddValues(st, p, names, init);
      assert r.Ok?;
      AddValuesIds(st, p, names, init, r.value);
      StartValueIds(r.value, p, last.1);
      StartValueReady(r.value, p, last.1);
      AddGraphsIds(StartValue(r.value, p, last.1), p, names, last.0, last.1, s);
    }
  }

  // ---------- rows and cells per mode ----------

  /** The last row of section `rowAt` grew by `n` cells and nothing else in
      the sections changed. */
  predicate Grew(t: State, s: State, n: nat) {
    && HasRow(t.doc, t.rowAt)
    && s.rowAt == t.rowAt && s.queryId == t.queryId + n
    && |s.doc.items| == |t.doc.items|
    && (forall i :: 0 <= i < |t.doc.items| && i != t.rowAt ==> s.doc.items[i] == t.doc.items[i])
    && |s.doc.items[t.rowAt].items| == |t.doc.items[t.rowAt].items|
    && var last := |t.doc.items[t.rowAt].items| - 1;
       |s.doc.items[t.rowAt].items[last].items| == |t.doc.items[t.rowAt].items[last].items| + n
  }

  lemma PlacedGrew(t: State, mid: State, s: State, n: nat, query: Query, cell: Cell)
    requires Grew(t, mid, n) && Placed(mid, s, query, cell)
    ensures Grew(t, s, n + 1)
  {
    assert HasRow(SetQuery(mid.doc, mid.queryId, query), mid.rowAt);
  }

  lemma AddGraphGrew(t: State, p: Params, names: seq<string>, node: string, value: string, mid: State, s: State)
    requires names != [] && Known(names, p)
    requires Grew(t, mid, |names| - 1)
    requires AddGraph(mid, p, names[|names| - 1], node, value) == Ok(s)
    ensures Grew(t, s, |names|)
  {
    var name := names[|names| - 1];
    AddGraphUnfold(mid, p, name, node, value);
    PlacedGrew(t, mid, s, |names| - 1, Query(Digits(mid.queryId), [Rendered(p.templates[name]["query"], node, value)]),
               NewCell(ItemId(mid.counter + 2), GraphOf(mid, p, name, value)));
  }

  /** All templates of one value go into the current row. */
  lemma {:induction false} AddGraphsGrew(t: State, p: Params, names: seq<string>, node: string, value: string, s: State)
    requires Known(names, p) && HasRow(t.doc, t.rowAt)
    requires AddGraphs(t, p, names, node, value) == Ok(s)
    ensures Grew(t, s, |names|)
    decreases |names|
  {
    if names != [] {
      var init := names[..|names| - 1];
      var r := AddGraphs(t, p, init, node, value);
      assert r.Ok?;
      AddGraphsGrew(t, p, init, node, value, r.value);
      AddGraphGrew(t, p, names, node, value, r.value, s);
    }
  }

  /** The layout after `V` values with `G` templates: with several templates
      (or none) each section holds one row of `G` cells; with exactly one
      template and a single-graph layout, the first section's row holds all
      cells and the other sections stay empty. */
  predicate Shaped(st: State, multi: bool, G: nat, V: nat) {
    && |st.doc.items| == V
    && st.queryId == V * G
    && (V > 0 ==> st.rowAt == (if multi || G == 0 then V - 1 else 0))
    && (forall i :: 0 <= i < V ==> |st.doc.items[i].items| == (if multi || G == 0 || i == 0 then 1 else 0))
    && (forall i :: 0 <= i < V && (multi || G == 0) ==> |st.doc.items[i].items[0].items| == G)
    && (V > 0 && !multi && G > 0 ==> |st.doc.items[0].items[0].items| == V * G)
  }

  lemma MulPositive(a: nat, b: nat)
    requires a > 0 && b > 0
    ensures a * b > 0
  {
  }

  /** After opening a value the current row exists. */
  lemma OpenedHasRow(st: State, t: State, multi: bool, G: nat, V: nat)
    requires Shaped(st, multi, G, V) && Opened(st, t, multi || st.queryId == 0)
    ensures HasRow(t.doc, t.rowAt)
  {
    if !(multi || st.queryId == 0) {
      assert V > 0;
      assert t.rowAt == 0 && t.doc.items[0] == st.doc.items[0];
    }
  }

  /** Opening a value and adding its `G` cells extends the layout. */
  lemma ShapeStep(st: State, t: State, s: State, multi: bool, G: nat, V: nat)
    requires Shaped(st, multi, G, V) && Opened(st, t, multi || st.queryId == 0) && Grew(t, s, G)
    ensures Shaped(s, multi, G, V + 1)
  {
    if multi || G == 0 || V == 0 {
      ShapeStepOwnRow(st, t, s, multi, G, V);
    } else {
      MulPositive(V, G);
      ShapeStepSharedRow(st, t, s, G, V);
    }
  }

  /** A value that opens its own row (several templates, none, or the first
      value) extends the layout. */
  lemma ShapeStepOwnRow(st: State, t: State, s: State, multi: bool, G: nat, V: nat)
    requires multi || G == 0 || V == 0
    requires Shaped(st, multi, G, V) && Opened(st, t, true) && Grew(t, s, G)
    ensures Shaped(s, multi, G, V + 1)
  {
    assert (V + 1) * G == V * G + G;
  }

  /** A later value with a single graph layout adds its cells to the first
      section's row. */
  lemma ShapeStepSharedRow(st: State, t: State, s: State, G: nat, V: nat)
    requires G > 0 && V > 0
    requires Shaped(st, false, G, V) && Opened(st, t, false) && Grew(t, s, G)
    ensures Shaped(s, false, G, V + 1)
  {
    assert (V + 1) * G == V * G + G;
  }

  lemma {:induction false} AddValuesShape(st: State, p: Params, names: seq<string>, pairs: seq<(string, string)>, s: State)
    requires Known(names, p)
    requires Shaped(st, p.multi, |names|, 0)
    requires AddValues(st, p, names, pairs) == Ok(s)
    ensures Shaped(s, p.multi, |names|, |pairs|)
    decreases |pairs|
  {
    if pairs != [] {
      var init, last := pairs[..|pairs| - 1], pairs[|pairs| - 1];
      var r := AddValues(st, p, names, init);
      assert r.Ok?;
      AddValuesShape(st, p, names, init, r.value);
      var t := StartValue(r.value, p, last.1);
      StartValueLayout(r.value, p, last.1);
      OpenedHasRow(r.value, t, p.multi, |names|, |init|);
      AddGraphsGrew(t, p, names, last.0, last.1, s);
      ShapeStep(r.value, t, s, p.multi, |names|, |init|);
    }
  }

  // ---------- which configurations fail ----------

  /** The position of the first template without a `query`, or `|names|`
      when every template has one. */
  function MissingIndex(p: Params, names: seq<string>): (i: nat)
    requires Known(names, p)
    ensures i <= |names|
    ensures forall j :: 0 <= j < i ==> "query" in p.templates[names[j]]
    ensures i < |names| ==> "query" !in p.templates[names[i]]
    decreases |names|
  {
    if names == [] then 0
    else
      var init := names[..|names| - 1];
      var i := MissingIndex(p, init);
      if i < |init| then i
      else if "query" !in p.templates[names[|names| - 1]] then |init|
      else |names|
  }

  /** The templates of one value fail exactly at the first one without a
      query, whatever the state. */
  lemma {:induction false} AddGraphsFails(st: State, p: Params, names: seq<string>, node: string, value: string)
    requires Known(names, p)
    ensures AddGraphs(st, p, names, node, value).Err? <==> MissingIndex(p, names) < |names|
    ensures AddGraphs(st, p, names, node, value).Err? ==>
      AddGraphs(st, p, names, node, value).error == MissingQuery(names[MissingIndex(p, names)])
    decreases |names|
  {
    if names != [] {
      var init, last := names[..|names| - 1], names[|names| - 1];
      AddGraphsFails(st, p, init, node, value);
      var r := AddGraphs(st, p, init, node, value);
      if r.Ok? {
        AddGraphUnfold(r.value, p, last, node, value);
      } else {
        assert init[MissingIndex(p, init)] == names[MissingIndex(p, init)];
      }
    }
  }

  /** The loop fails exactly when there is a value and a template without a
      query; the error names the first such template. */
  lemma {:induction false} AddValuesFails(st: State, p: Params, names: seq<string>, pairs: seq<(string, string)>)
    requires Known(names, p)
    ensures AddValues(st, p, names, pairs).Err? <==> pairs != [] && MissingIndex(p, names) < |names|
    ensures AddValues(st, p, names, pairs).Err? ==>
      AddValues(st, p, names, pairs).error == MissingQuery(names[MissingIndex(p, names)])
    decreases |pairs|
  {
    if pairs != [] {
      var init, last := pairs[..|pairs| - 1], pairs[|pairs| - 1];
      AddValuesFails(st, p, names, init);
      var r := AddValues(st, p, names, init);
      if r.Ok? {
        AddGraphsFails(StartValue(r.value, p, last.1), p, names, last.0, last.1);
      }
    }
  }

  /** No pairs at all exactly when every group lists no value. */
  lemma {:induction false} FlatEmpty(groups: seq<NodeGroup>)
    ensures Flat(groups) == [] <==> forall g :: 0 <= g < |groups| ==> groups[g].values == []
    decreases |groups|
  {
    if groups != [] {
      var init := groups[..|groups| - 1];
      FlatEmpty(init);
      var tail := GroupPairs(groups[|groups| - 1].name, groups[|groups| - 1].values);
      assert |Flat(groups)| == |Flat(init)| + |tail|;
      if Flat(groups) == [] {
        forall g | 0 <= g < |groups| ensures groups[g].values == [] {
          if g < |groups| - 1 {
            assert init[g] == groups[g];
          }
        }
      }
      if forall g :: 0 <= g < |groups| ==> groups[g].values == [] {
        forall g | 0 <= g < |init| ensures init[g].values == [] {
          assert init[g] == groups[g];
        }
      }
    }
  }

  // ---------- the dashboard that `Dashboard.__init__` builds ----------

  function Pairs(cfg: Config): seq<(string, string)> {
    Flat(cfg.nodes)
  }

  /** Building fails exactly when some group lists a value and some template
      has no `query`; the error names the template, the first in sorted
      order. */
  lemma BuildFails(cfg: Config)
    ensures Build(cfg).Err? <==>
      (exists g :: 0 <= g < |cfg.nodes| && cfg.nodes[g].values != [])
      && (exists n :: n in cfg.dashboardGraphs && "query" !in cfg.dashboardGraphs[n])
    ensures Build(cfg).Err? ==>
      var names := TemplateNames(cfg);
      var i := MissingIndex(ParamsOf(cfg), names);
      i < |names| && Build(cfg).error == MissingQuery(names[i])
  {
    var names := TemplateNames(cfg);
    var p := ParamsOf(cfg);
    AddValuesFails(Initial(DashboardId(cfg)), p, names, Flat(cfg.nodes));
    FlatEmpty(cfg.nodes);
    var i := MissingIndex(p, names);
    if i == |names| {
      forall n | n in cfg.dashboardGraphs ensures "query" in cfg.dashboardGraphs[n] {
        assert n in names;
        var j :| 0 <= j < |names| && names[j] == n;
      }
    }
  }

  /** The state after a successful build satisfies the loop invariant with
      every (group, value) pair and every graph. */
  lemma BuildInv(cfg: Config, s: State)
    requires Build(cfg) == Ok(s)
    ensures Inv(s, ParamsOf(cfg), Pairs(cfg), Jobs(Pairs(cfg), TemplateNames(cfg)))
    ensures NoIdOverride(ParamsOf(cfg)) ==> IdsExact(s)
    ensures Shaped(s, cfg.multipleGraphs, |TemplateNames(cfg)|, |Pairs(cfg)|)
  {
    var p, names, init := ParamsOf(cfg), TemplateNames(cfg), Initial(DashboardId(cfg));
    InitialInv(DashboardId(cfg), p);
    AddValuesInv(init, p, names, Pairs(cfg), s);
    if NoIdOverride(p) {
      AddValuesIds(init, p, names, Pairs(cfg), s);
    }
    AddValuesShape(init, p, names, Pairs(cfg), s);
  }

  /** One section per (group, value) pair, in order, titled by the value
      when there are several templates. */
  lemma BuildSections(cfg: Config, s: State)
    requires Build(cfg) == Ok(s)
    ensures |s.doc.items| == |Pairs(cfg)|
    ensures forall i :: 0 <= i < |Pairs(cfg)| ==>
      && s.doc.items[i].title == (if cfg.multipleGraphs then Pairs(cfg)[i].1 else "")
      && s.doc.items[i].layout == Get(cfg.dashboardMetadata, "layout")
  {
    BuildInv(cfg, s);
  }

  /** The `queries` table: keys 0 .. V*G-1, entry `k` the query of graph
      `k`'s template rendered for its value (graph `i*G + g` is template `g`
      for value `i`, by `JobsAt`). */
  lemma BuildQueries(cfg: Config, s: State)
    requires Build(cfg) == Ok(s)
    ensures var jobs := Jobs(Pairs(cfg), TemplateNames(cfg));
      && |jobs| == |Pairs(cfg)| * |TemplateNames(cfg)|
      && (forall k: nat :: k in s.doc.queries <==> k < |jobs|)
      && forall k :: 0 <= k < |jobs| ==>
           && jobs[k].name in cfg.dashboardGraphs && "query" in cfg.dashboardGraphs[jobs[k].name]
           && s.doc.queries[k] ==
              Query(Digits(k), [Rendered(cfg.dashboardGraphs[jobs[k].name]["query"], jobs[k].node, jobs[k].value)])
  {
    BuildInv(cfg, s);
    JobsLength(Pairs(cfg), TemplateNames(cfg));
    QueryTable(s, ParamsOf(cfg), Pairs(cfg), Jobs(Pairs(cfg), TemplateNames(cfg)));
  }

  lemma QueryTable(s: State, p: Params, pairs: seq<(string, string)>, jobs: seq<Job>)
    requires Inv(s, p, pairs, jobs)
    ensures forall k :: 0 <= k < |jobs| ==>
      && jobs[k].name in p.templates && "query" in p.templates[jobs[k].name]
      && s.doc.queries[k] == Query(Digits(k), [Rendered(p.templates[jobs[k].name]["query"], jobs[k].node, jobs[k].value)])
  {
    forall k | 0 <= k < |jobs|
      ensures jobs[k].name in p.templates && "query" in p.templates[jobs[k].name]
      ensures s.doc.queries[k] == Query(Digits(k), [Rendered(p.templates[jobs[k].name]["query"], jobs[k].node, jobs[k].value)])
    {
      MatchesAt(s.doc.queries, Cells(s.doc), p, jobs, k);
    }
  }

  /** Cell `k` holds the one graph built from graph `k`'s template for its
      value, with query id `k`. */
  lemma BuildCells(cfg: Config, s: State)
    requires Build(cfg) == Ok(s)
    ensures var jobs := Jobs(Pairs(cfg), TemplateNames(cfg));
      && |Cells(s.doc)| == |jobs| == |Pairs(cfg)| * |TemplateNames(cfg)|
      && forall k :: 0 <= k < |jobs| ==>
           && jobs[k].name in cfg.dashboardGraphs
           && exists cid: string, gid: string ::
                Cells(s.doc)[k] == NewCell(cid, NewGraph(gid, cfg.dashboardGraphs[jobs[k].name], cfg.multipleGraphs, jobs[k].value, k))
  {
    BuildInv(cfg, s);
    JobsLength(Pairs(cfg), TemplateNames(cfg));
    CellTable(s, ParamsOf(cfg), Pairs(cfg), Jobs(Pairs(cfg), TemplateNames(cfg)));
  }

  lemma CellTable(s: State, p: Params, pairs: seq<(string, string)>, jobs: seq<Job>)
    requires Inv(s, p, pairs, jobs)
    ensures forall k :: 0 <= k < |jobs| ==>
      && jobs[k].name in p.templates
      && exists cid: string, gid: string ::
           Cells(s.doc)[k] == NewCell(cid, NewGraph(gid, p.templates[jobs[k].name], p.multi, jobs[k].value, k))
  {
    forall k | 0 <= k < |jobs|
      ensures jobs[k].name in p.templates
      ensures exists cid: string, gid: string ::
        Cells(s.doc)[k] == NewCell(cid, NewGraph(gid, p.templates[jobs[k].name], p.multi, jobs[k].value, k))
    {
      MatchesAt(s.doc.queries, Cells(s.doc), p, jobs, k);
    }
  }

  /** Every cell holds exactly one graph, and exactly one graph refers to
      each query id: cell `k`'s graph has query `str(k)`. */
  predicate OneGraphPerQueryId(cells: seq<Cell>) {
    && (forall k :: 0 <= k < |cells| ==> |cells[k].items| == 1)
    && (forall k, k' :: 0 <= k < |cells| && 0 <= k' < |cells| ==>
          ("query" in cells[k'].items[0] && cells[k'].items[0]["query"] == Str(Digits(k)) <==> k == k'))
  }

  lemma BuildOneGraphPerQuery(cfg: Config, s: State)
    requires Build(cfg) == Ok(s)
    ensures OneGraphPerQueryId(Cells(s.doc))
  {
    BuildInv(cfg, s);
    OneGraphPerQuery(s, ParamsOf(cfg), Pairs(cfg), Jobs(Pairs(cfg), TemplateNames(cfg)));
  }

  lemma OneGraphPerQuery(s: State, p: Params, pairs: seq<(string, string)>, jobs: seq<Job>)
    requires Inv(s, p, pairs, jobs)
    ensures OneGraphPerQueryId(Cells(s.doc))
  {
    var cells := Cells(s.doc);
    forall k' | 0 <= k' < |cells|
      ensures |cells[k'].items| == 1
      ensures "query" in cells[k'].items[0] && cells[k'].items[0]["query"] == Str(Digits(k'))
    {
      MatchesAt(s.doc.queries, cells, p, jobs, k');
      var template := p.templates[jobs[k'].name];
      var cid: string, gid: string :| cells[k'] == NewCell(cid, NewGraph(gid, template, p.multi, jobs[k'].value, k'));
      NewGraphFields(gid, template, p.multi, jobs[k'].value, k');
    }
    forall k, k' | 0 <= k < |cells| && 0 <= k' < |cells|
      ensures cells[k'].items[0]["query"] == Str(Digits(k)) ==> k == k'
    {
      DigitsInjective(k, k');
    }
  }

  /** The layout by mode, for a configuration `multiple_graphs` agrees with. */
  lemma BuildLayout(cfg: Config, s: State)
    requires Build(cfg) == Ok(s)
    requires cfg.multipleGraphs == (|TemplateNames(cfg)| > 1)
    ensures |s.doc.items| == |Pairs(cfg)|
    ensures var V, G := |Pairs(cfg)|, |TemplateNames(cfg)|;
      G > 1 ==> forall i :: 0 <= i < V ==> |s.doc.items[i].items| == 1 && |s.doc.items[i].items[0].items| == G
    ensures var V, G := |Pairs(cfg)|, |TemplateNames(cfg)|;
      G == 1 && V > 0 ==>
        && |s.doc.items[0].items| == 1 && |s.doc.items[0].items[0].items| == V
        && forall i :: 1 <= i < V ==> s.doc.items[i].items == []
    ensures var V, G := |Pairs(cfg)|, |TemplateNames(cfg)|;
      G == 0 ==> forall i :: 0 <= i < V ==> |s.doc.items[i].items| == 1 && s.doc.items[i].items[0].items == []
  {
    BuildInv(cfg, s);
  }

  /** With no template overriding `item_id`, the identifiers are `d0` and
      `d5` .. `d(counter)`, each used once. */
  lemma BuildIdsUnique(cfg: Config, s: State)
    requires Build(cfg) == Ok(s)
    requires NoIdOverride(ParamsOf(cfg))
    ensures s.counter >= 4 && Ids(s.doc) == multiset{RootId} + multiset(IdRange(5, s.counter + 1))
    ensures forall x :: Ids(s.doc)[x] <= 1
  {
    BuildInv(cfg, s);
    IdsOnce(s);
  }

  lemma IdsOnce(s: State)
    requires IdsExact(s)
    ensures forall x :: Ids(s.doc)[x] <= 1
  {
    var drawn := multiset(IdRange(5, s.counter + 1));
    forall x ensures Ids(s.doc)[x] <= 1 {
      IdRangeOnce(5, s.counter + 1, x);
      assert Ids(s.doc)[x] == multiset{RootId}[x] + drawn[x];
    }
  }

  /** The templates are visited in sorted order, each once. */
  lemma TemplateOrder(cfg: Config)
    ensures var names := TemplateNames(cfg);
      && |names| == |cfg.dashboardGraphs.Keys|
      && (forall n :: n in cfg.dashboardGraphs <==> n in names)
      && StrictlyIncreasing(names)
  {
    SortedKeysAscending(cfg.dashboardGraphs.Keys);
  }
}
