/** The dashboard definition the generator builds (`dashboard_spec`): a root
    holding the `queries` table and a list of sections; a section holds rows,
    a row holds cells, and a cell holds graphs. Every node carries its
    `item_id` and `item_type`. */
module Documents {
  import opened Values

  /** A graph item: its template's fields plus `item_id` and `item_type`. */
  type Graph = map<string, Value>

  /** A rendered query target: the text jinja2 produces from the query
      template with one variable bound (`Template(t).render(**{variable:
      value})`). The rendering itself is kept symbolic; `Template.Render`
      approximates its text. */
  datatype Target = Rendered(template: Value, variable: string, value: string)

  /** An entry of the `queries` table: `{'name': ..., 'targets': [...]}`. */
  datatype Query = Query(name: string, targets: seq<Target>)

  datatype Cell = Cell(itemId: string, span: Value, itemType: string, items: seq<Graph>)

  datatype Row = Row(itemId: string, itemType: string, items: seq<Cell>)

  datatype Section = Section(title: string, itemId: string, layout: Value, itemType: string, items: seq<Row>)

  /** The root; Python's `queries` keys are the integer query ids. */
  datatype Document = Document(
    queries: map<nat, Query>,
    itemId: string,
    itemType: string,
    dashboardHref: string,
    href: string,
    items: seq<Section>)

  // ---------- cells in document order ----------

  function RowsCells(rows: seq<Row>): seq<Cell>
    decreases |rows|
  {
    if rows == [] then [] else RowsCells(rows[..|rows| - 1]) + rows[|rows| - 1].items
  }

  function SectionsCells(sections: seq<Section>): seq<Cell>
    decreases |sections|
  {
    if sections == [] then []
    else SectionsCells(sections[..|sections| - 1]) + RowsCells(sections[|sections| - 1].items)
  }

  /** Every cell of the document, section by section and row by row. */
  function Cells(d: Document): seq<Cell> {
    SectionsCells(d.items)
  }

  // ---------- the identifiers a document holds ----------

  /** A graph's `item_id`, when it has one. */
  function GraphIds(g: Graph): multiset<string> {
    if "item_id" in g then multiset{Show(g["item_id"])} else multiset{}
  }

  function GraphsIds(gs: seq<Graph>): multiset<string>
    decreases |gs|
  {
    if gs == [] then multiset{} else GraphsIds(gs[..|gs| - 1]) + GraphIds(gs[|gs| - 1])
  }

  function CellIds(c: Cell): multiset<string> {
    multiset{c.itemId} + GraphsIds(c.items)
  }

  function CellsIds(cs: seq<Cell>): multiset<string>
    decreases |cs|
  {
    if cs == [] then multiset{} else CellsIds(cs[..|cs| - 1]) + CellIds(cs[|cs| - 1])
  }

  function RowIds(r: Row): multiset<string> {
    multiset{r.itemId} + CellsIds(r.items)
  }

  function RowsIds(rs: seq<Row>): multiset<string>
    decreases |rs|
  {
    if rs == [] then multiset{} else RowsIds(rs[..|rs| - 1]) + RowIds(rs[|rs| - 1])
  }

  function SectionIds(s: Section): multiset<string> {
    multiset{s.itemId} + RowsIds(s.items)
  }

  function SectionsIds(ss: seq<Section>): multiset<string>
    decreases |ss|
  {
    if ss == [] then multiset{} else SectionsIds(ss[..|ss| - 1]) + SectionIds(ss[|ss| - 1])
  }

  /** Every `item_id` of the document, the root's included, with multiplicity. */
  function Ids(d: Document): multiset<string> {
    multiset{d.itemId} + SectionsIds(d.items)
  }

  // ---------- the three appends of the build loop ----------

  /** `dashboard_spec['items'].append(section)`. */
  function AppendSection(d: Document, s: Section): (r: Document)
    ensures r.queries == d.queries && r.itemId == d.itemId
    ensures |r.items| == |d.items| + 1 && r.items[|d.items|] == s
    ensures forall i :: 0 <= i < |d.items| ==> r.items[i] == d.items[i]
  {
    d.(items := d.items + [s])
  }

  /** `section['items'].append(row)` on the section appended last. A document
      without sections is returned unchanged; the build never does that. */
  function AppendRow(d: Document, row: Row): (r: Document)
    ensures r.queries == d.queries && r.itemId == d.itemId
    ensures |r.items| == |d.items|
    ensures forall i :: 0 <= i < |d.items| - 1 ==> r.items[i] == d.items[i]
    ensures d.items != [] ==>
      var last := d.items[|d.items| - 1];
      r.items[|d.items| - 1] == last.(items := last.items + [row])
  {
    if d.items == [] then d
    else
      var j := |d.items| - 1;
      d.(items := d.items[j := d.items[j].(items := d.items[j].items + [row])])
  }

  /** Does section `j` exist and hold a row? */
  predicate HasRow(d: Document, j: nat) {
    j < |d.items| && d.items[j].items != []
  }

  /** `row['items'].append(cell)` where `row` is the last row of section `j`.
      Without such a row the document is returned unchanged; the build
      never does that. */
  function AppendCell(d: Document, j: nat, c: Cell): (r: Document)
    ensures r.queries == d.queries && r.itemId == d.itemId
    ensures |r.items| == |d.items|
    ensures forall i :: 0 <= i < |d.items| && i != j ==> r.items[i] == d.items[i]
    ensures HasRow(d, j) ==>
      var rows := d.items[j].items;
      var last := |rows| - 1;
      && r.items[j].title == d.items[j].title
      && r.items[j].itemId == d.items[j].itemId
      && |r.items[j].items| == |rows|
      && (forall k :: 0 <= k < last ==> r.items[j].items[k] == rows[k])
      && r.items[j].items[last].itemId == rows[last].itemId
      && r.items[j].items[last].items == rows[last].items + [c]
    ensures !HasRow(d, j) ==> r == d
  {
    if HasRow(d, j) then
      var rows := d.items[j].items;
      var last := |rows| - 1;
      var rows' := rows[last := rows[last].(items := rows[last].items + [c])];
      d.(items := d.items[j := d.items[j].(items := rows')])
    else d
  }

  /** The appends and the query write leave the root's own fields alone,
      and appending a cell leaves the section's layout and the item types of
      the section and the row alone. */
  lemma AppendsKeepFields(d: Document, s: Section, row: Row, j: nat, c: Cell, k: nat, q: Query)
    ensures var r := AppendSection(d, s);
      r.itemType == d.itemType && r.dashboardHref == d.dashboardHref && r.href == d.href
    ensures var r := AppendRow(d, row);
      r.itemType == d.itemType && r.dashboardHref == d.dashboardHref && r.href == d.href
    ensures var r := SetQuery(d, k, q);
      r.itemType == d.itemType && r.dashboardHref == d.dashboardHref && r.href == d.href
    ensures var r := AppendCell(d, j, c);
      && r.itemType == d.itemType && r.dashboardHref == d.dashboardHref && r.href == d.href
      && (HasRow(d, j) ==>
            var last := |d.items[j].items| - 1;
            && r.items[j].layout == d.items[j].layout
            && r.items[j].itemType == d.items[j].itemType
            && r.items[j].items[last].itemType == d.items[j].items[last].itemType)
  {
  }

  /** `dashboard_spec['queries'][query_id] = query`. */
  function SetQuery(d: Document, k: nat, q: Query): (r: Document)
    ensures r.queries.Keys == d.queries.Keys + {k} && r.queries[k] == q
    ensures forall i :: i in d.queries && i != k ==> r.queries[i] == d.queries[i]
    ensures r.items == d.items && r.itemId == d.itemId
  {
    d.(queries := d.queries[k := q])
  }
}

/** How the appends change the document's cells and identifiers. */
module DocumentProperties {
  import opened Documents

  lemma SectionsCellsAppend(ss: seq<Section>, s: Section)
    ensures SectionsCells(ss + [s]) == SectionsCells(ss) + RowsCells(s.items)
  {
    assert (ss + [s])[..|ss|] == ss;
  }

  lemma RowsCellsAppend(rs: seq<Row>, r: Row)
    ensures RowsCells(rs + [r]) == RowsCells(rs) + r.items
  {
    assert (rs + [r])[..|rs|] == rs;
  }

  /** Sections without rows contribute no cells. */
  lemma {:induction false} SectionsCellsTail(ss: seq<Section>, j: nat)
    requires j < |ss|
    requires forall i :: j < i < |ss| ==> ss[i].items == []
    ensures SectionsCells(ss) == SectionsCells(ss[..j + 1])
    decreases |ss|
  {
    if j + 1 < |ss| {
      var init := ss[..|ss| - 1];
      assert RowsCells(ss[|ss| - 1].items) == [];
      forall i | j < i < |init| ensures init[i].items == [] {
        assert init[i] == ss[i];
      }
      SectionsCellsTail(init, j);
      assert init[..j + 1] == ss[..j + 1];
    } else {
      assert ss[..j + 1] == ss;
    }
  }

  /** Appending a section appends its rows' cells. */
  lemma CellsAppendSection(d: Document, s: Section)
    ensures Cells(AppendSection(d, s)) == Cells(d) + RowsCells(s.items)
  {
    SectionsCellsAppend(d.items, s);
  }

  /** Appending a row to the last section appends its cells. */
  lemma CellsAppendRow(d: Document, row: Row)
    requires d.items != []
    ensures Cells(AppendRow(d, row)) == Cells(d) + row.items
  {
    var j := |d.items| - 1;
    var last := d.items[j];
    var r := AppendRow(d, row);
    assert d.items == d.items[..j] + [last];
    assert r.items == d.items[..j] + [last.(items := last.items + [row])];
    SectionsCellsAppend(d.items[..j], last);
    SectionsCellsAppend(d.items[..j], last.(items := last.items + [row]));
    RowsCellsAppend(last.items, row);
  }

  lemma ConcatAssoc<T>(a: seq<T>, b: seq<T>, c: seq<T>)
    ensures (a + b) + c == a + (b + c)
  {
  }

  /** Growing the last row by `c` grows the rows' cells by `c`. */
  lemma RowsCellsGrow(rows: seq<Row>, rows': seq<Row>, c: Cell)
    requires |rows'| == |rows| > 0
    requires forall k :: 0 <= k < |rows| - 1 ==> rows'[k] == rows[k]
    requires rows'[|rows| - 1].items == rows[|rows| - 1].items + [c]
    ensures RowsCells(rows') == RowsCells(rows) + [c]
  {
    var last := |rows| - 1;
    assert rows'[..last] == rows[..last];
    ConcatAssoc(RowsCells(rows[..last]), rows[last].items, [c]);
  }

  /** The cells of sections `0 .. j` split at section `j`. */
  lemma SectionsCellsAt(ss: seq<Section>, j: nat)
    requires j < |ss|
    ensures SectionsCells(ss[..j + 1]) == SectionsCells(ss[..j]) + RowsCells(ss[j].items)
  {
    assert ss[..j + 1][..j] == ss[..j];
  }

  /** Appending a cell to the last row of section `j`, when no later section
      holds a row, appends it to the document's cells. */
  lemma CellsAppendCell(d: Document, j: nat, c: Cell)
    requires HasRow(d, j)
    requires forall i :: j < i < |d.items| ==> d.items[i].items == []
    ensures Cells(AppendCell(d, j, c)) == Cells(d) + [c]
  {
    var r := AppendCell(d, j, c);
    SectionsCellsTail(d.items, j);
    SectionsCellsTail(r.items, j);
    SectionsCellsAt(d.items, j);
    SectionsCellsAt(r.items, j);
    assert r.items[..j] == d.items[..j];
    RowsCellsGrow(d.items[j].items, r.items[j].items, c);
    ConcatAssoc(SectionsCells(d.items[..j]), RowsCells(d.items[j].items), [c]);
  }

  lemma {:induction false} SectionsIdsConcat(a: seq<Section>, b: seq<Section>)
    ensures SectionsIds(a + b) == SectionsIds(a) + SectionsIds(b)
    decreases |b|
  {
    if b == [] {
      assert a + b == a;
    } else {
      var init := b[..|b| - 1];
      assert (a + b)[..|a + b| - 1] == a + init;
      SectionsIdsConcat(a, init);
    }
  }

  lemma RowsIdsAppend(rs: seq<Row>, r: Row)
    ensures RowsIds(rs + [r]) == RowsIds(rs) + RowIds(r)
  {
    assert (rs + [r])[..|rs|] == rs;
  }

  lemma CellsIdsAppend(cs: seq<Cell>, c: Cell)
    ensures CellsIds(cs + [c]) == CellsIds(cs) + CellIds(c)
  {
    assert (cs + [c])[..|cs|] == cs;
  }

  /** Replacing section `j` exchanges its identifiers. */
  lemma SectionsIdsReplace(ss: seq<Section>, j: nat, s: Section)
    requires j < |ss|
    ensures SectionsIds(ss[j := s]) + SectionIds(ss[j]) == SectionsIds(ss) + SectionIds(s)
  {
    var before, after := ss[..j], ss[j + 1..];
    assert ss == before + [ss[j]] + after;
    assert ss[j := s] == before + [s] + after;
    SectionsIdsConcat(before + [ss[j]], after);
    SectionsIdsConcat(before + [s], after);
    SectionsIdsConcat(before, [ss[j]]);
    SectionsIdsConcat(before, [s]);
    assert SectionsIds([s]) == SectionIds(s) by {
      assert [s][..0] == [];
    }
    assert SectionsIds([ss[j]]) == SectionIds(ss[j]) by {
      assert [ss[j]][..0] == [];
    }
  }

  /** Appending a section adds its identifier and its rows'. */
  lemma IdsAppendSection(d: Document, s: Section)
    ensures Ids(AppendSection(d, s)) == Ids(d) + SectionIds(s)
  {
    assert (d.items + [s])[..|d.items|] == d.items;
  }

  /** Appending a row adds its identifier and its cells'. */
  lemma IdsAppendRow(d: Document, row: Row)
    requires d.items != []
    ensures Ids(AppendRow(d, row)) == Ids(d) + RowIds(row)
  {
    var j := |d.items| - 1;
    var last := d.items[j];
    var s := last.(items := last.items + [row]);
    assert AppendRow(d, row).items == d.items[j := s];
    SectionsIdsReplace(d.items, j, s);
    RowsIdsAppend(last.items, row);
  }

  /** Extending the last row of a section by a cell adds the cell's identifiers. */
  lemma SectionIdsAddCell(s: Section, c: Cell)
    requires s.items != []
    ensures
      var rows := s.items;
      var last := |rows| - 1;
      SectionIds(s.(items := rows[last := rows[last].(items := rows[last].items + [c])]))
        == SectionIds(s) + CellIds(c)
  {
    var rows := s.items;
    var last := |rows| - 1;
    var row' := rows[last].(items := rows[last].items + [c]);
    var rows' := rows[last := row'];
    assert rows == rows[..last] + [rows[last]];
    assert rows' == rows[..last] + [row'];
    RowsIdsAppend(rows[..last], rows[last]);
    RowsIdsAppend(rows[..last], row');
    CellsIdsAppend(rows[last].items, c);
    MultisetAssoc(multiset{rows[last].itemId}, CellsIds(rows[last].items), CellIds(c));
    assert RowIds(row') == RowIds(rows[last]) + CellIds(c);
    MultisetAssoc(RowsIds(rows[..last]), RowIds(rows[last]), CellIds(c));
    assert RowsIds(rows') == RowsIds(rows) + CellIds(c);
    MultisetAssoc(multiset{s.itemId}, RowsIds(rows), CellIds(c));
  }

  lemma MultisetAssoc<T>(a: multiset<T>, b: multiset<T>, c: multiset<T>)
    ensures (a + b) + c == a + (b + c)
  {
  }

  /** Appending a cell adds its identifier and its graphs'. */
  lemma IdsAppendCell(d: Document, j: nat, c: Cell)
    requires HasRow(d, j)
    ensures Ids(AppendCell(d, j, c)) == Ids(d) + CellIds(c)
  {
    var s := d.items[j];
    var rows := s.items;
    var last := |rows| - 1;
    var s' := s.(items := rows[last := rows[last].(items := rows[last].items + [c])]);
    assert AppendCell(d, j, c).items == d.items[j := s'];
    SectionIdsAddCell(s, c);
    SectionsIdsReplace(d.items, j, s');
    var a, b := SectionsIds(d.items[j := s']), SectionsIds(d.items);
    MultisetCancel(a, b, SectionIds(s), CellIds(c));
    MultisetAssoc(multiset{d.itemId}, b, CellIds(c));
  }

  lemma MultisetCancel<T>(a: multiset<T>, b: multiset<T>, x: multiset<T>, y: multiset<T>)
    requires a + x == b + (x + y)
    ensures a == b + y
  {
    forall e ensures a[e] == (b + y)[e] {
      assert (a + x)[e] == (b + (x + y))[e];
    }
  }
}
