/** The org-chart side of the draw.io tools: sorting the cells of a parsed
    diagram into people and connections, rebuilding the reporting lines,
    naming the roots, parsing a box's text into name and title, mapping
    titles to areas of responsibility, the responsibility report, and the
    team tree. The XML and compressed-diagram decoding is not modelled: the
    model starts from the list of cells it yields. */
module DrawioTools {
  import opened Common

  // -----------------------------------------------------------------------
  // _parse_org_node
  // -----------------------------------------------------------------------

  /** First `(` at an index in `[from, bound)`. */
  function FirstOpenParen(s: string, from: nat, bound: nat): (r: Option<nat>)
    requires bound <= |s|
    ensures r.Some? ==> from <= r.value < bound && s[r.value] == '('
    ensures r.Some? ==> forall q :: from <= q < r.value ==> s[q] != '('
    ensures r.None? ==> forall q :: from <= q < bound ==> s[q] != '('
    decreases bound - from
  {
    if from >= bound then None
    else if s[from] == '(' then Some(from)
    else FirstOpenParen(s, from + 1, bound)
  }

  /** The `Name (Title)` form, as the pattern `^(.+?)\s*\((.+?)\)\s*$`
      matches a line: the text must end, up to trailing whitespace, in `)`;
      the name runs up to the first `(` that leaves a non-empty name before
      it and a non-empty title after it. */
  function ParenSplit(text: string): Option<(string, string)>
  {
    var e := TrimEnd(text, |text|);
    if e < 4 || text[e - 1] != ')' then None
    else match FirstOpenParen(text, 1, e - 2)
      case None => None
      case Some(p) => Some((Strip(text[..p]), Strip(text[p + 1..e - 1])))
  }

  /** `_parse_org_node`: split a box's text into (name, title), trying a
      newline, then " - ", then `Name (Title)`; otherwise all of it is the
      name. */
  function ParseOrgNode(text: string): (string, string)
  {
    if text == [] then ([], [])
    else if '\n' in text then
      var i := IndexOfChar(text, '\n');
      (Strip(text[..i]), Strip(text[i + 1..]))
    else match IndexOf(text, " - ")
      case Some(i) => (Strip(text[..i]), Strip(text[i + 3..]))
      case None =>
        match ParenSplit(text)
        case Some(p) => p
        case None => (Strip(text), [])
  }

  /** `IndexOf` finds the first occurrence. */
  lemma {:induction false} IndexOfAt(s: string, sub: string, k: nat)
    requires k + |sub| <= |s| && s[k..k + |sub|] == sub
    requires forall j :: 0 <= j < k ==> !StartsWith(s[j..], sub)
    ensures IndexOf(s, sub) == Some(k)
    decreases k
  {
    if k == 0 {
      assert s[..|sub|] == s[0..0 + |sub|];
    } else {
      assert !StartsWith(s[0..], sub);
      assert s[0..] == s;
      assert s[1..][k - 1..k - 1 + |sub|] == s[k..k + |sub|];
      forall j | 0 <= j < k - 1 ensures !StartsWith(s[1..][j..], sub) {
        assert s[1..][j..] == s[j + 1..];
      }
      IndexOfAt(s[1..], sub, k - 1);
    }
  }

  /** Text without `c` does not contain a needle holding `c`. */
  lemma {:induction false} NoCharNoContains(hay: string, needle: string, c: char)
    requires c in needle && c !in hay
    ensures !Contains(hay, needle)
    decreases |hay|
  {
    var k :| 0 <= k < |needle| && needle[k] == c;
    if |needle| <= |hay| {
      assert hay[k] in hay;
      assert hay[..|needle|][k] != needle[k];
    }
    if hay != [] {
      assert forall x :: x in hay[1..] ==> x in hay;
      NoCharNoContains(hay[1..], needle, c);
    }
  }

  /** "Name\nTitle" parses back to the stripped name and title. */
  lemma NewlineFormRoundTrip(name: string, title: string)
    requires '\n' !in name
    ensures ParseOrgNode(name + "\n" + title) == (Strip(name), Strip(title))
  {
    var text := name + "\n" + title;
    assert text[..|name|] == name;
    IndexOfCharFirst(text, '\n', |name|);
    assert text[|name| + 1..] == title;
  }

  /** "Name - Title" parses back to the stripped name and title when the
      name has no dash and neither part a newline. */
  lemma DashFormRoundTrip(name: string, title: string)
    requires '\n' !in name && '\n' !in title && '-' !in name
    ensures ParseOrgNode(name + " - " + title) == (Strip(name), Strip(title))
  {
    var text := name + " - " + title;
    NoNewlineInDashForm(name, title);
    NoDashBeforeSeparator(name, title);
    assert text[|name|..|name| + 3] == " - ";
    IndexOfAt(text, " - ", |name|);
    assert text[..|name|] == name;
    assert text[|name| + 3..] == title;
  }

  lemma NoNewlineInDashForm(name: string, title: string)
    requires '\n' !in name && '\n' !in title
    ensures '\n' !in name + " - " + title
  {
    var text := name + " - " + title;
    assert forall x :: x in text ==> x in name || x in " - " || x in title;
  }

  /** No " - " starts inside a dash-free name. */
  lemma NoDashBeforeSeparator(name: string, title: string)
    requires '-' !in name
    ensures forall j :: 0 <= j < |name| ==> !StartsWith((name + " - " + title)[j..], " - ")
  {
    var text := name + " - " + title;
    forall j | 0 <= j < |name| ensures !StartsWith(text[j..], " - ") {
      if 3 <= |text[j..]| {
        assert text[j..][..3][1] == text[j + 1];
        if j + 1 < |name| {
          assert text[j + 1] == name[j + 1];
        } else {
          assert text[j + 1] == ' ';
        }
      }
    }
  }

  /** "Name (Title)" parses back to the stripped name and title when the
      name is non-empty and has no `(`, the title is non-empty, and neither
      holds a newline or a dash. */
  lemma ParenFormRoundTrip(name: string, title: string)
    requires name != [] && title != []
    requires '(' !in name && '\n' !in name && '\n' !in title && '-' !in name && '-' !in title
    ensures ParseOrgNode(name + " (" + title + ")") == (Strip(name), Strip(title))
  {
    var text := name + " (" + title + ")";
    assert forall x :: x in text ==> x in name || x in " (" || x in title || x == ')';
    assert text != [] && '\n' !in text;
    NoCharNoContains(text, " - ", '-');
    ParenSplitOf(name, title);
    StripTrailingSpace(name);
  }

  /** The `Name (Title)` pattern finds the name, with the space before the
      parenthesis, and the title. */
  lemma ParenSplitOf(name: string, title: string)
    requires name != [] && title != [] && '(' !in name
    ensures ParenSplit(name + " (" + title + ")") == Some((Strip(name + " "), Strip(title)))
  {
    var text := name + " (" + title + ")";
    var e := TrimEnd(text, |text|);
    assert e == |text|;
    var p := |name| + 1;
    assert text[p] == '(';
    forall q | 1 <= q < p ensures text[q] != '(' {
      if q < |name| {
        assert text[q] == name[q];
      }
    }
    assert FirstOpenParen(text, 1, e - 2) == Some(p);
    assert text[..p] == name + " ";
    assert text[p + 1..e - 1] == title;
  }

  /** A trailing space does not change what `strip` keeps. */
  lemma StripTrailingSpace(s: string)
    ensures Strip(s + " ") == Strip(s)
  {
    var t := s + " ";
    var a := SkipSpaces(s, 0);
    var b := TrimEnd(s, |s|);
    TrimEndSpace(s);
    SkipSpacesPrefix(s, 0);
    assert TrimEnd(t, |t|) == b;
    if a < |s| {
      assert SkipSpaces(t, 0) == a;
      if a < b {
        assert t[a..b] == s[a..b];
      }
    } else {
      assert b <= a && SkipSpaces(t, 0) == a + 1;
    }
  }

  lemma TrimEndSpace(s: string)
    ensures TrimEnd(s + " ", |s| + 1) == TrimEnd(s, |s|)
  {
    var t := s + " ";
    assert t[..|s|] == s;
    assert IsSpace(t[|s|]);
    TrimEndPrefix(s, t, |s|);
  }

  /** `TrimEnd` only looks at the text before its bound. */
  lemma {:induction false} TrimEndPrefix(s: string, t: string, j: nat)
    requires j <= |s| && j <= |t| && s[..j] == t[..j]
    ensures TrimEnd(s, j) == TrimEnd(t, j)
  {
    if j > 0 {
      assert s[j - 1] == s[..j][j - 1] && t[j - 1] == t[..j][j - 1];
      TrimEndPrefix(s, t, j - 1);
      assert s[..j - 1] == s[..j][..j - 1];
      assert t[..j - 1] == t[..j][..j - 1];
    }
  }

  /** `SkipSpaces` over `s + " "` stops where it stops over `s`, unless
      `s` is all whitespace from `i` on. */
  lemma {:induction false} SkipSpacesPrefix(s: string, i: nat)
    requires i <= |s|
    ensures SkipSpaces(s, i) < |s| ==> SkipSpaces(s + " ", i) == SkipSpaces(s, i)
    ensures SkipSpaces(s, i) == |s| ==> SkipSpaces(s + " ", i) == |s| + 1
    decreases |s| - i
  {
    var t := s + " ";
    if i < |s| {
      assert t[i] == s[i];
      if IsSpace(s[i]) {
        SkipSpacesPrefix(s, i + 1);
      }
    } else {
      assert t[i] == ' ';
      assert SkipSpaces(t, i + 1) == i + 1;
    }
  }

  // -----------------------------------------------------------------------
  // _extract_areas_from_title
  // -----------------------------------------------------------------------

  /** Title keyword and the area it names, in table order. */
  const AreaKeywords: seq<(string, string)> := [
    ("software", "Software"), ("hardware", "Hardware"), ("firmware", "Firmware"),
    ("driver", "Drivers"), ("kernel", "Kernel"), ("network", "Networking"),
    ("fabric", "Fabric"), ("asic", "ASIC"), ("fpga", "FPGA"), ("test", "Testing"),
    ("qa", "QA"), ("quality", "QA"), ("devops", "DevOps"),
    ("infrastructure", "Infrastructure"), ("security", "Security"),
    ("performance", "Performance"), ("documentation", "Documentation"),
    ("support", "Support"), ("management", "Management"),
    ("architecture", "Architecture"), ("design", "Design"),
    ("verification", "Verification"), ("validation", "Validation")]

  /** The areas of the table entries whose keyword occurs in `t`, in table
      order, one per matching entry. */
  function AreasMatching(table: seq<(string, string)>, t: string): seq<string>
  {
    if table == [] then []
    else (if Contains(t, table[0].0) then [table[0].1] else []) + AreasMatching(table[1..], t)
  }

  /** An area is listed iff some entry naming it has its keyword in `t`. */
  lemma {:induction false} AreasMatchingMembers(table: seq<(string, string)>, t: string, a: string)
    ensures a in AreasMatching(table, t) <==>
      exists i :: 0 <= i < |table| && table[i].1 == a && Contains(t, table[i].0)
  {
    if table != [] {
      AreasMatchingMembers(table[1..], t, a);
      if exists i :: 0 <= i < |table| && table[i].1 == a && Contains(t, table[i].0) {
        var i :| 0 <= i < |table| && table[i].1 == a && Contains(t, table[i].0);
        if i > 0 {
          assert table[1..][i - 1] == table[i];
        }
      }
      if exists i :: 0 <= i < |table[1..]| && table[1..][i].1 == a && Contains(t, table[1..][i].0) {
        var i :| 0 <= i < |table[1..]| && table[1..][i].1 == a && Contains(t, table[1..][i].0);
        assert table[i + 1] == table[1..][i];
      }
    }
  }

  /** Areas come out in table order: the matches of an earlier part of the
      table precede those of a later part. */
  lemma {:induction false} AreasMatchingAppend(t1: seq<(string, string)>, t2: seq<(string, string)>, t: string)
    ensures AreasMatching(t1 + t2, t) == AreasMatching(t1, t) + AreasMatching(t2, t)
  {
    if t1 == [] {
      assert t1 + t2 == t2;
    } else {
      assert (t1 + t2)[0] == t1[0];
      assert (t1 + t2)[1..] == t1[1..] + t2;
      AreasMatchingAppend(t1[1..], t2, t);
    }
  }

  /** `_extract_areas_from_title`: no areas for an empty title; otherwise
      the areas whose keyword occurs in the lowercased title, or "General"
      when none does. */
  function ExtractAreas(title: string): (r: seq<string>)
    ensures r == [] <==> title == []
  {
    if title == [] then []
    else
      var m := AreasMatching(AreaKeywords, Lower(title));
      if m == [] then ["General"] else m
  }

  /** Every area listed for a title is "General" (only when nothing
      matched) or the area of a keyword occurring in the lowercased title;
      every such area is listed. */
  lemma ExtractAreasSpec(title: string, a: string)
    requires title != []
    ensures a in ExtractAreas(title) <==>
      (a == "General" && AreasMatching(AreaKeywords, Lower(title)) == [])
      || exists i :: 0 <= i < |AreaKeywords| && AreaKeywords[i].1 == a && Contains(Lower(title), AreaKeywords[i].0)
  {
    AreasMatchingMembers(AreaKeywords, Lower(title), a);
  }

  // -----------------------------------------------------------------------
  // parse_org_chart: cells, nodes and edges
  // -----------------------------------------------------------------------

  /** An `mxCell` as read from the diagram; an absent attribute is "". */
  datatype Cell = Cell(id: string, value: string, parent: string, source: string, target: string, style: string)

  /** A connection between two cells. */
  datatype CellEdge = CellEdge(id: string, source: string, target: string, style: string)

  /** The manager recorded on a node: its cell id and name. */
  datatype Manager = Manager(id: string, name: string)

  /** A person or role box. */
  datatype OrgNode = OrgNode(id: string, rawValue: string, name: string, title: string,
                             parentCell: string, style: string, manager: Option<Manager>)

  /** The root and layer cells, which are skipped. */
  predicate IsStructural(c: Cell) { c.id == "0" || c.id == "1" }

  predicate IsEdgeCell(c: Cell) { !IsStructural(c) && c.source != [] && c.target != [] }

  predicate IsNodeCell(c: Cell) { !IsStructural(c) && !(c.source != [] && c.target != []) && c.value != [] }

  function EdgeOf(c: Cell): CellEdge { CellEdge(c.id, c.source, c.target, c.style) }

  /** The node a cell becomes: its value cleaned of markup by `clean`, then
      split into name and title. */
  function NodeOf(c: Cell, clean: string -> string): OrgNode
  {
    var nt := ParseOrgNode(clean(c.value));
    OrgNode(c.id, c.value, nt.0, nt.1, c.parent, c.style, None)
  }

  /** The edge list: one entry per edge cell, in cell order. */
  function EdgeCells(cells: seq<Cell>): seq<CellEdge>
  {
    if cells == [] then []
    else EdgeCells(cells[..|cells| - 1]) + (if IsEdgeCell(cells[|cells| - 1]) then [EdgeOf(cells[|cells| - 1])] else [])
  }

  /** The ids of `nodes` in dict order: first appearance of each node id. */
  function NodeOrder(cells: seq<Cell>): seq<string>
  {
    if cells == [] then []
    else
      var prev := NodeOrder(cells[..|cells| - 1]);
      var c := cells[|cells| - 1];
      if IsNodeCell(c) && c.id !in prev then prev + [c.id] else prev
  }

  /** The `nodes` dict: a later node cell with the same id replaces the
      earlier one. */
  function NodeMap(cells: seq<Cell>, clean: string -> string): map<string, OrgNode>
  {
    if cells == [] then map[]
    else
      var prev := NodeMap(cells[..|cells| - 1], clean);
      var c := cells[|cells| - 1];
      if IsNodeCell(c) then prev[c.id := NodeOf(c, clean)] else prev
  }

  /** Every edge comes from an edge cell, and every edge cell gives one. */
  lemma {:induction false} EdgeCellsMembers(cells: seq<Cell>, e: CellEdge)
    ensures e in EdgeCells(cells) <==> exists c :: c in cells && IsEdgeCell(c) && EdgeOf(c) == e
  {
    if cells != [] {
      var n := |cells| - 1;
      EdgeCellsMembers(cells[..n], e);
      assert cells == cells[..n] + [cells[n]];
    }
  }

  /** The node ids are, without repetition, exactly the ids of node
      cells. */
  lemma {:induction false} NodeMapSpec(cells: seq<Cell>, clean: string -> string)
    ensures NoDup(NodeOrder(cells))
    ensures forall k :: k in NodeOrder(cells) <==> k in NodeMap(cells, clean)
    ensures forall k :: k in NodeMap(cells, clean) <==> exists c :: c in cells && IsNodeCell(c) && c.id == k
  {
    if cells != [] {
      var n := |cells| - 1;
      NodeMapSpec(cells[..n], clean);
      assert cells == cells[..n] + [cells[n]];
    }
  }

  /** Every node is built from the last node cell with its id; the index
      of that cell. */
  lemma {:induction false} NodeMapLast(cells: seq<Cell>, clean: string -> string, k: string) returns (i: int)
    requires k in NodeMap(cells, clean)
    ensures 0 <= i < |cells| && IsNodeCell(cells[i]) && cells[i].id == k
    ensures NodeMap(cells, clean)[k] == NodeOf(cells[i], clean)
    ensures forall j :: i < j < |cells| && IsNodeCell(cells[j]) ==> cells[j].id != k
  {
    var n := |cells| - 1;
    var init := cells[..n];
    var c := cells[n];
    if IsNodeCell(c) && c.id == k {
      i := n;
    } else {
      assert k in NodeMap(init, clean) && NodeMap(cells, clean)[k] == NodeMap(init, clean)[k];
      i := NodeMapLast(init, clean, k);
      assert cells[i] == init[i];
      forall j | i < j < |cells| && IsNodeCell(cells[j]) ensures cells[j].id != k {
        if j < n {
          assert cells[j] == init[j];
        }
      }
    }
  }

  /** The cell loop of `parse_org_chart`, over the cells of every diagram
      in turn: root and layer cells are skipped, cells with both ends are
      edges, and other cells with a value are nodes. */
  method CollectCells(cells: seq<Cell>, clean: string -> string)
    returns (order: seq<string>, nodes: map<string, OrgNode>, edges: seq<CellEdge>)
    ensures order == NodeOrder(cells)
    ensures nodes == NodeMap(cells, clean)
    ensures edges == EdgeCells(cells)
  {
    order, nodes, edges := [], map[], [];
    for i := 0 to |cells|
      invariant order == NodeOrder(cells[..i])
      invariant nodes == NodeMap(cells[..i], clean)
      invariant edges == EdgeCells(cells[..i])
    {
      var c := cells[i];
      assert cells[..i + 1][..i] == cells[..i];
      if c.id == "0" || c.id == "1" {
        continue;
      }
      if c.source != [] && c.target != [] {
        edges := edges + [CellEdge(c.id, c.source, c.target, c.style)];
      } else if c.value != [] {
        var nt := ParseOrgNode(clean(c.value));
        if c.id !in order {
          order := order + [c.id];
        }
        nodes := nodes[c.id := OrgNode(c.id, c.value, nt.0, nt.1, c.parent, c.style, None)];
      }
    }
    assert cells[..|cells|] == cells;
  }

  // -----------------------------------------------------------------------
  // parse_org_chart: hierarchy, managers and roots
  // -----------------------------------------------------------------------

  /** An edge that joins two nodes; only these build the hierarchy. */
  predicate Joins(e: CellEdge, keys: set<string>) { e.source in keys && e.target in keys }

  /** The direct reports of `s`: targets of joining edges from `s`, in edge
      order. */
  function Reports(edges: seq<CellEdge>, keys: set<string>, s: string): seq<string>
  {
    if edges == [] then []
    else
      var e := edges[|edges| - 1];
      Reports(edges[..|edges| - 1], keys, s) + (if Joins(e, keys) && e.source == s then [e.target] else [])
  }

  /** `hierarchy`: each source of a joining edge mapped to its reports. */
  function HierarchyOf(edges: seq<CellEdge>, keys: set<string>): map<string, seq<string>>
  {
    if edges == [] then map[]
    else
      var prev := HierarchyOf(edges[..|edges| - 1], keys);
      var e := edges[|edges| - 1];
      if Joins(e, keys) then prev[e.source := (if e.source in prev then prev[e.source] else []) + [e.target]]
      else prev
  }

  /** The source of the last joining edge into `t`, if any. */
  function ManagerId(edges: seq<CellEdge>, keys: set<string>, t: string): Option<string>
  {
    if edges == [] then None
    else
      var e := edges[|edges| - 1];
      if Joins(e, keys) && e.target == t then Some(e.source) else ManagerId(edges[..|edges| - 1], keys, t)
  }

  /** A node's manager, as the hierarchy loop records it: the last joining
      edge's source and that node's name. */
  function ManagerOf(edges: seq<CellEdge>, nodes: map<string, OrgNode>, t: string): Option<Manager>
  {
    match ManagerId(edges, nodes.Keys, t)
    case None => None
    case Some(s) => if s in nodes then Some(Manager(s, nodes[s].name)) else None
  }

  /** The hierarchy has exactly the sources of joining edges as keys, and
      each key's list is its non-empty list of reports. */
  lemma {:induction false} HierarchySpec(edges: seq<CellEdge>, keys: set<string>)
    ensures forall s :: s in HierarchyOf(edges, keys) <==> Reports(edges, keys, s) != []
    ensures forall s :: s in HierarchyOf(edges, keys) ==> HierarchyOf(edges, keys)[s] == Reports(edges, keys, s)
  {
    if edges != [] {
      HierarchySpec(edges[..|edges| - 1], keys);
    }
  }

  /** A report is the target of a joining edge from its manager. */
  lemma {:induction false} ReportsMembers(edges: seq<CellEdge>, keys: set<string>, s: string, t: string)
    ensures t in Reports(edges, keys, s) <==> exists e :: e in edges && Joins(e, keys) && e.source == s && e.target == t
  {
    if edges != [] {
      var n := |edges| - 1;
      ReportsMembers(edges[..n], keys, s, t);
      assert edges == edges[..n] + [edges[n]];
    }
  }

  /** The recorded manager is the source of the last joining edge into the
      node; there is none iff no joining edge enters it. */
  lemma {:induction false} ManagerIdSpec(edges: seq<CellEdge>, keys: set<string>, t: string)
    ensures ManagerId(edges, keys, t).None? <==> forall e :: e in edges ==> !(Joins(e, keys) && e.target == t)
    ensures ManagerId(edges, keys, t).Some? ==>
      exists i :: 0 <= i < |edges| && Joins(edges[i], keys) && edges[i].target == t
        && edges[i].source == ManagerId(edges, keys, t).value
        && forall j :: i < j < |edges| ==> !(Joins(edges[j], keys) && edges[j].target == t)
  {
    if edges != [] {
      var n := |edges| - 1;
      var init := edges[..n];
      ManagerIdSpec(init, keys, t);
      assert edges == init + [edges[n]];
      if !(Joins(edges[n], keys) && edges[n].target == t) && ManagerId(init, keys, t).Some? {
        var i :| 0 <= i < |init| && Joins(init[i], keys) && init[i].target == t
          && init[i].source == ManagerId(init, keys, t).value
          && forall j :: i < j < |init| ==> !(Joins(init[j], keys) && init[j].target == t);
        assert edges[i] == init[i];
        forall j | i < j < |edges| ensures !(Joins(edges[j], keys) && edges[j].target == t) {
          if j < n {
            assert edges[j] == init[j];
          }
        }
      }
    }
  }

  /** The hierarchy loop of `parse_org_chart`: joining edges append their
      target to the source's list and make the source the target's
      manager. */
  function WithManager(n: OrgNode, m: Option<Manager>): OrgNode
  {
    match m
    case None => n
    case Some(x) => n.(manager := Some(x))
  }

  /** The nodes once every manager is recorded. */
  function Linked(nodes: map<string, OrgNode>, edges: seq<CellEdge>): map<string, OrgNode>
  {
    map k | k in nodes :: WithManager(nodes[k], ManagerOf(edges, nodes, k))
  }

  /** Linking changes no id, name or title. */
  lemma LinkedKeepsNames(nodes: map<string, OrgNode>, edges: seq<CellEdge>)
    ensures Linked(nodes, edges).Keys == nodes.Keys
    ensures forall k :: k in nodes ==> Linked(nodes, edges)[k].name == nodes[k].name
    ensures forall k :: k in nodes ==> Linked(nodes, edges)[k].title == nodes[k].title
  {
  }

  /** The hierarchy loop of `parse_org_chart`: joining edges append their
      target to the source's list and make the source the target's
      manager. */
  method LinkManagers(nodes: map<string, OrgNode>, edges: seq<CellEdge>)
    returns (hierarchy: map<string, seq<string>>, linked: map<string, OrgNode>)
    ensures hierarchy == HierarchyOf(edges, nodes.Keys)
    ensures linked == Linked(nodes, edges)
  {
    hierarchy, linked := map[], nodes;
    for i := 0 to |edges|
      invariant hierarchy == HierarchyOf(edges[..i], nodes.Keys)
      invariant linked.Keys == nodes.Keys
      invariant forall k :: k in nodes ==> linked[k] == WithManager(nodes[k], ManagerOf(edges[..i], nodes, k))
    {
      var e := edges[i];
      assert edges[..i + 1][..i] == edges[..i];
      ghost var before := linked;
      if e.source in linked && e.target in linked {
        var reports := if e.source in hierarchy then hierarchy[e.source] else [];
        hierarchy := hierarchy[e.source := reports + [e.target]];
        linked := linked[e.target := linked[e.target].(manager := Some(Manager(e.source, nodes[e.source].name)))];
      }
      forall k | k in nodes ensures linked[k] == WithManager(nodes[k], ManagerOf(edges[..i + 1], nodes, k)) {
        ManagerOfStep(edges, i, nodes, k);
      }
    }
    assert edges[..|edges|] == edges;
  }

  /** One more edge sets the manager of its target when it joins two nodes,
      and changes no other. */
  lemma ManagerOfStep(edges: seq<CellEdge>, i: nat, nodes: map<string, OrgNode>, k: string)
    requires i < |edges|
    ensures var e := edges[i];
            ManagerOf(edges[..i + 1], nodes, k)
            == if Joins(e, nodes.Keys) && e.target == k then Some(Manager(e.source, nodes[e.source].name))
               else ManagerOf(edges[..i], nodes, k)
  {
    assert edges[..i + 1][..i] == edges[..i];
  }

  /** `root_nodes`: the node ids, in node order, with no manager. */
  function Roots(order: seq<string>, nodes: map<string, OrgNode>): seq<string>
  {
    if order == [] then []
    else
      var k := order[|order| - 1];
      Roots(order[..|order| - 1], nodes) + (if k in nodes && nodes[k].manager.None? then [k] else [])
  }

  /** After linking, the roots are exactly the nodes no joining edge enters. */
  lemma RootsSpec(order: seq<string>, nodes: map<string, OrgNode>, edges: seq<CellEdge>, k: string)
    requires forall x :: x in order <==> x in nodes
    requires forall x :: x in nodes ==> nodes[x].manager.None?
    ensures k in Roots(order, Linked(nodes, edges)) <==>
      k in nodes && forall e :: e in edges ==> !(Joins(e, nodes.Keys) && e.target == k)
  {
    RootsMembers(order, Linked(nodes, edges), k);
    if k in nodes {
      ManagerIdSpec(edges, nodes.Keys, k);
    }
  }

  lemma {:induction false} RootsMembers(order: seq<string>, nodes: map<string, OrgNode>, k: string)
    ensures k in Roots(order, nodes) <==> k in order && k in nodes && nodes[k].manager.None?
  {
    if order != [] {
      var n := |order| - 1;
      RootsMembers(order[..n], nodes, k);
      assert order == order[..n] + [order[n]];
    }
  }

  // -----------------------------------------------------------------------
  // _build_teams
  // -----------------------------------------------------------------------

  datatype Member = Member(name: string, title: string)

  datatype Team = Team(lead: string, title: string, members: seq<Member>, depth: nat)

  /** `nodes.get(id, {}).get('name', '')` and likewise for the title. */
  function NameOf(nodes: map<string, OrgNode>, id: string): string { if id in nodes then nodes[id].name else [] }
  function TitleOf(nodes: map<string, OrgNode>, id: string): string { if id in nodes then nodes[id].title else [] }

  function ChildrenOf(h: map<string, seq<string>>, id: string): seq<string> { if id in h then h[id] else [] }

  /** The recursion of `build_team` on a cyclic hierarchy runs until Python
      gives up; the model stops when a lead recurs on the current path. */
  const RecursionError := "maximum recursion depth exceeded"

  /** `build_team(id, depth)`: the team led by `id` and the sub-teams the
      call appends to the outer list; `path` holds the leads being built. */
  function TeamOf(nodes: map<string, OrgNode>, h: map<string, seq<string>>, id: string, depth: nat, path: set<string>)
    : Result<(Team, seq<Team>)>
    decreases h.Keys - path, 1, 0
  {
    match MembersOf(nodes, h, ChildrenOf(h, id), depth, path)
    case Err(msg) => Err(msg)
    case Ok(ms) => Ok((Team(NameOf(nodes, id), TitleOf(nodes, id), ms.0, depth), ms.1))
  }

  /** The loop over a lead's reports: a report who leads is built as a
      sub-team (appended), any other becomes a member. */
  function MembersOf(nodes: map<string, OrgNode>, h: map<string, seq<string>>, cs: seq<string>, depth: nat, path: set<string>)
    : Result<(seq<Member>, seq<Team>)>
    decreases h.Keys - path, 0, |cs|
  {
    if cs == [] then Ok(([], []))
    else
      match MembersOf(nodes, h, cs[..|cs| - 1], depth, path)
      case Err(msg) => Err(msg)
      case Ok(prev) =>
        var c := cs[|cs| - 1];
        if c !in h then Ok((prev.0 + [Member(NameOf(nodes, c), TitleOf(nodes, c))], prev.1))
        else if c in path then Err(RecursionError)
        else match TeamOf(nodes, h, c, depth + 1, path + {c})
          case Err(msg) => Err(msg)
          case Ok(sub) => Ok((prev.0, prev.1 + sub.1 + [sub.0]))
  }

  /** `_build_teams`: each root's sub-teams, then its own team. */
  function TeamsOf(nodes: map<string, OrgNode>, h: map<string, seq<string>>, roots: seq<string>): Result<seq<Team>>
  {
    if roots == [] then Ok([])
    else
      match TeamsOf(nodes, h, roots[..|roots| - 1])
      case Err(msg) => Err(msg)
      case Ok(prev) =>
        var r := roots[|roots| - 1];
        match TeamOf(nodes, h, r, 0, {r})
        case Err(msg) => Err(msg)
        case Ok(t) => Ok(prev + t.1 + [t.0])
  }

  /** `build_team`, appending to `teams` as the source does. */
  method BuildTeam(nodes: map<string, OrgNode>, h: map<string, seq<string>>, id: string, depth: nat,
                   path: set<string>, teams: seq<Team>)
    returns (r: Result<(Team, seq<Team>)>)
    ensures r.Err? <==> TeamOf(nodes, h, id, depth, path).Err?
    ensures r.Ok? ==> r.value.0 == TeamOf(nodes, h, id, depth, path).value.0
    ensures r.Ok? ==> r.value.1 == teams + TeamOf(nodes, h, id, depth, path).value.1
    decreases h.Keys - path
  {
    var cs := ChildrenOf(h, id);
    var members: seq<Member> := [];
    var out := teams;
    for i := 0 to |cs|
      invariant MembersOf(nodes, h, cs[..i], depth, path).Ok?
      invariant members == MembersOf(nodes, h, cs[..i], depth, path).value.0
      invariant out == teams + MembersOf(nodes, h, cs[..i], depth, path).value.1
    {
      var c := cs[i];
      MembersOfStep(nodes, h, cs, i, depth, path);
      if c in h {
        if c in path {
          assert MembersOf(nodes, h, cs[..i + 1], depth, path).Err?;
          MembersErrPropagates(nodes, h, cs, i + 1, depth, path);
          return Err(RecursionError);
        }
        var sub := BuildTeam(nodes, h, c, depth + 1, path + {c}, out);
        if sub.Err? {
          MembersErrPropagates(nodes, h, cs, i + 1, depth, path);
          return Err(sub.msg);
        }
        out := sub.value.1 + [sub.value.0];
      } else {
        members := members + [Member(NameOf(nodes, c), TitleOf(nodes, c))];
      }
    }
    assert cs[..|cs|] == cs;
    r := Ok((Team(NameOf(nodes, id), TitleOf(nodes, id), members, depth), out));
  }

  /** One more report: a member when it leads no one, a recursion error
      when it is a lead already on the path, else its sub-teams. */
  lemma MembersOfStep(nodes: map<string, OrgNode>, h: map<string, seq<string>>, cs: seq<string>, i: nat,
                      depth: nat, path: set<string>)
    requires i < |cs|
    ensures var prev := MembersOf(nodes, h, cs[..i], depth, path);
            var c := cs[i];
            MembersOf(nodes, h, cs[..i + 1], depth, path)
            == if prev.Err? then prev
               else if c !in h then Ok((prev.value.0 + [Member(NameOf(nodes, c), TitleOf(nodes, c))], prev.value.1))
               else if c in path then Err(RecursionError)
               else match TeamOf(nodes, h, c, depth + 1, path + {c})
                 case Err(msg) => Err(msg)
                 case Ok(sub) => Ok((prev.value.0, prev.value.1 + sub.1 + [sub.0]))
  {
    assert cs[..i + 1][..i] == cs[..i];
  }

  /** A failure in the reports loop is the call's failure. */
  lemma {:induction false} MembersErrPropagates(nodes: map<string, OrgNode>, h: map<string, seq<string>>, cs: seq<string>,
                                                k: nat, depth: nat, path: set<string>)
    requires k <= |cs| && MembersOf(nodes, h, cs[..k], depth, path).Err?
    ensures MembersOf(nodes, h, cs, depth, path).Err?
    decreases |cs| - k
  {
    if k < |cs| {
      assert cs[..k + 1][..k] == cs[..k];
      MembersErrPropagates(nodes, h, cs, k + 1, depth, path);
    } else {
      assert cs[..k] == cs;
    }
  }

  /** `_build_teams` over the roots. */
  method BuildTeams(nodes: map<string, OrgNode>, h: map<string, seq<string>>, roots: seq<string>)
    returns (r: Result<seq<Team>>)
    ensures r.Err? <==> TeamsOf(nodes, h, roots).Err?
    ensures r.Ok? ==> r.value == TeamsOf(nodes, h, roots).value
  {
    var teams: seq<Team> := [];
    for i := 0 to |roots|
      invariant TeamsOf(nodes, h, roots[..i]) == Ok(teams)
    {
      var root := roots[i];
      assert roots[..i + 1][..i] == roots[..i];
      var t := BuildTeam(nodes, h, root, 0, {root}, teams);
      if t.Err? {
        TeamsErrPropagates(nodes, h, roots, i + 1);
        return Err(t.msg);
      }
      teams := t.value.1 + [t.value.0];
    }
    assert roots[..|roots|] == roots;
    r := Ok(teams);
  }

  lemma {:induction false} TeamsErrPropagates(nodes: map<string, OrgNode>, h: map<string, seq<string>>, roots: seq<string>, k: nat)
    requires k <= |roots| && TeamsOf(nodes, h, roots[..k]).Err?
    ensures TeamsOf(nodes, h, roots).Err?
    decreases |roots| - k
  {
    if k < |roots| {
      assert roots[..k + 1][..k] == roots[..k];
      TeamsErrPropagates(nodes, h, roots, k + 1);
    } else {
      assert roots[..k] == roots;
    }
  }

  /** Post-order shape: every team is at depth `d` or deeper, and every
      team deeper than `d` is followed later in the list by a team one
      level up (its parent's). */
  predicate Closed(ts: seq<Team>, d: nat)
  {
    (forall i :: 0 <= i < |ts| ==> ts[i].depth >= d)
    && forall i :: 0 <= i < |ts| && ts[i].depth > d ==>
         exists j :: i < j < |ts| && ts[j].depth == ts[i].depth - 1
  }

  lemma ClosedAppend(a: seq<Team>, b: seq<Team>, d: nat)
    requires Closed(a, d) && Closed(b, d)
    ensures Closed(a + b, d)
  {
    var ab := a + b;
    forall i | 0 <= i < |ab| ensures ab[i].depth >= d {
      if i < |a| { assert ab[i] == a[i]; } else { assert ab[i] == b[i - |a|]; }
    }
    forall i | 0 <= i < |ab| && ab[i].depth > d ensures exists j :: i < j < |ab| && ab[j].depth == ab[i].depth - 1 {
      if i < |a| {
        ClosedAppendFront(a, b, d, i);
      } else {
        ClosedAppendBack(a, b, d, i);
      }
    }
  }

  /** A team of the front part finds its parent's team in the front part. */
  lemma ClosedAppendFront(a: seq<Team>, b: seq<Team>, d: nat, i: nat)
    requires Closed(a, d) && i < |a| && a[i].depth > d
    ensures exists j :: i < j < |a + b| && (a + b)[j].depth == (a + b)[i].depth - 1
  {
    var j :| i < j < |a| && a[j].depth == a[i].depth - 1;
    assert (a + b)[j] == a[j] && (a + b)[i] == a[i];
  }

  /** A team of the back part finds its parent's team in the back part. */
  lemma ClosedAppendBack(a: seq<Team>, b: seq<Team>, d: nat, i: nat)
    requires Closed(b, d) && |a| <= i < |a + b| && (a + b)[i].depth > d
    ensures exists j :: i < j < |a + b| && (a + b)[j].depth == (a + b)[i].depth - 1
  {
    var k := i - |a|;
    assert (a + b)[i] == b[k];
    var j :| k < j < |b| && b[j].depth == b[k].depth - 1;
    assert (a + b)[j + |a|] == b[j];
  }

  /** A sub-tree closed at `d + 1` followed by its lead's team at `d` is
      closed at `d`. */
  lemma ClosedWithLead(subs: seq<Team>, t: Team, d: nat)
    requires Closed(subs, d + 1) && t.depth == d
    ensures Closed(subs + [t], d)
  {
    var s := subs + [t];
    forall i | 0 <= i < |s| && s[i].depth > d ensures exists j :: i < j < |s| && s[j].depth == s[i].depth - 1 {
      assert s[i] == subs[i];
      if s[i].depth > d + 1 {
        var j :| i < j < |subs| && subs[j].depth == subs[i].depth - 1;
        assert s[j] == subs[j];
      } else {
        assert s[|subs|] == t;
      }
    }
  }

  /** Teams closed at `d`, then a sub-tree closed at `d + 1` and its lead's
      team at `d`, are closed at `d`. */
  lemma ClosedStep(prev: seq<Team>, subs: seq<Team>, t: Team, d: nat)
    requires Closed(prev, d) && Closed(subs, d + 1) && t.depth == d
    ensures Closed(prev + subs + [t], d)
  {
    ClosedWithLead(subs, t, d);
    ClosedAppend(prev, subs + [t], d);
    assert prev + subs + [t] == prev + (subs + [t]);
  }

  /** A successful `build_team` yields its lead's team at the call's depth
      after a post-order list of sub-teams. */
  lemma {:induction false} TeamOfClosed(nodes: map<string, OrgNode>, h: map<string, seq<string>>, id: string, depth: nat, path: set<string>)
    requires TeamOf(nodes, h, id, depth, path).Ok?
    ensures TeamOf(nodes, h, id, depth, path).value.0.depth == depth
    ensures TeamOf(nodes, h, id, depth, path).value.0.lead == NameOf(nodes, id)
    ensures Closed(TeamOf(nodes, h, id, depth, path).value.1, depth + 1)
    decreases h.Keys - path, 1, 0
  {
    MembersOfClosed(nodes, h, ChildrenOf(h, id), depth, path);
  }

  lemma {:induction false} MembersOfClosed(nodes: map<string, OrgNode>, h: map<string, seq<string>>, cs: seq<string>, depth: nat, path: set<string>)
    requires MembersOf(nodes, h, cs, depth, path).Ok?
    ensures Closed(MembersOf(nodes, h, cs, depth, path).value.1, depth + 1)
    decreases h.Keys - path, 0, |cs|
  {
    if cs != [] {
      var n := |cs| - 1;
      var c := cs[n];
      var before := MembersOf(nodes, h, cs[..n], depth, path);
      assert before.Ok?;
      MembersOfClosed(nodes, h, cs[..n], depth, path);
      var prev := before.value;
      if c !in h {
        assert MembersOf(nodes, h, cs, depth, path).value.1 == prev.1;
      } else {
        assert c !in path;
        var subR := TeamOf(nodes, h, c, depth + 1, path + {c});
        assert subR.Ok?;
        var sub := subR.value;
        TeamOfClosed(nodes, h, c, depth + 1, path + {c});
        ClosedStep(prev.1, sub.1, sub.0, depth + 1);
        assert MembersOf(nodes, h, cs, depth, path).value.1 == prev.1 + sub.1 + [sub.0];
      }
    }
  }

  /** `_build_teams` appends every sub-team before its parent's team: the
      list is closed at depth 0, and ends with the last root's team. */
  lemma {:induction false} TeamsOfPostOrder(nodes: map<string, OrgNode>, h: map<string, seq<string>>, roots: seq<string>)
    requires TeamsOf(nodes, h, roots).Ok?
    ensures Closed(TeamsOf(nodes, h, roots).value, 0)
    ensures roots != [] ==> EndsWithRootTeam(TeamsOf(nodes, h, roots).value, NameOf(nodes, roots[|roots| - 1]))
  {
    if roots != [] {
      var n := |roots| - 1;
      var r := roots[n];
      TeamsOfPostOrder(nodes, h, roots[..n]);
      var prev := TeamsOf(nodes, h, roots[..n]).value;
      var t := TeamOf(nodes, h, r, 0, {r}).value;
      var res := prev + (t.1 + [t.0]);
      assert prev + t.1 + [t.0] == res;
      assert TeamsOf(nodes, h, roots) == Ok(res);
      TeamOfClosed(nodes, h, r, 0, {r});
      ClosedWithLead(t.1, t.0, 0);
      ClosedAppend(prev, t.1 + [t.0], 0);
      assert res[|res| - 1] == t.0;
    }
  }

  /** The list ends with a top-level team led by `lead`. */
  predicate EndsWithRootTeam(ts: seq<Team>, lead: string)
  {
    |ts| > 0 && ts[|ts| - 1].lead == lead && ts[|ts| - 1].depth == 0
  }

  /** A ranking of the leads that grows along every reporting line: a
      witness that the hierarchy has no cycle. */
  predicate Ranked(h: map<string, seq<string>>, rank: map<string, nat>)
  {
    forall s :: s in h ==> s in rank && forall t :: t in h[s] && t in h ==> t in rank && rank[s] < rank[t]
  }

  /** On an acyclic hierarchy `build_team` succeeds. */
  lemma {:induction false} TeamOfAcyclic(nodes: map<string, OrgNode>, h: map<string, seq<string>>, id: string, depth: nat,
                                         path: set<string>, rank: map<string, nat>)
    requires Ranked(h, rank)
    requires id in h ==> id in path && forall p :: p in path ==> p in rank && rank[p] <= rank[id]
    ensures TeamOf(nodes, h, id, depth, path).Ok?
    decreases h.Keys - path, 1, 0
  {
    var cs := ChildrenOf(h, id);
    if id in h {
      MembersOfAcyclic(nodes, h, id, cs, depth, path, rank);
    } else {
      assert cs == [];
    }
  }

  lemma {:induction false} MembersOfAcyclic(nodes: map<string, OrgNode>, h: map<string, seq<string>>, id: string, cs: seq<string>,
                                            depth: nat, path: set<string>, rank: map<string, nat>)
    requires Ranked(h, rank) && id in h && id in path
    requires forall c :: c in cs ==> c in h[id]
    requires forall p :: p in path ==> p in rank && rank[p] <= rank[id]
    ensures MembersOf(nodes, h, cs, depth, path).Ok?
    decreases h.Keys - path, 0, |cs|
  {
    if cs != [] {
      var n := |cs| - 1;
      var c := cs[n];
      MembersOfAcyclic(nodes, h, id, cs[..n], depth, path, rank);
      if c in h {
        assert c in h[id];
        assert rank[id] < rank[c];
        assert c !in path;
        TeamOfAcyclic(nodes, h, c, depth + 1, path + {c}, rank);
      }
    }
  }

  /** `_build_teams` succeeds whenever the hierarchy is acyclic. */
  lemma {:induction false} TeamsOfAcyclic(nodes: map<string, OrgNode>, h: map<string, seq<string>>, roots: seq<string>,
                                          rank: map<string, nat>)
    requires Ranked(h, rank)
    ensures TeamsOf(nodes, h, roots).Ok?
  {
    if roots != [] {
      var n := |roots| - 1;
      var r := roots[n];
      TeamsOfAcyclic(nodes, h, roots[..n], rank);
      TeamOfAcyclic(nodes, h, r, 0, {r}, rank);
    }
  }

  /** A walk along reporting lines through leads, from `w[0]`, whose last
      lead is already on the path or earlier on the walk: a cycle. */
  predicate ClosingWalk(h: map<string, seq<string>>, w: seq<string>, path: set<string>)
  {
    |w| >= 2
    && (forall i :: 0 <= i < |w| ==> w[i] in h)
    && (forall i :: 0 <= i < |w| - 1 ==> w[i + 1] in h[w[i]])
    && (w[|w| - 1] in path || w[|w| - 1] in w[..|w| - 1])
  }

  /** A report whose own call fails makes the reports loop fail. */
  lemma {:induction false} MembersErrAt(nodes: map<string, OrgNode>, h: map<string, seq<string>>, cs: seq<string>,
                                        k: nat, depth: nat, path: set<string>)
    requires k < |cs| && cs[k] in h
    requires cs[k] in path || TeamOf(nodes, h, cs[k], depth + 1, path + {cs[k]}).Err?
    ensures MembersOf(nodes, h, cs, depth, path).Err?
  {
    assert cs[..k + 1][..k] == cs[..k];
    assert MembersOf(nodes, h, cs[..k + 1], depth, path).Err?;
    MembersErrPropagates(nodes, h, cs, k + 1, depth, path);
  }

  /** A cycle reachable from the lead being built makes `build_team` fail:
      the hierarchy must be acyclic for it to terminate. */
  lemma {:induction false} TeamOfCycle(nodes: map<string, OrgNode>, h: map<string, seq<string>>, depth: nat,
                                       path: set<string>, w: seq<string>)
    requires ClosingWalk(h, w, path) && w[0] in path
    ensures TeamOf(nodes, h, w[0], depth, path).Err?
    decreases |w|
  {
    var cs := ChildrenOf(h, w[0]);
    var c := w[1];
    var k :| 0 <= k < |cs| && cs[k] == c;
    if c !in path {
      var tail := w[1..];
      if w[|w| - 1] in path {
        assert tail[|tail| - 1] in path + {c};
      } else {
        var i :| 0 <= i < |w| - 1 && w[i] == w[|w| - 1];
        assert i != 0;
        assert tail[i - 1] == w[i];
        assert tail[..|tail| - 1][i - 1] == tail[i - 1];
      }
      assert |tail| >= 2;
      forall j | 0 <= j < |tail| - 1 ensures tail[j + 1] in h[tail[j]] {
        assert tail[j] == w[j + 1] && tail[j + 1] == w[j + 2];
      }
      TeamOfCycle(nodes, h, depth + 1, path + {c}, tail);
    }
    MembersErrAt(nodes, h, cs, k, depth, path);
  }

  /** `_build_teams` fails when a cycle is reachable from a root. */
  lemma {:induction false} TeamsOfCycle(nodes: map<string, OrgNode>, h: map<string, seq<string>>, roots: seq<string>,
                                        k: nat, w: seq<string>)
    requires k < |roots| && ClosingWalk(h, w, {roots[k]}) && w[0] == roots[k]
    ensures TeamsOf(nodes, h, roots).Err?
  {
    TeamOfCycle(nodes, h, 0, {roots[k]}, w);
    assert roots[..k + 1][..k] == roots[..k];
    TeamsErrPropagates(nodes, h, roots, k + 1);
  }

  // -----------------------------------------------------------------------
  // parse_org_chart
  // -----------------------------------------------------------------------

  /** The tool's result: nodes in dict order, hierarchy, roots, teams and
      the counts. */
  datatype OrgChart = OrgChart(nodes: seq<OrgNode>, hierarchy: map<string, seq<string>>, rootNodes: seq<string>,
                               teams: seq<Team>, edgeCount: nat, nodeCount: nat)

  function ValuesInOrder(order: seq<string>, nodes: map<string, OrgNode>): seq<OrgNode>
    requires forall k :: k in order ==> k in nodes
  {
    if order == [] then [] else [nodes[order[0]]] + ValuesInOrder(order[1..], nodes)
  }

  /** The `nodes` list of the result: the linked nodes in the order their
      ids first appeared. */
  function ChartNodeList(cells: seq<Cell>, clean: string -> string): seq<OrgNode>
  {
    ChartFacts(cells, clean);
    ValuesInOrder(NodeOrder(cells), Linked(NodeMap(cells, clean), EdgeCells(cells)))
  }

  /** The i-th entry of `values()` is the node of the i-th key. */
  lemma {:induction false} ValuesInOrderAt(order: seq<string>, nodes: map<string, OrgNode>, i: int)
    requires forall k :: k in order ==> k in nodes
    requires 0 <= i < |order|
    ensures |ValuesInOrder(order, nodes)| == |order|
    ensures ValuesInOrder(order, nodes)[i] == nodes[order[i]]
    decreases |order|
  {
    ValuesInOrderLength(order, nodes);
    if i > 0 {
      ValuesInOrderAt(order[1..], nodes, i - 1);
    }
  }

  /** Each reported node, in the order its id first appeared, is built from
      the last node cell with that id (name and title parsed from its
      cleaned value) and carries as manager the source of the last edge
      joining another node to it, with that node's name. */
  lemma ChartNodeAt(cells: seq<Cell>, clean: string -> string, i: int) returns (j: int)
    requires 0 <= i < |ChartNodeList(cells, clean)|
    ensures |ChartNodeList(cells, clean)| == |NodeOrder(cells)|
    ensures var n := ChartNodeList(cells, clean)[i];
      && 0 <= j < |cells| && IsNodeCell(cells[j]) && n.id == cells[j].id == NodeOrder(cells)[i]
      && (forall l :: j < l < |cells| && IsNodeCell(cells[l]) ==> cells[l].id != n.id)
      && n == WithManager(NodeOf(cells[j], clean), ManagerOf(EdgeCells(cells), NodeMap(cells, clean), n.id))
  {
    ChartFacts(cells, clean);
    var order := NodeOrder(cells);
    var nodes := NodeMap(cells, clean);
    var linked := Linked(nodes, EdgeCells(cells));
    ValuesInOrderLength(order, linked);
    ValuesInOrderAt(order, linked, i);
    var k := order[i];
    NodeMapSpec(cells, clean);
    j := NodeMapLast(cells, clean, k);
  }

  /** The collected nodes. */
  function ChartNodes(cells: seq<Cell>, clean: string -> string): map<string, OrgNode> { NodeMap(cells, clean) }

  /** The reporting lines of the collected nodes. */
  function ChartHierarchy(cells: seq<Cell>, clean: string -> string): map<string, seq<string>>
  {
    HierarchyOf(EdgeCells(cells), NodeMap(cells, clean).Keys)
  }

  /** The roots, in node order, once managers are linked. */
  function ChartRoots(cells: seq<Cell>, clean: string -> string): seq<string>
  {
    Roots(NodeOrder(cells), Linked(NodeMap(cells, clean), EdgeCells(cells)))
  }

  /** `parse_org_chart` on a file that exists and whose XML gave `cells`
      (`Err` when the XML did not parse), with `clean` the markup
      stripper: it fails only on a missing file, unreadable XML or a
      team build that does not finish; otherwise it reports every node,
      the reporting lines, the roots (exactly the nodes no reporting line
      enters), the teams and the counts. */
  method ParseOrgChart(path: string, fileExists: bool, cells: Result<seq<Cell>>, clean: string -> string)
    returns (r: Result<OrgChart>)
    ensures !fileExists ==> r == Err("File not found: " + path)
    ensures fileExists && cells.Err? ==> r == Err("Invalid draw.io file format: " + cells.msg)
    ensures fileExists && cells.Ok? ==>
      (r.Ok? <==> TeamsOf(ChartNodes(cells.value, clean), ChartHierarchy(cells.value, clean), ChartRoots(cells.value, clean)).Ok?)
    ensures r.Ok? ==> fileExists && cells.Ok?
    ensures r.Ok? ==> r.value.hierarchy == ChartHierarchy(cells.value, clean)
    ensures r.Ok? ==> r.value.rootNodes == ChartRoots(cells.value, clean)
    ensures r.Ok? ==> (r.value.teams
      == TeamsOf(ChartNodes(cells.value, clean), ChartHierarchy(cells.value, clean), ChartRoots(cells.value, clean)).value)
    ensures r.Ok? ==> r.value.edgeCount == |EdgeCells(cells.value)|
    ensures r.Ok? ==> r.value.nodeCount == |ChartNodes(cells.value, clean)| == |r.value.nodes|
    ensures r.Ok? ==> r.value.nodes == ChartNodeList(cells.value, clean)
  {
    if !fileExists {
      return Err("File not found: " + path);
    }
    if cells.Err? {
      return Err("Invalid draw.io file format: " + cells.msg);
    }
    var order, nodes, edges := CollectCells(cells.value, clean);
    var hierarchy, linked := LinkManagers(nodes, edges);
    ChartFacts(cells.value, clean);
    var roots := Roots(order, linked);
    var teams := BuildTeams(linked, hierarchy, roots);
    if teams.Err? {
      return Err("Failed to parse org chart: " + teams.msg);
    }
    r := Ok(OrgChart(ValuesInOrder(order, linked), hierarchy, roots, teams.value, |edges|, |nodes|));
  }

  /** What `parse_org_chart` relies on: the node order lists every node
      once, its roots are the nodes no reporting line enters, and linking
      managers leaves the teams unchanged. */
  lemma ChartFacts(cells: seq<Cell>, clean: string -> string)
    ensures forall k :: k in NodeOrder(cells) ==> k in Linked(NodeMap(cells, clean), EdgeCells(cells))
    ensures |NodeOrder(cells)| == |NodeMap(cells, clean)|
    ensures |ValuesInOrder(NodeOrder(cells), Linked(NodeMap(cells, clean), EdgeCells(cells)))| == |NodeMap(cells, clean)|
    ensures forall k :: k in ChartRoots(cells, clean) <==>
      k in NodeMap(cells, clean) && forall e :: e in EdgeCells(cells) ==> !(Joins(e, NodeMap(cells, clean).Keys) && e.target == k)
    ensures forall h, roots :: TeamsOf(Linked(NodeMap(cells, clean), EdgeCells(cells)), h, roots) == TeamsOf(NodeMap(cells, clean), h, roots)
  {
    var nodes := NodeMap(cells, clean);
    var edges := EdgeCells(cells);
    var order := NodeOrder(cells);
    NodeMapSpec(cells, clean);
    NodeMapFresh(cells, clean);
    LinkedKeepsNames(nodes, edges);
    OrderCount(order, nodes);
    ValuesInOrderLength(order, Linked(nodes, edges));
    forall k ensures k in ChartRoots(cells, clean) <==> k in nodes && forall e :: e in edges ==> !(Joins(e, nodes.Keys) && e.target == k) {
      RootsSpec(order, nodes, edges, k);
    }
    forall h, roots ensures TeamsOf(Linked(nodes, edges), h, roots) == TeamsOf(nodes, h, roots) {
      SameNamesSameTeams(nodes, Linked(nodes, edges), h, roots);
    }
  }

  lemma {:induction false} SameNamesSameTeams(a: map<string, OrgNode>, b: map<string, OrgNode>, h: map<string, seq<string>>, roots: seq<string>)
    requires a.Keys == b.Keys
    requires forall k :: k in a ==> a[k].name == b[k].name && a[k].title == b[k].title
    ensures TeamsOf(b, h, roots) == TeamsOf(a, h, roots)
  {
    if roots != [] {
      var n := |roots| - 1;
      SameNamesSameTeams(a, b, h, roots[..n]);
      SameNamesSameTeam(a, b, h, roots[n], 0, {roots[n]});
    }
  }

  lemma {:induction false} SameNamesSameTeam(a: map<string, OrgNode>, b: map<string, OrgNode>, h: map<string, seq<string>>,
                                             id: string, depth: nat, path: set<string>)
    requires a.Keys == b.Keys
    requires forall k :: k in a ==> a[k].name == b[k].name && a[k].title == b[k].title
    ensures TeamOf(b, h, id, depth, path) == TeamOf(a, h, id, depth, path)
    decreases h.Keys - path, 1, 0
  {
    SameNamesSameMembers(a, b, h, ChildrenOf(h, id), depth, path);
  }

  lemma {:induction false} SameNamesSameMembers(a: map<string, OrgNode>, b: map<string, OrgNode>, h: map<string, seq<string>>,
                                                cs: seq<string>, depth: nat, path: set<string>)
    requires a.Keys == b.Keys
    requires forall k :: k in a ==> a[k].name == b[k].name && a[k].title == b[k].title
    ensures MembersOf(b, h, cs, depth, path) == MembersOf(a, h, cs, depth, path)
    decreases h.Keys - path, 0, |cs|
  {
    if cs != [] {
      var n := |cs| - 1;
      var c := cs[n];
      SameNamesSameMembers(a, b, h, cs[..n], depth, path);
      if c in h && c !in path {
        SameNamesSameTeam(a, b, h, c, depth + 1, path + {c});
      }
    }
  }

  /** Collected nodes carry no manager yet. */
  lemma {:induction false} NodeMapFresh(cells: seq<Cell>, clean: string -> string)
    ensures forall k :: k in NodeMap(cells, clean) ==> NodeMap(cells, clean)[k].manager.None?
  {
    if cells != [] {
      NodeMapFresh(cells[..|cells| - 1], clean);
    }
  }

  /** A duplicate-free list of exactly the keys is as long as the map. */
  lemma {:induction false} OrderCount(order: seq<string>, nodes: map<string, OrgNode>)
    requires NoDup(order) && forall k :: k in order <==> k in nodes
    ensures |order| == |nodes|
  {
    if order == [] {
      assert nodes.Keys == {};
    } else {
      var k := order[0];
      var rest := nodes - {k};
      forall x ensures x in order[1..] <==> x in rest {
        if x in order[1..] {
          var j :| 0 <= j < |order[1..]| && order[1..][j] == x;
          assert order[j + 1] == x;
        }
        if x in order && x != k {
          var j :| 0 <= j < |order| && order[j] == x;
          assert j != 0;
          assert order[1..][j - 1] == x;
        }
      }
      assert NoDup(order[1..]) by {
        forall i, j | 0 <= i < j < |order[1..]| ensures order[1..][i] != order[1..][j] {
          assert order[1..][i] == order[i + 1] && order[1..][j] == order[j + 1];
        }
      }
      OrderCount(order[1..], rest);
      assert nodes.Keys == rest.Keys + {k};
    }
  }

  lemma {:induction false} ValuesInOrderLength(order: seq<string>, nodes: map<string, OrgNode>)
    requires forall k :: k in order ==> k in nodes
    ensures |ValuesInOrder(order, nodes)| == |order|
  {
    if order != [] {
      ValuesInOrderLength(order[1..], nodes);
    }
  }

  // -----------------------------------------------------------------------
  // get_responsibilities
  // -----------------------------------------------------------------------

  /** A `by_person` entry. */
  datatype Person = Person(title: string, areas: seq<string>, isLead: bool, manager: string, directReports: nat)

  /** A `by_area` entry. */
  datatype AreaEntry = AreaEntry(name: string, title: string, isLead: bool)

  /** A `team_leads` entry. */
  datatype Lead = Lead(name: string, title: string, teamSize: nat)

  datatype Responsibilities = Responsibilities(byPerson: map<string, Person>, byArea: map<string, seq<AreaEntry>>, teamLeads: seq<Lead>)

  /** The entry for one node: a lead iff it has at least one report, and
      `direct_reports` is that number. */
  function PersonFor(n: OrgNode, h: map<string, seq<string>>): (p: Person)
    ensures p.isLead <==> p.directReports >= 1
    ensures p.directReports == |ChildrenOf(h, n.id)|
    ensures p.areas == ExtractAreas(n.title)
  {
    var reports := ChildrenOf(h, n.id);
    Person(n.title, ExtractAreas(n.title), n.id in h && |h[n.id]| > 0,
           match n.manager case None => [] case Some(m) => m.name, |reports|)
  }

  /** Appending one area entry to each listed area, in turn. */
  function AddToAreas(byArea: map<string, seq<AreaEntry>>, areas: seq<string>, e: AreaEntry): map<string, seq<AreaEntry>>
  {
    if areas == [] then byArea
    else
      var prev := AddToAreas(byArea, areas[..|areas| - 1], e);
      var a := areas[|areas| - 1];
      prev[a := (if a in prev then prev[a] else []) + [e]]
  }

  /** `by_person` over `nodes` in order: nameless nodes are skipped and a
      later node with the same name replaces an earlier entry. */
  function ByPersonOf(nodes: seq<OrgNode>, h: map<string, seq<string>>): map<string, Person>
  {
    LastByName(nodes, n => PersonFor(n, h))
  }

  /** Each non-empty name mapped to `f` of the last node carrying it. */
  function LastByName<V>(nodes: seq<OrgNode>, f: OrgNode -> V): map<string, V>
  {
    if nodes == [] then map[]
    else
      var prev := LastByName(nodes[..|nodes| - 1], f);
      var n := nodes[|nodes| - 1];
      if n.name == [] then prev else prev[n.name := f(n)]
  }

  /** `by_area` over `nodes` in order. */
  function ByAreaOf(nodes: seq<OrgNode>, h: map<string, seq<string>>): map<string, seq<AreaEntry>>
  {
    if nodes == [] then map[]
    else
      var prev := ByAreaOf(nodes[..|nodes| - 1], h);
      var n := nodes[|nodes| - 1];
      if n.name == [] then prev
      else AddToAreas(prev, ExtractAreas(n.title), AreaEntry(n.name, n.title, PersonFor(n, h).isLead))
  }

  /** `team_leads` over `nodes` in order. */
  function TeamLeadsOf(nodes: seq<OrgNode>, h: map<string, seq<string>>): seq<Lead>
  {
    if nodes == [] then []
    else
      var prev := TeamLeadsOf(nodes[..|nodes| - 1], h);
      var n := nodes[|nodes| - 1];
      var p := PersonFor(n, h);
      if n.name != [] && p.isLead then prev + [Lead(n.name, n.title, p.directReports)] else prev
  }

  /** The area loop for one person. */
  method AddAreas(byArea: map<string, seq<AreaEntry>>, areas: seq<string>, e: AreaEntry)
    returns (r: map<string, seq<AreaEntry>>)
    ensures r == AddToAreas(byArea, areas, e)
  {
    r := byArea;
    for i := 0 to |areas|
      invariant r == AddToAreas(byArea, areas[..i], e)
    {
      assert areas[..i + 1][..i] == areas[..i];
      var a := areas[i];
      var entries := if a in r then r[a] else [];
      r := r[a := entries + [e]];
    }
    assert areas[..|areas|] == areas;
  }

  /** `get_responsibilities` over a parsed chart's nodes and hierarchy. */
  method GetResponsibilities(nodes: seq<OrgNode>, h: map<string, seq<string>>) returns (r: Responsibilities)
    ensures r == Responsibilities(ByPersonOf(nodes, h), ByAreaOf(nodes, h), TeamLeadsOf(nodes, h))
  {
    var byPerson: map<string, Person> := map[];
    var byArea: map<string, seq<AreaEntry>> := map[];
    var teamLeads: seq<Lead> := [];
    for i := 0 to |nodes|
      invariant byPerson == ByPersonOf(nodes[..i], h)
      invariant byArea == ByAreaOf(nodes[..i], h)
      invariant teamLeads == TeamLeadsOf(nodes[..i], h)
    {
      var n := nodes[i];
      assert nodes[..i + 1][..i] == nodes[..i];
      if n.name == [] {
        continue;
      }
      var areas := ExtractAreas(n.title);
      var isLead := n.id in h && |h[n.id]| > 0;
      var reports := if n.id in h then |h[n.id]| else 0;
      var manager := match n.manager case None => [] case Some(m) => m.name;
      byPerson := byPerson[n.name := Person(n.title, areas, isLead, manager, reports)];
      byArea := AddAreas(byArea, areas, AreaEntry(n.name, n.title, isLead));
      if isLead {
        teamLeads := teamLeads + [Lead(n.name, n.title, reports)];
      }
    }
    assert nodes[..|nodes|] == nodes;
    r := Responsibilities(byPerson, byArea, teamLeads);
  }

  /** A name has an entry iff some node carries it; nameless nodes never
      do. */
  lemma ByPersonKeys(nodes: seq<OrgNode>, h: map<string, seq<string>>, name: string)
    ensures name in ByPersonOf(nodes, h) <==> name != [] && exists n :: n in nodes && n.name == name
  {
    LastByNameKeys(nodes, n => PersonFor(n, h), name);
  }

  lemma {:induction false} LastByNameKeys<V>(nodes: seq<OrgNode>, f: OrgNode -> V, name: string)
    ensures name in LastByName(nodes, f) <==> name != [] && exists n :: n in nodes && n.name == name
  {
    if nodes != [] {
      var k := |nodes| - 1;
      LastByNameKeys(nodes[..k], f, name);
      assert nodes == nodes[..k] + [nodes[k]];
    }
  }

  /** Node `i` is the last node carrying `name`, and gives its entry. */
  predicate LastCarrier(nodes: seq<OrgNode>, h: map<string, seq<string>>, name: string, i: int)
    requires name in ByPersonOf(nodes, h)
  {
    0 <= i < |nodes| && nodes[i].name == name
    && ByPersonOf(nodes, h)[name] == PersonFor(nodes[i], h)
    && forall j :: i < j < |nodes| ==> nodes[j].name != name
  }

  /** The entry for a name is that of the last node carrying it. */
  lemma ByPersonLast(nodes: seq<OrgNode>, h: map<string, seq<string>>, name: string)
    requires name in ByPersonOf(nodes, h)
    ensures exists i :: LastCarrier(nodes, h, name, i)
  {
    var f := n => PersonFor(n, h);
    var i := LastByNameLast(nodes, f, name);
    assert LastCarrier(nodes, h, name, i);
  }

  /** The index of the last node carrying a name that has an entry. */
  lemma {:induction false} LastByNameLast<V>(nodes: seq<OrgNode>, f: OrgNode -> V, name: string) returns (i: int)
    requires name in LastByName(nodes, f)
    ensures 0 <= i < |nodes| && nodes[i].name == name && LastByName(nodes, f)[name] == f(nodes[i])
    ensures forall j :: i < j < |nodes| ==> nodes[j].name != name
  {
    var k := |nodes| - 1;
    var init := nodes[..k];
    if nodes[k].name != name {
      i := LastByNameLast(init, f, name);
      assert nodes[i] == init[i];
      forall j | i < j < |nodes| ensures nodes[j].name != name {
        if j < k {
          assert nodes[j] == init[j];
        }
      }
    } else {
      LastByNameKeys(nodes, f, name);
      i := k;
    }
  }

  /** The team leads are exactly the named nodes with at least one report,
      each with its number of reports. */
  lemma {:induction false} TeamLeadsSpec(nodes: seq<OrgNode>, h: map<string, seq<string>>, l: Lead)
    ensures l in TeamLeadsOf(nodes, h) <==>
      exists n :: n in nodes && n.name != [] && |ChildrenOf(h, n.id)| >= 1
        && l == Lead(n.name, n.title, |ChildrenOf(h, n.id)|)
  {
    if nodes != [] {
      var k := |nodes| - 1;
      TeamLeadsSpec(nodes[..k], h, l);
      assert nodes == nodes[..k] + [nodes[k]];
    }
  }

  /** Every entry under an area belongs to a named node whose areas
      include it. */
  lemma {:induction false} ByAreaSound(nodes: seq<OrgNode>, h: map<string, seq<string>>, a: string, e: AreaEntry)
    requires a in ByAreaOf(nodes, h) && e in ByAreaOf(nodes, h)[a]
    ensures exists n :: (n in nodes && n.name == e.name && n.name != [] && a in ExtractAreas(n.title)
      && e == AreaEntry(n.name, n.title, PersonFor(n, h).isLead))
  {
    if nodes != [] {
      var k := |nodes| - 1;
      var init := nodes[..k];
      var n := nodes[k];
      assert nodes == init + [n];
      var prev := ByAreaOf(init, h);
      if n.name != [] {
        var entry := AreaEntry(n.name, n.title, PersonFor(n, h).isLead);
        AddToAreasSound(prev, ExtractAreas(n.title), entry, a, e);
        if e == entry && a in ExtractAreas(n.title) {
          assert n in nodes;
        } else {
          ByAreaSound(init, h, a, e);
        }
      } else {
        ByAreaSound(init, h, a, e);
      }
    }
  }

  /** Every named node is listed under each of its areas. */
  lemma {:induction false} ByAreaComplete(nodes: seq<OrgNode>, h: map<string, seq<string>>, n: OrgNode, a: string)
    requires n in nodes && n.name != [] && a in ExtractAreas(n.title)
    ensures a in ByAreaOf(nodes, h) && AreaEntry(n.name, n.title, PersonFor(n, h).isLead) in ByAreaOf(nodes, h)[a]
  {
    var k := |nodes| - 1;
    var init := nodes[..k];
    var last := nodes[k];
    assert nodes == init + [last];
    var entry := AreaEntry(n.name, n.title, PersonFor(n, h).isLead);
    if last == n {
      AddToAreasComplete(ByAreaOf(init, h), ExtractAreas(n.title), entry, a);
    } else {
      assert n in init;
      ByAreaComplete(init, h, n, a);
      if last.name != [] {
        AddToAreasKeeps(ByAreaOf(init, h), ExtractAreas(last.title),
                        AreaEntry(last.name, last.title, PersonFor(last, h).isLead), a, entry);
      }
    }
  }

  /** An entry under `a` after adding is the new entry (for a listed area)
      or was there before. */
  lemma {:induction false} AddToAreasSound(byArea: map<string, seq<AreaEntry>>, areas: seq<string>, entry: AreaEntry,
                                           a: string, e: AreaEntry)
    requires a in AddToAreas(byArea, areas, entry) && e in AddToAreas(byArea, areas, entry)[a]
    ensures (e == entry && a in areas) || (a in byArea && e in byArea[a])
  {
    if areas != [] {
      var n := |areas| - 1;
      var prev := AddToAreas(byArea, areas[..n], entry);
      assert areas == areas[..n] + [areas[n]];
      if a == areas[n] {
        if a in prev && e in prev[a] {
          AddToAreasSound(byArea, areas[..n], entry, a, e);
        }
      } else {
        AddToAreasSound(byArea, areas[..n], entry, a, e);
      }
    }
  }

  /** Adding appends the new entry under every listed area. */
  lemma {:induction false} AddToAreasComplete(byArea: map<string, seq<AreaEntry>>, areas: seq<string>, entry: AreaEntry, a: string)
    requires a in areas
    ensures a in AddToAreas(byArea, areas, entry) && entry in AddToAreas(byArea, areas, entry)[a]
  {
    var n := |areas| - 1;
    if areas[n] != a {
      assert areas == areas[..n] + [areas[n]];
      AddToAreasComplete(byArea, areas[..n], entry, a);
    }
  }

  /** Adding never drops an entry. */
  lemma {:induction false} AddToAreasKeeps(byArea: map<string, seq<AreaEntry>>, areas: seq<string>, entry: AreaEntry,
                                           a: string, e: AreaEntry)
    requires a in byArea && e in byArea[a]
    ensures a in AddToAreas(byArea, areas, entry) && e in AddToAreas(byArea, areas, entry)[a]
  {
    if areas != [] {
      AddToAreasKeeps(byArea, areas[..|areas| - 1], entry, a, e);
    }
  }
}
