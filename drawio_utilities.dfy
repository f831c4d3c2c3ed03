/** drawio_utilities.py: turning a related-issues export into a draw.io
    diagram. The colour and badge lookups, the CSV loader, and the layout,
    cell-id allocation and edge resolution of `create_drawio_xml` are
    modelled; the XML text itself is not, a diagram being its list of
    vertex and edge cells. Cell ids are kept as the numbers whose decimal
    text the source writes. */
module DrawioUtilities {
  import opened Common

  // -----------------------------------------------------------------------
  // Colours
  // -----------------------------------------------------------------------

  /** Edge and border colours by relationship, in table order. */
  const LinkColors: seq<(string, string)> := [
    ("is blocked by", "FF0000"), ("blocks", "FF0000"),
    ("is cloned by", "FFA500"), ("clones", "FFA500"),
    ("is duplicated by", "808080"), ("duplicates", "808080"),
    ("relates to", "0000FF"), ("is related to", "0000FF"),
    ("is caused by", "FFCC00"), ("causes", "FFCC00"),
    ("child", "00AA00"), ("is child of", "00AA00"), ("is parent of", "00AA00")]

  const DefaultLinkColor: string := "666666"

  /** Box fills by relationship (lighter shades), in table order. */
  const BoxFillColors: seq<(string, string)> := [
    ("is blocked by", "FFCCCC"), ("blocks", "FFCCCC"),
    ("relates to", "CCE5FF"), ("is related to", "CCE5FF"),
    ("is cloned by", "FFE5CC"), ("clones", "FFE5CC"),
    ("is caused by", "FFFFCC"), ("causes", "FFFFCC"),
    ("child", "E6FFE6")]

  const DefaultBoxFill: string := "FFFFFF"
  const RootBoxFill: string := "E6FFE6"

  /** `dict.get(k, default)` on a table literal, whose keys are distinct:
      the value of the entry for `k`, else the default. */
  function Lookup(table: seq<(string, string)>, k: string, default: string): string
  {
    if table == [] then default
    else if table[0].0 == k then table[0].1
    else Lookup(table[1..], k, default)
  }

  /** A lookup finds the entry for the key when there is one, and gives the
      default otherwise. */
  lemma {:induction false} LookupSpec(table: seq<(string, string)>, k: string, default: string)
    ensures (forall i :: 0 <= i < |table| ==> table[i].0 != k) ==> Lookup(table, k, default) == default
    ensures (exists i :: 0 <= i < |table| && table[i].0 == k) ==>
      exists i :: 0 <= i < |table| && table[i].0 == k && Lookup(table, k, default) == table[i].1
  {
    if table != [] {
      LookupSpec(table[1..], k, default);
      if table[0].0 != k {
        if exists i :: 0 <= i < |table| && table[i].0 == k {
          var i :| 0 <= i < |table| && table[i].0 == k;
          assert table[1..][i - 1].0 == k;
          var j :| 0 <= j < |table[1..]| && table[1..][j].0 == k && Lookup(table[1..], k, default) == table[1..][j].1;
          assert table[j + 1] == table[1..][j];
        }
      }
    }
  }

  /** `link_via.lower().strip()`: the lookup key of a relationship. */
  function LinkKey(linkVia: string): string
  {
    Strip(Lower(linkVia))
  }

  /** `get_box_color`: the root's fill for depth 0 whatever the link; else
      the fill of the normalised relationship, white when unknown or empty. */
  function GetBoxColor(linkVia: string, depth: int): (c: string)
    ensures depth == 0 ==> c == RootBoxFill
    ensures depth != 0 && linkVia != "" ==> c == Lookup(BoxFillColors, LinkKey(linkVia), DefaultBoxFill)
    ensures depth != 0 && linkVia == "" ==> c == DefaultBoxFill
  {
    if depth == 0 then RootBoxFill
    else if linkVia != "" then Lookup(BoxFillColors, LinkKey(linkVia), DefaultBoxFill)
    else DefaultBoxFill
  }

  /** `get_stroke_color`: the colour of the normalised relationship, grey
      when unknown or empty. */
  function GetStrokeColor(linkVia: string): (c: string)
    ensures linkVia != "" ==> c == Lookup(LinkColors, LinkKey(linkVia), DefaultLinkColor)
    ensures linkVia == "" ==> c == DefaultLinkColor
  {
    if linkVia != "" then Lookup(LinkColors, LinkKey(linkVia), DefaultLinkColor) else DefaultLinkColor
  }

  predicate KeysNonEmpty(table: seq<(string, string)>)
  {
    forall i :: 0 <= i < |table| ==> table[i].0 != ""
  }

  /** The colours depend only on the relationship's normalised text: case
      and surrounding whitespace do not matter, and an empty link reads like
      an unknown one. */
  lemma ColorsDependOnLinkKey(a: string, b: string, depth: int)
    requires LinkKey(a) == LinkKey(b)
    ensures GetStrokeColor(a) == GetStrokeColor(b)
    ensures GetBoxColor(a, depth) == GetBoxColor(b, depth)
  {
    TablesKeysNonEmpty();
    LookupDependsOnKey(LinkColors, DefaultLinkColor, a, b);
    LookupDependsOnKey(BoxFillColors, DefaultBoxFill, a, b);
  }

  /** A lookup of a link's key in a table without an empty key gives the
      default for the empty link, so it depends on the key alone. */
  lemma LookupDependsOnKey(table: seq<(string, string)>, default: string, a: string, b: string)
    requires KeysNonEmpty(table) && LinkKey(a) == LinkKey(b)
    ensures (if a != "" then Lookup(table, LinkKey(a), default) else default)
         == (if b != "" then Lookup(table, LinkKey(b), default) else default)
  {
    if a == "" || b == "" {
      assert LinkKey(a) == "" by {
        assert LinkKey("") == "";
      }
      LookupSpec(table, "", default);
    }
  }

  /** No table has an entry for the empty relationship. */
  lemma TablesKeysNonEmpty()
    ensures KeysNonEmpty(LinkColors) && KeysNonEmpty(BoxFillColors)
  {
    forall i | 0 <= i < |LinkColors| ensures LinkColors[i].0 != "" {
      assert |LinkColors[i].0| > 0;
    }
    forall i | 0 <= i < |BoxFillColors| ensures BoxFillColors[i].0 != "" {
      assert |BoxFillColors[i].0| > 0;
    }
  }

  /** Every colour is the one its table gives the normalised link, or the
      default. */
  lemma ColorsInRange(linkVia: string, depth: int)
    ensures GetStrokeColor(linkVia) == DefaultLinkColor
            || exists i :: 0 <= i < |LinkColors| && LinkColors[i] == (LinkKey(linkVia), GetStrokeColor(linkVia))
    ensures GetBoxColor(linkVia, depth) in {DefaultBoxFill, RootBoxFill}
            || exists i :: 0 <= i < |BoxFillColors| && BoxFillColors[i] == (LinkKey(linkVia), GetBoxColor(linkVia, depth))
  {
    LookupSpec(LinkColors, LinkKey(linkVia), DefaultLinkColor);
    LookupSpec(BoxFillColors, LinkKey(linkVia), DefaultBoxFill);
  }

  // -----------------------------------------------------------------------
  // Status badges
  // -----------------------------------------------------------------------

  /** The badge shown in a box, one per keyword group. */
  datatype Badge = Blocked | InProgress | InReview | Testing | Finished | Waiting | Neutral

  /** The keyword groups in table order. */
  const StatusKeywords: seq<(seq<string>, Badge)> := [
    (["blocked", "impediment"], Blocked),
    (["in progress", "implement", "doing", "wip"], InProgress),
    (["review", "code review", "pr review"], InReview),
    (["qa", "test", "testing", "verify", "verification"], Testing),
    (["done", "closed", "resolved", "complete", "completed"], Finished),
    (["to do", "todo", "backlog", "open", "ready"], Waiting)]

  const DefaultBadge: Badge := Neutral

  predicate AnyKeywordIn(keywords: seq<string>, s: string)
  {
    exists i :: 0 <= i < |keywords| && Contains(s, keywords[i])
  }

  /** The index of the first group with a keyword contained in `s`. */
  function FirstMatchingGroup(groups: seq<(seq<string>, Badge)>, s: string): (r: Option<nat>)
    ensures r.Some? ==> r.value < |groups| && AnyKeywordIn(groups[r.value].0, s)
    ensures r.Some? ==> forall j :: 0 <= j < r.value ==> !AnyKeywordIn(groups[j].0, s)
    ensures r.None? ==> forall j :: 0 <= j < |groups| ==> !AnyKeywordIn(groups[j].0, s)
  {
    if groups == [] then None
    else if AnyKeywordIn(groups[0].0, s) then Some(0)
    else match FirstMatchingGroup(groups[1..], s)
      case None => None
      case Some(i) => Some(i + 1)
  }

  /** `get_status_emoji`: the default for an empty status; otherwise the
      badge of the first group, in table order, with a keyword inside the
      lowercased stripped status; the default when none matches. */
  function GetStatusEmoji(status: string): (b: Badge)
    ensures status == "" ==> b == DefaultBadge
    ensures status != "" ==>
      match FirstMatchingGroup(StatusKeywords, Strip(Lower(status)))
      case Some(i) => b == StatusKeywords[i].1
      case None => b == DefaultBadge
  {
    if status == "" then DefaultBadge
    else match FirstMatchingGroup(StatusKeywords, Strip(Lower(status)))
      case Some(i) => StatusKeywords[i].1
      case None => DefaultBadge
  }

  /** A blocked status always shows the blocked badge, whatever else it says:
      the first group takes precedence over the rest. */
  lemma BlockedTakesPrecedence(status: string)
    requires Contains(Strip(Lower(status)), "blocked")
    ensures GetStatusEmoji(status) == Blocked
  {
    assert StatusKeywords[0].0[0] == "blocked";
    assert AnyKeywordIn(StatusKeywords[0].0, Strip(Lower(status)));
    assert Strip(Lower(status)) != [];
    assert |status| > 0;
  }

  /** A status with no keyword of any group shows the default badge. */
  lemma UnmatchedStatusIsNeutral(status: string)
    requires forall j :: 0 <= j < |StatusKeywords| ==> !AnyKeywordIn(StatusKeywords[j].0, Strip(Lower(status)))
    ensures GetStatusEmoji(status) == Neutral
  {
  }

  // -----------------------------------------------------------------------
  // The CSV loader
  // -----------------------------------------------------------------------

  /** A row as `csv.DictReader` yields it: a cell per column, None where
      the line is short. */
  type RawRow = map<string, Option<string>>

  /** A loaded ticket: its cells and the integer depth. */
  datatype LoadedRow = LoadedRow(cells: RawRow, depth: int)

  /** `int(row.get('depth', 0))`, with 0 when that raises. */
  function DepthOf(row: RawRow): (d: int)
    ensures "depth" !in row ==> d == 0
    ensures "depth" in row && ParseInt(row["depth"]).None? ==> d == 0
    ensures "depth" in row && ParseInt(row["depth"]).Some? ==> d == ParseInt(row["depth"]).value
  {
    if "depth" !in row then 0
    else match ParseInt(row["depth"])
      case None => 0
      case Some(v) => v
  }

  /** The input path `load_tickets_from_csv` opens: the given one if it
      exists, else the same with `.csv` added when that exists and the name
      lacked the extension; None is the FileNotFoundError. */
  function ResolveInputPath(inputFile: string, exists_: string -> bool): (r: Option<string>)
    ensures exists_(inputFile) ==> r == Some(inputFile)
    ensures r.Some? ==> exists_(r.value)
    ensures r.Some? && r.value != inputFile ==> r.value == inputFile + ".csv" && !EndsWith(inputFile, ".csv")
  {
    if exists_(inputFile) then Some(inputFile)
    else if !EndsWith(inputFile, ".csv") && exists_(inputFile + ".csv") then Some(inputFile + ".csv")
    else None
  }

  /** `load_tickets_from_csv` after the file is opened: both `key` and
      `depth` columns are required (Err names the first missing one), and
      each row's depth is converted, an unparsable one becoming 0. */
  method LoadTickets(fieldnames: seq<string>, rows: seq<RawRow>) returns (r: Result<seq<LoadedRow>>)
    ensures r.Ok? <==> "key" in fieldnames && "depth" in fieldnames
    ensures "key" !in fieldnames ==> r == Err("key")
    ensures "key" in fieldnames && "depth" !in fieldnames ==> r == Err("depth")
    ensures r.Ok? ==> (|r.value| == |rows|
      && forall i :: 0 <= i < |rows| ==> r.value[i] == LoadedRow(rows[i], DepthOf(rows[i])))
  {
    if "key" !in fieldnames {
      return Err("key");
    }
    if "depth" !in fieldnames {
      return Err("depth");
    }
    var tickets: seq<LoadedRow> := [];
    var i := 0;
    while i < |rows|
      invariant 0 <= i <= |rows|
      invariant |tickets| == i
      invariant forall j :: 0 <= j < i ==> tickets[j] == LoadedRow(rows[j], DepthOf(rows[j]))
    {
      var row := rows[i];
      var depth := 0;
      if "depth" in row {
        var parsed := ParseInt(row["depth"]);
        if parsed.Some? {
          depth := parsed.value;
        }
      }
      tickets := tickets + [LoadedRow(row, depth)];
      i := i + 1;
    }
    r := Ok(tickets);
  }

  // -----------------------------------------------------------------------
  // create_drawio_xml: grouping and layout
  // -----------------------------------------------------------------------

  /** A ticket as the diagram builder reads it. */
  datatype Ticket = Ticket(key: string, depth: int, linkVia: string, fromKey: string, summary: string, status: string)

  // Boxes are 180 wide and 60 high, 40 apart in a row; rows are 80 apart,
  // so one row is 140 below the previous; the page margin is 50. The
  // numbers are written out below to keep the arithmetic linear.

  predicate NoDupKeys(ts: seq<Ticket>)
  {
    forall i, j :: 0 <= i < j < |ts| ==> ts[i].key != ts[j].key
  }

  /** The keys of `ts`. */
  function TicketKeys(ts: seq<Ticket>): set<string>
  {
    set x | x in ts :: x.key
  }

  /** The depths occurring in `ts`: the keys of `by_depth`. */
  function Depths(ts: seq<Ticket>): set<int>
  {
    set x | x in ts :: x.depth
  }

  /** The tickets of one depth, in input order: `by_depth[d]`. */
  function AtDepth(ts: seq<Ticket>, d: int): seq<Ticket>
  {
    if ts == [] then []
    else AtDepth(ts[..|ts| - 1], d) + (if ts[|ts| - 1].depth == d then [ts[|ts| - 1]] else [])
  }

  /** Appending a ticket appends it to its own depth's row only. */
  lemma AtDepthSnoc(ts: seq<Ticket>, t: Ticket, d: int)
    ensures AtDepth(ts + [t], d) == AtDepth(ts, d) + (if t.depth == d then [t] else [])
  {
    assert (ts + [t])[..|ts|] == ts;
  }

  /** A row holds exactly the tickets of its depth. */
  lemma {:induction false} AtDepthMembers(ts: seq<Ticket>, d: int)
    ensures forall x :: x in AtDepth(ts, d) <==> x in ts && x.depth == d
  {
    if ts != [] {
      var n := |ts| - 1;
      AtDepthMembers(ts[..n], d);
      assert ts == ts[..n] + [ts[n]];
    }
  }

  /** Grouping keeps no ticket twice under one key when keys are distinct. */
  lemma {:induction false} AtDepthNoDupKeys(ts: seq<Ticket>, d: int)
    requires NoDupKeys(ts)
    ensures NoDupKeys(AtDepth(ts, d))
  {
    if ts != [] {
      var n := |ts| - 1;
      var init := ts[..n];
      AtDepthNoDupKeys(init, d);
      if ts[n].depth == d {
        var a := AtDepth(init, d);
        AtDepthMembers(init, d);
        forall x | x in a ensures x.key != ts[n].key {
          var j :| 0 <= j < n && init[j] == x;
          assert ts[j] == x;
        }
        assert AtDepth(ts, d) == a + [ts[n]];
      }
    }
  }

  /** A depth that no ticket has has an empty row. */
  lemma {:induction false} AtDepthAbsent(ts: seq<Ticket>, d: int)
    requires d !in Depths(ts)
    ensures AtDepth(ts, d) == []
  {
    if ts != [] {
      var n := |ts| - 1;
      assert ts[n] in ts;
      assert ts[n].depth != d;
      assert Depths(ts[..n]) <= Depths(ts);
      AtDepthAbsent(ts[..n], d);
    }
  }

  /** With distinct keys, tickets at different depths have different keys. */
  lemma DistinctDepthDistinctKey(ts: seq<Ticket>, x: Ticket, y: Ticket)
    requires NoDupKeys(ts) && x in ts && y in ts && x.depth != y.depth
    ensures x.key != y.key
  {
    var i :| 0 <= i < |ts| && ts[i] == x;
    var j :| 0 <= j < |ts| && ts[j] == y;
    assert i != j;
  }

  /** `by_depth`, filled by `setdefault(depth, []).append(ticket)`. */
  method GroupByDepth(tickets: seq<Ticket>) returns (byDepth: map<int, seq<Ticket>>)
    ensures byDepth.Keys == Depths(tickets)
    ensures forall d :: d in byDepth ==> byDepth[d] == AtDepth(tickets, d)
  {
    byDepth := map[];
    for k := 0 to |tickets|
      invariant byDepth.Keys == Depths(tickets[..k])
      invariant forall d :: d in byDepth ==> byDepth[d] == AtDepth(tickets[..k], d)
    {
      var t := tickets[k];
      ghost var pre := tickets[..k];
      assert tickets[..k + 1] == pre + [t];
      if t.depth !in byDepth {
        AtDepthAbsent(pre, t.depth);
      }
      var row := if t.depth in byDepth then byDepth[t.depth] else [];
      byDepth := byDepth[t.depth := row + [t]];
      forall d | d in byDepth ensures byDepth[d] == AtDepth(pre + [t], d) {
        AtDepthSnoc(pre, t, d);
      }
      assert Depths(pre + [t]) == Depths(pre) + {t.depth};
    }
    assert tickets[..|tickets|] == tickets;
  }

  predicate StrictlyIncreasing(s: seq<int>)
  {
    forall i, j :: 0 <= i < j < |s| ==> s[i] < s[j]
  }

  /** `d` inserted into a strictly increasing list, unless already there. */
  function InsertDepth(d: int, s: seq<int>): (r: seq<int>)
    requires StrictlyIncreasing(s)
    ensures StrictlyIncreasing(r)
    ensures forall x :: x in r <==> x == d || x in s
  {
    if s == [] then [d]
    else if d < s[0] then [d] + s
    else if d == s[0] then s
    else
      var rest := InsertDepth(d, s[1..]);
      assert forall x :: x in s <==> x == s[0] || x in s[1..];
      assert forall j :: 0 <= j < |s[1..]| ==> s[0] < s[1..][j];
      assert forall j :: 0 <= j < |rest| ==> rest[j] in rest && s[0] < rest[j];
      [s[0]] + rest
  }

  /** `sorted(by_depth.keys())`: the depths of the tickets, ascending and
      each once. */
  function SortedDepths(ts: seq<Ticket>): (r: seq<int>)
    ensures StrictlyIncreasing(r)
    ensures forall x :: x in r <==> x in Depths(ts)
  {
    if ts == [] then []
    else
      var n := |ts| - 1;
      assert ts == ts[..n] + [ts[n]];
      assert Depths(ts) == Depths(ts[..n]) + {ts[n].depth};
      InsertDepth(ts[n].depth, SortedDepths(ts[..n]))
  }

  /** The width of a row of `count` boxes. */
  function RowWidth(count: int): int
  {
    count * 180 + (count - 1) * 40
  }

  /** Where a row of `count` boxes starts so that it is centred on the
      widest row. The source divides by 2 in floating point; the difference
      of two row widths is a multiple of 220, so the division is exact
      (lemma RowsCentred). */
  function StartX(count: int, maxWidth: int): int
  {
    (maxWidth - RowWidth(count)) / 2 + 50
  }

  function RowY(depth: int): int
  {
    50 + depth * 140
  }

  /** The widest row over `depths`, `max_width` starting at 0. */
  function MaxRowWidth(depths: seq<int>, tickets: seq<Ticket>): int
  {
    if depths == [] then 0
    else Max(MaxRowWidth(depths[..|depths| - 1], tickets), RowWidth(|AtDepth(tickets, depths[|depths| - 1])|))
  }

  /** The widest row is at least as wide as every row, and is one of them. */
  lemma {:induction false} MaxRowWidthIsMax(depths: seq<int>, tickets: seq<Ticket>)
    requires forall i :: 0 <= i < |depths| ==> AtDepth(tickets, depths[i]) != []
    ensures forall i :: 0 <= i < |depths| ==> RowWidth(|AtDepth(tickets, depths[i])|) <= MaxRowWidth(depths, tickets)
    ensures depths != [] ==>
      exists i :: 0 <= i < |depths| && RowWidth(|AtDepth(tickets, depths[i])|) == MaxRowWidth(depths, tickets)
  {
    if depths != [] {
      var n := |depths| - 1;
      var init := depths[..n];
      MaxRowWidthIsMax(init, tickets);
      assert forall i :: 0 <= i < n ==> init[i] == depths[i];
      var lastWidth := RowWidth(|AtDepth(tickets, depths[n])|);
      if n > 0 && MaxRowWidth(init, tickets) >= lastWidth {
        var i :| 0 <= i < n && RowWidth(|AtDepth(tickets, init[i])|) == MaxRowWidth(init, tickets);
        assert RowWidth(|AtDepth(tickets, depths[i])|) == MaxRowWidth(depths, tickets);
      } else {
        assert MaxRowWidth(depths, tickets) == lastWidth;
      }
    }
  }

  /** Every row is centred on the widest one: the margins left and right of
      it are equal (the halving is exact) and not less than the page margin. */
  lemma RowsCentred(depths: seq<int>, tickets: seq<Ticket>, d: int)
    requires forall i :: 0 <= i < |depths| ==> AtDepth(tickets, depths[i]) != []
    requires d in depths
    ensures var c := |AtDepth(tickets, d)|;
            var m := MaxRowWidth(depths, tickets);
            var x := StartX(c, m);
            x - 50 == (50 + m) - (x + RowWidth(c)) && x >= 50
  {
    MaxRowWidthIsMax(depths, tickets);
    var c := |AtDepth(tickets, d)|;
    var m := MaxRowWidth(depths, tickets);
    var i :| 0 <= i < |depths| && RowWidth(|AtDepth(tickets, depths[i])|) == m;
    var j :| 0 <= j < |depths| && depths[j] == d;
    var ci := |AtDepth(tickets, depths[i])|;
    assert RowWidth(c) <= m;
    var half := 110 * (ci - c);
    assert m - RowWidth(c) == 2 * half;
    assert StartX(c, m) == half + 50;
  }

  /** The writes of one row into `positions`, last write winning. */
  function RowPositions(row: seq<Ticket>, startX: int, y: int, pos: map<string, (int, int)>): map<string, (int, int)>
  {
    if row == [] then pos
    else RowPositions(row[..|row| - 1], startX, y, pos)[row[|row| - 1].key := (startX + (|row| - 1) * 220, y)]
  }

  /** `positions` after the rows of `depths`, in that order. */
  function PositionsOf(depths: seq<int>, tickets: seq<Ticket>, maxWidth: int): map<string, (int, int)>
  {
    if depths == [] then map[]
    else
      var d := depths[|depths| - 1];
      var row := AtDepth(tickets, d);
      RowPositions(row, StartX(|row|, maxWidth), RowY(d), PositionsOf(depths[..|depths| - 1], tickets, maxWidth))
  }

  /** A row writes a position for each of its keys and keeps the others. */
  lemma {:induction false} RowPositionsKeys(row: seq<Ticket>, startX: int, y: int, pos: map<string, (int, int)>)
    ensures RowPositions(row, startX, y, pos).Keys == pos.Keys + TicketKeys(row)
  {
    if row != [] {
      var n := |row| - 1;
      RowPositionsKeys(row[..n], startX, y, pos);
      assert row == row[..n] + [row[n]];
      assert TicketKeys(row) == TicketKeys(row[..n]) + {row[n].key};
    }
  }

  /** In a row with distinct keys, box `i` is `i` steps of 220 from the start. */
  lemma {:induction false} RowPositionsAt(row: seq<Ticket>, startX: int, y: int, pos: map<string, (int, int)>, i: int)
    requires NoDupKeys(row) && 0 <= i < |row|
    ensures row[i].key in RowPositions(row, startX, y, pos)
    ensures RowPositions(row, startX, y, pos)[row[i].key] == (startX + i * 220, y)
  {
    var n := |row| - 1;
    if i < n {
      var init := row[..n];
      assert NoDupKeys(init);
      assert init[i] == row[i];
      RowPositionsAt(init, startX, y, pos, i);
      assert row[i].key != row[n].key;
    }
  }

  /** A row leaves the other keys' positions alone. */
  lemma {:induction false} RowPositionsOutside(row: seq<Ticket>, startX: int, y: int, pos: map<string, (int, int)>, k: string)
    requires k in pos
    requires forall j :: 0 <= j < |row| ==> row[j].key != k
    ensures k in RowPositions(row, startX, y, pos)
    ensures RowPositions(row, startX, y, pos)[k] == pos[k]
  {
    if row != [] {
      RowPositionsOutside(row[..|row| - 1], startX, y, pos, k);
    }
  }

  /** With distinct keys, the `i`-th ticket of depth `d` is placed at row
      `d`'s height, `i` steps of 220 from the row's start. */
  lemma {:induction false} PositionsOfAt(depths: seq<int>, tickets: seq<Ticket>, maxWidth: int, d: int, i: int)
    requires NoDupKeys(tickets) && d in depths && 0 <= i < |AtDepth(tickets, d)|
    ensures AtDepth(tickets, d)[i].key in PositionsOf(depths, tickets, maxWidth)
    ensures var row := AtDepth(tickets, d);
            PositionsOf(depths, tickets, maxWidth)[row[i].key] == (StartX(|row|, maxWidth) + i * 220, RowY(d))
  {
    var n := |depths| - 1;
    var last := depths[n];
    var lastRow := AtDepth(tickets, last);
    var prev := PositionsOf(depths[..n], tickets, maxWidth);
    var row := AtDepth(tickets, d);
    assert PositionsOf(depths, tickets, maxWidth) == RowPositions(lastRow, StartX(|lastRow|, maxWidth), RowY(last), prev);
    if last == d {
      AtDepthNoDupKeys(tickets, last);
      RowPositionsAt(lastRow, StartX(|lastRow|, maxWidth), RowY(last), prev, i);
    } else {
      var j :| 0 <= j < |depths| && depths[j] == d;
      assert depths[..n][j] == d;
      PositionsOfAt(depths[..n], tickets, maxWidth, d, i);
      AtDepthMembers(tickets, d);
      AtDepthMembers(tickets, last);
      assert row[i] in row;
      forall j | 0 <= j < |lastRow| ensures lastRow[j].key != row[i].key {
        assert lastRow[j] in lastRow;
        DistinctDepthDistinctKey(tickets, lastRow[j], row[i]);
      }
      RowPositionsOutside(lastRow, StartX(|lastRow|, maxWidth), RowY(last), prev, row[i].key);
    }
  }

  /** Exactly the tickets whose depth is laid out have a position. */
  lemma {:induction false} PositionsOfKeys(depths: seq<int>, tickets: seq<Ticket>, maxWidth: int)
    ensures forall k :: k in PositionsOf(depths, tickets, maxWidth) <==>
      exists t :: t in tickets && t.depth in depths && t.key == k
  {
    if depths != [] {
      var n := |depths| - 1;
      var d := depths[n];
      var row := AtDepth(tickets, d);
      var prev := PositionsOf(depths[..n], tickets, maxWidth);
      PositionsOfKeys(depths[..n], tickets, maxWidth);
      RowPositionsKeys(row, StartX(|row|, maxWidth), RowY(d), prev);
      AtDepthMembers(tickets, d);
      assert depths == depths[..n] + [d];
      forall k ensures k in PositionsOf(depths, tickets, maxWidth) <==>
        exists t :: t in tickets && t.depth in depths && t.key == k
      {
        if k in PositionsOf(depths, tickets, maxWidth) {
          if k in prev {
            var t :| t in tickets && t.depth in depths[..n] && t.key == k;
            assert t.depth in depths;
          } else {
            var t :| t in row && t.key == k;
            assert t in tickets && t.depth in depths;
          }
        }
        if exists t :: t in tickets && t.depth in depths && t.key == k {
          var t :| t in tickets && t.depth in depths && t.key == k;
          if t.depth == d {
            assert t in row;
          } else {
            assert t.depth in depths[..n];
          }
        }
      }
    }
  }

  /** The two layout loops: the row widths, then `positions`. */
  method LayOut(tickets: seq<Ticket>, byDepth: map<int, seq<Ticket>>, depths: seq<int>)
    returns (maxWidth: int, positions: map<string, (int, int)>)
    requires forall d :: d in depths ==> d in byDepth && byDepth[d] == AtDepth(tickets, d)
    ensures maxWidth == MaxRowWidth(depths, tickets)
    ensures positions == PositionsOf(depths, tickets, maxWidth)
  {
    maxWidth := MeasureRows(tickets, byDepth, depths);
    positions := PlaceRows(tickets, byDepth, depths, maxWidth);
  }

  /** The first loop: the widest row. */
  method MeasureRows(tickets: seq<Ticket>, byDepth: map<int, seq<Ticket>>, depths: seq<int>) returns (maxWidth: int)
    requires forall d :: d in depths ==> d in byDepth && byDepth[d] == AtDepth(tickets, d)
    ensures maxWidth == MaxRowWidth(depths, tickets)
  {
    maxWidth := 0;
    for k := 0 to |depths|
      invariant maxWidth == MaxRowWidth(depths[..k], tickets)
    {
      var d := depths[k];
      assert d in depths;
      var count := |byDepth[d]|;
      var rowWidth := count * 180 + (count - 1) * 40;
      if rowWidth > maxWidth {
        maxWidth := rowWidth;
      }
      assert depths[..k + 1][..k] == depths[..k];
    }
    assert depths[..|depths|] == depths;
  }

  /** The second loop: every row of `depths` in turn. */
  method PlaceRows(tickets: seq<Ticket>, byDepth: map<int, seq<Ticket>>, depths: seq<int>, maxWidth: int)
    returns (positions: map<string, (int, int)>)
    requires forall d :: d in depths ==> d in byDepth && byDepth[d] == AtDepth(tickets, d)
    ensures positions == PositionsOf(depths, tickets, maxWidth)
  {
    positions := map[];
    for k := 0 to |depths|
      invariant positions == PositionsOf(depths[..k], tickets, maxWidth)
    {
      var d := depths[k];
      assert d in depths;
      var row := byDepth[d];
      var count := |row|;
      var rowWidth := count * 180 + (count - 1) * 40;
      var startX := (maxWidth - rowWidth) / 2 + 50;
      var y := 50 + d * 140;
      positions := PlaceRow(row, startX, y, positions);
      assert depths[..k + 1][..k] == depths[..k];
    }
    assert depths[..|depths|] == depths;
  }

  /** The inner loop: the boxes of one row, 220 apart from `startX`. */
  method PlaceRow(row: seq<Ticket>, startX: int, y: int, before: map<string, (int, int)>)
    returns (positions: map<string, (int, int)>)
    ensures positions == RowPositions(row, startX, y, before)
  {
    positions := before;
    for i := 0 to |row|
      invariant positions == RowPositions(row[..i], startX, y, before)
    {
      positions := positions[row[i].key := (startX + i * 220, y)];
      assert row[..i + 1][..i] == row[..i];
    }
    assert row[..|row|] == row;
  }

  // -----------------------------------------------------------------------
  // create_drawio_xml: vertices and cell ids
  // -----------------------------------------------------------------------

  /** The summary shown in a box: stripped, cut before the first "(via ",
      stripped again, and shortened to 37 characters and "..." when longer
      than 40. */
  function DisplaySummary(summary: string): (r: string)
    ensures |r| <= 40
    ensures !Contains(Strip(summary), "(via ") && |Strip(summary)| <= 40 ==> r == Strip(summary)
  {
    var s := Strip(summary);
    var cut := match IndexOf(s, "(via ")
      case Some(i) => Strip(s[..i])
      case None => s;
    if |cut| > 40 then cut[..37] + "..." else cut
  }

  /** A vertex cell: its id, the ticket it shows and the top-left corner of
      its box. What the cell's label and style show is derived from the
      ticket by the member functions. */
  datatype Vertex = Vertex(id: nat, ticket: Ticket, x: int, y: int)
  {
    function Fill(): string { GetBoxColor(ticket.linkVia, ticket.depth) }
    function Stroke(): string { GetStrokeColor(ticket.linkVia) }
    /** The status text shown after the key; none when blank. */
    function StatusText(): string { Strip(ticket.status) }
    function StatusBadge(): Badge { GetStatusEmoji(StatusText()) }
    function Summary(): string { DisplaySummary(ticket.summary) }
  }

  /** The cell drawn for ticket `t` with id `id` at `pos`. */
  function VertexFor(t: Ticket, id: nat, pos: (int, int)): Vertex
  {
    Vertex(id, t, pos.0, pos.1)
  }

  /** `cell_ids` after the vertex loop: each key maps to the id of its last
      ticket, ids being 2, 3, ... in ticket order. */
  function CellIdsOf(ts: seq<Ticket>): map<string, nat>
  {
    if ts == [] then map[]
    else CellIdsOf(ts[..|ts| - 1])[ts[|ts| - 1].key := |ts| + 1]
  }

  /** Every key has a cell id; the id of a key is 2 plus the index of the
      key's last ticket. Hence distinct keys have distinct ids. */
  lemma {:induction false} CellIdsKeys(ts: seq<Ticket>)
    ensures CellIdsOf(ts).Keys == TicketKeys(ts)
  {
    if ts != [] {
      var n := |ts| - 1;
      CellIdsKeys(ts[..n]);
      assert ts == ts[..n] + [ts[n]];
      assert TicketKeys(ts) == TicketKeys(ts[..n]) + {ts[n].key};
    }
  }

  /** The id of a key is 2 plus the index of the key's last ticket. */
  lemma {:induction false} CellIdsSpec(ts: seq<Ticket>)
    ensures forall k :: k in CellIdsOf(ts) ==> 2 <= CellIdsOf(ts)[k] < |ts| + 2 && ts[CellIdsOf(ts)[k] - 2].key == k
    ensures forall k, j :: k in CellIdsOf(ts) && CellIdsOf(ts)[k] - 2 < j < |ts| ==> ts[j].key != k
  {
    if ts != [] {
      var n := |ts| - 1;
      var init := ts[..n];
      CellIdsSpec(init);
      var r := CellIdsOf(ts);
      var p := CellIdsOf(init);
      assert r == p[ts[n].key := n + 2];
      forall k | k in r ensures 2 <= r[k] < |ts| + 2 && ts[r[k] - 2].key == k {
        if k != ts[n].key {
          assert r[k] == p[k];
          assert init[p[k] - 2] == ts[p[k] - 2];
        }
      }
      forall k, j | k in r && r[k] - 2 < j < |ts| ensures ts[j].key != k {
        if k != ts[n].key {
          assert r[k] == p[k];
          if j < n {
            assert init[j] == ts[j];
          }
        }
      }
    }
  }

  /** The vertex loop of `create_drawio_xml`: one cell per ticket, ids from
      "2" in ticket order, each at its key's position. */
  method PlaceVertices(tickets: seq<Ticket>, positions: map<string, (int, int)>)
    returns (vertices: seq<Vertex>, cellIds: map<string, nat>, counter: nat)
    requires forall j :: 0 <= j < |tickets| ==> tickets[j].key in positions
    ensures |vertices| == |tickets|
    ensures forall j :: 0 <= j < |tickets| ==> vertices[j] == VertexFor(tickets[j], j + 2, positions[tickets[j].key])
    ensures cellIds == CellIdsOf(tickets)
    ensures counter == |tickets| + 2
  {
    vertices := [];
    cellIds := map[];
    counter := 2;
    for j := 0 to |tickets|
      invariant counter == j + 2
      invariant |vertices| == j
      invariant forall i :: 0 <= i < j ==> vertices[i] == VertexFor(tickets[i], i + 2, positions[tickets[i].key])
      invariant cellIds == CellIdsOf(tickets[..j])
    {
      var t := tickets[j];
      cellIds := cellIds[t.key := counter];
      vertices := vertices + [VertexFor(t, counter, positions[t.key])];
      counter := counter + 1;
      assert tickets[..j + 1][..j] == tickets[..j];
    }
    assert tickets[..|tickets|] == tickets;
  }

  // -----------------------------------------------------------------------
  // create_drawio_xml: edges
  // -----------------------------------------------------------------------

  /** An edge cell: id, source and target cell ids, and caption (the
      relationship); its colour is the caption's stroke colour. */
  datatype Edge = Edge(id: nat, source: nat, target: nat, caption: string)
  {
    function Color(): string { GetStrokeColor(caption) }
  }

  function Triple(e: Edge): (nat, nat, string)
  {
    (e.source, e.target, e.caption)
  }

  /** `created_edges`: the (source, target, label) triples drawn. */
  function TriplesOf(es: seq<Edge>): set<(nat, nat, string)>
  {
    set e | e in es :: Triple(e)
  }

  /** Explicit mode is used iff some ticket names a non-blank source. */
  predicate HasExplicitEdges(tickets: seq<Ticket>)
  {
    exists t :: t in tickets && Strip(t.fromKey) != []
  }

  /** The edge a ticket asks for in explicit mode: from its stripped
      `from_key`'s cell to its own, labelled with the stripped link; none
      when the source is blank, either key has no cell, or both are the same
      cell. */
  function ExplicitEdgeFor(t: Ticket, cellIds: map<string, nat>): Option<(nat, nat, string)>
  {
    var p := Strip(t.fromKey);
    if p == [] || p !in cellIds || t.key !in cellIds || cellIds[p] == cellIds[t.key] then None
    else Some((cellIds[p], cellIds[t.key], Strip(t.linkVia)))
  }

  /** The edges of explicit mode, a triple already drawn being skipped. */
  function ExplicitEdgesOf(ts: seq<Ticket>, cellIds: map<string, nat>, base: nat): (r: seq<Edge>)
    ensures forall i :: 0 <= i < |r| ==> r[i].id == base + i
  {
    if ts == [] then [] else ExplicitStep(ExplicitEdgesOf(ts[..|ts| - 1], cellIds, base), ts[|ts| - 1], cellIds, base)
  }

  /** One turn of the explicit-mode loop: the edge `t` asks for is added
      unless that triple was already drawn. */
  function ExplicitStep(prev: seq<Edge>, t: Ticket, cellIds: map<string, nat>, base: nat): seq<Edge>
  {
    match ExplicitEdgeFor(t, cellIds)
    case None => prev
    case Some(tr) =>
      if tr in TriplesOf(prev) then prev
      else prev + [Edge(base + |prev|, tr.0, tr.1, tr.2)]
  }

  lemma TriplesOfSnoc(es: seq<Edge>, e: Edge)
    ensures TriplesOf(es + [e]) == TriplesOf(es) + {Triple(e)}
  {
    assert forall x :: x in es + [e] <==> x in es || x == e;
  }

  /** One turn adds the asked-for triple to those drawn, and at most one
      edge, which is no self-loop and has a triple not drawn before. */
  lemma ExplicitStepFacts(prev: seq<Edge>, t: Ticket, cellIds: map<string, nat>, base: nat)
    ensures var next := ExplicitStep(prev, t, cellIds, base);
      var asked := ExplicitEdgeFor(t, cellIds);
      TriplesOf(next) == TriplesOf(prev) + (if asked.Some? then {asked.value} else {})
    ensures var next := ExplicitStep(prev, t, cellIds, base);
      next == prev || (|next| == |prev| + 1 && next[..|prev|] == prev
                       && Triple(next[|prev|]) !in TriplesOf(prev)
                       && next[|prev|].source != next[|prev|].target)
  {
    var asked := ExplicitEdgeFor(t, cellIds);
    if asked.Some? && asked.value !in TriplesOf(prev) {
      var e := Edge(base + |prev|, asked.value.0, asked.value.1, asked.value.2);
      assert ExplicitStep(prev, t, cellIds, base) == prev + [e];
      TriplesOfSnoc(prev, e);
      assert (prev + [e])[..|prev|] == prev;
    }
  }

  /** The triples the tickets ask for, in explicit mode. */
  function AskedTriples(ts: seq<Ticket>, cellIds: map<string, nat>): set<(nat, nat, string)>
  {
    if ts == [] then {}
    else
      var asked := ExplicitEdgeFor(ts[|ts| - 1], cellIds);
      AskedTriples(ts[..|ts| - 1], cellIds) + (if asked.Some? then {asked.value} else {})
  }

  /** One more ticket adds its own asked-for triple, if any. */
  lemma AskedTriplesSnoc(ts: seq<Ticket>, cellIds: map<string, nat>)
    requires ts != []
    ensures var asked := ExplicitEdgeFor(ts[|ts| - 1], cellIds);
      AskedTriples(ts, cellIds) == AskedTriples(ts[..|ts| - 1], cellIds) + (if asked.Some? then {asked.value} else {})
  {
  }

  /** Every asked-for triple is asked for by some ticket. */
  lemma {:induction false} AskedTriplesSound(ts: seq<Ticket>, cellIds: map<string, nat>, tr: (nat, nat, string))
    requires tr in AskedTriples(ts, cellIds)
    ensures exists j :: 0 <= j < |ts| && ExplicitEdgeFor(ts[j], cellIds) == Some(tr)
  {
    var n := |ts| - 1;
    var init := ts[..n];
    AskedTriplesSnoc(ts, cellIds);
    if tr in AskedTriples(init, cellIds) {
      AskedTriplesSound(init, cellIds, tr);
      var j :| 0 <= j < |init| && ExplicitEdgeFor(init[j], cellIds) == Some(tr);
      assert init[j] == ts[j];
    } else {
      assert ExplicitEdgeFor(ts[n], cellIds) == Some(tr);
    }
  }

  /** Every triple some ticket asks for is among the asked-for triples. */
  lemma {:induction false} AskedTriplesComplete(ts: seq<Ticket>, cellIds: map<string, nat>, j: int)
    requires 0 <= j < |ts| && ExplicitEdgeFor(ts[j], cellIds).Some?
    ensures ExplicitEdgeFor(ts[j], cellIds).value in AskedTriples(ts, cellIds)
  {
    var n := |ts| - 1;
    var init := ts[..n];
    var mine := ExplicitEdgeFor(ts[j], cellIds);
    AskedTriplesSnoc(ts, cellIds);
    if j < n {
      assert init[j] == ts[j];
      AskedTriplesComplete(init, cellIds, j);
      assert mine.value in AskedTriples(init, cellIds);
    } else {
      assert j == n;
      assert mine.value in AskedTriples(ts, cellIds);
    }
  }

  /** The triples explicit mode draws are exactly those the tickets ask for. */
  lemma {:induction false} ExplicitEdgesTriples(ts: seq<Ticket>, cellIds: map<string, nat>, base: nat)
    ensures TriplesOf(ExplicitEdgesOf(ts, cellIds, base)) == AskedTriples(ts, cellIds)
  {
    if ts != [] {
      var n := |ts| - 1;
      ExplicitEdgesTriples(ts[..n], cellIds, base);
      ExplicitStepFacts(ExplicitEdgesOf(ts[..n], cellIds, base), ts[n], cellIds, base);
    }
  }

  predicate DistinctTriples(es: seq<Edge>)
  {
    forall i, j :: 0 <= i < j < |es| ==> Triple(es[i]) != Triple(es[j])
  }

  predicate NoSelfLoops(es: seq<Edge>)
  {
    forall i :: 0 <= i < |es| ==> es[i].source != es[i].target
  }

  /** No two explicit-mode edges share a triple, and none is a self-loop. */
  lemma {:induction false} ExplicitEdgesDistinct(ts: seq<Ticket>, cellIds: map<string, nat>, base: nat)
    ensures DistinctTriples(ExplicitEdgesOf(ts, cellIds, base))
    ensures NoSelfLoops(ExplicitEdgesOf(ts, cellIds, base))
  {
    if ts != [] {
      var n := |ts| - 1;
      var prev := ExplicitEdgesOf(ts[..n], cellIds, base);
      ExplicitEdgesDistinct(ts[..n], cellIds, base);
      ExplicitStepFacts(prev, ts[n], cellIds, base);
      var r := ExplicitEdgesOf(ts, cellIds, base);
      assert r == ExplicitStep(prev, ts[n], cellIds, base);
      if r != prev {
        var m := |prev|;
        assert |r| == m + 1 && r[..m] == prev;
        assert Triple(r[m]) !in TriplesOf(prev) && r[m].source != r[m].target;
        forall i, j | 0 <= i < j < |r| ensures Triple(r[i]) != Triple(r[j]) {
          assert r[i] == r[..m][i];
          if j == m {
            assert prev[i] in prev;
            assert Triple(prev[i]) in TriplesOf(prev);
          } else {
            assert r[j] == r[..m][j];
          }
        }
        forall i | 0 <= i < |r| ensures r[i].source != r[i].target {
          if i < m {
            assert r[i] == r[..m][i];
          }
        }
      }
    }
  }

  /** With distinct keys, a ticket whose `from_key` is blank gets no
      incoming edge in explicit mode, whatever its depth. */
  lemma BlankSourceNoIncomingEdge(ts: seq<Ticket>, t: Ticket, base: nat)
    requires NoDupKeys(ts) && t in ts && Strip(t.fromKey) == []
    ensures t.key in CellIdsOf(ts)
    ensures forall e :: e in ExplicitEdgesOf(ts, CellIdsOf(ts), base) ==> e.target != CellIdsOf(ts)[t.key]
  {
    var cellIds := CellIdsOf(ts);
    var r := ExplicitEdgesOf(ts, cellIds, base);
    CellIdsKeys(ts);
    CellIdsSpec(ts);
    ExplicitEdgesTriples(ts, cellIds, base);
    assert t.key in TicketKeys(ts);
    forall e | e in r ensures e.target != cellIds[t.key] {
      assert Triple(e) in TriplesOf(r);
      AskedTriplesSound(ts, cellIds, Triple(e));
      var j :| 0 <= j < |ts| && ExplicitEdgeFor(ts[j], cellIds) == Some(Triple(e));
      var i :| 0 <= i < |ts| && ts[i] == t;
      assert i != j;
      assert ts[j].key != t.key;
    }
  }

  /** One turn of the explicit-mode loop, with the source's checks. */
  method ExplicitTurn(edges: seq<Edge>, created: set<(nat, nat, string)>, counter: nat, t: Ticket,
                      cellIds: map<string, nat>, base: nat)
    returns (edges': seq<Edge>, created': set<(nat, nat, string)>, counter': nat)
    requires created == TriplesOf(edges) && counter == base + |edges|
    ensures edges' == ExplicitStep(edges, t, cellIds, base)
    ensures created' == TriplesOf(edges') && counter' == base + |edges'|
  {
    edges', created', counter' := edges, created, counter;
    var parentKey := Strip(t.fromKey);
    var linkVia := Strip(t.linkVia);
    if parentKey != [] && parentKey in cellIds && t.key in cellIds {
      var parentId := cellIds[parentKey];
      var childId := cellIds[t.key];
      if parentId != childId && (parentId, childId, linkVia) !in created {
        var e := Edge(counter, parentId, childId, linkVia);
        TriplesOfSnoc(edges, e);
        created' := created + {(parentId, childId, linkVia)};
        edges' := edges + [e];
        counter' := counter + 1;
      }
    }
  }

  /** The explicit-mode loop with its `created_edges` set. */
  method ExplicitEdges(tickets: seq<Ticket>, cellIds: map<string, nat>, base: nat) returns (edges: seq<Edge>)
    ensures edges == ExplicitEdgesOf(tickets, cellIds, base)
  {
    edges := [];
    var created: set<(nat, nat, string)> := {};
    var counter := base;
    for k := 0 to |tickets|
      invariant edges == ExplicitEdgesOf(tickets[..k], cellIds, base)
      invariant created == TriplesOf(edges)
      invariant counter == base + |edges|
    {
      assert tickets[..k + 1] == tickets[..k] + [tickets[k]];
      edges, created, counter := ExplicitTurn(edges, created, counter, tickets[k], cellIds, base);
    }
    assert tickets[..|tickets|] == tickets;
  }

  /** One turn of a fallback row loop: an edge from the parent into `t`
      when `t` has a cell. */
  function RowStep(prev: seq<Edge>, t: Ticket, parentId: nat, cellIds: map<string, nat>, base: nat): seq<Edge>
  {
    if t.key in cellIds then prev + [Edge(base + |prev|, parentId, cellIds[t.key], t.linkVia)] else prev
  }

  /** The edges from one parent cell to the tickets of a row that have cells. */
  function RowEdgesOf(row: seq<Ticket>, parentId: nat, cellIds: map<string, nat>, base: nat): seq<Edge>
  {
    if row == [] then [] else RowStep(RowEdgesOf(row[..|row| - 1], parentId, cellIds, base), row[|row| - 1], parentId, cellIds, base)
  }

  /** Every row edge leaves the parent, is numbered by its position and
      enters a ticket of the row that has a cell, labelled with its link. */
  lemma {:induction false} RowEdgesSound(row: seq<Ticket>, parentId: nat, cellIds: map<string, nat>, base: nat, i: int)
    requires 0 <= i < |RowEdgesOf(row, parentId, cellIds, base)|
    ensures var e := RowEdgesOf(row, parentId, cellIds, base)[i];
      e.id == base + i && e.source == parentId
      && exists j :: 0 <= j < |row| && row[j].key in cellIds && e.target == cellIds[row[j].key] && e.caption == row[j].linkVia
  {
    var n := |row| - 1;
    var init := row[..n];
    var prev := RowEdgesOf(init, parentId, cellIds, base);
    var r := RowEdgesOf(row, parentId, cellIds, base);
    assert r == RowStep(prev, row[n], parentId, cellIds, base);
    if i < |prev| {
      assert r[i] == prev[i];
      RowEdgesSound(init, parentId, cellIds, base, i);
      var j :| 0 <= j < |init| && init[j].key in cellIds && prev[i].target == cellIds[init[j].key] && prev[i].caption == init[j].linkVia;
      assert init[j] == row[j];
    } else {
      assert r[i].target == cellIds[row[n].key];
    }
  }

  /** Some edge of `es` runs from `source` to `target` with that caption. */
  predicate HasEdge(es: seq<Edge>, source: nat, target: nat, caption: string)
  {
    exists i :: 0 <= i < |es| && es[i].source == source && es[i].target == target && es[i].caption == caption
  }

  /** Every ticket of the row that has a cell gets an edge from the parent. */
  lemma {:induction false} RowEdgesComplete(row: seq<Ticket>, parentId: nat, cellIds: map<string, nat>, base: nat, j: int)
    requires 0 <= j < |row| && row[j].key in cellIds
    ensures HasEdge(RowEdgesOf(row, parentId, cellIds, base), parentId, cellIds[row[j].key], row[j].linkVia)
  {
    var n := |row| - 1;
    var init := row[..n];
    var prev := RowEdgesOf(init, parentId, cellIds, base);
    var r := RowEdgesOf(row, parentId, cellIds, base);
    assert r == RowStep(prev, row[n], parentId, cellIds, base);
    if j < n {
      assert init[j] == row[j];
      RowEdgesComplete(init, parentId, cellIds, base, j);
      var i :| 0 <= i < |prev| && prev[i].source == parentId && prev[i].target == cellIds[row[j].key] && prev[i].caption == row[j].linkVia;
      assert r[i] == prev[i];
    } else {
      assert r[|prev|].target == cellIds[row[j].key];
    }
  }

  /** The cell fallback mode draws every edge into depth `d` from: that of
      the first ticket of depth `d - 1`; none for the root level, for a
      level whose previous level is empty, and when that ticket has no cell. */
  function ParentIdAt(tickets: seq<Ticket>, cellIds: map<string, nat>, d: int): Option<nat>
  {
    var parents := AtDepth(tickets, d - 1);
    if d == 0 || parents == [] || parents[0].key !in cellIds then None
    else Some(cellIds[parents[0].key])
  }

  /** `e` is the fallback edge into ticket `t`. */
  predicate IsFallbackEdge(tickets: seq<Ticket>, cellIds: map<string, nat>, t: Ticket, e: Edge)
  {
    ParentIdAt(tickets, cellIds, t.depth) == Some(e.source) && t.key in cellIds
    && e.target == cellIds[t.key] && e.caption == t.linkVia
  }

  /** One turn of the fallback depth loop: the edges into row `d`. */
  function FallbackStep(prev: seq<Edge>, d: int, tickets: seq<Ticket>, cellIds: map<string, nat>, base: nat): seq<Edge>
  {
    match ParentIdAt(tickets, cellIds, d)
    case None => prev
    case Some(p) => prev + RowEdgesOf(AtDepth(tickets, d), p, cellIds, base + |prev|)
  }

  /** The edges of fallback mode over the rows of `depths`. */
  function FallbackEdgesOf(depths: seq<int>, tickets: seq<Ticket>, cellIds: map<string, nat>, base: nat): seq<Edge>
  {
    if depths == [] then []
    else FallbackStep(FallbackEdgesOf(depths[..|depths| - 1], tickets, cellIds, base), depths[|depths| - 1], tickets, cellIds, base)
  }

  /** Fallback edges are numbered consecutively from `base`, and each is
      the fallback edge into some ticket whose depth is laid out. */
  lemma {:induction false} FallbackEdgesSound(depths: seq<int>, tickets: seq<Ticket>, cellIds: map<string, nat>, base: nat, i: int)
    requires 0 <= i < |FallbackEdgesOf(depths, tickets, cellIds, base)|
    ensures var e := FallbackEdgesOf(depths, tickets, cellIds, base)[i];
      e.id == base + i && exists t :: t in tickets && t.depth in depths && IsFallbackEdge(tickets, cellIds, t, e)
  {
    var n := |depths| - 1;
    var d := depths[n];
    var init := depths[..n];
    var prev := FallbackEdgesOf(init, tickets, cellIds, base);
    var r := FallbackEdgesOf(depths, tickets, cellIds, base);
    assert r == FallbackStep(prev, d, tickets, cellIds, base);
    if i < |prev| {
      assert r[i] == prev[i];
      FallbackEdgesSound(init, tickets, cellIds, base, i);
      var t :| t in tickets && t.depth in init && IsFallbackEdge(tickets, cellIds, t, prev[i]);
      assert t.depth in depths;
    } else {
      var p := ParentIdAt(tickets, cellIds, d).value;
      var row := AtDepth(tickets, d);
      var k := i - |prev|;
      assert r[i] == RowEdgesOf(row, p, cellIds, base + |prev|)[k];
      RowEdgesSound(row, p, cellIds, base + |prev|, k);
      var j :| 0 <= j < |row| && row[j].key in cellIds && r[i].target == cellIds[row[j].key] && r[i].caption == row[j].linkVia;
      AtDepthMembers(tickets, d);
      assert row[j] in row;
      assert IsFallbackEdge(tickets, cellIds, row[j], r[i]);
    }
  }

  /** The turn for a ticket's own depth draws its fallback edge. */
  lemma FallbackStepComplete(prev: seq<Edge>, tickets: seq<Ticket>, cellIds: map<string, nat>, base: nat, t: Ticket)
    requires t in tickets && ParentIdAt(tickets, cellIds, t.depth).Some? && t.key in cellIds
    ensures exists e :: e in FallbackStep(prev, t.depth, tickets, cellIds, base) && IsFallbackEdge(tickets, cellIds, t, e)
  {
    var p := ParentIdAt(tickets, cellIds, t.depth).value;
    var row := AtDepth(tickets, t.depth);
    var rowEdges := RowEdgesOf(row, p, cellIds, base + |prev|);
    var r := FallbackStep(prev, t.depth, tickets, cellIds, base);
    assert r == prev + rowEdges;
    AtDepthMembers(tickets, t.depth);
    var j :| 0 <= j < |row| && row[j] == t;
    RowEdgesComplete(row, p, cellIds, base + |prev|, j);
    var i :| 0 <= i < |rowEdges| && rowEdges[i].source == p && rowEdges[i].target == cellIds[t.key] && rowEdges[i].caption == t.linkVia;
    assert r[|prev| + i] == rowEdges[i];
    assert IsFallbackEdge(tickets, cellIds, t, rowEdges[i]);
  }

  /** A turn keeps the edges drawn before it. */
  lemma FallbackStepKeeps(prev: seq<Edge>, d: int, tickets: seq<Ticket>, cellIds: map<string, nat>, base: nat)
    ensures |prev| <= |FallbackStep(prev, d, tickets, cellIds, base)|
    ensures FallbackStep(prev, d, tickets, cellIds, base)[..|prev|] == prev
  {
  }

  /** Every laid-out ticket that has a cell and a parent cell gets its
      fallback edge. */
  lemma {:induction false} FallbackEdgesComplete(depths: seq<int>, tickets: seq<Ticket>, cellIds: map<string, nat>, base: nat, t: Ticket)
    requires t in tickets && t.depth in depths && ParentIdAt(tickets, cellIds, t.depth).Some? && t.key in cellIds
    ensures exists e :: e in FallbackEdgesOf(depths, tickets, cellIds, base) && IsFallbackEdge(tickets, cellIds, t, e)
  {
    var n := |depths| - 1;
    var d := depths[n];
    var init := depths[..n];
    var prev := FallbackEdgesOf(init, tickets, cellIds, base);
    var r := FallbackEdgesOf(depths, tickets, cellIds, base);
    assert r == FallbackStep(prev, d, tickets, cellIds, base);
    if t.depth == d {
      FallbackStepComplete(prev, tickets, cellIds, base, t);
    } else {
      assert depths == init + [d];
      assert t.depth in init;
      FallbackEdgesComplete(init, tickets, cellIds, base, t);
      var e :| e in prev && IsFallbackEdge(tickets, cellIds, t, e);
      FallbackStepKeeps(prev, d, tickets, cellIds, base);
      var i :| 0 <= i < |prev| && prev[i] == e;
      assert r[i] == r[..|prev|][i];
    }
  }

  /** The inner fallback loop over one row. */
  method RowEdges(row: seq<Ticket>, parentId: nat, cellIds: map<string, nat>, base: nat) returns (edges: seq<Edge>)
    ensures edges == RowEdgesOf(row, parentId, cellIds, base)
  {
    edges := [];
    var counter := base;
    for i := 0 to |row|
      invariant edges == RowEdgesOf(row[..i], parentId, cellIds, base)
      invariant counter == base + |edges|
    {
      var t := row[i];
      assert row[..i + 1][..i] == row[..i];
      if t.key in cellIds {
        edges := edges + [Edge(counter, parentId, cellIds[t.key], t.linkVia)];
        counter := counter + 1;
      }
    }
    assert row[..|row|] == row;
  }

  /** The first ticket of the previous level, looked up in `by_depth`. */
  method ParentIdOf(tickets: seq<Ticket>, byDepth: map<int, seq<Ticket>>, cellIds: map<string, nat>, d: int)
    returns (parentId: Option<nat>)
    requires byDepth.Keys == Depths(tickets)
    requires forall d :: d in byDepth ==> byDepth[d] == AtDepth(tickets, d)
    ensures parentId == ParentIdAt(tickets, cellIds, d)
  {
    if d == 0 {
      return None;
    }
    var parents := if d - 1 in byDepth then byDepth[d - 1] else [];
    if d - 1 !in byDepth {
      AtDepthAbsent(tickets, d - 1);
    }
    if parents == [] || parents[0].key !in cellIds {
      return None;
    }
    parentId := Some(cellIds[parents[0].key]);
  }

  /** The fallback-mode loop over the sorted depths. */
  method FallbackEdges(tickets: seq<Ticket>, byDepth: map<int, seq<Ticket>>, depths: seq<int>,
                       cellIds: map<string, nat>, base: nat) returns (edges: seq<Edge>)
    requires byDepth.Keys == Depths(tickets)
    requires forall d :: d in byDepth ==> byDepth[d] == AtDepth(tickets, d)
    requires forall d :: d in depths ==> d in byDepth
    ensures edges == FallbackEdgesOf(depths, tickets, cellIds, base)
  {
    edges := [];
    for k := 0 to |depths|
      invariant edges == FallbackEdgesOf(depths[..k], tickets, cellIds, base)
    {
      var d := depths[k];
      assert depths[..k + 1][..k] == depths[..k];
      var parentId := ParentIdOf(tickets, byDepth, cellIds, d);
      ghost var next := FallbackStep(edges, d, tickets, cellIds, base);
      assert FallbackEdgesOf(depths[..k + 1], tickets, cellIds, base) == next;
      if parentId.Some? {
        assert d in depths;
        var rowEdges := RowEdges(byDepth[d], parentId.value, cellIds, base + |edges|);
        assert next == edges + rowEdges;
        edges := edges + rowEdges;
      }
    }
    assert depths[..|depths|] == depths;
  }

  // -----------------------------------------------------------------------
  // create_drawio_xml
  // -----------------------------------------------------------------------

  /** The diagram: page size, vertex cells in ticket order, then edges. */
  datatype Diagram = Diagram(pageWidth: int, pageHeight: int, vertices: seq<Vertex>, edges: seq<Edge>)

  /** Where the layout puts each key. */
  function LaidOutPositions(tickets: seq<Ticket>): map<string, (int, int)>
  {
    var depths := SortedDepths(tickets);
    PositionsOf(depths, tickets, MaxRowWidth(depths, tickets))
  }

  /** The edges of the diagram: explicit mode when some ticket names a
      source, else fallback mode, their ids continuing after the vertices'. */
  function DiagramEdges(tickets: seq<Ticket>): seq<Edge>
  {
    if HasExplicitEdges(tickets) then ExplicitEdgesOf(tickets, CellIdsOf(tickets), |tickets| + 2)
    else FallbackEdgesOf(SortedDepths(tickets), tickets, CellIdsOf(tickets), |tickets| + 2)
  }

  /** The edge section of `create_drawio_xml`. */
  method DrawEdges(tickets: seq<Ticket>, byDepth: map<int, seq<Ticket>>, cellIds: map<string, nat>)
    returns (edges: seq<Edge>)
    requires byDepth.Keys == Depths(tickets)
    requires forall d :: d in byDepth ==> byDepth[d] == AtDepth(tickets, d)
    requires cellIds == CellIdsOf(tickets)
    ensures edges == DiagramEdges(tickets)
  {
    if exists t :: t in tickets && Strip(t.fromKey) != [] {
      edges := ExplicitEdges(tickets, cellIds, |tickets| + 2);
    } else {
      var depths := SortedDepths(tickets);
      edges := FallbackEdges(tickets, byDepth, depths, cellIds, |tickets| + 2);
    }
  }

  /** The page height: one row below the deepest level, with margins. */
  function PageHeight(tickets: seq<Ticket>): int
    requires tickets != []
  {
    var depths := SortedDepths(tickets);
    assert tickets[0] in tickets;
    assert tickets[0].depth in depths;
    50 + (depths[|depths| - 1] + 1) * 140 + 50
  }

  /** The page reaches below every row, and exactly one row below some
      ticket's. */
  lemma PageHeightBounds(tickets: seq<Ticket>)
    requires tickets != []
    ensures forall t :: t in tickets ==> RowY(t.depth) + 190 <= PageHeight(tickets)
    ensures exists t :: t in tickets && RowY(t.depth) + 190 == PageHeight(tickets)
  {
    var depths := SortedDepths(tickets);
    assert tickets[0] in tickets;
    assert tickets[0].depth in depths;
    var maxDepth := depths[|depths| - 1];
    assert maxDepth in Depths(tickets);
    var height := PageHeight(tickets);
    assert height == 50 + (maxDepth + 1) * 140 + 50;
    forall t | t in tickets ensures RowY(t.depth) + 190 <= height {
      assert t.depth in depths;
      var i :| 0 <= i < |depths| && depths[i] == t.depth;
      assert i == |depths| - 1 || depths[i] < maxDepth;
    }
    var w :| w in tickets && w.depth == maxDepth;
    assert RowY(w.depth) + 190 == height;
  }

  /** Grouping, sorting and both layout loops of `create_drawio_xml`. */
  method LayOutTickets(tickets: seq<Ticket>)
    returns (byDepth: map<int, seq<Ticket>>, maxWidth: int, positions: map<string, (int, int)>)
    ensures byDepth.Keys == Depths(tickets)
    ensures forall d :: d in byDepth ==> byDepth[d] == AtDepth(tickets, d)
    ensures maxWidth == MaxRowWidth(SortedDepths(tickets), tickets)
    ensures positions == LaidOutPositions(tickets)
    ensures forall j :: 0 <= j < |tickets| ==> tickets[j].key in positions
  {
    byDepth := GroupByDepth(tickets);
    var depths := SortedDepths(tickets);
    maxWidth, positions := LayOut(tickets, byDepth, depths);
    PositionsOfKeys(depths, tickets, maxWidth);
    forall j | 0 <= j < |tickets| ensures tickets[j].key in positions {
      assert tickets[j] in tickets;
      assert tickets[j].depth in depths;
    }
  }

  /** `create_drawio_xml`. An empty ticket list fails (`max` of no depths
      raises); otherwise the page is the widest row plus margins wide and
      reaches one row below the deepest level, vertices get ids 2, 3, ... in
      ticket order at their key's laid-out position, and the edges are
      `DiagramEdges`. */
  method CreateDrawioXml(tickets: seq<Ticket>) returns (r: Result<Diagram>)
    ensures tickets == [] <==> r.Err?
    ensures r.Ok? ==> r.value.pageWidth == MaxRowWidth(SortedDepths(tickets), tickets) + 100
    ensures r.Ok? ==> r.value.pageHeight == PageHeight(tickets)
    ensures r.Ok? ==> |r.value.vertices| == |tickets|
    ensures r.Ok? ==> forall j :: 0 <= j < |tickets| ==>
      tickets[j].key in LaidOutPositions(tickets)
      && r.value.vertices[j] == VertexFor(tickets[j], j + 2, LaidOutPositions(tickets)[tickets[j].key])
    ensures r.Ok? ==> r.value.edges == DiagramEdges(tickets)
  {
    if tickets == [] {
      return Err("max() arg is an empty sequence");
    }
    var byDepth, maxWidth, positions := LayOutTickets(tickets);
    var depths := SortedDepths(tickets);
    assert tickets[0] in tickets;
    assert tickets[0].depth in depths;
    var pageHeight := 50 + (depths[|depths| - 1] + 1) * 140 + 50;
    var vertices, cellIds, counter := PlaceVertices(tickets, positions);
    var edges := DrawEdges(tickets, byDepth, cellIds);
    r := Ok(Diagram(maxWidth + 100, pageHeight, vertices, edges));
  }
}
