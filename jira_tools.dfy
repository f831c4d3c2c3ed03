/** tools/jira_tools.py: the Jira agent tools. Modelled here are the cached
    connection, the link traversal behind `get_related_tickets`, the
    description extraction, the release filter, the field dict that
    `create_ticket` sends, and the transition choice of `update_ticket`. The
    Jira server is an oracle: a map from the issues that can be fetched to
    their links. */
module JiraTools {
  import opened Common
  import opened ToolBase

  // -----------------------------------------------------------------------
  // get_jira
  // -----------------------------------------------------------------------

  /** The module-global `_jira_connection`; connections are opaque handles. */
  class JiraConnection {
    var cached: Option<nat>

    constructor ()
      ensures cached == None
    {
      cached := None;
    }

    /** `get_jira`: without the Jira utilities it raises; otherwise the first
        call connects (`connect` is what `connect_to_jira` returns, None when
        it raises) and every later call returns the same connection. */
    method GetJira(available: bool, connect: Option<nat>) returns (r: Result<nat>)
      modifies this
      ensures !available ==> r.Err? && cached == old(cached)
      ensures available && old(cached).Some? ==> r == Ok(old(cached).value) && cached == old(cached)
      ensures available && old(cached).None? && connect.None? ==> r.Err? && cached == None
      ensures available && old(cached).None? && connect.Some? ==> r == Ok(connect.value) && cached == connect
      ensures r.Ok? ==> cached == Some(r.value)
    {
      if !available {
        return Err("jira_utils.py is required but not available");
      }
      if cached.None? {
        if connect.None? {
          return Err("connection failed");
        }
        cached := connect;
      }
      r := Ok(cached.value);
    }
  }

  /** Once connected, any number of further calls leave the connection as it
      is and return it. */
  method GetJiraTwice(c: JiraConnection, connect1: Option<nat>, connect2: Option<nat>) returns (r1: Result<nat>, r2: Result<nat>)
    modifies c
    ensures r1.Ok? ==> r2 == r1 && c.cached == Some(r1.value)
  {
    r1 := c.GetJira(true, connect1);
    r2 := c.GetJira(true, connect2);
  }

  // -----------------------------------------------------------------------
  // get_related_tickets: the traversal
  // -----------------------------------------------------------------------

  /** An issue link: the outward issue's key if the link has one, and the
      inward issue's key if it has one. */
  datatype Link = Link(outward: Option<string>, inward: Option<string>)

  /** The key a link leads to: the outward issue if present, else the inward
      one; "" stands for no key. */
  function LinkedKey(l: Link): (k: string)
    ensures l.outward.Some? ==> k == l.outward.value
    ensures l.outward.None? && l.inward.Some? ==> k == l.inward.value
    ensures l.outward.None? && l.inward.None? ==> k == ""
  {
    if l.outward.Some? then l.outward.value
    else if l.inward.Some? then l.inward.value
    else ""
  }

  /** The state shared by the nested `traverse` calls: the `visited` set and
      the collected `tickets` (kept as their keys). `depthOf` records, for the
      proof only, the depth at which each ticket was collected. */
  class Traversal {
    const issues: map<string, seq<Link>>
    const hierarchyDepth: int
    const limit: int
    var visited: set<string>
    var tickets: seq<string>
    ghost var depthOf: map<string, int>

    ghost predicate Valid()
      reads this
    {
      && NoDup(tickets)
      && (forall k :: k in tickets ==> k in visited && k in issues)
      && (forall k :: k in depthOf <==> k in tickets)
      && (forall k :: k in depthOf ==> 0 <= depthOf[k] <= hierarchyDepth)
    }

    constructor (issues: map<string, seq<Link>>, hierarchyDepth: int, limit: int)
      ensures Valid()
      ensures this.issues == issues && this.hierarchyDepth == hierarchyDepth && this.limit == limit
      ensures visited == {} && tickets == []
    {
      this.issues := issues;
      this.hierarchyDepth := hierarchyDepth;
      this.limit := limit;
      visited := {};
      tickets := [];
      depthOf := map[];
    }

    /** Whether `traverse(key, depth)` returns at once. */
    predicate Stops(key: string, depth: int)
      reads this
    {
      depth > hierarchyDepth || key in visited || |tickets| >= limit
    }

    /** `traverse(key, depth)`: return at once past the depth bound, on a
        visited key or with `limit` tickets collected; otherwise mark the key
        visited, fetch it (a fetch that raises only logs a warning), collect
        it and descend into each link in order. */
    method Traverse(key: string, depth: int)
      requires Valid() && depth >= 0
      modifies this
      decreases hierarchyDepth - depth, 1
      ensures Valid()
      ensures old(visited) <= visited
      ensures |old(tickets)| <= |tickets| && tickets[..|old(tickets)|] == old(tickets)
      ensures |tickets| <= Max(|old(tickets)|, limit)
      ensures forall k :: k in old(depthOf) ==> k in depthOf && depthOf[k] == old(depthOf[k])
      ensures old(Stops(key, depth)) ==> visited == old(visited) && tickets == old(tickets)
      ensures !old(Stops(key, depth)) ==> key in visited
      ensures !old(Stops(key, depth)) && key !in issues ==> visited == old(visited) + {key} && tickets == old(tickets)
      ensures !old(Stops(key, depth)) && key in issues ==>
                |tickets| > |old(tickets)| && tickets[|old(tickets)|] == key && depthOf[key] == depth
    {
      if depth > hierarchyDepth || key in visited || |tickets| >= limit {
        return;
      }
      visited := visited + {key};
      if key !in issues {
        return;
      }
      ghost var t0 := tickets;
      assert key !in t0;
      tickets := tickets + [key];
      depthOf := depthOf[key := depth];
      assert NoDup(tickets) by { NoDupSnoc(t0, key); }
      ghost var t1 := tickets;
      Descend(issues[key], depth);
      assert tickets[..|t1|] == t1;
      assert tickets[|t0|] == t1[|t0|] == key;
      assert tickets[..|t0|] == t1[..|t0|] == t0;
    }

    /** The loop of `traverse` over the links of the issue at `depth`: each
        linked key not yet visited is traversed one level deeper. */
    method Descend(links: seq<Link>, depth: int)
      requires Valid() && 0 <= depth <= hierarchyDepth && |tickets| <= limit
      modifies this
      decreases hierarchyDepth - depth, 0
      ensures Valid()
      ensures old(visited) <= visited
      ensures |old(tickets)| <= |tickets| && tickets[..|old(tickets)|] == old(tickets)
      ensures |tickets| <= limit
      ensures forall k :: k in old(depthOf) ==> k in depthOf && depthOf[k] == old(depthOf[k])
    {
      var i := 0;
      while i < |links|
        invariant 0 <= i <= |links|
        invariant Valid()
        invariant old(visited) <= visited
        invariant |old(tickets)| <= |tickets| && tickets[..|old(tickets)|] == old(tickets)
        invariant |tickets| <= limit
        invariant forall k :: k in old(depthOf) ==> k in depthOf && depthOf[k] == old(depthOf[k])
      {
        var linked := LinkedKey(links[i]);
        if linked != "" && linked !in visited {
          Traverse(linked, depth + 1);
        }
        i := i + 1;
      }
    }
  }

  /** `get_related_tickets`: without the Jira utilities a failure; when the
      connection cannot be made (`connectError` holds the exception's text)
      a failure naming the root and the error; otherwise the
      traversal from the root at depth 0, the collected tickets as data and
      their count as metadata. */
  method GetRelatedTickets(available: bool, connectError: Option<string>, issues: map<string, seq<Link>>,
                           ticketKey: string, hierarchyDepth: int, limit: int)
    returns (result: ToolResult, tickets: seq<string>)
    ensures !available ==> result == FailureResult("jira_utils.py is required for get_related_tickets", map[]) && tickets == []
    ensures available && connectError.Some? ==>
      result == FailureResult("Failed to get related tickets for " + ticketKey + ": " + connectError.value, map[])
      && result.IsError() && tickets == []
    ensures available && connectError.None? ==>
      && result.IsSuccess()
      && result.data == JList(seq(|tickets|, i requires 0 <= i < |tickets| => JStr(tickets[i])))
      && result.metadata == map["count" := JInt(|tickets|), "root_ticket" := JStr(ticketKey)]
    ensures NoDup(tickets)
    ensures |tickets| <= Max(0, limit)
    ensures forall k :: k in tickets ==> k in issues
    ensures available && connectError.None? && 0 <= hierarchyDepth && 0 < limit && ticketKey in issues ==>
              tickets != [] && tickets[0] == ticketKey
    ensures ticketKey !in issues ==> tickets == []
  {
    if !available {
      return FailureResult("jira_utils.py is required for get_related_tickets", map[]), [];
    }
    if connectError.Some? {
      return FailureResult("Failed to get related tickets for " + ticketKey + ": " + connectError.value, map[]), [];
    }
    var t := new Traversal(issues, hierarchyDepth, limit);
    t.Traverse(ticketKey, 0);
    tickets := t.tickets;
    result := SuccessResult(JList(seq(|tickets|, i requires 0 <= i < |tickets| => JStr(tickets[i]))),
                            map["count" := JInt(|tickets|), "root_ticket" := JStr(ticketKey)]);
  }

  /** Every collected ticket was reached within the depth bound. */
  method TraverseWithinDepth(issues: map<string, seq<Link>>, root: string, hierarchyDepth: int, limit: int)
    returns (tickets: seq<string>, ghost depthOf: map<string, int>)
    ensures forall k :: k in tickets <==> k in depthOf
    ensures forall k :: k in depthOf ==> 0 <= depthOf[k] <= hierarchyDepth
    ensures root in depthOf ==> depthOf[root] == 0
  {
    var t := new Traversal(issues, hierarchyDepth, limit);
    t.Traverse(root, 0);
    tickets, depthOf := t.tickets, t.depthOf;
  }

  // -----------------------------------------------------------------------
  // _extract_description
  // -----------------------------------------------------------------------

  /** The one-paragraph document `create_ticket` sends as a description. */
  function AdfDoc(text: string): Json
  {
    JObj(map["type" := JStr("doc"), "version" := JInt(1),
             "content" := JList([JObj(map["type" := JStr("paragraph"),
                                          "content" := JList([JObj(map["type" := JStr("text"),
                                                                       "text" := JStr(text)])])])])])
  }

  /** What iterating a value yields, or None when iterating it (or calling
      `.get` on what it yields) raises: a list yields its items, an empty
      string or dict yields nothing, anything else fails. */
  function Elements(j: Json): Option<seq<Json>>
  {
    match j
    case JList(items) => Some(items)
    case JStr(s) => if s == [] then Some([]) else None
    case JObj(m) => if m == map[] then Some([]) else None
    case _ => None
  }

  /** The texts of the text nodes in one paragraph's content. */
  function ItemTexts(items: seq<Json>): Option<seq<string>>
  {
    if items == [] then Some([])
    else if !items[0].JObj? then None
    else
      var item := items[0].fields;
      var here :=
        if Get(item, "type", JNull) == JStr("text") then
          match Get(item, "text", JStr(""))
          case JStr(t) => Some([t])
          case _ => None
        else Some([]);
      match (here, ItemTexts(items[1..]))
      case (Some(a), Some(b)) => Some(a + b)
      case _ => None
  }

  /** The texts of all paragraph blocks, in document order. */
  function BlockTexts(blocks: seq<Json>): Option<seq<string>>
  {
    if blocks == [] then Some([])
    else if !blocks[0].JObj? then None
    else
      var block := blocks[0].fields;
      var here :=
        if Get(block, "type", JNull) == JStr("paragraph") then
          match Elements(Get(block, "content", JList([])))
          case None => None
          case Some(items) => ItemTexts(items)
        else Some([]);
      match (here, BlockTexts(blocks[1..]))
      case (Some(a), Some(b)) => Some(a + b)
      case _ => None
  }

  /** `_extract_description`: a falsy value gives "", a string is returned
      unchanged, a document gives the texts of the text nodes of its
      paragraphs joined by newlines, and anything else its `str()` (`repr`).
      An ill-formed document raises (Err). */
  function ExtractDescription(d: Json, repr: Json -> string): (r: Result<string>)
    ensures !Truthy(d) ==> r == Ok("")
    ensures Truthy(d) && d.JStr? ==> r == Ok(d.s)
    ensures Truthy(d) && (d.JBool? || d.JInt? || d.JList?) ==> r == Ok(repr(d))
  {
    if !Truthy(d) then Ok("")
    else match d
      case JStr(s) => Ok(s)
      case JObj(fields) =>
        (match Elements(Get(fields, "content", JList([])))
         case None => Err("malformed description")
         case Some(blocks) =>
           match BlockTexts(blocks)
           case None => Err("malformed description")
           case Some(parts) => Ok(Join(parts, "\n")))
      case _ => Ok(repr(d))
  }

  /** The description `create_ticket` writes reads back unchanged. */
  lemma ExtractDescriptionRoundTrip(text: string, repr: Json -> string)
    ensures ExtractDescription(AdfDoc(text), repr) == Ok(text)
  {
    var m := map["type" := JStr("text"), "text" := JStr(text)];
    assert m["type"] == JStr("text") && m["text"] == JStr(text);
    var items := [JObj(m)];
    assert items[1..] == [];
    assert ItemTexts(items) == Some([text] + []);
    assert [text] + [] == [text];
    var pm := map["type" := JStr("paragraph"), "content" := JList(items)];
    assert pm["type"] == JStr("paragraph") && pm["content"] == JList(items);
    var blocks := [JObj(pm)];
    assert blocks[1..] == [] && BlockTexts([]) == Some([]);
    assert Get(pm, "type", JNull) == JStr("paragraph");
    assert Elements(Get(pm, "content", JList([]))) == Some(items);
    assert blocks[0].JObj? && blocks[0].fields == pm;
    assert BlockTexts(blocks) == Some([text] + []);
    var dm := map["type" := JStr("doc"), "version" := JInt(1), "content" := JList(blocks)];
    assert dm["content"] == JList(blocks);
    assert AdfDoc(text) == JObj(dm);
    assert Join([text], "\n") == text;
  }

  // -----------------------------------------------------------------------
  // get_releases
  // -----------------------------------------------------------------------

  /** A project version: its id, name and released flag, and the optional
      attributes `get_releases` reads with `getattr` (None when the version
      object lacks the attribute). */
  datatype Version = Version(id: string, name: string, released: bool,
                             description: Option<Json>, releaseDate: Option<Json>,
                             startDate: Option<Json>, archived: Option<Json>)

  /** `getattr(v, attr, default)` on an attribute that may be missing. */
  function Attr(a: Option<Json>, default: Json): (r: Json)
    ensures a.Some? ==> r == a.value
    ensures a.None? ==> r == default
  {
    if a.Some? then a.value else default
  }

  /** Whether `get_releases` keeps a version: its released flag is allowed and,
      when a pattern is given, the case-insensitive search `matches` succeeds. */
  predicate Keeps(v: Version, hasPattern: bool, matches: string -> bool, includeReleased: bool, includeUnreleased: bool)
  {
    (if v.released then includeReleased else includeUnreleased) && (!hasPattern || matches(v.name))
  }

  function FilterVersions(vs: seq<Version>, hasPattern: bool, matches: string -> bool,
                          includeReleased: bool, includeUnreleased: bool): (r: seq<Version>)
    ensures forall v :: v in r <==> v in vs && Keeps(v, hasPattern, matches, includeReleased, includeUnreleased)
    ensures |r| <= |vs|
  {
    if vs == [] then []
    else
      FilterVersions(vs[..|vs| - 1], hasPattern, matches, includeReleased, includeUnreleased)
      + (if Keeps(vs[|vs| - 1], hasPattern, matches, includeReleased, includeUnreleased) then [vs[|vs| - 1]] else [])
  }

  /** Insert into a name-sorted list after every name not greater, so that
      equal names keep their order. */
  function InsertByName(v: Version, s: seq<Version>): seq<Version>
  {
    if s == [] || (StrLessEq(v.name, s[0].name) && v.name != s[0].name) then [v] + s
    else [s[0]] + InsertByName(v, s[1..])
  }

  /** `releases.sort(key=name)` as insertion from the back. */
  function SortByName(s: seq<Version>): seq<Version>
  {
    if s == [] then [] else InsertByName(s[|s| - 1], SortByName(s[..|s| - 1]))
  }

  predicate SortedByName(s: seq<Version>)
  {
    forall i :: 0 <= i < |s| - 1 ==> StrLessEq(s[i].name, s[i + 1].name)
  }

  lemma {:induction false} InsertByNameSpec(v: Version, s: seq<Version>)
    requires SortedByName(s)
    ensures SortedByName(InsertByName(v, s))
    ensures multiset(InsertByName(v, s)) == multiset(s) + multiset{v}
    ensures |InsertByName(v, s)| == |s| + 1
    ensures InsertByName(v, s) != [] && (InsertByName(v, s)[0] == v || (s != [] && InsertByName(v, s)[0] == s[0]))
  {
    if s == [] || (StrLessEq(v.name, s[0].name) && v.name != s[0].name) {
    } else {
      var rest := InsertByName(v, s[1..]);
      assert SortedByName(s[1..]) by {
        forall i | 0 <= i < |s[1..]| - 1 ensures StrLessEq(s[1..][i].name, s[1..][i + 1].name) {
          assert s[1..][i] == s[i + 1] && s[1..][i + 1] == s[i + 2];
        }
      }
      InsertByNameSpec(v, s[1..]);
      assert s == [s[0]] + s[1..];
      var r := [s[0]] + rest;
      forall i | 0 <= i < |r| - 1 ensures StrLessEq(r[i].name, r[i + 1].name) {
        if i == 0 {
          if rest[0] == v {
            if !StrLessEq(v.name, s[0].name) {
              StrLessEqTotal(v.name, s[0].name);
            }
          } else {
            assert rest[0] == s[1];
          }
        } else {
          assert r[i] == rest[i - 1] && r[i + 1] == rest[i];
        }
      }
    }
  }

  /** The result is ordered by name and holds exactly the input versions. */
  lemma {:induction false} SortByNameSpec(s: seq<Version>)
    ensures SortedByName(SortByName(s))
    ensures multiset(SortByName(s)) == multiset(s)
    ensures |SortByName(s)| == |s|
  {
    if s != [] {
      SortByNameSpec(s[..|s| - 1]);
      InsertByNameSpec(s[|s| - 1], SortByName(s[..|s| - 1]));
      assert s == s[..|s| - 1] + [s[|s| - 1]];
    }
  }

  /** A version rendered into the result list: id, name and released flag,
      the description (default `''`), the two dates (default None) and the
      archived flag (default False). */
  function VersionJson(v: Version): (j: Json)
    ensures j.JObj? && j.fields.Keys == {"id", "name", "description", "released", "releaseDate", "startDate", "archived"}
    ensures j.fields["id"] == JStr(v.id) && j.fields["name"] == JStr(v.name) && j.fields["released"] == JBool(v.released)
    ensures j.fields["description"] == Attr(v.description, JStr(""))
    ensures j.fields["releaseDate"] == Attr(v.releaseDate, JNull) && j.fields["startDate"] == Attr(v.startDate, JNull)
    ensures j.fields["archived"] == Attr(v.archived, JBool(false))
  {
    JObj(map["id" := JStr(v.id), "name" := JStr(v.name), "description" := Attr(v.description, JStr("")),
             "released" := JBool(v.released), "releaseDate" := Attr(v.releaseDate, JNull),
             "startDate" := Attr(v.startDate, JNull), "archived" := Attr(v.archived, JBool(false))])
  }

  function VersionsJson(vs: seq<Version>): (j: Json)
    ensures j.JList? && |j.items| == |vs|
    ensures forall i :: 0 <= i < |vs| ==> j.items[i] == VersionJson(vs[i])
  {
    JList(seq(|vs|, i requires 0 <= i < |vs| => VersionJson(vs[i])))
  }

  /** `get_releases`: `versions` is the project's version list, or the
      text of the exception the connection or the lookup raised. The kept versions are collected
      in a loop and then sorted by name. */
  method GetReleases(projectKey: string, versions: Result<seq<Version>>, hasPattern: bool, matches: string -> bool,
                     includeReleased: bool, includeUnreleased: bool)
    returns (result: ToolResult, releases: seq<Version>)
    ensures versions.Err? ==>
      result == FailureResult("Failed to get releases for " + projectKey + ": " + versions.msg, map[])
      && result.IsError() && releases == []
    ensures versions.Ok? ==>
      && releases == SortByName(FilterVersions(versions.value, hasPattern, matches, includeReleased, includeUnreleased))
      && result == SuccessResult(VersionsJson(releases), map["count" := JInt(|releases|)])
  {
    if versions.Err? {
      return FailureResult("Failed to get releases for " + projectKey + ": " + versions.msg, map[]), [];
    }
    var vs := versions.value;
    var kept: seq<Version> := [];
    var i := 0;
    while i < |vs|
      invariant 0 <= i <= |vs|
      invariant kept == FilterVersions(vs[..i], hasPattern, matches, includeReleased, includeUnreleased)
    {
      var v := vs[i];
      assert vs[..i + 1][..i] == vs[..i];
      if v.released && !includeReleased {
      } else if !v.released && !includeUnreleased {
      } else if hasPattern && !matches(v.name) {
      } else {
        kept := kept + [v];
      }
      i := i + 1;
    }
    assert vs[..i] == vs;
    releases := SortByName(kept);
    result := SuccessResult(VersionsJson(releases), map["count" := JInt(|releases|)]);
  }

  /** The releases are exactly the kept versions, ordered by name. */
  lemma GetReleasesSpec(vs: seq<Version>, hasPattern: bool, matches: string -> bool,
                        includeReleased: bool, includeUnreleased: bool)
    ensures var r := SortByName(FilterVersions(vs, hasPattern, matches, includeReleased, includeUnreleased));
      && SortedByName(r)
      && (forall v :: v in r <==> v in vs && Keeps(v, hasPattern, matches, includeReleased, includeUnreleased))
  {
    var f := FilterVersions(vs, hasPattern, matches, includeReleased, includeUnreleased);
    SortByNameSpec(f);
    forall v ensures v in SortByName(f) <==> v in f {
      assert v in SortByName(f) <==> v in multiset(SortByName(f));
    }
  }

  // -----------------------------------------------------------------------
  // create_ticket and update_ticket
  // -----------------------------------------------------------------------

  function NamedList(names: seq<string>): (j: Json)
    ensures j.JList? && |j.items| == |names|
  {
    JList(seq(|names|, i requires 0 <= i < |names| => JObj(map["name" := JStr(names[i])])))
  }

  /** A field `create_ticket` sets only when its argument is truthy. */
  datatype Optional = Optional(present: bool, key: string, value: Json)

  /** `if present: f[key] = value` for each optional field in turn. */
  function WithOptional(f: map<string, Json>, opts: seq<Optional>): map<string, Json>
    decreases |opts|
  {
    if opts == [] then f
    else WithOptional(if opts[0].present then f[opts[0].key := opts[0].value] else f, opts[1..])
  }

  /** A key no optional field names keeps its value. */
  lemma {:induction false} WithOptionalOther(f: map<string, Json>, opts: seq<Optional>, k: string)
    requires forall i :: 0 <= i < |opts| ==> opts[i].key != k
    ensures k in WithOptional(f, opts) <==> k in f
    ensures k in f ==> WithOptional(f, opts)[k] == f[k]
    decreases |opts|
  {
    if opts != [] {
      var f' := if opts[0].present then f[opts[0].key := opts[0].value] else f;
      assert forall i :: 0 <= i < |opts[1..]| ==> opts[1..][i] == opts[i + 1];
      WithOptionalOther(f', opts[1..], k);
    }
  }

  /** An optional field whose key no other one shares is set exactly when
      present, to its value. */
  lemma {:induction false} WithOptionalAt(f: map<string, Json>, opts: seq<Optional>, i: nat)
    requires i < |opts|
    requires forall j :: 0 <= j < |opts| && j != i ==> opts[j].key != opts[i].key
    ensures opts[i].key in WithOptional(f, opts) <==> opts[i].present || opts[i].key in f
    ensures opts[i].present ==> WithOptional(f, opts)[opts[i].key] == opts[i].value
    decreases |opts|
  {
    var f' := if opts[0].present then f[opts[0].key := opts[0].value] else f;
    var rest := opts[1..];
    if i == 0 {
      assert forall j :: 0 <= j < |rest| ==> rest[j] == opts[j + 1];
      WithOptionalOther(f', rest, opts[0].key);
    } else {
      assert rest[i - 1] == opts[i];
      assert forall j :: 0 <= j < |rest| ==> rest[j] == opts[j + 1];
      WithOptionalAt(f', rest, i - 1);
    }
  }

  /** A one-entry object `{key: value}`. */
  function ObjWith(key: string, value: string): Json
  {
    JObj(map[key := JStr(value)])
  }

  function StringList(xs: seq<string>): (j: Json)
    ensures j.JList? && |j.items| == |xs|
  {
    JList(seq(|xs|, i requires 0 <= i < |xs| => JStr(xs[i])))
  }

  /** The three fields every ticket has. */
  function BaseFields(projectKey: string, summary: string, issueType: string): map<string, Json>
  {
    map["project" := ObjWith("key", projectKey), "summary" := JStr(summary), "issuetype" := ObjWith("name", issueType)]
  }

  /** The optional fields in the order `create_ticket` sets them; the
      sub-task and epic branches set the same parent field. */
  function TicketOptions(description: string, assignee: string, components: seq<string>, fixVersions: seq<string>,
                         labels: seq<string>, parentKey: string): (opts: seq<Optional>)
    ensures |opts| == 6
    ensures forall i, j :: 0 <= i < j < 6 ==> opts[i].key != opts[j].key
    ensures forall i :: 0 <= i < 6 ==> opts[i].key !in {"project", "summary", "issuetype"}
  {
    [Optional(description != "", "description", AdfDoc(description)),
     Optional(assignee != "", "assignee", ObjWith("id", assignee)),
     Optional(components != [], "components", NamedList(components)),
     Optional(fixVersions != [], "fixVersions", NamedList(fixVersions)),
     Optional(labels != [], "labels", StringList(labels)),
     Optional(parentKey != "", "parent", ObjWith("key", parentKey))]
  }

  /** The fields `create_ticket` builds before `custom_fields` are applied.
      Optional arguments are "" or [] when absent (both falsy). */
  function TicketFields(projectKey: string, summary: string, issueType: string, description: string,
                        assignee: string, components: seq<string>, fixVersions: seq<string>,
                        labels: seq<string>, parentKey: string): map<string, Json>
  {
    WithOptional(BaseFields(projectKey, summary, issueType),
                 TicketOptions(description, assignee, components, fixVersions, labels, parentKey))
  }

  /** Each optional field is sent exactly when its argument is truthy; the
      description goes as an Atlassian document and the parent by key. */
  lemma TicketFieldsOptional(projectKey: string, summary: string, issueType: string, description: string,
                             assignee: string, components: seq<string>, fixVersions: seq<string>,
                             labels: seq<string>, parentKey: string)
    ensures var f := TicketFields(projectKey, summary, issueType, description, assignee, components,
                                  fixVersions, labels, parentKey);
            && ("description" in f <==> description != "")
            && ("description" in f ==> f["description"] == AdfDoc(description))
            && ("assignee" in f <==> assignee != "")
            && ("components" in f <==> components != [])
            && ("fixVersions" in f <==> fixVersions != [])
            && ("labels" in f <==> labels != [])
            && ("parent" in f <==> parentKey != "")
            && ("parent" in f ==> f["parent"] == JObj(map["key" := JStr(parentKey)]))
  {
    var base := BaseFields(projectKey, summary, issueType);
    var opts := TicketOptions(description, assignee, components, fixVersions, labels, parentKey);
    forall i | 0 <= i < 6
      ensures opts[i].key in WithOptional(base, opts) <==> opts[i].present
      ensures opts[i].present ==> WithOptional(base, opts)[opts[i].key] == opts[i].value
    {
      WithOptionalAt(base, opts, i);
    }
    assert opts[0].key == "description" && opts[1].key == "assignee" && opts[2].key == "components";
    assert opts[3].key == "fixVersions" && opts[4].key == "labels" && opts[5].key == "parent";
  }

  /** The three fields every ticket has carry the given project, summary and
      issue type: no optional field overwrites them. */
  lemma TicketFieldsBase(projectKey: string, summary: string, issueType: string, description: string,
                         assignee: string, components: seq<string>, fixVersions: seq<string>,
                         labels: seq<string>, parentKey: string)
    ensures var f := TicketFields(projectKey, summary, issueType, description, assignee, components,
                                  fixVersions, labels, parentKey);
            && "project" in f && f["project"] == JObj(map["key" := JStr(projectKey)])
            && "summary" in f && f["summary"] == JStr(summary)
            && "issuetype" in f && f["issuetype"] == JObj(map["name" := JStr(issueType)])
  {
    var base := BaseFields(projectKey, summary, issueType);
    var opts := TicketOptions(description, assignee, components, fixVersions, labels, parentKey);
    WithOptionalOther(base, opts, "project");
    WithOptionalOther(base, opts, "summary");
    WithOptionalOther(base, opts, "issuetype");
  }

  /** The fields dict `create_ticket` sends: `custom_fields` is applied last,
      so a custom field overrides a built one and every other built field
      stays. */
  function CreateTicketFields(projectKey: string, summary: string, issueType: string, description: string,
                              assignee: string, components: seq<string>, fixVersions: seq<string>,
                              labels: seq<string>, parentKey: string, custom: map<string, Json>): (f: map<string, Json>)
    ensures forall k :: k in custom ==> k in f && f[k] == custom[k]
    ensures var built := TicketFields(projectKey, summary, issueType, description, assignee, components,
                                      fixVersions, labels, parentKey);
            forall k :: k !in custom ==> (k in f <==> k in built) && (k in built ==> f[k] == built[k])
  {
    TicketFields(projectKey, summary, issueType, description, assignee, components, fixVersions, labels, parentKey)
      + custom
  }

  /** A description sent by `create_ticket` and not overridden reads back as
      given. */
  lemma CreatedDescriptionReadsBack(projectKey: string, summary: string, issueType: string, description: string,
                                    assignee: string, components: seq<string>, fixVersions: seq<string>,
                                    labels: seq<string>, parentKey: string, custom: map<string, Json>,
                                    repr: Json -> string)
    requires description != "" && "description" !in custom
    ensures var f := CreateTicketFields(projectKey, summary, issueType, description, assignee, components,
                                        fixVersions, labels, parentKey, custom);
            "description" in f && ExtractDescription(f["description"], repr) == Ok(description)
  {
    TicketFieldsOptional(projectKey, summary, issueType, description, assignee, components, fixVersions,
                         labels, parentKey);
    ExtractDescriptionRoundTrip(description, repr);
  }

  datatype Transition = Transition(id: string, name: string)

  /** The transition `update_ticket` performs: none without a status, else
      the first whose name equals the status ignoring case. */
  function ChooseTransition(ts: seq<Transition>, status: string): (r: Option<nat>)
    ensures status == "" ==> r.None?
    ensures r.Some? ==> r.value < |ts| && Lower(ts[r.value].name) == Lower(status)
    ensures r.Some? ==> forall j :: 0 <= j < r.value ==> Lower(ts[j].name) != Lower(status)
    ensures r.None? && status != "" ==> forall j :: 0 <= j < |ts| ==> Lower(ts[j].name) != Lower(status)
  {
    if status == "" then None else FirstNamed(ts, Lower(status))
  }

  function FirstNamed(ts: seq<Transition>, lowered: string): (r: Option<nat>)
    ensures r.Some? ==> r.value < |ts| && Lower(ts[r.value].name) == lowered
    ensures r.Some? ==> forall j :: 0 <= j < r.value ==> Lower(ts[j].name) != lowered
    ensures r.None? ==> forall j :: 0 <= j < |ts| ==> Lower(ts[j].name) != lowered
  {
    if ts == [] then None
    else if Lower(ts[0].name) == lowered then Some(0)
    else match FirstNamed(ts[1..], lowered)
      case None => None
      case Some(i) => Some(i + 1)
  }
}
