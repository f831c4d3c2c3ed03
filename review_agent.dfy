/** The human-in-the-loop review of a release plan: review items with an
    approval status, the session that collects them, the decisions on
    single items or on all pending ones, and the execution of approved
    items in dependency order. */
module ReviewAgent {
  import opened Common

  datatype ApprovalStatus = Pending | Approved | Modified | Rejected | Executed | Failed

  /** The request `_execute_item` sends to Jira. */
  datatype JiraRequest =
    | CreateRelease(projectKey: Json, name: Json, description: Json, releaseDate: Json)
    | CreateTicket(projectKey: Json, summary: Json, issueType: Json, description: Json,
        assignee: Json, components: Json, fixVersions: Json, labels: Json)

  /** What a Jira tool call returns: `is_success`, `data` and `error`. */
  datatype ToolOutcome = ToolOutcome(success: bool, data: Json, error: Option<string>)

  /** The result dict of one executed item. */
  datatype ExecResult = ExecResult(success: bool, data: Json, error: Option<string>, itemId: string)

  class ReviewItem {
    const id: string
    const itemType: string
    const action: string
    const data: map<string, Json>
    var status: ApprovalStatus
    var modifiedData: Option<map<string, Json>>
    var result: Option<ExecResult>
    var error: Option<string>

    /** A new item is pending, unmodified and not executed. */
    constructor (id: string, itemType: string, action: string, data: map<string, Json>)
      ensures this.id == id && this.itemType == itemType && this.action == action && this.data == data
      ensures status == Pending && modifiedData == None && result == None && error == None
    {
      this.id := id;
      this.itemType := itemType;
      this.action := action;
      this.data := data;
      status := Pending;
      modifiedData := None;
      result := None;
      error := None;
    }

    /** `get_effective_data`: the modified data when it is a non-empty
        dict, else the original data. */
    function EffectiveData(): (r: map<string, Json>)
      reads this`modifiedData
      ensures r == data || (modifiedData.Some? && r == modifiedData.value)
      ensures modifiedData.Some? && modifiedData.value != map[] ==> r == modifiedData.value
    {
      if modifiedData.Some? && modifiedData.value != map[] then modifiedData.value else data
    }
  }

  /** The counts `ReviewSession.to_dict` reports. */
  datatype SessionSummary = SessionSummary(total: nat, pending: nat, approved: nat, rejected: nat, executed: nat)

  class ReviewSession {
    const sessionId: string
    const createdAt: string
    var items: seq<ReviewItem>

    constructor (sessionId: string, createdAt: string)
      ensures this.sessionId == sessionId && this.createdAt == createdAt && items == []
    {
      this.sessionId := sessionId;
      this.createdAt := createdAt;
      items := [];
    }

    method AddItem(item: ReviewItem)
      modifies this
      ensures items == old(items) + [item]
    {
      items := items + [item];
    }

    /** `get_by_status` (and `get_pending`, `get_approved`). */
    function ByStatus(status: ApprovalStatus): (r: seq<ReviewItem>)
      reads this, items
      ensures |r| <= |items|
      ensures forall k :: 0 <= k < |r| ==> r[k] in items && r[k].status == status
    {
      Having(items, status)
    }

    /** The summary block of `to_dict`. */
    function Summary(): (r: SessionSummary)
      reads this, items
      ensures r.total == |items|
    {
      SessionSummary(|items|, |ByStatus(Pending)|, |ByStatus(Approved)|,
        |ByStatus(Rejected)|, |ByStatus(Executed)|)
    }
  }

  /** The items of `xs` with the given status, in order. */
  function Having(xs: seq<ReviewItem>, status: ApprovalStatus): (r: seq<ReviewItem>)
    reads xs
    ensures |r| <= |xs|
    ensures forall k :: 0 <= k < |r| ==> r[k] in xs && r[k].status == status
  {
    if xs == [] then []
    else
      var init := Having(xs[..|xs| - 1], status);
      var last := xs[|xs| - 1];
      if last.status == status then init + [last] else init
  }

  /** Every item of `xs` with the status is kept. */
  lemma {:induction false} HavingMembers(xs: seq<ReviewItem>, status: ApprovalStatus)
    ensures forall it :: it in xs && it.status == status ==> it in Having(xs, status)
  {
    if xs != [] {
      HavingMembers(xs[..|xs| - 1], status);
      assert xs == xs[..|xs| - 1] + [xs[|xs| - 1]];
    }
  }

  /** An item is in at most one of the four filters, so the pending,
      approved, rejected and executed counts together never exceed the
      total. */
  lemma {:induction false} HavingDisjoint(xs: seq<ReviewItem>)
    ensures |Having(xs, Pending)| + |Having(xs, Approved)| + |Having(xs, Rejected)|
      + |Having(xs, Executed)| <= |xs|
  {
    if xs != [] {
      HavingDisjoint(xs[..|xs| - 1]);
    }
  }

  lemma SummaryBounded(session: ReviewSession)
    ensures var s := session.Summary();
      s.pending + s.approved + s.rejected + s.executed <= s.total
  {
    HavingDisjoint(session.items);
  }

  // -----------------------------------------------------------------------
  // create_session_from_plan
  // -----------------------------------------------------------------------

  /** One item to be created, before it gets its id. */
  datatype Entry = Entry(itemType: string, data: map<string, Json>)

  function ReleaseData(release: map<string, Json>, projectKey: Json): map<string, Json>
  {
    map["name" := Get(release, "name", JNull),
        "description" := Get(release, "description", JStr("")),
        "release_date" := Get(release, "release_date", JNull),
        "project_key" := projectKey]
  }

  function TicketData(ticket: map<string, Json>, projectKey: Json): map<string, Json>
  {
    map["summary" := Get(ticket, "summary", JNull),
        "description" := Get(ticket, "description", JStr("")),
        "issue_type" := Get(ticket, "issue_type", JStr("Story")),
        "components" := Get(ticket, "components", JList([])),
        "fix_versions" := Get(ticket, "fix_versions", JList([])),
        "assignee" := Get(ticket, "assignee", JNull),
        "labels" := Get(ticket, "labels", JList([])),
        "project_key" := projectKey]
  }

  /** The ticket entries of one release; a ticket that is not a dict
      raises. */
  function TicketEntries(tickets: seq<Json>, projectKey: Json): (r: Result<seq<Entry>>)
    ensures r.Ok? ==> |r.value| == |tickets| && forall k :: 0 <= k < |tickets| ==> r.value[k].itemType == "ticket"
  {
    if tickets == [] then Ok([])
    else
      var last := tickets[|tickets| - 1];
      match TicketEntries(tickets[..|tickets| - 1], projectKey)
      case Err(m) => Err(m)
      case Ok(es) =>
        if last.JObj? then Ok(es + [Entry("ticket", TicketData(last.fields, projectKey))])
        else Err(NoAttribute(last, "get"))
  }

  /** A release entry followed by the entries of its tickets. */
  function ReleaseEntries(release: Json, projectKey: Json): (r: Result<seq<Entry>>)
    ensures r.Ok? ==> (r.value != [] && r.value[0].itemType == "release"
      && forall k :: 1 <= k < |r.value| ==> r.value[k].itemType == "ticket")
  {
    if !release.JObj? then Err(NoAttribute(release, "get"))
    else
      match Elements(Get(release.fields, "tickets", JList([])))
      case Err(m) => Err(m)
      case Ok(tickets) =>
        match TicketEntries(tickets, projectKey)
        case Err(m) => Err(m)
        case Ok(es) => Ok([Entry("release", ReleaseData(release.fields, projectKey))] + es)
  }

  function ReleasesEntries(releases: seq<Json>, projectKey: Json): Result<seq<Entry>>
  {
    if releases == [] then Ok([])
    else
      match ReleasesEntries(releases[..|releases| - 1], projectKey)
      case Err(m) => Err(m)
      case Ok(es) =>
        match ReleaseEntries(releases[|releases| - 1], projectKey)
        case Err(m) => Err(m)
        case Ok(more) => Ok(es + more)
  }

  /** The entries of a plan: each release followed by its tickets. */
  function PlanEntries(plan: map<string, Json>): Result<seq<Entry>>
  {
    match Elements(Get(plan, "releases", JList([])))
    case Err(m) => Err(m)
    case Ok(releases) => ReleasesEntries(releases, Get(plan, "project_key", JNull))
  }

  /** `R<n>` for a release and `T<n>` for a ticket, numbered from 1 in
      the order the items are added. */
  function ItemId(itemType: string, n: nat): string
  {
    (if itemType == "release" then "R" else "T") + NatToString(n)
  }

  /** The items hold the entries, in order, numbered from `from`, all
      pending and untouched. */
  ghost predicate HoldsEntries(items: seq<ReviewItem>, entries: seq<Entry>, from: nat)
    reads items
  {
    |items| == |entries|
    && forall k :: 0 <= k < |items| ==>
      items[k].id == ItemId(entries[k].itemType, from + k) && items[k].itemType == entries[k].itemType
      && items[k].action == "create" && items[k].data == entries[k].data
      && items[k].status == Pending && items[k].modifiedData == None
      && items[k].result == None && items[k].error == None
  }

  /** `create_session_from_plan`, with the session id and the creation
      time given. Raises where iterating the plan's releases or tickets
      does. */
  method CreateSessionFromPlan(plan: map<string, Json>, sessionId: string, createdAt: string)
    returns (r: Result<ReviewSession>)
    ensures r.Ok? <==> PlanEntries(plan).Ok?
    ensures r.Ok? ==> (fresh(r.value) && r.value.sessionId == sessionId && r.value.createdAt == createdAt
      && (forall k :: 0 <= k < |r.value.items| ==> fresh(r.value.items[k]))
      && NoDup(r.value.items) && HoldsEntries(r.value.items, PlanEntries(plan).value, 1))
  {
    var entries := PlanEntries(plan);
    if entries.Err? {
      return Err(entries.msg);
    }
    var items := NewItems(entries.value, 1);
    var session := new ReviewSession(sessionId, createdAt);
    session.items := items;
    return Ok(session);
  }

  /** Two runs of items, numbered one after the other and sharing no
      item, make one run. */
  lemma AppendItems(a: seq<ReviewItem>, ea: seq<Entry>, b: seq<ReviewItem>, eb: seq<Entry>, from: nat)
    requires HoldsEntries(a, ea, from) && HoldsEntries(b, eb, from + |a|)
    requires NoDup(a) && NoDup(b) && forall i, j :: 0 <= i < |a| && 0 <= j < |b| ==> a[i] != b[j]
    ensures HoldsEntries(a + b, ea + eb, from) && NoDup(a + b)
  {
    var ab := a + b;
    forall i, j | 0 <= i < j < |ab| ensures ab[i] != ab[j] {
      if j < |a| {
      } else if i >= |a| {
        assert ab[i] == b[i - |a|] && ab[j] == b[j - |a|];
      } else {
        assert ab[j] == b[j - |a|];
      }
    }
  }

  /** One fresh pending item per entry, numbered from `next`. */
  method NewItems(entries: seq<Entry>, next: nat) returns (items: seq<ReviewItem>)
    ensures HoldsEntries(items, entries, next)
    ensures NoDup(items) && forall k :: 0 <= k < |items| ==> fresh(items[k])
  {
    items := [];
    for i := 0 to |entries|
      invariant HoldsEntries(items, entries[..i], next)
      invariant NoDup(items) && forall k :: 0 <= k < |items| ==> fresh(items[k])
    {
      var item := new ReviewItem(ItemId(entries[i].itemType, next + i), entries[i].itemType, "create", entries[i].data);
      AppendItems(items, entries[..i], [item], [entries[i]], next);
      assert entries[..i + 1] == entries[..i] + [entries[i]];
      items := items + [item];
    }
    assert entries[..|entries|] == entries;
  }

  /** Distinct numbers give distinct ids, whatever the item types. */
  lemma ItemIdInjective(t1: string, n1: nat, t2: string, n2: nat)
    requires ItemId(t1, n1) == ItemId(t2, n2)
    ensures n1 == n2
  {
    var a := ItemId(t1, n1);
    assert a[1..] == NatToString(n1);
    assert ItemId(t2, n2)[1..] == NatToString(n2);
    ParseNatRoundTrip(n1);
    ParseNatRoundTrip(n2);
  }

  /** The items of a session built from a plan carry distinct ids. */
  lemma SessionIdsDistinct(items: seq<ReviewItem>, entries: seq<Entry>)
    requires HoldsEntries(items, entries, 1)
    ensures forall i, j :: 0 <= i < j < |items| ==> items[i].id != items[j].id
  {
    forall i, j | 0 <= i < j < |items| ensures items[i].id != items[j].id {
      if items[i].id == items[j].id {
        ItemIdInjective(entries[i].itemType, 1 + i, entries[j].itemType, 1 + j);
      }
    }
  }

  // -----------------------------------------------------------------------
  // Decisions on single items
  // -----------------------------------------------------------------------

  function Ids(items: seq<ReviewItem>): (r: seq<string>)
    ensures |r| == |items| && forall k :: 0 <= k < |items| ==> r[k] == items[k].id
  {
    seq(|items|, k requires 0 <= k < |items| => items[k].id)
  }

  /** The position of the first occurrence of `x`. */
  function FirstIndex(xs: seq<string>, x: string): (r: Option<nat>)
    ensures r.Some? ==> r.value < |xs| && xs[r.value] == x && forall j :: 0 <= j < r.value ==> xs[j] != x
    ensures r.None? <==> x !in xs
  {
    if xs == [] then None
    else if xs[0] == x then Some(0)
    else match FirstIndex(xs[1..], x)
      case None => None
      case Some(i) => Some(i + 1)
  }

  /** The item the first item with the id designates, if any. */
  function Target(items: seq<ReviewItem>, itemId: string): Option<ReviewItem>
  {
    match FirstIndex(Ids(items), itemId)
    case None => None
    case Some(k) => Some(items[k])
  }

  /** The loop shared by `approve_item` and `reject_item`: the first item
      with the id gets the status; nothing else changes. */
  method Decide(session: ReviewSession, itemId: string, status: ApprovalStatus) returns (found: bool)
    modifies session.items
    ensures found <==> Target(session.items, itemId).Some?
    ensures forall it :: it in session.items ==>
      it.status == (if Target(session.items, itemId) == Some(it) then status else old(it.status))
      && it.modifiedData == old(it.modifiedData) && it.result == old(it.result) && it.error == old(it.error)
  {
    for k := 0 to |session.items|
      invariant forall j :: 0 <= j < k ==> session.items[j].id != itemId
      invariant forall it :: it in session.items ==> (it.status == old(it.status)
        && it.modifiedData == old(it.modifiedData) && it.result == old(it.result) && it.error == old(it.error))
    {
      if session.items[k].id == itemId {
        assert FirstIndex(Ids(session.items), itemId) == Some(k);
        session.items[k].status := status;
        return true;
      }
    }
    return false;
  }

  /** `approve_item` */
  method ApproveItem(session: ReviewSession, itemId: string) returns (found: bool)
    modifies session.items
    ensures found <==> Target(session.items, itemId).Some?
    ensures forall it :: it in session.items ==>
      it.status == (if Target(session.items, itemId) == Some(it) then Approved else old(it.status))
      && it.modifiedData == old(it.modifiedData) && it.result == old(it.result) && it.error == old(it.error)
  {
    found := Decide(session, itemId, Approved);
  }

  /** `reject_item` */
  method RejectItem(session: ReviewSession, itemId: string) returns (found: bool)
    modifies session.items
    ensures found <==> Target(session.items, itemId).Some?
    ensures forall it :: it in session.items ==>
      it.status == (if Target(session.items, itemId) == Some(it) then Rejected else old(it.status))
      && it.modifiedData == old(it.modifiedData) && it.result == old(it.result) && it.error == old(it.error)
  {
    found := Decide(session, itemId, Rejected);
  }

  /** `{**data, **modifications}`: the modifications win. */
  function Overlay(data: map<string, Json>, modifications: map<string, Json>): (r: map<string, Json>)
    ensures r.Keys == data.Keys + modifications.Keys
    ensures forall k :: k in modifications ==> r[k] == modifications[k]
    ensures forall k :: k in data && k !in modifications ==> r[k] == data[k]
  {
    data + modifications
  }

  /** `modify_item`: the first item with the id gets the overlaid data
      and the MODIFIED status; its original data stays as it was. */
  method ModifyItem(session: ReviewSession, itemId: string, modifications: map<string, Json>)
    returns (found: bool)
    modifies session.items
    ensures found <==> Target(session.items, itemId).Some?
    ensures forall it :: it in session.items ==>
      if Target(session.items, itemId) == Some(it) then
        it.status == Modified && it.modifiedData == Some(Overlay(it.data, modifications))
        && it.result == old(it.result) && it.error == old(it.error)
      else
        it.status == old(it.status) && it.modifiedData == old(it.modifiedData)
        && it.result == old(it.result) && it.error == old(it.error)
  {
    for k := 0 to |session.items|
      invariant forall j :: 0 <= j < k ==> session.items[j].id != itemId
      invariant forall it :: it in session.items ==> (it.status == old(it.status)
        && it.modifiedData == old(it.modifiedData) && it.result == old(it.result) && it.error == old(it.error))
    {
      var item := session.items[k];
      if item.id == itemId {
        assert FirstIndex(Ids(session.items), itemId) == Some(k);
        item.modifiedData := Some(Overlay(item.data, modifications));
        item.status := Modified;
        return true;
      }
    }
    return false;
  }

  /** After a modification the effective data is the overlay: when the
      overlay is empty, so is the original data it falls back to. */
  lemma EffectiveAfterModify(item: ReviewItem, modifications: map<string, Json>)
    requires item.modifiedData == Some(Overlay(item.data, modifications))
    ensures item.EffectiveData() == Overlay(item.data, modifications)
  {
    if Overlay(item.data, modifications) == map[] {
      assert item.data.Keys == {};
    }
  }

  /** `approve_all`: every item pending before the call is approved, the
      others keep their status, and the count is the number of pending
      items. */
  method ApproveAll(session: ReviewSession) returns (count: nat)
    modifies session.items
    ensures count == |old(Having(session.items, Pending))|
    ensures forall it :: it in session.items ==>
      it.status == (if old(it.status) == Pending then Approved else old(it.status))
      && it.modifiedData == old(it.modifiedData) && it.result == old(it.result) && it.error == old(it.error)
  {
    var pending := Having(session.items, Pending);
    HavingMembers(session.items, Pending);
    count := 0;
    for i := 0 to |pending|
      invariant count == i
      invariant forall it :: it in session.items ==>
        it.status == (if it in pending[..i] then Approved else old(it.status))
        && it.modifiedData == old(it.modifiedData) && it.result == old(it.result) && it.error == old(it.error)
    {
      assert pending[..i + 1] == pending[..i] + [pending[i]];
      pending[i].status := Approved;
      count := count + 1;
    }
    assert pending[..|pending|] == pending;
  }

  /** `review_all` with an approval callback: every pending item takes
      the status the callback gives it. */
  method ReviewAll(session: ReviewSession, decide: ReviewItem -> ApprovalStatus)
    modifies session.items
    ensures forall it :: it in session.items ==>
      it.status == (if old(it.status) == Pending then decide(it) else old(it.status))
      && it.modifiedData == old(it.modifiedData) && it.result == old(it.result) && it.error == old(it.error)
  {
    var pending := Having(session.items, Pending);
    HavingMembers(session.items, Pending);
    for i := 0 to |pending|
      invariant forall it :: it in session.items ==>
        it.status == (if it in pending[..i] then decide(it) else old(it.status))
        && it.modifiedData == old(it.modifiedData) && it.result == old(it.result) && it.error == old(it.error)
    {
      assert pending[..i + 1] == pending[..i] + [pending[i]];
      pending[i].status := decide(pending[i]);
    }
    assert pending[..|pending|] == pending;
  }

  // -----------------------------------------------------------------------
  // execute_approved
  // -----------------------------------------------------------------------

  /** Releases first, then epics, then the other tickets. */
  function Rank(item: ReviewItem): nat
  {
    if item.itemType == "release" then 0
    else if Get(item.data, "issue_type", JNull) == JStr("Epic") then 1
    else 2
  }

  /** The order of `sort_key`: by rank, then by id as a string. */
  predicate KeyLessEq(a: ReviewItem, b: ReviewItem)
  {
    Rank(a) < Rank(b) || (Rank(a) == Rank(b) && StrLessEq(a.id, b.id))
  }

  lemma KeyTotal(a: ReviewItem, b: ReviewItem)
    ensures KeyLessEq(a, b) || KeyLessEq(b, a)
  {
    StrLessEqTotal(a.id, b.id);
  }

  lemma KeyTrans(a: ReviewItem, b: ReviewItem, c: ReviewItem)
    requires KeyLessEq(a, b) && KeyLessEq(b, c)
    ensures KeyLessEq(a, c)
  {
    if Rank(a) == Rank(b) == Rank(c) {
      StrLessEqTrans(a.id, b.id, c.id);
    }
  }

  predicate SortedByKey(s: seq<ReviewItem>)
  {
    forall i :: 0 <= i < |s| - 1 ==> KeyLessEq(s[i], s[i + 1])
  }

  /** `x` placed after every item whose key is not greater. */
  function InsertByKey(x: ReviewItem, s: seq<ReviewItem>): seq<ReviewItem>
  {
    if s == [] || !KeyLessEq(s[0], x) then [x] + s
    else [s[0]] + InsertByKey(x, s[1..])
  }

  /** `to_execute.sort(key=sort_key)` as stable insertion from the back. */
  function SortForExecution(s: seq<ReviewItem>): seq<ReviewItem>
  {
    if s == [] then [] else InsertByKey(s[|s| - 1], SortForExecution(s[..|s| - 1]))
  }

  lemma {:induction false} InsertByKeySpec(x: ReviewItem, s: seq<ReviewItem>)
    requires SortedByKey(s)
    ensures SortedByKey(InsertByKey(x, s))
    ensures multiset(InsertByKey(x, s)) == multiset(s) + multiset{x}
    ensures |InsertByKey(x, s)| == |s| + 1
    ensures InsertByKey(x, s)[0] == x || (s != [] && InsertByKey(x, s)[0] == s[0])
  {
    if s == [] || !KeyLessEq(s[0], x) {
      if s != [] {
        KeyTotal(s[0], x);
      }
    } else {
      var rest := InsertByKey(x, s[1..]);
      assert SortedByKey(s[1..]) by {
        forall i | 0 <= i < |s[1..]| - 1 ensures KeyLessEq(s[1..][i], s[1..][i + 1]) {
          assert s[1..][i] == s[i + 1] && s[1..][i + 1] == s[i + 2];
        }
      }
      InsertByKeySpec(x, s[1..]);
      assert s == [s[0]] + s[1..];
      var r := [s[0]] + rest;
      forall i | 0 <= i < |r| - 1 ensures KeyLessEq(r[i], r[i + 1]) {
        if i == 0 {
          if rest[0] != x {
            assert rest[0] == s[1];
          }
        } else {
          assert r[i] == rest[i - 1] && r[i + 1] == rest[i];
        }
      }
    }
  }

  /** The execution order is sorted by key and holds exactly the items to
      execute. */
  lemma {:induction false} SortForExecutionSpec(s: seq<ReviewItem>)
    ensures SortedByKey(SortForExecution(s))
    ensures multiset(SortForExecution(s)) == multiset(s)
    ensures |SortForExecution(s)| == |s|
    ensures forall x :: x in SortForExecution(s) <==> x in s
  {
    if s != [] {
      SortForExecutionSpec(s[..|s| - 1]);
      InsertByKeySpec(s[|s| - 1], SortForExecution(s[..|s| - 1]));
      assert s == s[..|s| - 1] + [s[|s| - 1]];
    }
    forall x ensures x in SortForExecution(s) <==> x in s {
      assert x in SortForExecution(s) <==> x in multiset(SortForExecution(s));
    }
  }

  /** Sorted by key means every release comes before every epic and
      every epic before every other ticket. */
  lemma {:induction false} SortedByKeyRanks(s: seq<ReviewItem>, i: nat, j: nat)
    requires SortedByKey(s) && i <= j < |s|
    ensures KeyLessEq(s[i], s[j]) && Rank(s[i]) <= Rank(s[j])
    decreases j - i
  {
    if i < j {
      SortedByKeyRanks(s, i + 1, j);
      KeyTrans(s[i], s[i + 1], s[j]);
    } else {
      StrLessEqTotal(s[i].id, s[i].id);
    }
  }

  predicate Ready(status: ApprovalStatus) { status == Approved || status == Modified }

  /** The approved and modified items, in session order. */
  function ToExecute(items: seq<ReviewItem>): (r: seq<ReviewItem>)
    reads items
    ensures forall k :: 0 <= k < |r| ==> r[k] in items && Ready(r[k].status)
  {
    if items == [] then []
    else
      var init := ToExecute(items[..|items| - 1]);
      var last := items[|items| - 1];
      if Ready(last.status) then init + [last] else init
  }

  /** Every approved or modified item is executed. */
  lemma {:induction false} ToExecuteMembers(items: seq<ReviewItem>)
    ensures forall it :: it in items && Ready(it.status) ==> it in ToExecute(items)
  {
    if items != [] {
      ToExecuteMembers(items[..|items| - 1]);
      assert items == items[..|items| - 1] + [items[|items| - 1]];
    }
  }

  function Reply(itemId: string, outcome: ToolOutcome): ExecResult
  {
    if outcome.success then ExecResult(true, outcome.data, None, itemId)
    else ExecResult(false, JNull, outcome.error, itemId)
  }

  /** `_execute_item` on the effective data: a missing required key
      fails with the key's name, an unknown type or action fails with a
      message, anything else is Jira's answer to the request. */
  function ExecuteItem(itemId: string, itemType: string, action: string, data: map<string, Json>,
                       jira: JiraRequest -> ToolOutcome): (r: ExecResult)
    ensures r.itemId == itemId
    ensures r.success ==> action == "create" && (itemType == "release" || itemType == "ticket")
    ensures !r.success ==> r.data == JNull
  {
    if itemType == "release" && action == "create" then
      if "project_key" !in data then ExecResult(false, JNull, Some("'project_key'"), itemId)
      else if "name" !in data then ExecResult(false, JNull, Some("'name'"), itemId)
      else
        Reply(itemId, jira(CreateRelease(data["project_key"], data["name"],
          Get(data, "description", JNull), Get(data, "release_date", JNull))))
    else if itemType == "ticket" && action == "create" then
      if "project_key" !in data then ExecResult(false, JNull, Some("'project_key'"), itemId)
      else if "summary" !in data then ExecResult(false, JNull, Some("'summary'"), itemId)
      else
        Reply(itemId, jira(CreateTicket(data["project_key"], data["summary"],
          Get(data, "issue_type", JStr("Story")), Get(data, "description", JNull),
          Get(data, "assignee", JNull), Get(data, "components", JNull),
          Get(data, "fix_versions", JNull), Get(data, "labels", JNull))))
    else
      ExecResult(false, JNull, Some("Unknown item type/action: " + itemType + "/" + action), itemId)
  }

  /** What executing `item` with this effective data gives. */
  function Execution(item: ReviewItem, data: map<string, Json>, jira: JiraRequest -> ToolOutcome): ExecResult
  {
    ExecuteItem(item.id, item.itemType, item.action, data, jira)
  }

  /** The state an executed item ends in. */
  ghost predicate Settled(item: ReviewItem, res: ExecResult, oldResult: Option<ExecResult>, oldError: Option<string>)
    reads item
  {
    if res.success then item.status == Executed && item.result == Some(res) && item.error == oldError
    else item.status == Failed && item.error == res.error && item.result == oldResult
  }

  /** An item after its execution: EXECUTED with the result, or FAILED
      with the error. Settling an item twice with the same result
      changes nothing. */
  method Settle(item: ReviewItem, res: ExecResult, ghost oldResult: Option<ExecResult>, ghost oldError: Option<string>)
    requires Settled(item, res, oldResult, oldError) || (item.result == oldResult && item.error == oldError)
    modifies item
    ensures Settled(item, res, oldResult, oldError)
    ensures item.modifiedData == old(item.modifiedData)
  {
    if res.success {
      item.status := Executed;
      item.result := Some(res);
    } else {
      item.status := Failed;
      item.error := res.error;
    }
  }

  /** Runs the items of `order` one after the other; each ends settled
      with its own execution. */
  method ExecuteInOrder(items: seq<ReviewItem>, order: seq<ReviewItem>, jira: JiraRequest -> ToolOutcome)
    returns (results: seq<ExecResult>)
    requires forall it :: it in order ==> it in items
    modifies items
    ensures |results| == |order|
    ensures forall k :: 0 <= k < |order| ==> results[k] == Execution(order[k], order[k].EffectiveData(), jira)
    ensures forall it :: it in items ==> it.modifiedData == old(it.modifiedData)
    ensures forall it :: it in items && it !in order ==>
      it.status == old(it.status) && it.result == old(it.result) && it.error == old(it.error)
    ensures forall it :: it in order ==>
      Settled(it, Execution(it, it.EffectiveData(), jira), old(it.result), old(it.error))
  {
    results := [];
    for k := 0 to |order|
      invariant |results| == k
      invariant forall j :: 0 <= j < k ==> results[j] == Execution(order[j], order[j].EffectiveData(), jira)
      invariant forall it :: it in items ==> it.modifiedData == old(it.modifiedData)
      invariant forall it :: it in items && it !in order ==>
        it.status == old(it.status) && it.result == old(it.result) && it.error == old(it.error)
      invariant forall it :: it in order[..k] ==>
        Settled(it, Execution(it, it.EffectiveData(), jira), old(it.result), old(it.error))
      invariant forall it :: it in order && it !in order[..k] ==>
        it.result == old(it.result) && it.error == old(it.error)
    {
      var item := order[k];
      var res := Execution(item, item.EffectiveData(), jira);
      results := results + [res];
      Settle(item, res, old(item.result), old(item.error));
      assert order[..k + 1] == order[..k] + [item];
    }
    assert order[..|order|] == order;
  }

  /** `execute_approved`: the approved and modified items run in key
      order (releases, epics, other tickets; ties by id), each ends
      EXECUTED with its result or FAILED with its error, and items in
      other states are untouched. */
  method ExecuteApproved(session: ReviewSession, jira: JiraRequest -> ToolOutcome)
    returns (results: seq<ExecResult>)
    modifies session.items
    ensures var order := old(SortForExecution(ToExecute(session.items)));
      |results| == |order|
      && forall k :: 0 <= k < |order| ==> results[k] == Execution(order[k], order[k].EffectiveData(), jira)
    ensures forall it :: it in session.items ==>
      it.modifiedData == old(it.modifiedData)
      && if Ready(old(it.status)) then
           Settled(it, Execution(it, it.EffectiveData(), jira), old(it.result), old(it.error))
         else
           it.status == old(it.status) && it.result == old(it.result) && it.error == old(it.error)
  {
    var runs := ToExecute(session.items);
    var order := SortForExecution(runs);
    SortForExecutionSpec(runs);
    ToExecuteMembers(session.items);
    forall it | it in order ensures it in session.items && Ready(it.status) {
      assert it in multiset(order);
      assert it in multiset(runs);
      var j :| 0 <= j < |runs| && runs[j] == it;
    }
    results := ExecuteInOrder(session.items, order, jira);
  }
}
