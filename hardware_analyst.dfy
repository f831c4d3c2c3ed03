/** The deterministic half of the hardware analyst agent: building a
    hardware profile from the product knowledge base, from Jira components
    and tickets, and from a research report, and the best-effort parser of
    the language model's Markdown answer.  The tools it calls are oracles:
    their answers are parameters. */
module HardwareAnalyst {
  import opened Common
  import opened FeaturePlanningModels

  /** One dict of a profile list: its 'name' and its other keys in order. */
  datatype Entry = Entry(name: string, fields: seq<(string, string)>)

  /** The profile lists, as one value (the parser's specification works on it). */
  datatype Parsed = Parsed(
    productName: string,
    description: string,
    components: seq<Entry>,
    busInterfaces: seq<Entry>,
    firmware: seq<Entry>,
    drivers: seq<Entry>,
    tools: seq<Entry>,
    gaps: seq<string>)

  const EmptyParsed := Parsed("", "", [], [], [], [], [], [])

  /** The hardware profile dataclass, whose lists the analyst appends to. */
  class HardwareProfile {
    var productName: string
    var description: string
    var components: seq<Entry>
    var busInterfaces: seq<Entry>
    var existingFirmware: seq<Entry>
    var existingDrivers: seq<Entry>
    var existingTools: seq<Entry>
    var blockDiagram: Option<string>
    var gaps: seq<string>

    constructor ()
      ensures Lists() == EmptyParsed && blockDiagram == None
    {
      productName := "";
      description := "";
      components := [];
      busInterfaces := [];
      existingFirmware := [];
      existingDrivers := [];
      existingTools := [];
      blockDiagram := None;
      gaps := [];
    }

    function Lists(): Parsed
      reads this
    {
      Parsed(productName, description, components, busInterfaces,
        existingFirmware, existingDrivers, existingTools, gaps)
    }
  }

  // ---------------------------------------------------------------------
  // Keyword tests
  // ---------------------------------------------------------------------

  /** Some keyword of `kws` occurs in `lower`. */
  predicate Mentions(lower: string, kws: seq<string>)
    decreases |kws|
  {
    kws != [] && (Contains(lower, kws[0]) || Mentions(lower, kws[1..]))
  }

  lemma {:induction false} MentionsSpec(lower: string, kws: seq<string>)
    ensures Mentions(lower, kws) <==> exists k :: k in kws && Contains(lower, k)
    decreases |kws|
  {
    if kws != [] {
      MentionsSpec(lower, kws[1..]);
      assert kws[0] in kws;
      assert forall k :: k in kws[1..] ==> k in kws;
      assert forall k :: k in kws && k != kws[0] ==> k in kws[1..];
    }
  }

  const FirmwareWords: seq<string> := ["firmware", "fw", "embedded"]
  const DriverWords: seq<string> := ["driver", "kernel", "hfi"]
  const ToolWords: seq<string> := ["tool", "cli", "util", "diag"]

  /** The four profile lists a Jira component or ticket can land in. */
  datatype Area = Firmware | Drivers | Tools | Hardware

  /** The list a Jira component goes to, by its lower-cased name: firmware,
      then drivers, then tools, and the hardware components otherwise. */
  function ComponentArea(name: string): Area
  {
    var lower := Lower(name);
    if Mentions(lower, FirmwareWords) then Firmware
    else if Mentions(lower, DriverWords) then Drivers
    else if Mentions(lower, ToolWords) then Tools
    else Hardware
  }

  /** A component lands in firmware iff a firmware keyword occurs in its
      lower-cased name, in drivers iff no firmware keyword but a driver
      keyword does, in tools iff only a tool keyword does. */
  lemma ComponentAreaPriority(name: string)
    ensures ComponentArea(name) == Firmware <==> exists k :: k in FirmwareWords && Contains(Lower(name), k)
    ensures ComponentArea(name) == Drivers <==>
      (!exists k :: k in FirmwareWords && Contains(Lower(name), k))
      && (exists k :: k in DriverWords && Contains(Lower(name), k))
    ensures ComponentArea(name) == Tools <==>
      (!exists k :: k in FirmwareWords && Contains(Lower(name), k))
      && (!exists k :: k in DriverWords && Contains(Lower(name), k))
      && (exists k :: k in ToolWords && Contains(Lower(name), k))
  {
    var lower := Lower(name);
    MentionsSpec(lower, FirmwareWords);
    MentionsSpec(lower, DriverWords);
    MentionsSpec(lower, ToolWords);
  }

  /** The list a Jira ticket goes to, by its lower-cased summary; a ticket
      matching no keyword is dropped. */
  function TicketArea(summary: string): (a: Option<Area>)
    ensures a != Some(Hardware)
    ensures a == Some(Firmware) <==> Contains(Lower(summary), "firmware") || Contains(Lower(summary), "fw")
    ensures a == None <==>
      !Contains(Lower(summary), "firmware") && !Contains(Lower(summary), "fw")
      && !Contains(Lower(summary), "driver")
      && !Contains(Lower(summary), "tool") && !Contains(Lower(summary), "diagnostic")
  {
    var lower := Lower(summary);
    if Contains(lower, "firmware") || Contains(lower, "fw") then Some(Firmware)
    else if Contains(lower, "driver") then Some(Drivers)
    else if Contains(lower, "tool") || Contains(lower, "diagnostic") then Some(Tools)
    else None
  }

  /** A ticket summary filed under firmware would file a component of the
      same name under firmware too: the ticket keywords are a subset. */
  lemma TicketFirmwareIsComponentFirmware(summary: string)
    requires TicketArea(summary) == Some(Firmware)
    ensures ComponentArea(summary) == Firmware
  {
    var lower := Lower(summary);
    ComponentAreaPriority(summary);
    if Contains(lower, "firmware") {
      assert "firmware" in FirmwareWords;
    } else {
      assert "fw" in FirmwareWords;
    }
  }

  // ---------------------------------------------------------------------
  // Jira components and tickets
  // ---------------------------------------------------------------------

  datatype Component = Component(name: string, description: string)
  datatype Ticket = Ticket(summary: string, key: string, status: string)

  function ComponentEntry(c: Component, area: Area): Entry
  {
    if area == Hardware
    then Entry(c.name, [("description", c.description), ("type", "jira_component")])
    else Entry(c.name, [("description", c.description), ("source", "jira_component")])
  }

  function TicketEntry(t: Ticket): Entry
  {
    Entry(t.summary, [("jira_key", t.key), ("status", t.status), ("source", "jira_ticket")])
  }

  /** The entries of the components that land in `area`, in order. */
  function ComponentsIn(comps: seq<Component>, area: Area): seq<Entry>
  {
    Filed(comps, AreaOfComponent, ComponentEntry, area)
  }

  function AreaOfComponent(c: Component): Area
  {
    ComponentArea(c.name)
  }

  /** The entries of the elements `areaOf` sends to `area`, in order. */
  function Filed<T>(xs: seq<T>, areaOf: T -> Area, entry: (T, Area) -> Entry, area: Area): seq<Entry>
  {
    if xs == [] then []
    else
      var x := xs[|xs| - 1];
      Filed(xs[..|xs| - 1], areaOf, entry, area) + (if areaOf(x) == area then [entry(x, area)] else [])
  }

  /** One more element extends the list of its own area only. */
  lemma FiledStep<T>(xs: seq<T>, i: nat, areaOf: T -> Area, entry: (T, Area) -> Entry, a: Area)
    requires i < |xs|
    ensures Filed(xs[..i + 1], areaOf, entry, a) ==
      (if areaOf(xs[i]) == a then Filed(xs[..i], areaOf, entry, a) + [entry(xs[i], a)] else Filed(xs[..i], areaOf, entry, a))
  {
    assert xs[..i + 1][..i] == xs[..i];
    assert Filed(xs[..i], areaOf, entry, a) + [] == Filed(xs[..i], areaOf, entry, a);
  }

  /** The four lists together take each element once. */
  lemma {:induction false} FiledCount<T>(xs: seq<T>, areaOf: T -> Area, entry: (T, Area) -> Entry)
    ensures |Filed(xs, areaOf, entry, Firmware)| + |Filed(xs, areaOf, entry, Drivers)|
      + |Filed(xs, areaOf, entry, Tools)| + |Filed(xs, areaOf, entry, Hardware)| == |xs|
  {
    if xs != [] {
      FiledCount(xs[..|xs| - 1], areaOf, entry);
    }
  }

  /** Each element is in the list of its own area. */
  lemma {:induction false} FiledMember<T>(xs: seq<T>, areaOf: T -> Area, entry: (T, Area) -> Entry)
    ensures forall x :: x in xs ==> entry(x, areaOf(x)) in Filed(xs, areaOf, entry, areaOf(x))
  {
    if xs != [] {
      var k := |xs| - 1;
      var init := xs[..k];
      FiledMember(init, areaOf, entry);
      forall x | x in xs ensures entry(x, areaOf(x)) in Filed(xs, areaOf, entry, areaOf(x)) {
        var a := areaOf(x);
        var before := Filed(init, areaOf, entry, a);
        assert Filed(xs, areaOf, entry, a) == before + (if areaOf(xs[k]) == a then [entry(xs[k], a)] else []);
        if x in init {
          assert entry(x, a) in before;
        } else {
          assert x == xs[k];
        }
      }
    }
  }

  /** The entries of the tickets that land in `area`, in order. */
  function TicketsIn(tickets: seq<Ticket>, area: Area): seq<Entry>
  {
    if tickets == [] then []
    else
      var t := tickets[|tickets| - 1];
      TicketsIn(tickets[..|tickets| - 1], area)
        + (if TicketArea(t.summary) == Some(area) then [TicketEntry(t)] else [])
  }

  /** The tickets no keyword matches. */
  function Dropped(tickets: seq<Ticket>): seq<Ticket>
  {
    if tickets == [] then []
    else
      var t := tickets[|tickets| - 1];
      Dropped(tickets[..|tickets| - 1]) + (if TicketArea(t.summary) == None then [t] else [])
  }

  /** One more component extends the list of its own area only. */
  lemma ComponentsStep(comps: seq<Component>, i: nat, a: Area)
    requires i < |comps|
    ensures ComponentsIn(comps[..i + 1], a) ==
      ComponentsIn(comps[..i], a) + IfArea(ComponentArea(comps[i].name), a, ComponentEntry(comps[i], ComponentArea(comps[i].name)))
  {
    FiledStep(comps, i, AreaOfComponent, ComponentEntry, a);
  }

  /** Every component lands in exactly one list: the four lists together
      take each component once, and each one in the list of its area. */
  lemma ComponentsPartition(comps: seq<Component>)
    ensures |ComponentsIn(comps, Firmware)| + |ComponentsIn(comps, Drivers)|
      + |ComponentsIn(comps, Tools)| + |ComponentsIn(comps, Hardware)| == |comps|
    ensures forall c :: c in comps ==> ComponentEntry(c, ComponentArea(c.name)) in ComponentsIn(comps, ComponentArea(c.name))
  {
    FiledCount(comps, AreaOfComponent, ComponentEntry);
    FiledMember(comps, AreaOfComponent, ComponentEntry);
  }

  /** Tickets land in firmware, drivers or tools, never in the hardware
      components, and the unmatched ones are dropped. */
  lemma {:induction false} TicketsPartition(tickets: seq<Ticket>)
    ensures TicketsIn(tickets, Hardware) == []
    ensures |TicketsIn(tickets, Firmware)| + |TicketsIn(tickets, Drivers)|
      + |TicketsIn(tickets, Tools)| + |Dropped(tickets)| == |tickets|
  {
    if tickets != [] {
      TicketsPartition(tickets[..|tickets| - 1]);
    }
  }

  /** The one-element list of `e` when `a` is `b`, else nothing. */
  function IfArea(a: Area, b: Area, e: Entry): seq<Entry>
  {
    if a == b then [e] else []
  }

  /** Files every component of one `get_components` answer. */
  method LoadComponents(profile: HardwareProfile, comps: seq<Component>)
    modifies profile`existingFirmware, profile`existingDrivers, profile`existingTools, profile`components
    ensures profile.existingFirmware == old(profile.existingFirmware) + ComponentsIn(comps, Firmware)
    ensures profile.existingDrivers == old(profile.existingDrivers) + ComponentsIn(comps, Drivers)
    ensures profile.existingTools == old(profile.existingTools) + ComponentsIn(comps, Tools)
    ensures profile.components == old(profile.components) + ComponentsIn(comps, Hardware)
  {
    for i := 0 to |comps|
      invariant profile.existingFirmware == old(profile.existingFirmware) + ComponentsIn(comps[..i], Firmware)
      invariant profile.existingDrivers == old(profile.existingDrivers) + ComponentsIn(comps[..i], Drivers)
      invariant profile.existingTools == old(profile.existingTools) + ComponentsIn(comps[..i], Tools)
      invariant profile.components == old(profile.components) + ComponentsIn(comps[..i], Hardware)
    {
      var area := ComponentArea(comps[i].name);
      var entry := ComponentEntry(comps[i], area);
      ComponentsStep(comps, i, Firmware);
      ComponentsStep(comps, i, Drivers);
      ComponentsStep(comps, i, Tools);
      ComponentsStep(comps, i, Hardware);
      AppendAssoc(old(profile.existingFirmware), ComponentsIn(comps[..i], Firmware), IfArea(area, Firmware, entry));
      AppendAssoc(old(profile.existingDrivers), ComponentsIn(comps[..i], Drivers), IfArea(area, Drivers, entry));
      AppendAssoc(old(profile.existingTools), ComponentsIn(comps[..i], Tools), IfArea(area, Tools, entry));
      AppendAssoc(old(profile.components), ComponentsIn(comps[..i], Hardware), IfArea(area, Hardware, entry));
      FileEntry(profile, area, entry);
    }
    assert comps[..|comps|] == comps;
  }

  /** Appends one entry to the list of its area. */
  method FileEntry(profile: HardwareProfile, area: Area, entry: Entry)
    modifies profile`existingFirmware, profile`existingDrivers, profile`existingTools, profile`components
    ensures profile.existingFirmware == old(profile.existingFirmware) + IfArea(area, Firmware, entry)
    ensures profile.existingDrivers == old(profile.existingDrivers) + IfArea(area, Drivers, entry)
    ensures profile.existingTools == old(profile.existingTools) + IfArea(area, Tools, entry)
    ensures profile.components == old(profile.components) + IfArea(area, Hardware, entry)
  {
    match area
    case Firmware => profile.existingFirmware := profile.existingFirmware + [entry];
    case Drivers => profile.existingDrivers := profile.existingDrivers + [entry];
    case Tools => profile.existingTools := profile.existingTools + [entry];
    case Hardware => profile.components := profile.components + [entry];
  }

  /** One more component extends the list of its own area only. */

  /** Files every ticket of one `search_tickets` answer. */
  method LoadTickets(profile: HardwareProfile, tickets: seq<Ticket>)
    modifies profile`existingFirmware, profile`existingDrivers, profile`existingTools
    ensures profile.existingFirmware == old(profile.existingFirmware) + TicketsIn(tickets, Firmware)
    ensures profile.existingDrivers == old(profile.existingDrivers) + TicketsIn(tickets, Drivers)
    ensures profile.existingTools == old(profile.existingTools) + TicketsIn(tickets, Tools)
  {
    for i := 0 to |tickets|
      invariant profile.existingFirmware == old(profile.existingFirmware) + TicketsIn(tickets[..i], Firmware)
      invariant profile.existingDrivers == old(profile.existingDrivers) + TicketsIn(tickets[..i], Drivers)
      invariant profile.existingTools == old(profile.existingTools) + TicketsIn(tickets[..i], Tools)
    {
      var t := tickets[i];
      var entry := TicketEntry(t);
      TicketsStep(tickets, i, Firmware);
      TicketsStep(tickets, i, Drivers);
      TicketsStep(tickets, i, Tools);
      match TicketArea(t.summary)
      case Some(Firmware) =>
        AppendAssoc(old(profile.existingFirmware), TicketsIn(tickets[..i], Firmware), [entry]);
        profile.existingFirmware := profile.existingFirmware + [entry];
      case Some(Drivers) =>
        AppendAssoc(old(profile.existingDrivers), TicketsIn(tickets[..i], Drivers), [entry]);
        profile.existingDrivers := profile.existingDrivers + [entry];
      case Some(Tools) =>
        AppendAssoc(old(profile.existingTools), TicketsIn(tickets[..i], Tools), [entry]);
        profile.existingTools := profile.existingTools + [entry];
      case _ =>
    }
    assert tickets[..|tickets|] == tickets;
  }

  /** One more ticket extends the list of its own area only. */
  lemma TicketsStep(tickets: seq<Ticket>, i: nat, a: Area)
    requires i < |tickets|
    ensures TicketsIn(tickets[..i + 1], a) ==
      (if TicketArea(tickets[i].summary) == Some(a) then TicketsIn(tickets[..i], a) + [TicketEntry(tickets[i])] else TicketsIn(tickets[..i], a))
  {
    assert tickets[..i + 1][..i] == tickets[..i];
    assert TicketsIn(tickets[..i], a) + [] == TicketsIn(tickets[..i], a);
  }

  /** What the three Jira tools answer for a project.  `None` stands for a
      call that raised or whose data is not a dict; `project` holds the
      project's 'name' key, if present. */
  datatype JiraAnswers = JiraAnswers(
    available: bool,
    project: Option<Option<string>>,
    components: Option<seq<Component>>,
    tickets: Option<seq<Ticket>>)

  /** `_load_jira_info`: each of the three calls is guarded on its own, so a
      failing one leaves the profile as the others make it. */
  method LoadJiraInfo(profile: HardwareProfile, projectKey: string, jira: JiraAnswers)
    modifies profile`gaps, profile`productName, profile`existingFirmware, profile`existingDrivers,
      profile`existingTools, profile`components
    ensures profile.gaps == if jira.available then old(profile.gaps) else old(profile.gaps) + ["Jira tools unavailable"]
    ensures !jira.available ==> profile.Lists() == old(profile.Lists()).(gaps := profile.gaps)
    ensures profile.productName ==
      if old(profile.productName) != "" || !jira.available || jira.project.None? then old(profile.productName)
      else if jira.project.value.Some? then jira.project.value.value else projectKey
    ensures jira.available ==>
      var comps := if jira.components.Some? then jira.components.value else [];
      var tickets := if jira.tickets.Some? then jira.tickets.value else [];
      profile.existingFirmware == old(profile.existingFirmware) + ComponentsIn(comps, Firmware) + TicketsIn(tickets, Firmware)
      && profile.existingDrivers == old(profile.existingDrivers) + ComponentsIn(comps, Drivers) + TicketsIn(tickets, Drivers)
      && profile.existingTools == old(profile.existingTools) + ComponentsIn(comps, Tools) + TicketsIn(tickets, Tools)
      && profile.components == old(profile.components) + ComponentsIn(comps, Hardware)
  {
    if !jira.available {
      profile.gaps := profile.gaps + ["Jira tools unavailable"];
      return;
    }
    if jira.project.Some? && profile.productName == "" {
      profile.productName := if jira.project.value.Some? then jira.project.value.value else projectKey;
    }
    LoadJiraLists(profile, jira.components, jira.tickets);
  }

  /** The component and ticket answers that did not raise, filed in that
      order. */
  method LoadJiraLists(profile: HardwareProfile, components: Option<seq<Component>>, tickets: Option<seq<Ticket>>)
    modifies profile`existingFirmware, profile`existingDrivers, profile`existingTools, profile`components
    ensures var comps := if components.Some? then components.value else [];
      var ts := if tickets.Some? then tickets.value else [];
      profile.existingFirmware == old(profile.existingFirmware) + ComponentsIn(comps, Firmware) + TicketsIn(ts, Firmware)
      && profile.existingDrivers == old(profile.existingDrivers) + ComponentsIn(comps, Drivers) + TicketsIn(ts, Drivers)
      && profile.existingTools == old(profile.existingTools) + ComponentsIn(comps, Tools) + TicketsIn(ts, Tools)
      && profile.components == old(profile.components) + ComponentsIn(comps, Hardware)
  {
    if components.Some? {
      LoadComponents(profile, components.value);
    } else {
      AppendEmpty(profile.existingFirmware);
      AppendEmpty(profile.existingDrivers);
      AppendEmpty(profile.existingTools);
      AppendEmpty(profile.components);
    }
    if tickets.Some? {
      LoadTickets(profile, tickets.value);
    } else {
      AppendEmpty(profile.existingFirmware);
      AppendEmpty(profile.existingDrivers);
      AppendEmpty(profile.existingTools);
    }
  }

  // ---------------------------------------------------------------------
  // Product knowledge base
  // ---------------------------------------------------------------------

  /** The knowledge tools' answer: not importable, raised, or the content of
      the product file ("" for no content). */
  datatype Knowledge = ToolsMissing | ReadFailed | Read(content: string)

  method LoadProductKnowledge(profile: HardwareProfile, k: Knowledge)
    modifies profile`gaps, profile`productName, profile`description
    ensures k.ToolsMissing? ==> profile.gaps == old(profile.gaps) + ["Knowledge tools unavailable"]
    ensures k.ReadFailed? ==> profile.gaps == old(profile.gaps) + ["Could not read product knowledge base"]
    ensures k.Read? ==> profile.gaps == old(profile.gaps)
    ensures k.Read? && k.content != [] ==> profile.description == Take(k.content, 1000)
    ensures !(k.Read? && k.content != []) ==> profile.description == old(profile.description)
    ensures profile.productName ==
      if old(profile.productName) == "" && k.Read?
        && (Contains(k.content, "OPX") || Contains(k.content, "Omni-Path"))
      then "Omni-Path Express (OPX)" else old(profile.productName)
  {
    match k
    case ToolsMissing => profile.gaps := profile.gaps + ["Knowledge tools unavailable"];
    case ReadFailed => profile.gaps := profile.gaps + ["Could not read product knowledge base"];
    case Read(content) =>
      if content != [] {
        if Contains(content, "OPX") || Contains(content, "Omni-Path") {
          if profile.productName == "" {
            profile.productName := "Omni-Path Express (OPX)";
          }
        }
        profile.description := Take(content, 1000);
      }
  }

  // ---------------------------------------------------------------------
  // Enrichment from a research report
  // ---------------------------------------------------------------------

  /** Keyword to bus name, in the order the source's dict lists them. */
  const BusKeywords: seq<(string, string)> := [
    ("pcie", "PCIe"), ("pci express", "PCIe"), ("spi", "SPI"), ("i2c", "I2C"),
    ("uart", "UART"), ("jtag", "JTAG"), ("usb", "USB"), ("ethernet", "Ethernet"),
    ("mdio", "MDIO"), ("smbus", "SMBus"), ("qspi", "QSPI")]

  function BusEntry(bus: string, content: string): Entry
  {
    Entry(bus, [("protocol", bus),
      ("description", "Identified from research: " + Take(content, 100)),
      ("source", "research_inference")])
  }

  function LowerNames(es: seq<Entry>): set<string>
  {
    set e | e in es :: Lower(e.name)
  }

  /** No two entries share a name up to case. */
  predicate UniqueNames(es: seq<Entry>)
  {
    forall i, j :: 0 <= i < j < |es| ==> Lower(es[i].name) != Lower(es[j].name)
  }

  /** The buses one finding adds, scanning `kws` in order, and the seen set
      after it. */
  function ScanKeywords(content: string, kws: seq<(string, string)>, seen: set<string>): (seq<Entry>, set<string>)
  {
    if kws == [] then ([], seen)
    else
      var prev := ScanKeywords(content, kws[..|kws| - 1], seen);
      var (kw, bus) := kws[|kws| - 1];
      if Contains(Lower(content), kw) && Lower(bus) !in prev.1
      then (prev.0 + [BusEntry(bus, content)], prev.1 + {Lower(bus)})
      else prev
  }

  /** The buses a sequence of findings adds, and the seen set after them. */
  function ScanFindings(contents: seq<string>, kws: seq<(string, string)>, seen: set<string>): (seq<Entry>, set<string>)
  {
    if contents == [] then ([], seen)
    else
      var prev := ScanFindings(contents[..|contents| - 1], kws, seen);
      var next := ScanKeywords(contents[|contents| - 1], kws, prev.1);
      (prev.0 + next.0, next.1)
  }

  /** The added buses are named apart from each other and from what was
      seen before, up to case, and the seen set records exactly them. */
  predicate Fresh(added: seq<Entry>, seen: set<string>, after: set<string>)
  {
    UniqueNames(added)
    && (forall i :: 0 <= i < |added| ==> Lower(added[i].name) !in seen)
    && after == seen + LowerNames(added)
  }

  lemma FreshAppend(a: seq<Entry>, b: seq<Entry>, s0: set<string>, s1: set<string>, s2: set<string>)
    requires Fresh(a, s0, s1) && Fresh(b, s1, s2)
    ensures Fresh(a + b, s0, s2)
  {
    var ab := a + b;
    forall i, j | 0 <= i < j < |ab| ensures Lower(ab[i].name) != Lower(ab[j].name) {
      if i < |a| && j >= |a| {
        assert ab[i] in a;
        assert ab[j] == b[j - |a|];
      }
    }
    LowerNamesAppend(a, b);
  }

  lemma {:induction false} ScanKeywordsFresh(content: string, kws: seq<(string, string)>, seen: set<string>)
    ensures Fresh(ScanKeywords(content, kws, seen).0, seen, ScanKeywords(content, kws, seen).1)
  {
    if kws != [] {
      var prev := ScanKeywords(content, kws[..|kws| - 1], seen);
      ScanKeywordsFresh(content, kws[..|kws| - 1], seen);
      var bus := kws[|kws| - 1].1;
      if Contains(Lower(content), kws[|kws| - 1].0) && Lower(bus) !in prev.1 {
        var one := [BusEntry(bus, content)];
        assert LowerNames(one) == {Lower(bus)} by { assert one[0] in one; }
        FreshAppend(prev.0, one, seen, prev.1, prev.1 + {Lower(bus)});
      }
    }
  }

  /** No bus is added twice up to case, none repeats one seen before, and
      the seen set grows by exactly the added names. */
  lemma {:induction false} ScanFindingsFresh(contents: seq<string>, kws: seq<(string, string)>, seen: set<string>)
    ensures Fresh(ScanFindings(contents, kws, seen).0, seen, ScanFindings(contents, kws, seen).1)
  {
    if contents != [] {
      var prev := ScanFindings(contents[..|contents| - 1], kws, seen);
      ScanFindingsFresh(contents[..|contents| - 1], kws, seen);
      ScanKeywordsFresh(contents[|contents| - 1], kws, prev.1);
      var next := ScanKeywords(contents[|contents| - 1], kws, prev.1);
      FreshAppend(prev.0, next.0, seen, prev.1, next.1);
    }
  }

  /** Every bus whose keyword occurs in a finding is known afterwards. */
  lemma {:induction false} ScanKeywordsCovers(content: string, kws: seq<(string, string)>, seen: set<string>)
    ensures seen <= ScanKeywords(content, kws, seen).1
    ensures forall j :: 0 <= j < |kws| && Contains(Lower(content), kws[j].0) ==>
      Lower(kws[j].1) in ScanKeywords(content, kws, seen).1
  {
    if kws != [] {
      ScanKeywordsCovers(content, kws[..|kws| - 1], seen);
    }
  }

  lemma {:induction false} ScanFindingsCovers(contents: seq<string>, kws: seq<(string, string)>, seen: set<string>)
    ensures seen <= ScanFindings(contents, kws, seen).1
    ensures forall i, j :: 0 <= i < |contents| && 0 <= j < |kws| && Contains(Lower(contents[i]), kws[j].0) ==>
      Lower(kws[j].1) in ScanFindings(contents, kws, seen).1
  {
    if contents != [] {
      var init := contents[..|contents| - 1];
      var prev := ScanFindings(init, kws, seen);
      var last := contents[|contents| - 1];
      ScanFindingsCovers(init, kws, seen);
      ScanKeywordsCovers(last, kws, prev.1);
      var after := ScanKeywords(last, kws, prev.1).1;
      assert ScanFindings(contents, kws, seen).1 == after;
      forall i, j | 0 <= i < |contents| && 0 <= j < |kws| && Contains(Lower(contents[i]), kws[j].0)
        ensures Lower(kws[j].1) in after
      {
        if i < |init| {
          assert init[i] == contents[i];
          assert Lower(kws[j].1) in prev.1;
        }
      }
    }
  }

  /** Every added bus comes from a keyword that occurs in some finding. */
  lemma {:induction false} ScanKeywordsSound(content: string, kws: seq<(string, string)>, seen: set<string>)
    ensures forall e :: e in ScanKeywords(content, kws, seen).0 ==>
      exists j :: 0 <= j < |kws| && Contains(Lower(content), kws[j].0) && e == BusEntry(kws[j].1, content)
  {
    if kws != [] {
      ScanKeywordsSound(content, kws[..|kws| - 1], seen);
      var last := |kws| - 1;
      forall e | e in ScanKeywords(content, kws, seen).0
        ensures exists j :: 0 <= j < |kws| && Contains(Lower(content), kws[j].0) && e == BusEntry(kws[j].1, content)
      {
        if e in ScanKeywords(content, kws[..last], seen).0 {
          var j :| 0 <= j < last && Contains(Lower(content), kws[..last][j].0) && e == BusEntry(kws[..last][j].1, content);
          assert kws[j] == kws[..last][j];
        } else {
          assert e == BusEntry(kws[last].1, content);
        }
      }
    }
  }

  lemma {:induction false} ScanFindingsSound(contents: seq<string>, kws: seq<(string, string)>, seen: set<string>)
    ensures forall e :: e in ScanFindings(contents, kws, seen).0 ==>
      exists i, j :: 0 <= i < |contents| && 0 <= j < |kws|
        && Contains(Lower(contents[i]), kws[j].0) && e == BusEntry(kws[j].1, contents[i])
  {
    if contents != [] {
      var last := |contents| - 1;
      var init := contents[..last];
      var prev := ScanFindings(init, kws, seen);
      ScanFindingsSound(init, kws, seen);
      ScanKeywordsSound(contents[last], kws, prev.1);
      forall e | e in ScanFindings(contents, kws, seen).0
        ensures exists i, j :: (0 <= i < |contents| && 0 <= j < |kws|
          && Contains(Lower(contents[i]), kws[j].0) && e == BusEntry(kws[j].1, contents[i]))
      {
        if e in prev.0 {
          var i, j :| 0 <= i < |init| && 0 <= j < |kws|
            && Contains(Lower(init[i]), kws[j].0) && e == BusEntry(kws[j].1, init[i]);
          assert init[i] == contents[i];
        } else {
          var j :| 0 <= j < |kws| && Contains(Lower(contents[last]), kws[j].0) && e == BusEntry(kws[j].1, contents[last]);
        }
      }
    }
  }

  /** Appending fresh buses keeps a profile's bus names unique up to case. */
  lemma EnrichKeepsUnique(old_: seq<Entry>, added: seq<Entry>, after: set<string>)
    requires UniqueNames(old_) && Fresh(added, LowerNames(old_), after)
    ensures UniqueNames(old_ + added)
  {
    var all := old_ + added;
    forall i, j | 0 <= i < j < |all| ensures Lower(all[i].name) != Lower(all[j].name) {
      if i < |old_| && j >= |old_| {
        assert all[i] in old_;
        assert all[j] == added[j - |old_|];
      }
    }
  }

  /** The open questions not yet among the gaps, appended in order. */
  function AddMissing(gaps: seq<string>, questions: seq<string>): seq<string>
  {
    if questions == [] then gaps
    else
      var prev := AddMissing(gaps, questions[..|questions| - 1]);
      var q := questions[|questions| - 1];
      if q in prev then prev else prev + [q]
  }

  /** The gaps keep their order and gain each question once: every question
      is present afterwards, nothing else is added, and gaps without
      repeats stay without repeats. */
  lemma {:induction false} AddMissingSpec(gaps: seq<string>, questions: seq<string>)
    ensures gaps <= AddMissing(gaps, questions)
    ensures forall q :: q in questions ==> q in AddMissing(gaps, questions)
    ensures forall g :: g in AddMissing(gaps, questions) ==> g in gaps || g in questions
    ensures NoDup(gaps) ==> NoDup(AddMissing(gaps, questions))
  {
    if questions != [] {
      var init := questions[..|questions| - 1];
      AddMissingSpec(gaps, init);
      assert questions == init + [questions[|questions| - 1]];
    }
  }

  /** The buses the source's keyword table finds in a report's findings. */
  function ResearchBuses(all: seq<Finding>, existing: seq<Entry>): seq<Entry>
  {
    ScanFindings(Contents(all), BusKeywords, LowerNames(existing)).0
  }

  /** The bus lookup of one finding, appending as it goes. */
  method AddBuses(profile: HardwareProfile, content: string, kws: seq<(string, string)>, seen: set<string>)
    returns (seen': set<string>)
    modifies profile`busInterfaces
    ensures profile.busInterfaces == old(profile.busInterfaces) + ScanKeywords(content, kws, seen).0
    ensures seen' == ScanKeywords(content, kws, seen).1
  {
    var lower := Lower(content);
    seen' := seen;
    for j := 0 to |kws|
      invariant profile.busInterfaces == old(profile.busInterfaces) + ScanKeywords(content, kws[..j], seen).0
      invariant seen' == ScanKeywords(content, kws[..j], seen).1
    {
      var (keyword, bus) := kws[j];
      assert kws[..j + 1][..j] == kws[..j];
      if Contains(lower, keyword) && Lower(bus) !in seen' {
        profile.busInterfaces := profile.busInterfaces + [BusEntry(bus, content)];
        seen' := seen' + {Lower(bus)};
      }
    }
    assert kws[..|kws|] == kws;
  }

  function Contents(fs: seq<Finding>): (r: seq<string>)
    ensures |r| == |fs| && forall i :: 0 <= i < |fs| ==> r[i] == fs[i].content
  {
    seq(|fs|, i requires 0 <= i < |fs| => fs[i].content)
  }

  /** `_enrich_from_research`: buses named by the findings, then the open
      questions as gaps. */
  method EnrichFromResearch(profile: HardwareProfile, report: ResearchReport)
    modifies profile`busInterfaces, profile`gaps
    ensures profile.busInterfaces == old(profile.busInterfaces)
      + ResearchBuses(report.AllFindings(), old(profile.busInterfaces))
    ensures profile.gaps == AddMissing(old(profile.gaps), report.openQuestions)
  {
    ScanResearch(profile, report.AllFindings(), BusKeywords);
    AddGaps(profile, report.openQuestions);
  }

  /** The bus lookup over all findings of a report. */
  method ScanResearch(profile: HardwareProfile, all: seq<Finding>, kws: seq<(string, string)>)
    modifies profile`busInterfaces
    ensures profile.busInterfaces == old(profile.busInterfaces)
      + ScanFindings(Contents(all), kws, LowerNames(old(profile.busInterfaces))).0
  {
    ghost var contents := Contents(all);
    var seen := set e | e in profile.busInterfaces :: Lower(e.name);
    ghost var seen0 := seen;
    for i := 0 to |all|
      invariant profile.busInterfaces == old(profile.busInterfaces) + ScanFindings(contents[..i], kws, seen0).0
      invariant seen == ScanFindings(contents[..i], kws, seen0).1
    {
      assert contents[..i + 1][..i] == contents[..i];
      seen := AddBuses(profile, all[i].content, kws, seen);
    }
    assert contents[..|all|] == contents;
  }

  method AddGaps(profile: HardwareProfile, questions: seq<string>)
    modifies profile`gaps
    ensures profile.gaps == AddMissing(old(profile.gaps), questions)
  {
    for i := 0 to |questions|
      invariant profile.gaps == AddMissing(old(profile.gaps), questions[..i])
    {
      assert questions[..i + 1][..i] == questions[..i];
      if questions[i] !in profile.gaps {
        profile.gaps := profile.gaps + [questions[i]];
      }
    }
    assert questions[..|questions|] == questions;
  }

  /** After enrichment the bus names of a profile whose names were unique
      up to case are still unique, every bus whose keyword occurs in a
      finding is present, and each added bus stems from such a finding. */
  lemma EnrichSpec(old_: seq<Entry>, contents: seq<string>, kws: seq<(string, string)>)
    requires UniqueNames(old_)
    ensures UniqueNames(old_ + ScanFindings(contents, kws, LowerNames(old_)).0)
    ensures forall i, j :: 0 <= i < |contents| && 0 <= j < |kws| && Contains(Lower(contents[i]), kws[j].0) ==>
      Lower(kws[j].1) in LowerNames(old_ + ScanFindings(contents, kws, LowerNames(old_)).0)
  {
    var r := ScanFindings(contents, kws, LowerNames(old_));
    ScanFindingsFresh(contents, kws, LowerNames(old_));
    ScanFindingsCovers(contents, kws, LowerNames(old_));
    EnrichKeepsUnique(old_, r.0, r.1);
    LowerNamesAppend(old_, r.0);
  }

  lemma LowerNamesAppend(a: seq<Entry>, b: seq<Entry>)
    ensures LowerNames(a + b) == LowerNames(a) + LowerNames(b)
  {
    assert forall e :: e in a + b <==> e in a || e in b;
  }

  // ---------------------------------------------------------------------
  // The programmatic analysis
  // ---------------------------------------------------------------------

  /** The profile's fields after `_load_product_knowledge`. */
  function AfterKnowledge(p: Parsed, k: Knowledge): Parsed
  {
    match k
    case ToolsMissing => p.(gaps := p.gaps + ["Knowledge tools unavailable"])
    case ReadFailed => p.(gaps := p.gaps + ["Could not read product knowledge base"])
    case Read(content) =>
      if content == [] then p
      else
        p.(productName := if p.productName == "" && (Contains(content, "OPX") || Contains(content, "Omni-Path"))
                          then "Omni-Path Express (OPX)" else p.productName,
           description := Take(content, 1000))
  }

  /** The profile's fields after `_load_jira_info`. */
  function AfterJira(p: Parsed, projectKey: string, jira: JiraAnswers): Parsed
  {
    if !jira.available then p.(gaps := p.gaps + ["Jira tools unavailable"])
    else
      var comps := if jira.components.Some? then jira.components.value else [];
      var tickets := if jira.tickets.Some? then jira.tickets.value else [];
      p.(productName := if p.productName != "" || jira.project.None? then p.productName
                        else if jira.project.value.Some? then jira.project.value.value else projectKey,
         firmware := p.firmware + ComponentsIn(comps, Firmware) + TicketsIn(tickets, Firmware),
         drivers := p.drivers + ComponentsIn(comps, Drivers) + TicketsIn(tickets, Drivers),
         tools := p.tools + ComponentsIn(comps, Tools) + TicketsIn(tickets, Tools),
         components := p.components + ComponentsIn(comps, Hardware))
  }

  /** The profile's fields after `_enrich_from_research` with a report's
      findings and open questions. */
  function AfterResearch(p: Parsed, findings: seq<Finding>, questions: seq<string>): Parsed
  {
    p.(busInterfaces := p.busInterfaces + ResearchBuses(findings, p.busInterfaces),
       gaps := AddMissing(p.gaps, questions))
  }

  /** The findings and open questions of the report, when one is given. */
  function ReportParts(report: Option<ResearchReport>): Option<(seq<Finding>, seq<string>)>
    reads if report.Some? then {report.value} else {}
  {
    if report.Some? then Some((report.value.AllFindings(), report.value.openQuestions)) else None
  }

  /** The profile `analyze` builds: a fresh profile through the knowledge
      base, then Jira when a project key is given, then the research
      report when one is given. */
  function AnalyzeOf(projectKey: string, research: Option<(seq<Finding>, seq<string>)>, k: Knowledge,
                     jira: JiraAnswers): Parsed
  {
    var known := AfterKnowledge(EmptyParsed, k);
    var loaded := if projectKey != [] then AfterJira(known, projectKey, jira) else known;
    if research.Some? then AfterResearch(loaded, research.value.0, research.value.1) else loaded
  }

  /** The gaps the knowledge base step reports. */
  function KnowledgeGaps(k: Knowledge): seq<string>
  {
    match k
    case ToolsMissing => ["Knowledge tools unavailable"]
    case ReadFailed => ["Could not read product knowledge base"]
    case Read(_) => []
  }

  /** The Jira lists `analyze` yields are exactly the filed components
      and tickets when a key is given and the tools are available, and
      empty otherwise. */
  lemma AnalyzeOfJiraLists(projectKey: string, research: Option<(seq<Finding>, seq<string>)>, k: Knowledge,
                           jira: JiraAnswers)
    ensures var p := AnalyzeOf(projectKey, research, k, jira);
      var comps := if jira.components.Some? then jira.components.value else [];
      var tickets := if jira.tickets.Some? then jira.tickets.value else [];
      var loaded := projectKey != [] && jira.available;
      && p.firmware == (if loaded then ComponentsIn(comps, Firmware) + TicketsIn(tickets, Firmware) else [])
      && p.drivers == (if loaded then ComponentsIn(comps, Drivers) + TicketsIn(tickets, Drivers) else [])
      && p.tools == (if loaded then ComponentsIn(comps, Tools) + TicketsIn(tickets, Tools) else [])
      && p.components == (if loaded then ComponentsIn(comps, Hardware) else [])
  {
    var known := AfterKnowledge(EmptyParsed, k);
    assert known.firmware == [] && known.drivers == [] && known.tools == [] && known.components == [];
    if projectKey != [] && jira.available {
      var comps := if jira.components.Some? then jira.components.value else [];
      EmptyAppend(ComponentsIn(comps, Firmware));
      EmptyAppend(ComponentsIn(comps, Drivers));
      EmptyAppend(ComponentsIn(comps, Tools));
      EmptyAppend(ComponentsIn(comps, Hardware));
    }
  }

  /** The buses `analyze` yields are exactly those the report's findings
      mention, and none without a report. */
  lemma AnalyzeOfBuses(projectKey: string, research: Option<(seq<Finding>, seq<string>)>, k: Knowledge,
                       jira: JiraAnswers)
    ensures AnalyzeOf(projectKey, research, k, jira).busInterfaces
            == (if research.Some? then ResearchBuses(research.value.0, []) else [])
  {
    var known := AfterKnowledge(EmptyParsed, k);
    assert known.busInterfaces == [];
    var loaded := if projectKey != [] then AfterJira(known, projectKey, jira) else known;
    assert loaded.busInterfaces == [];
    if research.Some? {
      EmptyAppend(ResearchBuses(research.value.0, []));
    }
  }

  /** The gaps `analyze` yields are the knowledge gap, then the Jira gap,
      then the report's open questions not already listed; the description
      is the start of a non-empty product file. */
  lemma AnalyzeOfGaps(projectKey: string, research: Option<(seq<Finding>, seq<string>)>, k: Knowledge,
                      jira: JiraAnswers)
    ensures var p := AnalyzeOf(projectKey, research, k, jira);
      var gaps := KnowledgeGaps(k) + (if projectKey != [] && !jira.available then ["Jira tools unavailable"] else []);
      && p.gaps == (if research.Some? then AddMissing(gaps, research.value.1) else gaps)
      && p.description == (if k.Read? && k.content != [] then Take(k.content, 1000) else "")
  {
    EmptyAppend(KnowledgeGaps(k));
    var known := AfterKnowledge(EmptyParsed, k);
    assert known.gaps == KnowledgeGaps(k);
    var loaded := if projectKey != [] then AfterJira(known, projectKey, jira) else known;
    assert loaded.gaps == KnowledgeGaps(k) + (if projectKey != [] && !jira.available then ["Jira tools unavailable"] else []);
    assert loaded.description == known.description;
    assert known.description == (if k.Read? && k.content != [] then Take(k.content, 1000) else "");
  }

  /** The product name `analyze` yields: the OPX name when the product file
      mentions it, otherwise the project's name (or its key when the
      project has none) when Jira answered for a given key, otherwise
      empty. */
  lemma AnalyzeOfName(projectKey: string, research: Option<(seq<Finding>, seq<string>)>, k: Knowledge,
                      jira: JiraAnswers)
    ensures var opx := k.Read? && k.content != [] && (Contains(k.content, "OPX") || Contains(k.content, "Omni-Path"));
      AnalyzeOf(projectKey, research, k, jira).productName
        == if opx then "Omni-Path Express (OPX)"
           else if projectKey != [] && jira.available && jira.project.Some? then
             (if jira.project.value.Some? then jira.project.value.value else projectKey)
           else ""
  {
    var known := AfterKnowledge(EmptyParsed, k);
    var loaded := if projectKey != [] then AfterJira(known, projectKey, jira) else known;
    assert AnalyzeOf(projectKey, research, k, jira).productName == loaded.productName;
  }

  lemma EmptyAppend<T>(a: seq<T>)
    ensures [] + a == a
  {
  }

  /** `analyze`: knowledge base first, Jira only for a non-empty project
      key, research only for a report. */
  method Analyze(projectKey: string, report: Option<ResearchReport>, k: Knowledge, jira: JiraAnswers)
    returns (profile: HardwareProfile)
    ensures fresh(profile)
    ensures profile.Lists() == AnalyzeOf(projectKey, ReportParts(report), k, jira)
    ensures projectKey == [] ==>
      profile.existingFirmware == [] && profile.existingDrivers == []
      && profile.existingTools == [] && profile.components == []
    ensures report.None? ==> profile.busInterfaces == []
    ensures report.Some? ==>
      profile.busInterfaces == ResearchBuses(report.value.AllFindings(), [])
    ensures profile.blockDiagram == None
  {
    profile := LoadSources(projectKey, k, jira);
    EnrichIfGiven(profile, report);
  }

  /** The last step of `analyze`: enrichment only with a report. */
  method EnrichIfGiven(profile: HardwareProfile, report: Option<ResearchReport>)
    modifies profile`busInterfaces, profile`gaps
    ensures report.None? ==> profile.Lists() == old(profile.Lists())
    ensures report.Some? ==>
      profile.Lists() == AfterResearch(old(profile.Lists()), report.value.AllFindings(), report.value.openQuestions)
  {
    if report.Some? {
      EnrichFromResearch(profile, report.value);
    }
  }

  /** The first two steps of `analyze`: knowledge base, then Jira when a
      project key is given. */
  method LoadSources(projectKey: string, k: Knowledge, jira: JiraAnswers) returns (profile: HardwareProfile)
    ensures fresh(profile)
    ensures var known := AfterKnowledge(EmptyParsed, k);
      profile.Lists() == if projectKey != [] then AfterJira(known, projectKey, jira) else known
    ensures profile.busInterfaces == [] && profile.blockDiagram == None
  {
    profile := new HardwareProfile();
    LoadProductKnowledge(profile, k);
    assert profile.Lists() == AfterKnowledge(EmptyParsed, k);
    if projectKey != [] {
      LoadJiraInfo(profile, projectKey, jira);
    }
  }

  // ---------------------------------------------------------------------
  // Parsing the language model's answer
  // ---------------------------------------------------------------------

  datatype Section = NoSection | Overview | Architecture | FirmwareSection | DriverSection
    | ToolSection | Buses | Integration | Gaps

  /** The heading tests, in order; a line that matches none keeps the
      current section.  Every line is checked, bullets included. */
  function SectionOf(lower: string, current: Section): Section
  {
    if Contains(lower, "product overview") || Contains(lower, "product name") then Overview
    else if Contains(lower, "hardware architecture") || Contains(lower, "architecture") then Architecture
    else if Contains(lower, "existing firmware") || Contains(lower, "firmware") then FirmwareSection
    else if Contains(lower, "existing driver") || Contains(lower, "driver") then DriverSection
    else if Contains(lower, "existing tool") || Contains(lower, "tools") then ToolSection
    else if Contains(lower, "bus interface") || Contains(lower, "interface") then Buses
    else if Contains(lower, "integration point") then Integration
    else if Contains(lower, "knowledge gap") || Contains(lower, "gap") || Contains(lower, "missing") then Gaps
    else current
  }

  /** `s.lstrip(chars)` */
  function LStripChars(s: string, chars: set<char>): (r: string)
    ensures |r| <= |s| && r == s[|s| - |r|..]
    ensures r != [] ==> r[0] !in chars
  {
    if s != [] && s[0] in chars then LStripChars(s[1..], chars) else s
  }

  predicate IsBullet(stripped: string)
  {
    StartsWith(stripped, "-") || StartsWith(stripped, "*") || StartsWith(stripped, "•")
  }

  /** The text of a bullet, without its markers and surrounding blanks. */
  function BulletText(stripped: string): string
  {
    Strip(LStripChars(stripped, {'-', '*', '•', ' '}))
  }

  /** A bus or component name: the text before the first ':' if there is
      one, the first 50 characters otherwise. */
  function ShortName(content: string): string
  {
    if ':' in content then Strip(Split(content, ':')[0]) else Take(content, 50)
  }

  /** One bullet's effect on the profile in a given section. */
  function Bullet(p: Parsed, section: Section, content: string): (q: Parsed)
    ensures p.productName != "" ==> q.productName == p.productName
    ensures p.description != "" ==> q.description == p.description
  {
    match section
    case Overview =>
      if p.productName == "" && ':' in content then p.(productName := Strip(AfterFirstChar(content, ':')))
      else if p.description == "" then p.(description := content)
      else p
    case FirmwareSection =>
      p.(firmware := p.firmware + [Entry(Take(content, 100), [("description", content), ("source", "llm_analysis")])])
    case DriverSection =>
      p.(drivers := p.drivers + [Entry(Take(content, 100), [("description", content), ("source", "llm_analysis")])])
    case ToolSection =>
      p.(tools := p.tools + [Entry(Take(content, 100), [("description", content), ("source", "llm_analysis")])])
    case Buses =>
      p.(busInterfaces := p.busInterfaces + [Entry(ShortName(content), [("description", content), ("source", "llm_analysis")])])
    case Architecture =>
      p.(components := p.components + [Entry(ShortName(content), [("description", content), ("type", "hardware")])])
    case Gaps => p.(gaps := p.gaps + [content])
    case _ => p
  }

  /** One line: the section is updated first, then a non-empty bullet is
      filed under it. */
  function Step(state: (Parsed, Section), line: string): (Parsed, Section)
  {
    var stripped := Strip(line);
    var section := SectionOf(Lower(stripped), state.1);
    if IsBullet(stripped) && BulletText(stripped) != []
    then (Bullet(state.0, section, BulletText(stripped)), section)
    else (state.0, section)
  }

  function ParseLines(lines: seq<string>): (Parsed, Section)
  {
    if lines == [] then (EmptyParsed, NoSection)
    else Step(ParseLines(lines[..|lines| - 1]), lines[|lines| - 1])
  }

  /** `q` is `p` with more lines read: a name or description once set stays,
      and every list only grows at its end. */
  predicate Extends(p: Parsed, q: Parsed)
  {
    (p.productName != "" ==> q.productName == p.productName)
    && (p.description != "" ==> q.description == p.description)
    && p.components <= q.components && p.busInterfaces <= q.busInterfaces
    && p.firmware <= q.firmware && p.drivers <= q.drivers
    && p.tools <= q.tools && p.gaps <= q.gaps
  }

  /** The first overview bullet that sets a product name wins, and so does
      the first description; later lines only append. */
  lemma {:induction false} ParseExtends(lines: seq<string>, k: nat)
    requires k <= |lines|
    ensures Extends(ParseLines(lines[..k]).0, ParseLines(lines).0)
    decreases |lines| - k
  {
    if k < |lines| {
      var init := lines[..|lines| - 1];
      ParseExtends(init, k);
      assert init[..k] == lines[..k];
      StepExtends(ParseLines(init), lines[|lines| - 1]);
      ExtendsTrans(ParseLines(lines[..k]).0, ParseLines(init).0, ParseLines(lines).0);
    } else {
      assert lines[..k] == lines;
    }
  }

  lemma StepExtends(state: (Parsed, Section), line: string)
    ensures Extends(state.0, Step(state, line).0)
  {
    var stripped := Strip(line);
    var section := SectionOf(Lower(stripped), state.1);
    if IsBullet(stripped) && BulletText(stripped) != [] {
      BulletExtends(state.0, section, BulletText(stripped));
    }
  }

  lemma BulletExtends(p: Parsed, section: Section, content: string)
    ensures Extends(p, Bullet(p, section, content))
  {
  }

  lemma ExtendsTrans(p: Parsed, q: Parsed, r: Parsed)
    requires Extends(p, q) && Extends(q, r)
    ensures Extends(p, r)
  {
  }

  /** `body` starts right after a newline at `g` and a closing fence
      follows it. */
  predicate ClosedAt(s: string, g: nat, body: string)
  {
    0 < g && g + |body| + 4 <= |s| && s[g - 1] == '\n'
    && s[g..g + |body|] == body && s[g + |body|..g + |body| + 4] == "\n```"
  }

  /** The body of the first fenced block at or after `g`: the text up to
      the first following "\n```". */
  function CloseAt(s: string, g: nat): (r: Option<string>)
    requires g <= |s|
    ensures r.Some? ==> (g + |r.value| + 4 <= |s| && s[g..g + |r.value|] == r.value
      && s[g + |r.value|..g + |r.value| + 4] == "\n```")
  {
    match IndexOf(s[g..], "\n```")
    case None => None
    case Some(t) =>
      assert s[g..][t..t + 4] == s[g + t..g + t + 4];
      Some(s[g..g + t])
  }

  /** The regular expression ```` ```(?:mermaid)?\s*\n(.*?)\n``` ```` at a
      position past the opening fence's optional language tag: the blank
      run is taken greedily and given back a character at a time until a
      newline ends it and a closing fence follows. */
  function BodyFrom(s: string, j: nat, e: int): (r: Option<string>)
    requires j <= |s| && e < |s|
    ensures r.Some? ==> exists g :: j < g && ClosedAt(s, g, r.value)
    decreases e + 1
  {
    if e < j then None
    else if s[e] == '\n' && CloseAt(s, e + 1).Some? then
      assert ClosedAt(s, e + 1, CloseAt(s, e + 1).value);
      CloseAt(s, e + 1)
    else BodyFrom(s, j, e - 1)
  }

  function FenceAt(s: string, i: nat): (r: Option<string>)
    requires i <= |s|
    ensures r.Some? ==> (i + 3 <= |s| && s[i..i + 3] == "```"
      && exists g :: i + 3 < g && ClosedAt(s, g, r.value))
  {
    if !(i + 3 <= |s| && s[i..i + 3] == "```") then None
    else
      var tagged :=
        if StartsWith(s[i + 3..], "mermaid")
        then BodyFrom(s, i + 10, SkipSpaces(s, i + 10) - 1)
        else None;
      if tagged.Some? then tagged else BodyFrom(s, i + 3, SkipSpaces(s, i + 3) - 1)
  }

  /** `re.search`: the leftmost position where a fenced block matches. */
  function FirstFence(s: string, i: nat): Option<string>
    requires i <= |s|
    decreases |s| - i
  {
    var here := FenceAt(s, i);
    if here.Some? then here
    else if i == |s| then None
    else FirstFence(s, i + 1)
  }

  /** The block found is the one at the leftmost matching position; none is
      found only when no position matches. */
  lemma {:induction false} FirstFenceSpec(s: string, i: nat)
    requires i <= |s|
    ensures FirstFence(s, i).Some? ==>
      exists k :: i <= k <= |s| && FenceAt(s, k) == FirstFence(s, i) && NoFenceBetween(s, i, k)
    ensures FirstFence(s, i).None? ==> NoFenceBetween(s, i, |s| + 1)
    decreases |s| - i
  {
    if FenceAt(s, i).Some? {
      assert NoFenceBetween(s, i, i);
    } else if i < |s| {
      FirstFenceSpec(s, i + 1);
      if FirstFence(s, i + 1).Some? {
        var k :| i + 1 <= k <= |s| && FenceAt(s, k) == FirstFence(s, i + 1) && NoFenceBetween(s, i + 1, k);
        assert NoFenceBetween(s, i, k);
      } else {
        assert NoFenceBetween(s, i, |s| + 1);
      }
    } else {
      assert NoFenceBetween(s, i, |s| + 1);
    }
  }

  /** No fenced block matches at a position from `i` up to `k`. */
  predicate NoFenceBetween(s: string, i: nat, k: nat)
  {
    forall k' :: i <= k' < k && k' <= |s| ==> FenceAt(s, k').None?
  }

  /** `_parse_profile` */
  method ParseProfile(llmOutput: string) returns (profile: HardwareProfile)
    ensures fresh(profile)
    ensures llmOutput == [] ==> profile.Lists() == EmptyParsed && profile.blockDiagram == None
    ensures llmOutput != [] ==> profile.Lists() == ParseLines(SplitLines(llmOutput)).0
    ensures llmOutput != [] ==>
      profile.blockDiagram == (match FirstFence(llmOutput, 0) case None => None case Some(g) => Some(Strip(g)))
  {
    profile := new HardwareProfile();
    if llmOutput == [] {
      return;
    }
    ParseAll(profile, SplitLines(llmOutput));
    match FirstFence(llmOutput, 0)
    case Some(g) => profile.blockDiagram := Some(Strip(g));
    case None =>
  }

  /** The parser loop over the lines of the answer, from a new profile. */
  method ParseAll(profile: HardwareProfile, lines: seq<string>)
    requires profile.Lists() == EmptyParsed
    modifies profile`productName, profile`description, profile`components, profile`busInterfaces,
      profile`existingFirmware, profile`existingDrivers, profile`existingTools, profile`gaps
    ensures profile.Lists() == ParseLines(lines).0
  {
    var section := NoSection;
    for i := 0 to |lines|
      invariant (profile.Lists(), section) == ParseLines(lines[..i])
    {
      assert lines[..i + 1][..i] == lines[..i];
      section := ParseLine(profile, section, lines[i]);
    }
    assert lines[..|lines|] == lines;
  }

  /** One line of the parser loop. */
  method ParseLine(profile: HardwareProfile, section: Section, line: string) returns (section': Section)
    modifies profile`productName, profile`description, profile`components, profile`busInterfaces,
      profile`existingFirmware, profile`existingDrivers, profile`existingTools, profile`gaps
    ensures (profile.Lists(), section') == Step((old(profile.Lists()), section), line)
  {
    var stripped := Strip(line);
    section' := SectionOf(Lower(stripped), section);
    if !IsBullet(stripped) {
      return;
    }
    var content := BulletText(stripped);
    if content == [] {
      return;
    }
    FileBullet(profile, section', content);
  }

  /** Files one non-empty bullet under the current section. */
  method FileBullet(profile: HardwareProfile, section: Section, content: string)
    modifies profile`productName, profile`description, profile`components, profile`busInterfaces,
      profile`existingFirmware, profile`existingDrivers, profile`existingTools, profile`gaps
    ensures profile.Lists() == Bullet(old(profile.Lists()), section, content)
  {
    match section
    case Overview =>
      if profile.productName == "" && ':' in content {
        profile.productName := Strip(AfterFirstChar(content, ':'));
      } else if profile.description == "" {
        profile.description := content;
      }
    case FirmwareSection =>
      profile.existingFirmware := profile.existingFirmware
        + [Entry(Take(content, 100), [("description", content), ("source", "llm_analysis")])];
    case DriverSection =>
      profile.existingDrivers := profile.existingDrivers
        + [Entry(Take(content, 100), [("description", content), ("source", "llm_analysis")])];
    case ToolSection =>
      profile.existingTools := profile.existingTools
        + [Entry(Take(content, 100), [("description", content), ("source", "llm_analysis")])];
    case Buses =>
      profile.busInterfaces := profile.busInterfaces
        + [Entry(ShortName(content), [("description", content), ("source", "llm_analysis")])];
    case Architecture =>
      profile.components := profile.components
        + [Entry(ShortName(content), [("description", content), ("type", "hardware")])];
    case Gaps =>
      profile.gaps := profile.gaps + [content];
    case _ =>
  }
}
