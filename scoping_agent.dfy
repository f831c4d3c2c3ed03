/** The scoping agent: the deterministic scope built from a hardware
    profile and the standard items every feature needs, the executive
    summary line, and the reading of a scope from the JSON block of an
    LLM answer. */
module ScopingAgent {
  import opened Common
  import opened FeaturePlanningModels

  /** What a call that may raise ends in. */
  datatype Outcome = Done | Raised(error: string)

  // -----------------------------------------------------------------------
  // Reading JSON values
  // -----------------------------------------------------------------------

  /** A list of strings; anything else reads as the empty list. */
  function Strings(j: Json): (r: seq<string>)
    ensures j.JList? ==> |r| <= |j.items|
  {
    if j.JList? then StringItems(j.items) else []
  }

  function StringItems(items: seq<Json>): (r: seq<string>)
    ensures |r| <= |items|
  {
    if items == [] then []
    else
      var init := StringItems(items[..|items| - 1]);
      if items[|items| - 1].JStr? then init + [items[|items| - 1].s] else init
  }

  // -----------------------------------------------------------------------
  // Hardware-derived items
  // -----------------------------------------------------------------------

  // The fixed wording of the hardware items.
  const RegisterDescription := "Implement register read/write functions for the new device connected via "
  const RegisterRationale := "Required to communicate with the device over "
  const RegisterCriterion := "Can read/write all device registers over "
  const RegisterCriteria := ["Register access functions are tested with known values",
    "Error handling for bus errors is implemented"]
  const InitDescription := "Implement power-on initialization sequence for the device connected via "
  const InitRationale := "Device must be properly initialized before use."
  const InitCriteria := ["Device is detected and initialized on power-on",
    "Initialization status is reported via health check",
    "Graceful handling of device-not-present scenario"]
  const DriverDescription := "Implement or extend the Linux kernel driver for the new device on "
  const DriverRationale := "Kernel driver is required for OS-level device access."
  const DriverCriteria := ["Driver loads and binds to the device",
    "Device is accessible from user space",
    "Driver handles device errors gracefully",
    "Driver supports module parameters for configuration"]

  function RegisterTitle(bus: string): string { bus + " Register Access Layer" }

  function RegisterItem(bus: string, product: string): ScopeItem
  {
    ScopeItem(RegisterTitle(bus), RegisterDescription + bus + " on " + product + ".",
      "firmware", "M", "medium", [], RegisterRationale + bus + ".",
      [RegisterCriterion + bus] + RegisterCriteria)
  }

  function InitItem(bus: string): ScopeItem
  {
    ScopeItem(bus + " Device Initialization", InitDescription + bus + ".",
      "firmware", "M", "medium", [RegisterTitle(bus)], InitRationale, InitCriteria)
  }

  const DriverTitle := "Kernel Driver Module"

  function DriverItem(product: string, firmwareTitles: seq<string>): ScopeItem
  {
    ScopeItem(DriverTitle, DriverDescription + product + ".",
      "driver", "L", "medium", firmwareTitles, DriverRationale, DriverCriteria)
  }

  /** `[item.title for item in items]` */
  function Titles(items: seq<ScopeItem>): (r: seq<string>)
    ensures |r| == |items| && forall i :: 0 <= i < |items| ==> r[i] == items[i].title
  {
    seq(|items|, i requires 0 <= i < |items| => items[i].title)
  }

  /** `bus.get('name', 'Unknown')` */
  function BusName(bus: map<string, Json>): string
  {
    Text(Get(bus, "name", JStr("Unknown")))
  }

  /** The bus names, or the error of the first bus that is not a dict. */
  function BusNames(buses: seq<Json>): (r: Result<seq<string>>)
    ensures r.Ok? <==> forall k :: 0 <= k < |buses| ==> buses[k].JObj?
    ensures r.Ok? ==> (|r.value| == |buses|
      && forall k :: 0 <= k < |buses| ==> r.value[k] == BusName(buses[k].fields))
  {
    if buses == [] then Ok([])
    else
      var last := buses[|buses| - 1];
      match BusNames(buses[..|buses| - 1])
      case Err(m) => Err(m)
      case Ok(names) =>
        if last.JObj? then Ok(names + [BusName(last.fields)])
        else Err(NoAttribute(last, "get"))
  }

  /** The profile's buses, or why iterating them raises. */
  function ProfileBusNames(hw: map<string, Json>): Result<seq<string>>
  {
    match Elements(Get(hw, "bus_interfaces", JList([])))
    case Err(m) => Err(m)
    case Ok(buses) => BusNames(buses)
  }

  function ProductName(hw: map<string, Json>): string
  {
    Text(Get(hw, "product_name", JStr("the product")))
  }

  /** The two firmware items of each bus, in bus order. */
  function BusItems(names: seq<string>, product: string): seq<ScopeItem>
  {
    if names == [] then []
    else
      BusItems(names[..|names| - 1], product)
        + [RegisterItem(names[|names| - 1], product), InitItem(names[|names| - 1])]
  }

  /** Bus `k` contributes items `2k` (register access) and `2k+1`
      (initialisation), and the second depends on the first. */
  lemma {:induction false} BusItemsSpec(names: seq<string>, product: string)
    ensures |BusItems(names, product)| == 2 * |names|
    ensures forall k :: 0 <= k < |names| ==>
      BusItems(names, product)[2 * k] == RegisterItem(names[k], product)
      && BusItems(names, product)[2 * k + 1] == InitItem(names[k])
    ensures forall k :: 0 <= k < |names| ==>
      BusItems(names, product)[2 * k + 1].dependencies == [BusItems(names, product)[2 * k].title]
  {
    if names != [] {
      BusItemsSpec(names[..|names| - 1], product);
    }
  }

  /** One more bus that is a dict adds its name, and its two items. */
  lemma BusStep(buses: seq<Json>, i: nat, names: seq<string>, product: string)
    requires i < |buses| && BusNames(buses[..i]) == Ok(names) && buses[i].JObj?
    ensures BusNames(buses[..i + 1]) == Ok(names + [BusName(buses[i].fields)])
    ensures BusItems(names + [BusName(buses[i].fields)], product)
            == BusItems(names, product) + [RegisterItem(BusName(buses[i].fields), product), InitItem(BusName(buses[i].fields))]
  {
    assert buses[..i + 1][..i] == buses[..i];
    assert (names + [BusName(buses[i].fields)])[..|names|] == names;
  }

  /** `_scope_from_hw_profile`: two firmware items per bus, then one
      driver item depending on every firmware item of the scope. Raises
      when the buses cannot be iterated or a bus is not a dict. */
  method ScopeFromHwProfile(scope: FeatureScope, hw: map<string, Json>) returns (r: Outcome)
    modifies scope`firmwareItems, scope`driverItems
    ensures r.Done? <==> ProfileBusNames(hw).Ok?
    ensures r.Done? ==>
      (scope.firmwareItems == old(scope.firmwareItems) + BusItems(ProfileBusNames(hw).value, ProductName(hw))
      && scope.driverItems == old(scope.driverItems) + [DriverItem(ProductName(hw), Titles(scope.firmwareItems))])
    ensures scope.toolItems == old(scope.toolItems) && scope.testItems == old(scope.testItems)
    ensures scope.integrationItems == old(scope.integrationItems)
    ensures scope.documentationItems == old(scope.documentationItems)
    ensures scope.featureName == old(scope.featureName) && scope.summary == old(scope.summary)
    ensures scope.openQuestions == old(scope.openQuestions) && scope.assumptions == old(scope.assumptions)
    ensures scope.confidenceReport == old(scope.confidenceReport)
  {
    var buses := Elements(Get(hw, "bus_interfaces", JList([])));
    var product := ProductName(hw);
    if buses.Err? {
      return Raised(buses.msg);
    }
    r := AddBusItems(scope, buses.value, product);
    if r.Done? {
      scope.driverItems := scope.driverItems + [DriverItem(product, Titles(scope.firmwareItems))];
    }
  }

  /** The bus loop of `_scope_from_hw_profile`: the items of each bus are
      appended as it is read, so a bus that is not a dict raises after
      the items of the buses before it were added. */
  method AddBusItems(scope: FeatureScope, buses: seq<Json>, product: string) returns (r: Outcome)
    modifies scope`firmwareItems
    ensures r.Done? <==> BusNames(buses).Ok?
    ensures r.Done? ==> scope.firmwareItems == old(scope.firmwareItems) + BusItems(BusNames(buses).value, product)
  {
    var i := 0;
    ghost var names := [];
    while i < |buses|
      invariant 0 <= i <= |buses|
      invariant BusNames(buses[..i]) == Ok(names)
      invariant scope.firmwareItems == old(scope.firmwareItems) + BusItems(names, product)
    {
      var bus := buses[i];
      if !bus.JObj? {
        return Raised(NoAttribute(bus, "get"));
      }
      var name := BusName(bus.fields);
      BusStep(buses, i, names, product);
      AppendAssoc(old(scope.firmwareItems), BusItems(names, product), [RegisterItem(name, product), InitItem(name)]);
      scope.firmwareItems := scope.firmwareItems + [RegisterItem(name, product), InitItem(name)];
      names := names + [name];
      i := i + 1;
    }
    assert buses[..i] == buses;
    return Done;
  }

  // -----------------------------------------------------------------------
  // Standard items
  // -----------------------------------------------------------------------

  const ToolTitle := "CLI Diagnostic Tool"
  const IntegrationTestTitle := "Integration Test Suite"
  const UnitTestTitle := "Unit Tests for Firmware Modules"
  const ApiDocTitle := "API Documentation"
  const UserGuideTitle := "User Guide Update"

  // The fixed wording of the standard items.
  const ToolDescription := "Implement CLI tool for configuring, querying status, and diagnosing the new feature: "
  const ToolRationale := "Users and support need CLI access for configuration and debug."
  const ToolCriteria := ["Can query device status from command line",
    "Can configure device parameters",
    "Provides useful error messages",
    "Includes --help and man page"]
  const IntegrationTestDescription := "Develop integration tests that verify end-to-end functionality of the new feature: "
  const IntegrationTestRationale := "Integration tests ensure all components work together."
  const IntegrationTestCriteria := ["Tests cover happy path and error paths",
    "Tests run in CI/CD pipeline",
    "Tests produce clear pass/fail results",
    "Test coverage documented"]
  const UnitTestDescription := "Write unit tests for each new firmware module."
  const UnitTestRationale := "Unit tests catch bugs early and enable safe refactoring."
  const UnitTestCriteria := ["Each firmware module has corresponding unit tests",
    "Tests mock hardware access for host-side execution",
    "Code coverage > 80%"]
  const ApiDocDescription := "Document all new APIs (firmware, driver, user-space) for the feature: "
  const ApiDocRationale := "API documentation is required for internal and external users."
  const ApiDocCriteria := ["All public APIs are documented with usage examples",
    "Error codes and return values are documented",
    "Documentation is reviewed by a peer"]
  const UserGuideDescription := "Update the user guide with installation, configuration, and troubleshooting for: "
  const UserGuideRationale := "Users need documentation to install and use the feature."
  const UserGuideCriteria := ["Installation steps are documented",
    "Configuration options are documented",
    "Troubleshooting section covers common issues"]

  function ToolItem(short: string): ScopeItem
  {
    ScopeItem(ToolTitle, ToolDescription + short + ".", "tool", "M", "high", [DriverTitle],
      ToolRationale, ToolCriteria)
  }

  function IntegrationTestItem(short: string): ScopeItem
  {
    ScopeItem(IntegrationTestTitle, IntegrationTestDescription + short + ".", "test", "L", "high",
      [DriverTitle, ToolTitle], IntegrationTestRationale, IntegrationTestCriteria)
  }

  function UnitTestItem(firmwareTitles: seq<string>): ScopeItem
  {
    ScopeItem(UnitTestTitle, UnitTestDescription, "test", "M", "high", firmwareTitles,
      UnitTestRationale, UnitTestCriteria)
  }

  function ApiDocItem(short: string): ScopeItem
  {
    ScopeItem(ApiDocTitle, ApiDocDescription + short + ".", "documentation", "M", "high",
      [DriverTitle], ApiDocRationale, ApiDocCriteria)
  }

  function UserGuideItem(short: string): ScopeItem
  {
    ScopeItem(UserGuideTitle, UserGuideDescription + short + ".", "documentation", "S", "high",
      [ToolTitle, ApiDocTitle], UserGuideRationale, UserGuideCriteria)
  }

  const StandardAssumptions: seq<string> := [
    "The existing build system and toolchain can be used without modification.",
    "The target Linux kernel version supports the required driver interfaces."]

  /** `_add_standard_items`: one tool, two test and two documentation
      items and two assumptions; the unit tests depend on every firmware
      item already in the scope. */
  method AddStandardItems(scope: FeatureScope, featureRequest: string)
    modifies scope
    ensures scope.toolItems == old(scope.toolItems) + [ToolItem(Take(featureRequest, 60))]
    ensures scope.testItems == old(scope.testItems)
      + [IntegrationTestItem(Take(featureRequest, 60)), UnitTestItem(Titles(old(scope.firmwareItems)))]
    ensures scope.documentationItems == old(scope.documentationItems)
      + [ApiDocItem(Take(featureRequest, 60)), UserGuideItem(Take(featureRequest, 60))]
    ensures scope.assumptions == old(scope.assumptions) + StandardAssumptions
    ensures scope.firmwareItems == old(scope.firmwareItems) && scope.driverItems == old(scope.driverItems)
    ensures scope.integrationItems == old(scope.integrationItems)
    ensures scope.featureName == old(scope.featureName) && scope.summary == old(scope.summary)
    ensures scope.openQuestions == old(scope.openQuestions)
    ensures scope.confidenceReport == old(scope.confidenceReport)
  {
    var short := Take(featureRequest, 60);
    scope.toolItems := scope.toolItems + [ToolItem(short)];
    scope.testItems := scope.testItems + [IntegrationTestItem(short)];
    scope.testItems := scope.testItems + [UnitTestItem(Titles(scope.firmwareItems))];
    scope.documentationItems := scope.documentationItems + [ApiDocItem(short)];
    scope.documentationItems := scope.documentationItems + [UserGuideItem(short)];
    scope.assumptions := scope.assumptions + [StandardAssumptions[0]];
    scope.assumptions := scope.assumptions + [StandardAssumptions[1]];
  }

  // -----------------------------------------------------------------------
  // The deterministic scope
  // -----------------------------------------------------------------------

  /** The six category lists `scope()` fills, in `all_items` order, or
      why reading the hardware profile raises. An empty profile (None or
      `{}`) adds no hardware items. */
  function PlannedCategories(featureRequest: string, hw: map<string, Json>): (r: Result<seq<seq<ScopeItem>>>)
    ensures r.Ok? ==> |r.value| == 6
  {
    var short := Take(featureRequest, 60);
    if hw == map[] then
      Ok([[], [], [ToolItem(short)], [IntegrationTestItem(short), UnitTestItem([])], [],
        [ApiDocItem(short), UserGuideItem(short)]])
    else
      match ProfileBusNames(hw)
      case Err(m) => Err(m)
      case Ok(names) =>
        var fw := BusItems(names, ProductName(hw));
        Ok([fw, [DriverItem(ProductName(hw), Titles(fw))], [ToolItem(short)],
          [IntegrationTestItem(short), UnitTestItem(Titles(fw))], [],
          [ApiDocItem(short), UserGuideItem(short)]])
  }

  function Flatten(cats: seq<seq<ScopeItem>>): seq<ScopeItem>
  {
    if cats == [] then [] else cats[0] + Flatten(cats[1..])
  }

  /** The items of `scope()`: the hardware items when a profile is given,
      then the standard items, added to a fresh scope. */
  method AddPlannedItems(scope: FeatureScope, featureRequest: string, hw: map<string, Json>) returns (r: Outcome)
    requires scope.Categories() == [[], [], [], [], [], []] && scope.assumptions == []
    modifies scope
    ensures r.Done? <==> PlannedCategories(featureRequest, hw).Ok?
    ensures r.Done? ==> (scope.Categories() == PlannedCategories(featureRequest, hw).value
      && scope.assumptions == StandardAssumptions)
    ensures scope.featureName == old(scope.featureName) && scope.openQuestions == old(scope.openQuestions)
  {
    if hw != map[] {
      r := ScopeFromHwProfile(scope, hw);
      if r.Raised? {
        return;
      }
    }
    ghost var fw := scope.firmwareItems;
    ghost var driver := scope.driverItems;
    AddStandardItems(scope, featureRequest);
    var short := Take(featureRequest, 60);
    if hw == map[] {
      assert Titles(fw) == [];
    } else {
      var names := ProfileBusNames(hw).value;
      assert fw == BusItems(names, ProductName(hw));
      assert driver == [DriverItem(ProductName(hw), Titles(fw))];
    }
    assert scope.toolItems == [ToolItem(short)];
    assert scope.testItems == [IntegrationTestItem(short), UnitTestItem(Titles(fw))];
    assert scope.documentationItems == [ApiDocItem(short), UserGuideItem(short)];
    return Done;
  }

  /** `scope()`: the feature name cut to 100 characters, the hardware
      items when a profile is given, the standard items, the summary
      line and the confidence report. Raises only where reading the
      profile does. */
  method Scope(featureRequest: string, hw: map<string, Json>) returns (r: Result<FeatureScope>)
    ensures r.Ok? <==> PlannedCategories(featureRequest, hw).Ok?
    ensures r.Ok? ==> (fresh(r.value)
      && r.value.featureName == Take(featureRequest, 100)
      && r.value.Categories() == PlannedCategories(featureRequest, hw).value
      && r.value.assumptions == StandardAssumptions
      && r.value.openQuestions == []
      && r.value.summary == SummaryOf(r.value.AllItems(), Take(featureRequest, 100), [])
      && r.value.confidenceReport == Some(ReportOf(r.value.AllItems(), [])))
  {
    var scope := new FeatureScope();
    scope.featureName := Take(featureRequest, 100);
    var outcome := AddPlannedItems(scope, featureRequest, hw);
    if outcome.Raised? {
      return Err(outcome.error);
    }
    Finish(scope);
    return Ok(scope);
  }

  /** The last steps of `scope()`: the summary line, then the confidence
      report, both over the items gathered so far. */
  method Finish(scope: FeatureScope)
    modifies scope
    ensures scope.Categories() == old(scope.Categories()) && scope.AllItems() == old(scope.AllItems())
    ensures scope.featureName == old(scope.featureName) && scope.assumptions == old(scope.assumptions)
    ensures scope.openQuestions == old(scope.openQuestions)
    ensures scope.summary == SummaryOf(scope.AllItems(), scope.featureName, scope.openQuestions)
    ensures scope.confidenceReport == Some(ReportOf(scope.AllItems(), scope.openQuestions))
  {
    ghost var cats := scope.Categories();
    ghost var items := scope.AllItems();
    scope.summary := BuildSummary(scope);
    assert scope.Categories() == cats && scope.AllItems() == items;
    scope.RecomputeConfidenceReport();
    assert scope.AllItems() == items;
  }

  // -----------------------------------------------------------------------
  // Properties of the deterministic scope
  // -----------------------------------------------------------------------

  /** Every item sits in the list of its own category. */
  predicate CategoriesMatch(cats: seq<seq<ScopeItem>>)
    requires |cats| == 6
  {
    forall c, k :: 0 <= c < 6 && 0 <= k < |cats[c]| ==> cats[c][k].category == ItemKeys[c].1
  }

  /** Every dependency names an item of the scope. */
  predicate DependenciesResolve(items: seq<ScopeItem>)
  {
    forall i, d :: 0 <= i < |items| && d in items[i].dependencies ==> d in Titles(items)
  }

  lemma {:induction false} FlattenSix(cats: seq<seq<ScopeItem>>)
    requires |cats| == 6
    ensures Flatten(cats) == cats[0] + cats[1] + cats[2] + cats[3] + cats[4] + cats[5]
  {
    assert Flatten(cats[6..]) == [];
    assert Flatten(cats[5..]) == cats[5];
    assert Flatten(cats[4..]) == cats[4] + cats[5];
    assert Flatten(cats[3..]) == cats[3] + cats[4] + cats[5];
    assert Flatten(cats[2..]) == cats[2] + cats[3] + cats[4] + cats[5];
    assert Flatten(cats[1..]) == cats[1] + cats[2] + cats[3] + cats[4] + cats[5];
  }

  lemma {:induction false} BusItemsCategory(names: seq<string>, product: string)
    ensures forall k :: 0 <= k < |BusItems(names, product)| ==> BusItems(names, product)[k].category == "firmware"
  {
    if names != [] {
      BusItemsCategory(names[..|names| - 1], product);
    }
  }

  /** The deterministic scope files every item under its own category:
      `all_items` can be read back by category. */
  lemma PlannedCategoriesMatch(featureRequest: string, hw: map<string, Json>)
    requires PlannedCategories(featureRequest, hw).Ok?
    ensures CategoriesMatch(PlannedCategories(featureRequest, hw).value)
  {
    if hw != map[] {
      BusItemsCategory(ProfileBusNames(hw).value, ProductName(hw));
    }
  }

  /** Within the firmware items, every dependency names one of them. */
  lemma {:induction false} BusItemsDependencies(names: seq<string>, product: string)
    ensures DependenciesResolve(BusItems(names, product))
  {
    if names != [] {
      var init := names[..|names| - 1];
      var bus := names[|names| - 1];
      var pre := BusItems(init, product);
      var fw := BusItems(names, product);
      BusItemsDependencies(init, product);
      assert fw == pre + [RegisterItem(bus, product), InitItem(bus)];
      assert Titles(fw)[|pre|] == RegisterTitle(bus);
      forall i, d | 0 <= i < |fw| && d in fw[i].dependencies ensures d in Titles(fw) {
        if i < |pre| {
          assert fw[i] == pre[i];
          assert d in pre[i].dependencies;
          assert d in Titles(pre);
          var k :| 0 <= k < |pre| && Titles(pre)[k] == d;
          assert Titles(fw)[k] == d;
        }
      }
    }
  }

  /** With a hardware profile, every dependency of every item names an
      item of the same scope: firmware initialisation depends on its
      bus's register layer, the driver and the unit tests on every
      firmware item, the tool, tests and documents on the driver, the
      tool and the API document. */
  lemma {:induction false} DependenciesResolveWithProfile(featureRequest: string, hw: map<string, Json>)
    requires hw != map[] && PlannedCategories(featureRequest, hw).Ok?
    ensures DependenciesResolve(Flatten(PlannedCategories(featureRequest, hw).value))
  {
    var cats := PlannedCategories(featureRequest, hw).value;
    var fw := BusItems(ProfileBusNames(hw).value, ProductName(hw));
    var short := Take(featureRequest, 60);
    FlattenSix(cats);
    assert Flatten(cats) == fw + ItemsAfterFirmware(ProductName(hw), fw, short);
    BusItemsDependencies(ProfileBusNames(hw).value, ProductName(hw));
    ItemsAfterFirmwareResolve(ProductName(hw), fw, short);
    AppendResolves(fw, ItemsAfterFirmware(ProductName(hw), fw, short));
  }

  /** The items a profile's scope holds after its firmware items. */
  function ItemsAfterFirmware(product: string, fw: seq<ScopeItem>, short: string): seq<ScopeItem>
  {
    [DriverItem(product, Titles(fw)), ToolItem(short), IntegrationTestItem(short), UnitTestItem(Titles(fw)),
     ApiDocItem(short), UserGuideItem(short)]
  }

  /** The driver and the unit tests depend on the firmware items; the rest
      on the driver, the tool and the API document. */
  lemma ItemsAfterFirmwareResolve(product: string, fw: seq<ScopeItem>, short: string)
    ensures forall j, d :: 0 <= j < 6 && d in ItemsAfterFirmware(product, fw, short)[j].dependencies ==>
      d in Titles(fw) || d in Titles(ItemsAfterFirmware(product, fw, short))
  {
    var rest := ItemsAfterFirmware(product, fw, short);
    assert Titles(rest)[0] == DriverTitle;
    assert Titles(rest)[1] == ToolTitle;
    assert Titles(rest)[4] == ApiDocTitle;
  }

  /** Appending items whose dependencies name items of either part keeps
      every dependency resolved. */
  lemma AppendResolves(fw: seq<ScopeItem>, rest: seq<ScopeItem>)
    requires DependenciesResolve(fw)
    requires forall j, d :: 0 <= j < |rest| && d in rest[j].dependencies ==> d in Titles(fw) || d in Titles(rest)
    ensures DependenciesResolve(fw + rest)
  {
    var items := fw + rest;
    var n := |fw|;
    forall t | t in Titles(fw) ensures t in Titles(items) {
      var k :| 0 <= k < |fw| && Titles(fw)[k] == t;
      assert Titles(items)[k] == t;
    }
    forall t | t in Titles(rest) ensures t in Titles(items) {
      var k :| 0 <= k < |rest| && Titles(rest)[k] == t;
      assert Titles(items)[n + k] == t;
    }
    forall i, d | 0 <= i < |items| && d in items[i].dependencies ensures d in Titles(items) {
      if i < n {
        assert items[i] == fw[i];
      } else {
        assert items[i] == rest[i - n];
      }
    }
  }

  /** Without a hardware profile nothing provides the driver the tool,
      the integration tests and the API document depend on. */
  lemma DanglingDriverWithoutProfile(featureRequest: string)
    ensures var items := Flatten(PlannedCategories(featureRequest, map[]).value);
      exists i :: (0 <= i < |items| && DriverTitle in items[i].dependencies
        && DriverTitle !in Titles(items))
  {
    var cats := PlannedCategories(featureRequest, map[]).value;
    FlattenSix(cats);
    var items := Flatten(cats);
    var short := Take(featureRequest, 60);
    assert items == [ToolItem(short), IntegrationTestItem(short), UnitTestItem([]),
      ApiDocItem(short), UserGuideItem(short)];
    assert DriverTitle in items[0].dependencies;
  }

  /** Five standard items, plus two per bus and the driver when a
      profile is given. */
  lemma PlannedItemCount(featureRequest: string, hw: map<string, Json>)
    requires PlannedCategories(featureRequest, hw).Ok?
    ensures hw == map[] ==> |Flatten(PlannedCategories(featureRequest, hw).value)| == 5
    ensures hw != map[] ==> (|Flatten(PlannedCategories(featureRequest, hw).value)|
      == 2 * |ProfileBusNames(hw).value| + 6)
  {
    FlattenSix(PlannedCategories(featureRequest, hw).value);
    if hw != map[] {
      BusItemsSpec(ProfileBusNames(hw).value, ProductName(hw));
    }
  }

  // -----------------------------------------------------------------------
  // Executive summary
  // -----------------------------------------------------------------------

  /** `f'{count} {cat}'` for each category in ascending order. */
  function CategoryParts(keys: seq<string>, tally: seq<(string, nat)>): (r: seq<string>)
    ensures |r| == |keys|
  {
    seq(|keys|, k requires 0 <= k < |keys| => NatToString(CountOf(tally, keys[k])) + " " + keys[k])
  }

  /** The categories of the items, each once, in ascending order. */
  ghost function SummaryCategories(items: seq<ScopeItem>): seq<string>
  {
    SortedOf(SetOf(KeysOf(Tally(ItemCategories(items)))))
  }

  /** The summary line `_build_summary` writes. */
  ghost function SummaryOf(items: seq<ScopeItem>, featureName: string, questions: seq<Question>): string
  {
    var tally := Tally(ItemCategories(items));
    "Scoped " + NatToString(|items|) + " work items ("
      + Join(CategoryParts(SummaryCategories(items), tally), ", ") + ") for: "
      + featureName + ". " + NatToString(|questions|) + " open questions ("
      + NatToString(BlockingCount(questions)) + " blocking)."
  }

  /** `_build_summary`: tallies the categories in one pass, sorts them
      and writes the summary line. */
  method BuildSummary(scope: FeatureScope) returns (s: string)
    ensures s == SummaryOf(scope.AllItems(), scope.featureName, scope.openQuestions)
  {
    var items := scope.AllItems();
    var _, _, byCategory := TallyItems(items);
    var keys := SortNames(SetOf(KeysOf(byCategory)));
    var parts: seq<string> := [];
    for k := 0 to |keys|
      invariant parts == CategoryParts(keys[..k], byCategory)
    {
      parts := parts + [NatToString(CountOf(byCategory, keys[k])) + " " + keys[k]];
    }
    assert keys[..|keys|] == keys;
    var blocking := BlockingCount(scope.openQuestions);
    s := "Scoped " + NatToString(|items|) + " work items (" + Join(parts, ", ") + ") for: "
      + scope.featureName + ". " + NatToString(|scope.openQuestions|) + " open questions ("
      + NatToString(blocking) + " blocking).";
  }

  /** `sum(counts[k] for k in keys)` */
  function SumOver(keys: seq<string>, labels: seq<string>): nat
  {
    if keys == [] then 0 else Occurrences(labels, keys[0]) + SumOver(keys[1..], labels)
  }

  lemma {:induction false} SumOverNone(keys: seq<string>)
    ensures SumOver(keys, []) == 0
  {
    if keys != [] {
      SumOverNone(keys[1..]);
    }
  }

  lemma {:induction false} SumOverSnoc(keys: seq<string>, labels: seq<string>, x: string)
    ensures SumOver(keys, labels + [x]) == SumOver(keys, labels) + Count(keys, x)
  {
    assert (labels + [x])[..|labels|] == labels;
    if keys != [] {
      SumOverSnoc(keys[1..], labels, x);
    }
  }

  lemma {:induction false} CountOnce(keys: seq<string>, x: string)
    requires NoDup(keys) && x in keys
    ensures Count(keys, x) == 1
  {
    if keys[0] == x {
      assert x !in keys[1..] by {
        forall k | 0 <= k < |keys[1..]| ensures keys[1..][k] != x {
          assert keys[k + 1] != keys[0];
        }
      }
    } else {
      assert x in keys[1..] by {
        var k :| 0 <= k < |keys| && keys[k] == x;
        assert keys[1..][k - 1] == x;
      }
      CountOnce(keys[1..], x);
    }
  }

  /** Summing the counts of each distinct label once gives the number of
      labels. */
  lemma {:induction false} SumOverAll(keys: seq<string>, labels: seq<string>)
    requires NoDup(keys) && forall x :: x in labels ==> x in keys
    ensures SumOver(keys, labels) == |labels|
  {
    if labels == [] {
      SumOverNone(keys);
    } else {
      var init := labels[..|labels| - 1];
      var x := labels[|labels| - 1];
      assert labels == init + [x];
      SumOverAll(keys, init);
      SumOverSnoc(keys, init, x);
      CountOnce(keys, x);
    }
  }

  lemma {:induction false} OccursPositive(s: seq<string>, y: string)
    requires y in s
    ensures Occurrences(s, y) > 0
  {
    if s[|s| - 1] != y {
      assert y in s[..|s| - 1] by {
        var k :| 0 <= k < |s| && s[k] == y;
        assert s[..|s| - 1][k] == y;
      }
      OccursPositive(s[..|s| - 1], y);
    }
  }

  /** The summary lists each category of the items exactly once, in
      ascending order, each with its number of items (never zero), and
      those numbers add up to the total it reports. */
  lemma SummaryCategoriesSpec(items: seq<ScopeItem>)
    ensures var keys := SummaryCategories(items);
      Sorted(keys) && NoDup(keys)
      && (forall c :: c in keys <==> c in ItemCategories(items))
      && (forall k :: 0 <= k < |keys| ==>
            CountOf(Tally(ItemCategories(items)), keys[k]) == Occurrences(ItemCategories(items), keys[k]) > 0)
      && SumOver(keys, ItemCategories(items)) == |items|
  {
    var cats := ItemCategories(items);
    TallySpec(cats);
    var keys := SummaryCategories(items);
    SortedOfSpec(SetOf(KeysOf(Tally(cats))));
    assert forall c :: c in keys <==> c in SetOf(keys);
    forall k | 0 <= k < |keys| ensures Occurrences(cats, keys[k]) > 0 {
      assert keys[k] in SetOf(keys);
      OccursPositive(cats, keys[k]);
    }
    SumOverAll(keys, cats);
  }

  // -----------------------------------------------------------------------
  // Reading a scope from the JSON block of an LLM answer
  // -----------------------------------------------------------------------

  /** Each JSON item list with the category its items get. */
  const ItemKeys: seq<(string, string)> := [
    ("firmware_items", "firmware"), ("driver_items", "driver"), ("tool_items", "tool"),
    ("test_items", "test"), ("integration_items", "integration"),
    ("documentation_items", "documentation")]

  /** `(data.get('summary', '') or '')[:500]`: a falsy value reads as
      empty, a string is cut to 500 characters, a number cannot be
      subscripted, and an object cannot take a slice as a key. */
  function SummaryText(j: Json): (r: Result<string>)
    ensures j.JStr? ==> r == Ok(Take(j.s, 500))
    ensures !Truthy(j) ==> r == Ok("")
    ensures r.Err? <==> Truthy(j) && (j.JInt? || j.JBool? || j.JObj?)
  {
    if !Truthy(j) then Ok("")
    else
      match j
      case JStr(s) => Ok(Take(s, 500))
      case JList(_) => Ok("")
      case JObj(_) => Err("TypeError: unhashable type: 'slice'")
      case _ => Err("TypeError: '" + TypeName(j) + "' object is not subscriptable")
  }

  /** The stripped non-blank strings among the elements, in order. */
  function AssumptionsOf(elems: seq<Json>): (r: seq<string>)
    ensures |r| <= |elems|
  {
    if elems == [] then []
    else
      var init := AssumptionsOf(elems[..|elems| - 1]);
      var last := elems[|elems| - 1];
      if last.JStr? && !IsBlank(last.s) then init + [Strip(last.s)] else init
  }

  /** The assumption loop of `_parse_scope`. */
  method CollectAssumptions(elems: seq<Json>) returns (r: seq<string>)
    ensures r == AssumptionsOf(elems)
  {
    r := [];
    for i := 0 to |elems|
      invariant r == AssumptionsOf(elems[..i])
    {
      assert elems[..i + 1][..i] == elems[..i];
      var a := elems[i];
      if a.JStr? && !IsBlank(a.s) {
        r := r + [Strip(a.s)];
      }
    }
    assert elems[..|elems|] == elems;
  }

  /** No assumption is blank or carries surrounding whitespace, and a
      list of non-blank strings is kept whole, each one stripped. */
  lemma {:induction false} AssumptionsOfSpec(elems: seq<Json>)
    ensures forall k :: 0 <= k < |AssumptionsOf(elems)| ==>
      AssumptionsOf(elems)[k] != [] && !IsSpace(AssumptionsOf(elems)[k][0])
      && !IsSpace(AssumptionsOf(elems)[k][|AssumptionsOf(elems)[k]| - 1])
    ensures (forall k :: 0 <= k < |elems| ==> elems[k].JStr? && !IsBlank(elems[k].s)) ==>
      |AssumptionsOf(elems)| == |elems|
      && forall k :: 0 <= k < |elems| ==> AssumptionsOf(elems)[k] == Strip(elems[k].s)
  {
    if elems != [] {
      var init := elems[..|elems| - 1];
      AssumptionsOfSpec(init);
      assert forall k :: 0 <= k < |init| ==> init[k] == elems[k];
    }
  }

  /** One scope item from a JSON dict: the category comes from the list
      it sits in, the complexity is upper-cased (default `M`), the
      confidence lower-cased (default `medium`, also for a falsy value).
      A complexity or a truthy confidence that is not a string raises. */
  function ItemOf(d: map<string, Json>, category: string): (r: Result<ScopeItem>)
  {
    var complexity := Get(d, "complexity", JStr("M"));
    var given := Get(d, "confidence", JStr("medium"));
    var confidence := if Truthy(given) then given else JStr("medium");
    if !complexity.JStr? then Err(NoAttribute(complexity, "upper"))
    else if !confidence.JStr? then Err(NoAttribute(confidence, "lower"))
    else
      Ok(ScopeItem(
        Text(Get(d, "title", JStr(""))),
        Text(Get(d, "description", JStr(""))),
        category,
        Upper(complexity.s),
        Lower(confidence.s),
        Strings(Get(d, "dependencies", JList([]))),
        Text(Get(d, "rationale", JStr(""))),
        Strings(Get(d, "acceptance_criteria", JList([])))))
  }

  /** Reading an item raises exactly for a complexity, or a truthy
      confidence, that is not a string. */
  lemma ItemOfErr(d: map<string, Json>, category: string)
    ensures ItemOf(d, category).Err? <==>
      ("complexity" in d && !d["complexity"].JStr?)
      || ("confidence" in d && Truthy(d["confidence"]) && !d["confidence"].JStr?)
  {
  }

  /** A read item has the list's category, an upper-case complexity and a
      lower-case confidence, with the defaults where the dict has none. */
  lemma ItemOfOk(d: map<string, Json>, category: string)
    requires ItemOf(d, category).Ok?
    ensures var item := ItemOf(d, category).value;
      item.category == category
      && (forall i :: 0 <= i < |item.complexity| ==> !IsLowerChar(item.complexity[i]))
      && (forall i :: 0 <= i < |item.confidence| ==> !IsUpper(item.confidence[i]))
      && ("complexity" !in d ==> item.complexity == "M")
      && (("confidence" !in d || !Truthy(d["confidence"])) ==> item.confidence == "medium")
  {
    UpperChars(Get(d, "complexity", JStr("M")).s);
    DefaultsKeepCase();
  }

  lemma DefaultsKeepCase()
    ensures Upper("M") == "M" && Lower("medium") == "medium"
  {
    assert Upper("M") == "M";
    assert Lower("medium") == "medium";
  }

  /** The dicts among the elements, in order. */
  function Dicts(elems: seq<Json>): (r: seq<map<string, Json>>)
    ensures |r| <= |elems|
  {
    if elems == [] then []
    else
      var init := Dicts(elems[..|elems| - 1]);
      var last := elems[|elems| - 1];
      if last.JObj? then init + [last.fields] else init
  }

  /** `read` applied to every dict among the elements, in order;
      anything that is not a dict is skipped, and the first dict `read`
      fails on ends the list with its error. */
  function ReadDicts<T>(read: map<string, Json> -> Result<T>, elems: seq<Json>): Result<seq<T>>
  {
    if elems == [] then Ok([])
    else
      var last := elems[|elems| - 1];
      match ReadDicts(read, elems[..|elems| - 1])
      case Err(m) => Err(m)
      case Ok(xs) =>
        if !last.JObj? then Ok(xs)
        else
          match read(last.fields)
          case Err(m) => Err(m)
          case Ok(x) => Ok(xs + [x])
  }

  /** One result per dict, in order; the list fails exactly when `read`
      fails on one of its dicts. */
  lemma {:induction false} ReadDictsSpec<T>(read: map<string, Json> -> Result<T>, elems: seq<Json>)
    ensures ReadDicts(read, elems).Ok? <==> forall k :: 0 <= k < |Dicts(elems)| ==> read(Dicts(elems)[k]).Ok?
    ensures ReadDicts(read, elems).Ok? ==>
      |ReadDicts(read, elems).value| == |Dicts(elems)|
      && forall k :: 0 <= k < |Dicts(elems)| ==> read(Dicts(elems)[k]) == Ok(ReadDicts(read, elems).value[k])
  {
    if elems != [] {
      var init := elems[..|elems| - 1];
      var last := elems[|elems| - 1];
      ReadDictsSpec(read, init);
      var ds := Dicts(init);
      if last.JObj? {
        var all := ds + [last.fields];
        assert Dicts(elems) == all;
        assert forall k :: 0 <= k < |ds| ==> all[k] == ds[k];
        assert all[|ds|] == last.fields;
      } else {
        assert Dicts(elems) == ds;
      }
    }
  }

  /** Once a prefix fails, the whole list does, with the same error. */
  lemma {:induction false} ReadDictsErrStays<T>(read: map<string, Json> -> Result<T>, elems: seq<Json>, n: nat)
    requires n <= |elems| && ReadDicts(read, elems[..n]).Err?
    ensures ReadDicts(read, elems) == ReadDicts(read, elems[..n])
    decreases |elems| - n
  {
    if n < |elems| {
      assert elems[..n + 1][..n] == elems[..n];
      ReadDictsErrStays(read, elems, n + 1);
    } else {
      assert elems[..n] == elems;
    }
  }

  /** The items of one JSON list. */
  function ItemsOf(elems: seq<Json>, category: string): Result<seq<ScopeItem>>
  {
    ReadDicts(d => ItemOf(d, category), elems)
  }

  /** One item per dict, in order, each read by `ItemOf`; the list raises
      exactly when one of its dicts does. */
  lemma ItemsOfSpec(elems: seq<Json>, category: string)
    ensures ItemsOf(elems, category).Ok? <==>
      forall k :: 0 <= k < |Dicts(elems)| ==> ItemOf(Dicts(elems)[k], category).Ok?
    ensures ItemsOf(elems, category).Ok? ==>
      |ItemsOf(elems, category).value| == |Dicts(elems)|
      && forall k :: 0 <= k < |Dicts(elems)| ==>
        ItemOf(Dicts(elems)[k], category) == Ok(ItemsOf(elems, category).value[k])
  {
    ReadDictsSpec(d => ItemOf(d, category), elems);
  }

  /** The loop over one JSON item list. */
  method CollectItems(elems: seq<Json>, category: string) returns (r: Result<seq<ScopeItem>>)
    ensures r == ItemsOf(elems, category)
  {
    var items: seq<ScopeItem> := [];
    for i := 0 to |elems|
      invariant ItemsOf(elems[..i], category) == Ok(items)
    {
      assert elems[..i + 1][..i] == elems[..i];
      var e := elems[i];
      if e.JObj? {
        var item := ItemOf(e.fields, category);
        if item.Err? {
          ReadDictsErrStays(d => ItemOf(d, category), elems, i + 1);
          return Err(item.msg);
        }
        items := items + [item.value];
      }
    }
    assert elems[..|elems|] == elems;
    return Ok(items);
  }

  /** The items of the `k`-th JSON list, or its error. */
  function CategoryItems(data: map<string, Json>, k: nat): Result<seq<ScopeItem>>
    requires k < 6
  {
    match Elements(Get(data, ItemKeys[k].0, JList([])))
    case Err(m) => Err(m)
    case Ok(elems) => ItemsOf(elems, ItemKeys[k].1)
  }

  /** The first `n` category lists, or the first error. */
  function CategoriesUpTo(data: map<string, Json>, n: nat): (r: Result<seq<seq<ScopeItem>>>)
    requires n <= 6
    ensures r.Ok? ==> |r.value| == n
  {
    if n == 0 then Ok([])
    else
      match CategoriesUpTo(data, n - 1)
      case Err(m) => Err(m)
      case Ok(cats) =>
        match CategoryItems(data, n - 1)
        case Err(m) => Err(m)
        case Ok(items) => Ok(cats + [items])
  }

  /** The loop over the six item lists. */
  method CollectCategories(data: map<string, Json>) returns (r: Result<seq<seq<ScopeItem>>>)
    ensures r == CategoriesUpTo(data, 6)
  {
    var cats: seq<seq<ScopeItem>> := [];
    for k := 0 to 6
      invariant CategoriesUpTo(data, k) == Ok(cats)
    {
      var elems := Elements(Get(data, ItemKeys[k].0, JList([])));
      if elems.Err? {
        CategoriesErrStays(data, k + 1);
        return Err(elems.msg);
      }
      var items := CollectItems(elems.value, ItemKeys[k].1);
      if items.Err? {
        CategoriesErrStays(data, k + 1);
        return Err(items.msg);
      }
      cats := cats + [items.value];
    }
    return Ok(cats);
  }

  lemma {:induction false} CategoriesErrStays(data: map<string, Json>, n: nat)
    requires n <= 6 && CategoriesUpTo(data, n).Err?
    ensures CategoriesUpTo(data, 6) == CategoriesUpTo(data, n)
    decreases 6 - n
  {
    if n < 6 {
      CategoriesErrStays(data, n + 1);
    }
  }

  /** Every item read from the JSON block sits in the list of its own
      category. */
  lemma CategoriesUpToMatch(data: map<string, Json>, n: nat)
    requires n <= 6 && CategoriesUpTo(data, n).Ok?
    ensures forall c, k :: 0 <= c < n && 0 <= k < |CategoriesUpTo(data, n).value[c]| ==>
      CategoriesUpTo(data, n).value[c][k].category == ItemKeys[c].1
  {
    if n > 0 {
      CategoriesUpToMatch(data, n - 1);
      var elems := Elements(Get(data, ItemKeys[n - 1].0, JList([]))).value;
      ItemsOfCategory(elems, ItemKeys[n - 1].1);
      var cats := CategoriesUpTo(data, n - 1).value;
      var items := CategoryItems(data, n - 1).value;
      assert CategoriesUpTo(data, n).value == cats + [items];
    }
  }

  /** Every item read from one list carries that list's category. */
  lemma ItemsOfCategory(elems: seq<Json>, category: string)
    ensures ItemsOf(elems, category).Ok? ==>
      forall k :: 0 <= k < |ItemsOf(elems, category).value| ==> ItemsOf(elems, category).value[k].category == category
  {
    ItemsOfSpec(elems, category);
    if ItemsOf(elems, category).Ok? {
      forall k | 0 <= k < |ItemsOf(elems, category).value|
        ensures ItemsOf(elems, category).value[k].category == category
      {
        ItemOfOk(Dicts(elems)[k], category);
      }
    }
  }

  /** An open question from a dict keeps its `blocking` flag (as Python
      truthiness); a non-blank string becomes a non-blocking question
      without context; anything else is skipped. */
  function QuestionOf(j: Json): (r: Option<Question>)
    ensures j.JObj? ==> r.Some? && r.value.blocking == Truthy(Get(j.fields, "blocking", JBool(false)))
    ensures j.JStr? ==> (r.Some? <==> !IsBlank(j.s))
    ensures j.JStr? && r.Some? ==> r.value == Question(Strip(j.s), "", [], false)
    ensures !j.JObj? && !j.JStr? ==> r.None?
  {
    match j
    case JObj(d) =>
      Some(Question(Text(Get(d, "question", JStr(""))), Text(Get(d, "context", JStr(""))), [],
        Truthy(Get(d, "blocking", JBool(false)))))
    case JStr(s) => if IsBlank(s) then None else Some(Question(Strip(s), "", [], false))
    case _ => None
  }

  function QuestionsOf(elems: seq<Json>): (r: seq<Question>)
    ensures |r| <= |elems|
  {
    if elems == [] then []
    else
      var init := QuestionsOf(elems[..|elems| - 1]);
      match QuestionOf(elems[|elems| - 1])
      case None => init
      case Some(q) => init + [q]
  }

  /** The question loop of `_parse_scope`. */
  method CollectQuestions(elems: seq<Json>) returns (r: seq<Question>)
    ensures r == QuestionsOf(elems)
  {
    r := [];
    for i := 0 to |elems|
      invariant r == QuestionsOf(elems[..i])
    {
      assert elems[..i + 1][..i] == elems[..i];
      var e := elems[i];
      if e.JObj? {
        var d := e.fields;
        r := r + [Question(Text(Get(d, "question", JStr(""))), Text(Get(d, "context", JStr(""))), [],
          Truthy(Get(d, "blocking", JBool(false))))];
      } else if e.JStr? && !IsBlank(e.s) {
        r := r + [Question(Strip(e.s), "", [], false)];
      }
    }
    assert elems[..|elems|] == elems;
  }

  /** Only questions given as dicts can block: the blocking count never
      exceeds the number of dicts. */
  lemma {:induction false} StringQuestionsNeverBlock(elems: seq<Json>)
    ensures BlockingCount(QuestionsOf(elems)) <= |Dicts(elems)|
  {
    if elems != [] {
      var init := elems[..|elems| - 1];
      StringQuestionsNeverBlock(init);
      var q := QuestionsOf(elems);
      match QuestionOf(elems[|elems| - 1])
      case None =>
      case Some(x) =>
        assert q == QuestionsOf(init) + [x];
        assert q[..|q| - 1] == QuestionsOf(init);
    }
  }

  /** What the JSON branch reads: the summary, the assumptions, the six
      item lists and the open questions. */
  datatype ParsedScope = ParsedScope(
    summary: string,
    assumptions: seq<string>,
    categories: seq<seq<ScopeItem>>,
    questions: seq<Question>)

  /** The JSON branch of `_parse_scope` on a non-empty dict, or the first
      error it raises. */
  function JsonScope(data: map<string, Json>): (r: Result<ParsedScope>)
    ensures r.Ok? ==> |r.value.categories| == 6
  {
    match SummaryText(Get(data, "summary", JStr("")))
    case Err(m) => Err(m)
    case Ok(summary) =>
      match Elements(Get(data, "assumptions", JList([])))
      case Err(m) => Err(m)
      case Ok(assumptions) =>
        match CategoriesUpTo(data, 6)
        case Err(m) => Err(m)
        case Ok(cats) =>
          match Elements(Get(data, "open_questions", JList([])))
          case Err(m) => Err(m)
          case Ok(questions) =>
            Ok(ParsedScope(summary, AssumptionsOf(assumptions), cats, QuestionsOf(questions)))
  }

  /** A scope read from JSON files every item under the category of the
      list it came from. */
  lemma JsonScopeCategories(data: map<string, Json>)
    requires JsonScope(data).Ok?
    ensures CategoriesMatch(JsonScope(data).value.categories)
  {
    CategoriesUpToMatch(data, 6);
  }

  /** How `_parse_scope` ends: with only the feature name for an empty
      answer, with the scope read from the JSON block, with the error the
      JSON branch raised, or by handing over to the Markdown parser. */
  datatype ParseOutcome =
    | EmptyAnswer(scope: FeatureScope)
    | FromJson(scope: FeatureScope)
    | ParseError(error: string)
    | MarkdownFallback

  /** The JSON branch is taken for a non-empty dict only. */
  predicate JsonDict(block: Option<Json>)
  {
    block.Some? && block.value.JObj? && block.value.fields != map[]
  }

  /** `_parse_scope`, given what `_extract_json_block` found in the
      answer. */
  method ParseScope(llmOutput: string, featureRequest: string, block: Option<Json>) returns (r: ParseOutcome)
    ensures llmOutput == [] ==> (r.EmptyAnswer? && fresh(r.scope)
      && r.scope.featureName == Take(featureRequest, 100) && r.scope.summary == ""
      && r.scope.Categories() == [[], [], [], [], [], []]
      && r.scope.openQuestions == [] && r.scope.assumptions == [] && r.scope.confidenceReport == None)
    ensures llmOutput != [] && !JsonDict(block) ==> r.MarkdownFallback?
    ensures llmOutput != [] && JsonDict(block) && JsonScope(block.value.fields).Err? ==>
      r == ParseError(JsonScope(block.value.fields).msg)
    ensures llmOutput != [] && JsonDict(block) && JsonScope(block.value.fields).Ok? ==>
      var p := JsonScope(block.value.fields).value;
      r.FromJson? && fresh(r.scope)
      && r.scope.featureName == Take(featureRequest, 100)
      && r.scope.summary == p.summary && r.scope.assumptions == p.assumptions
      && r.scope.Categories() == p.categories && r.scope.openQuestions == p.questions
      && r.scope.confidenceReport == Some(ReportOf(r.scope.AllItems(), p.questions))
  {
    var scope := new FeatureScope();
    scope.featureName := Take(featureRequest, 100);
    if llmOutput == [] {
      return EmptyAnswer(scope);
    }
    if !JsonDict(block) {
      return MarkdownFallback;
    }
    var parsed := ReadJsonScope(block.value.fields);
    if parsed.Err? {
      return ParseError(parsed.msg);
    }
    FillScope(scope, parsed.value);
    return FromJson(scope);
  }

  /** The JSON branch's writes into the scope, then the report. */
  method FillScope(scope: FeatureScope, p: ParsedScope)
    requires |p.categories| == 6
    modifies scope
    ensures scope.summary == p.summary && scope.assumptions == p.assumptions
    ensures scope.Categories() == p.categories && scope.openQuestions == p.questions
    ensures scope.confidenceReport == Some(ReportOf(scope.AllItems(), p.questions))
    ensures scope.featureName == old(scope.featureName)
  {
    scope.summary := p.summary;
    scope.assumptions := p.assumptions;
    scope.firmwareItems := p.categories[0];
    scope.driverItems := p.categories[1];
    scope.toolItems := p.categories[2];
    scope.testItems := p.categories[3];
    scope.integrationItems := p.categories[4];
    scope.documentationItems := p.categories[5];
    scope.openQuestions := p.questions;
    scope.RecomputeConfidenceReport();
  }

  /** The JSON branch's loops, in the order the source runs them. */
  method ReadJsonScope(data: map<string, Json>) returns (r: Result<ParsedScope>)
    ensures r == JsonScope(data)
  {
    var summary := SummaryText(Get(data, "summary", JStr("")));
    if summary.Err? {
      return Err(summary.msg);
    }
    var assumptionElems := Elements(Get(data, "assumptions", JList([])));
    if assumptionElems.Err? {
      return Err(assumptionElems.msg);
    }
    var assumptions := CollectAssumptions(assumptionElems.value);
    var cats := CollectCategories(data);
    if cats.Err? {
      return Err(cats.msg);
    }
    var questionElems := Elements(Get(data, "open_questions", JList([])));
    if questionElems.Err? {
      return Err(questionElems.msg);
    }
    var questions := CollectQuestions(questionElems.value);
    return Ok(ParsedScope(summary.value, assumptions, cats.value, questions));
  }

  // -----------------------------------------------------------------------
  // _save_item
  // -----------------------------------------------------------------------

  /** An item the Markdown parser has gathered: every key is present. */
  datatype MarkdownItem = MarkdownItem(
    title: string,
    complexity: string,
    confidence: string,
    description: string,
    rationale: string,
    dependencies: seq<string>,
    acceptanceCriteria: seq<string>)

  /** The position of an item list among the six, by attribute name. */
  function SectionIndex(section: string): (r: Option<nat>)
    ensures r.Some? ==> r.value < 6 && ItemKeys[r.value].0 == section
    ensures r.None? ==> forall k :: 0 <= k < 6 ==> ItemKeys[k].0 != section
  {
    if section == ItemKeys[0].0 then Some(0)
    else if section == ItemKeys[1].0 then Some(1)
    else if section == ItemKeys[2].0 then Some(2)
    else if section == ItemKeys[3].0 then Some(3)
    else if section == ItemKeys[4].0 then Some(4)
    else if section == ItemKeys[5].0 then Some(5)
    else None
  }

  /** The item `_save_item` builds: category from the section (default
      `firmware`), description and rationale stripped. */
  function SavedItem(section: string, d: MarkdownItem): ScopeItem
  {
    var category := match SectionIndex(section) case Some(k) => ItemKeys[k].1 case None => "firmware";
    ScopeItem(d.title, Strip(d.description), category, d.complexity, d.confidence, d.dependencies,
      Strip(d.rationale), d.acceptanceCriteria)
  }

  /** `_save_item`: appends to the named item list; a name that is not
      an item list changes nothing. */
  method SaveItem(scope: FeatureScope, section: string, d: MarkdownItem)
    modifies scope
    ensures SectionIndex(section).None? ==> scope.Categories() == old(scope.Categories())
    ensures SectionIndex(section).Some? ==>
      var k := SectionIndex(section).value;
      scope.Categories() == old(scope.Categories())[k := old(scope.Categories())[k] + [SavedItem(section, d)]]
    ensures scope.featureName == old(scope.featureName) && scope.summary == old(scope.summary)
    ensures scope.openQuestions == old(scope.openQuestions) && scope.assumptions == old(scope.assumptions)
    ensures scope.confidenceReport == old(scope.confidenceReport)
  {
    var item := SavedItem(section, d);
    match SectionIndex(section)
    case None =>
    case Some(k) =>
      if k == 0 {
        scope.firmwareItems := scope.firmwareItems + [item];
      } else if k == 1 {
        scope.driverItems := scope.driverItems + [item];
      } else if k == 2 {
        scope.toolItems := scope.toolItems + [item];
      } else if k == 3 {
        scope.testItems := scope.testItems + [item];
      } else if k == 4 {
        scope.integrationItems := scope.integrationItems + [item];
      } else {
        scope.documentationItems := scope.documentationItems + [item];
      }
  }

  /** A saved item carries the category of the list it is appended to,
      so saving keeps every list to its own category. */
  lemma SaveItemKeepsCategories(cats: seq<seq<ScopeItem>>, section: string, d: MarkdownItem)
    requires |cats| == 6 && CategoriesMatch(cats) && SectionIndex(section).Some?
    ensures var k := SectionIndex(section).value;
      CategoriesMatch(cats[k := cats[k] + [SavedItem(section, d)]])
  {
  }
}
