/** The CI scope read off the text of the change lines: which paths are what, and what they call for. */
module ImpactText {
  import opened Wrappers
  import opened Strings
  import opened Impact
  import opened ImpactLaws

  // ---------------------------------------------------------------- what a path is, by its text

  /** The path lies in this directory, in a sub-directory of this name. */
  predicate Below(n: string, dir: string, name: string) {
    name != "" && '/' !in name && dir + name + "/" <= n
  }

  predicate BelowAny(n: string, dir: string, names: seq<string>) {
    exists i :: 0 <= i < |names| && Below(n, dir, names[i])
  }

  const LAB_TESTS := [
    "eventing", "polling_lab", "cdc_lab", "cdc_staging_drill", "service_postgres_proof", "observation_eventing_proof",
    "nats_security_proof", "pickup_acceptance_eventing_proof"]

  /** Test areas that are nobody's service, whatever services there are. */
  predicate IsReserved(area: string) {
    area in ["architecture", "governance", "ci", "contracts"] || area in LAB_TESTS
  }

  predicate IsContracts(n: string) {
    "contracts/" <= n || Below(n, "tests/", "contracts")
  }

  predicate IsArchitecture(n: string) {
    "architecture/" <= n || "docs/architecture/" <= n
  }

  predicate IsGovernance(n: string) {
    || "docs/adr/" <= n || ".cursor/" <= n || n == "AGENTS.md"
    || Below(n, "tests/", "architecture") || Below(n, "tests/", "governance")
  }

  predicate IsInfrastructure(n: string) {
    "infra/" <= n || BelowAny(n, "tests/", LAB_TESTS)
  }

  predicate IsCiTooling(n: string) {
    || ".github/" <= n || "scripts/" <= n || Below(n, "tests/", "ci")
    || n in ["pyproject.toml", "uv.lock", ".python-version", ".editorconfig", ".gitignore"]
  }

  /** The path is a service's: its own directory, or its directory of tests. */
  predicate IsOfService(n: string, service: string, services: set<string>) {
    || Below(n, "services/", service)
    || (service in services && !IsReserved(service) && Below(n, "tests/", service))
  }

  ghost predicate IsSomeService(n: string, services: set<string>) {
    exists service :: IsOfService(n, service, services)
  }

  ghost predicate IsSomePackage(n: string) {
    exists package :: Below(n, "packages/", package)
  }

  /** Documentation is recognized on a path normalized once more, so that a hidden space does not count. */
  predicate IsDocumentation(n: string) {
    var m := Normalize(n);
    m == "README.md" ||
    ("docs/" <= m && EndsWith(m, ".md") && !("docs/adr/" <= m) && !("docs/architecture/" <= n))
  }

  /** The category of a normalized path, by its text alone; no path fits two of them. */
  ghost predicate Fits(n: string, services: set<string>, category: Category) {
    match category
    case Contracts => IsContracts(n)
    case Architecture => IsArchitecture(n)
    case Governance => IsGovernance(n)
    case Infrastructure => IsInfrastructure(n)
    case CiTooling => IsCiTooling(n)
    case Service => IsSomeService(n, services)
    case Package => IsSomePackage(n)
    case DocsOnly => IsDocumentation(n)
    case Unknown =>
      && !IsContracts(n) && !IsArchitecture(n) && !IsGovernance(n) && !IsInfrastructure(n) && !IsCiTooling(n)
      && !IsSomeService(n, services) && !IsSomePackage(n) && !IsDocumentation(n)
  }

  // ---------------------------------------------------------------- the prefix rules

  lemma {:induction false} RuleAt(rules: seq<(string, Category)>, n: string, i: nat)
    requires i < |rules| && rules[i].0 <= n && forall j :: 0 <= j < i ==> !(rules[j].0 <= n)
    ensures FirstRule(rules, n) == Some(rules[i].1)
  {
    if i > 0 {
      assert !(rules[0].0 <= n);
      assert forall j :: 0 <= j < i - 1 ==> rules[1..][j] == rules[j + 1];
      RuleAt(rules[1..], n, i - 1);
    }
  }

  lemma {:induction false} NoRule(rules: seq<(string, Category)>, n: string)
    ensures FirstRule(rules, n).None? <==> forall j :: 0 <= j < |rules| ==> !(rules[j].0 <= n)
  {
    if rules != [] {
      NoRule(rules[1..], n);
      assert forall j :: 0 <= j < |rules| - 1 ==> rules[1..][j] == rules[j + 1];
    }
  }

  /** A path by a rule: the category of its first rule, written out. */
  predicate RuledAs(n: string, category: Category) {
    match category
    case Contracts => "contracts/" <= n
    case Architecture => "architecture/" <= n || "docs/architecture/" <= n
    case Governance => "docs/adr/" <= n
    case Infrastructure => "infra/" <= n
    case CiTooling => ".github/" <= n || "scripts/" <= n
    case _ => false
  }

  predicate IsRuled(n: string) {
    || "contracts/" <= n || "architecture/" <= n || "docs/architecture/" <= n || "docs/adr/" <= n || "infra/" <= n
    || ".github/" <= n || "scripts/" <= n
  }

  lemma RulesAreThese()
    ensures PREFIX_RULES[0] == ("contracts/", Contracts) && PREFIX_RULES[1] == ("architecture/", Architecture)
    ensures PREFIX_RULES[2] == ("docs/architecture/", Architecture) && PREFIX_RULES[3] == ("docs/adr/", Governance)
    ensures PREFIX_RULES[4] == ("infra/eventing/", Infrastructure)
      && PREFIX_RULES[5] == ("infra/compose/", Infrastructure)
    ensures PREFIX_RULES[6] == ("infra/", Infrastructure) && PREFIX_RULES[7] == (".github/", CiTooling)
    ensures PREFIX_RULES[8] == ("scripts/quality/", CiTooling) && PREFIX_RULES[9] == ("scripts/", CiTooling)
    ensures |PREFIX_RULES| == 10
  {
  }

  lemma RulesByText(n: string)
    ensures FirstRule(PREFIX_RULES, n).None? <==> !IsRuled(n)
  {
    RulesAreThese();
    NoRule(PREFIX_RULES, n);
    assert "infra/" <= "infra/eventing/" && "infra/" <= "infra/compose/" && "scripts/" <= "scripts/quality/";
  }

  /** What any rule that starts a path says of it shows in its first and its seventh letter. */
  function ByLetters(n: string): Category
    requires |n| >= 6
  {
    if n[0] == 'c' then Contracts
    else if n[0] == 'a' || (n[0] == 'd' && |n| > 6 && n[5] == 'a' && n[6] == 'r') then Architecture
    else if n[0] == 'd' then Governance
    else if n[0] == 'i' then Infrastructure
    else CiTooling
  }

  lemma RuleShows(n: string, i: nat)
    requires i < |PREFIX_RULES| && PREFIX_RULES[i].0 <= n
    ensures |n| >= 6 && PREFIX_RULES[i].1 == ByLetters(n)
  {
    RulesAreThese();
    var p := PREFIX_RULES[i].0;
    assert |p| >= 6 && p[0] == n[0] && p[5] == n[5];
    assert |p| > 6 ==> p[6] == n[6];
  }

  /** Every rule that starts a path says the same of it. */
  lemma RulesAgree(n: string, i: nat, j: nat)
    requires i < |PREFIX_RULES| && j < |PREFIX_RULES| && PREFIX_RULES[i].0 <= n && PREFIX_RULES[j].0 <= n
    ensures PREFIX_RULES[i].1 == PREFIX_RULES[j].1
  {
    RuleShows(n, i);
    RuleShows(n, j);
  }

  lemma {:induction false} FirstIsSome(rules: seq<(string, Category)>, n: string) returns (i: nat)
    requires FirstRule(rules, n).Some?
    ensures i < |rules| && rules[i].0 <= n && FirstRule(rules, n).value == rules[i].1
  {
    if rules[0].0 <= n {
      i := 0;
    } else {
      var j := FirstIsSome(rules[1..], n);
      i := j + 1;
    }
  }

  lemma RuledMeans(n: string, category: Category)
    requires RuledAs(n, category)
    ensures FirstRule(PREFIX_RULES, n) == Some(category)
  {
    RulesAreThese();
    RulesByText(n);
    var i := FirstIsSome(PREFIX_RULES, n);
    match category
    case Contracts => RulesAgree(n, i, 0);
    case Architecture => RulesAgree(n, i, if "architecture/" <= n then 1 else 2);
    case Governance => RulesAgree(n, i, 3);
    case Infrastructure => RulesAgree(n, i, 6);
    case CiTooling => RulesAgree(n, i, if ".github/" <= n then 7 else 9);
  }

  // ---------------------------------------------------------------- directories

  lemma BelowSegment(n: string, dir: string, name: string)
    requires Below(n, dir, name)
    ensures Segment(dir, n) == Some(name)
  {
    var head := dir + name + "/";
    var tail := n[|head|..];
    assert n == head + tail;
    assert n[|dir|..] == name + "/" + tail;
    UpToSlashOf(name, tail);
  }

  lemma SegmentExactly(n: string, dir: string, name: string)
    ensures Segment(dir, n) == Some(name) <==> Below(n, dir, name)
  {
    if Below(n, dir, name) {
      BelowSegment(n, dir, name);
    }
    if Segment(dir, n) == Some(name) {
      var rest := n[|dir|..];
      assert name + "/" <= rest && n == dir + rest;
      assert dir + name + "/" == dir + (name + "/");
      assert (dir + (name + "/"))[..] <= n;
    }
  }

  predicate IsNamed(n: string) {
    ".cursor/" <= n || n == "AGENTS.md" || n in ROOT_CONFIG
  }

  lemma RootConfigIs(n: string)
    ensures n in ROOT_CONFIG <==> n in ["pyproject.toml", "uv.lock", ".python-version", ".editorconfig", ".gitignore"]
  {
  }

  lemma NamedAreUnruled(n: string)
    requires IsNamed(n)
    ensures !IsRuled(n)
  {
    RootConfigIs(n);
    assert |n| >= 7 && n[0] in {'.', 'A', 'p', 'u'};
    assert n[0] == '.' ==> n[1] != 'g' || n[4] == 'i';
  }

  predicate IsInADirectory(n: string) {
    "services/" <= n || "packages/" <= n || "tests/" <= n
  }

  lemma DirectoriesAreApart(n: string)
    requires IsInADirectory(n)
    ensures !IsRuled(n) && !IsNamed(n)
    ensures "services/" <= n ==> !("packages/" <= n) && !("tests/" <= n)
    ensures "packages/" <= n ==> !("tests/" <= n)
  {
    assert n[0] in {'s', 'p', 't'} && (n[1] == 'e' || n[1] == 'a');
    if IsNamed(n) {
      NamesAreApart(n);
    }
  }

  lemma NamesAreApart(n: string)
    requires IsNamed(n)
    ensures |n| >= 2 && (n[0] == '.' || n[0] == 'A' || n[0] == 'u' || n[1] == 'y')
  {
    RootConfigIs(n);
  }

  lemma OutsideMeans(n: string, services: set<string>)
    requires !IsRuled(n) && !IsNamed(n)
    ensures ClassifyNormal(n, services) == ClassifyArea(n, services)
  {
    RulesByText(n);
  }

  lemma NoSegment(n: string, dir: string)
    requires !(dir <= n)
    ensures Segment(dir, n) == None
  {
  }

  lemma ServicesClassify(n: string, name: string, services: set<string>)
    requires Below(n, "services/", name)
    ensures ClassifyNormal(n, services) == Classification(n, Service, Some(name), None)
  {
    DirectoriesAreApart(n);
    OutsideMeans(n, services);
    BelowSegment(n, "services/", name);
  }

  lemma PackagesClassify(n: string, name: string, services: set<string>)
    requires Below(n, "packages/", name)
    ensures ClassifyNormal(n, services) == Classification(n, Package, None, Some(name))
  {
    DirectoriesAreApart(n);
    OutsideMeans(n, services);
    BelowSegment(n, "packages/", name);
    NoSegment(n, "services/");
  }

  lemma TestsClassify(n: string, area: string, services: set<string>)
    requires Below(n, "tests/", area)
    ensures ClassifyNormal(n, services) ==
      Classification(n, TestArea(area, services).0, TestArea(area, services).1, None)
  {
    DirectoriesAreApart(n);
    OutsideMeans(n, services);
    BelowSegment(n, "tests/", area);
    NoSegment(n, "services/");
    NoSegment(n, "packages/");
  }

  lemma LabTestsAre(area: string)
    ensures area in INFRASTRUCTURE_TESTS <==> area in LAB_TESTS
    ensures area in GOVERNANCE_TESTS <==> area in ["architecture", "governance"]
  {
  }

  /** What a test area is, by its name. */
  lemma AreasByName(area: string, services: set<string>)
    ensures TestArea(area, services) ==
      if area in ["architecture", "governance"] then (Governance, None)
      else if area == "ci" then (CiTooling, None)
      else if area in LAB_TESTS then (Infrastructure, None)
      else if area == "contracts" then (Contracts, None)
      else if area in services && !IsReserved(area) then (Service, Some(area))
      else (Unknown, None)
  {
    LabTestsAre(area);
  }

  lemma LabTestsAreApart()
    ensures forall i :: 0 <= i < |LAB_TESTS| ==> LAB_TESTS[i] !in ["architecture", "governance", "ci", "contracts"]
    ensures forall i :: 0 <= i < |LAB_TESTS| ==> LAB_TESTS[i] in LAB_TESTS
  {
  }

  // ---------------------------------------------------------------- documentation

  /** A text that normalizing leaves at the front of a path. */
  predicate Stays(prefix: string) {
    |prefix| >= 2 && !IsSpace(prefix[0]) && !IsSpace(prefix[|prefix| - 1]) && '\\' !in prefix && !("./" <= prefix)
  }

  /** The first letter of a path's normal form, when it is that of README.md or of docs/. */
  predicate StartsLikeDocs(n: string) {
    var m := Normalize(n); m != "" && (m[0] == 'R' || m[0] == 'd')
  }

  lemma StartsElsewhere(n: string, prefix: string)
    requires StartsLikeDocs(n) && Stays(prefix) && prefix[0] != 'R' && prefix[0] != 'd'
    ensures !(prefix <= n)
  {
    if prefix <= n {
      NormalizeKeeps(prefix, n);
    }
  }

  lemma PlainStays(prefix: string)
    requires |prefix| >= 2 && forall i :: 0 <= i < |prefix| ==> '.' <= prefix[i] <= 'z' && prefix[i] != '\\'
    requires prefix[1] != '/'
    ensures Stays(prefix)
  {
  }

  lemma RulesStay()
    ensures Stays("contracts/") && Stays("architecture/") && Stays("infra/") && Stays(".github/") && Stays("scripts/")
  {
    PlainStays("contracts/");
    PlainStays("architecture/");
    PlainStays("infra/");
    PlainStays(".github/");
    PlainStays("scripts/");
  }

  lemma NamesStay()
    ensures Stays("services/") && Stays("packages/") && Stays("tests/") && Stays(".cursor/") && Stays("AGENTS.md")
    ensures Stays("docs/adr/") && Stays("docs/architecture/")
  {
    PlainStays("services/");
    PlainStays("packages/");
    PlainStays("tests/");
    PlainStays(".cursor/");
    PlainStays("AGENTS.md");
    PlainStays("docs/adr/");
    PlainStays("docs/architecture/");
  }

  const OTHER_STARTS := [
    "contracts/", "architecture/", "infra/", ".github/", "scripts/", "services/", "packages/", "tests/", ".cursor/",
    "AGENTS.md"]

  lemma OtherStartsStay(i: nat)
    requires i < |OTHER_STARTS|
    ensures var p := OTHER_STARTS[i]; Stays(p) && p[0] != 'R' && p[0] != 'd'
  {
    if i < 5 {
      RulesStay();
    } else {
      NamesStay();
    }
  }

  lemma NoOtherStart(n: string, i: nat)
    requires StartsLikeDocs(n) && i < |OTHER_STARTS|
    ensures !(OTHER_STARTS[i] <= n)
  {
    OtherStartsStay(i);
    StartsElsewhere(n, OTHER_STARTS[i]);
  }

  lemma DocsStartNowhereElse(n: string)
    requires StartsLikeDocs(n)
    ensures !("contracts/" <= n) && !("architecture/" <= n) && !("infra/" <= n) && !(".github/" <= n)
    ensures !("scripts/" <= n) && !IsInADirectory(n) && !(".cursor/" <= n) && !("AGENTS.md" <= n)
  {
    forall i | 0 <= i < |OTHER_STARTS| ensures !(OTHER_STARTS[i] <= n) {
      NoOtherStart(n, i);
    }
    SomeStarts(n);
    OtherStarts(n);
  }

  lemma SomeStarts(n: string)
    requires forall i :: 0 <= i < |OTHER_STARTS| ==> !(OTHER_STARTS[i] <= n)
    ensures !("contracts/" <= n) && !("architecture/" <= n) && !("infra/" <= n) && !(".github/" <= n)
    ensures !("scripts/" <= n)
  {
    var o := OTHER_STARTS;
    assert o[0] == "contracts/" && o[1] == "architecture/" && o[2] == "infra/" && o[3] == ".github/";
    assert o[4] == "scripts/";
  }

  lemma OtherStarts(n: string)
    requires forall i :: 0 <= i < |OTHER_STARTS| ==> !(OTHER_STARTS[i] <= n)
    ensures !IsInADirectory(n) && !(".cursor/" <= n) && !("AGENTS.md" <= n)
  {
    var o := OTHER_STARTS;
    assert o[5] == "services/" && o[6] == "packages/" && o[7] == "tests/";
    assert o[8] == ".cursor/" && o[9] == "AGENTS.md";
  }

  lemma DocsAreNoConfig(n: string)
    requires StartsLikeDocs(n)
    ensures n !in ROOT_CONFIG
  {
    RootConfigIs(n);
    if n in ROOT_CONFIG {
      ConfigStays(n);
      StartsElsewhere(n, n);
    }
  }

  lemma DocsAreNoRecords(n: string)
    requires IsDocumentation(n)
    ensures StartsLikeDocs(n) && !("docs/adr/" <= n) && !("docs/architecture/" <= n)
  {
    NamesStay();
    if "docs/adr/" <= n {
      NormalizeKeeps("docs/adr/", n);
    }
    if "docs/architecture/" <= n {
      NormalizeKeeps("docs/architecture/", n);
    }
  }

  lemma ConfigStays(n: string)
    requires n in ["pyproject.toml", "uv.lock", ".python-version", ".editorconfig", ".gitignore"]
    ensures Stays(n) && n[0] != 'R' && n[0] != 'd'
  {
    if n == ".python-version" {
      assert '\\' !in n && !IsSpace('n');
    } else {
      PlainStays(n);
    }
  }

  lemma DocumentationClassifies(n: string, services: set<string>)
    requires IsDocumentation(n)
    ensures ClassifyNormal(n, services) == Classification(n, DocsOnly, None, None)
  {
    DocsAreNoRecords(n);
    DocsStartNowhereElse(n);
    DocsAreNoConfig(n);
    OutsideMeans(n, services);
    NoSegment(n, "services/");
    NoSegment(n, "packages/");
    NoSegment(n, "tests/");
  }

  // ---------------------------------------------------------------- the category of a path

  lemma FittingContracts(n: string, services: set<string>)
    requires IsContracts(n)
    ensures ClassifyNormal(n, services) == Classification(n, Contracts, None, None)
  {
    if "contracts/" <= n {
      RuledMeans(n, Contracts);
    } else {
      TestsClassify(n, "contracts", services);
      AreasByName("contracts", services);
    }
  }

  lemma FittingArchitecture(n: string, services: set<string>)
    requires IsArchitecture(n)
    ensures ClassifyNormal(n, services) == Classification(n, Architecture, None, None)
  {
    RuledMeans(n, Architecture);
  }

  lemma FittingGovernance(n: string, services: set<string>)
    requires IsGovernance(n)
    ensures ClassifyNormal(n, services) == Classification(n, Governance, None, None)
  {
    if "docs/adr/" <= n {
      RuledMeans(n, Governance);
    } else if ".cursor/" <= n || n == "AGENTS.md" {
      NamedAreUnruled(n);
      RulesByText(n);
    } else {
      var area := if Below(n, "tests/", "architecture") then "architecture" else "governance";
      TestsClassify(n, area, services);
      AreasByName(area, services);
    }
  }

  lemma FittingInfrastructure(n: string, services: set<string>)
    requires IsInfrastructure(n)
    ensures ClassifyNormal(n, services) == Classification(n, Infrastructure, None, None)
  {
    if "infra/" <= n {
      RuledMeans(n, Infrastructure);
    } else {
      var i :| 0 <= i < |LAB_TESTS| && Below(n, "tests/", LAB_TESTS[i]);
      TestsClassify(n, LAB_TESTS[i], services);
      AreasByName(LAB_TESTS[i], services);
      LabTestsAreApart();
    }
  }

  lemma FittingCiTooling(n: string, services: set<string>)
    requires IsCiTooling(n)
    ensures ClassifyNormal(n, services) == Classification(n, CiTooling, None, None)
  {
    if ".github/" <= n || "scripts/" <= n {
      RuledMeans(n, CiTooling);
    } else if Below(n, "tests/", "ci") {
      TestsClassify(n, "ci", services);
      AreasByName("ci", services);
    } else {
      RootConfigIs(n);
      NamedAreUnruled(n);
      RulesByText(n);
      ConfigIsNoCursor(n);
    }
  }

  lemma ConfigIsNoCursor(n: string)
    requires n in ["pyproject.toml", "uv.lock", ".python-version", ".editorconfig", ".gitignore"]
    ensures !(".cursor/" <= n) && n != "AGENTS.md"
  {
    assert |n| >= 7 && (n[0] == '.' ==> n[1] != 'c');
  }

  lemma FittingService(n: string, service: string, services: set<string>)
    requires IsOfService(n, service, services)
    ensures ClassifyNormal(n, services) == Classification(n, Service, Some(service), None)
  {
    if Below(n, "services/", service) {
      ServicesClassify(n, service, services);
    } else {
      TestsClassify(n, service, services);
      AreasByName(service, services);
    }
  }

  /** What is left over: not ruled, not named, below no known directory, and not documentation. */
  lemma FittingNothing(n: string, services: set<string>)
    requires Fits(n, services, Unknown)
    ensures ClassifyNormal(n, services) == Classification(n, Unknown, None, None)
  {
    RootConfigIs(n);
    OutsideMeans(n, services);
    var area := Segment("tests/", n);
    if Segment("services/", n).Some? {
      SegmentExactly(n, "services/", Segment("services/", n).value);
      assert IsOfService(n, Segment("services/", n).value, services);
    }
    if Segment("packages/", n).Some? {
      SegmentExactly(n, "packages/", Segment("packages/", n).value);
    }
    if area.Some? {
      SegmentExactly(n, "tests/", area.value);
      AreaFitsNothing(n, area.value, services);
    }
  }

  lemma AreaFitsNothing(n: string, area: string, services: set<string>)
    requires Below(n, "tests/", area)
    requires !IsContracts(n) && !IsGovernance(n) && !IsInfrastructure(n) && !IsCiTooling(n)
    requires !IsSomeService(n, services)
    ensures TestArea(area, services) == (Unknown, None)
  {
    AreasByName(area, services);
    assert !(area in services && !IsReserved(area)) by {
      assert !IsOfService(n, area, services);
    }
  }

  lemma FittingIsEnough(n: string, services: set<string>, category: Category)
    requires Fits(n, services, category)
    ensures ClassifyNormal(n, services).category == category && ClassifyNormal(n, services).path == n
  {
    match category
    case Contracts => FittingContracts(n, services);
    case Architecture => FittingArchitecture(n, services);
    case Governance => FittingGovernance(n, services);
    case Infrastructure => FittingInfrastructure(n, services);
    case CiTooling => FittingCiTooling(n, services);
    case Service =>
      var service :| IsOfService(n, service, services);
      FittingService(n, service, services);
    case Package =>
      var package :| Below(n, "packages/", package);
      PackagesClassify(n, package, services);
    case DocsOnly => DocumentationClassifies(n, services);
    case Unknown => FittingNothing(n, services);
  }

  lemma EverythingFits(n: string, services: set<string>) returns (category: Category)
    ensures Fits(n, services, category)
  {
    if !Fits(n, services, Unknown) {
      category :| Fits(n, services, category) by {
        assert Fits(n, services, Contracts) || Fits(n, services, Architecture) || Fits(n, services, Governance)
            || Fits(n, services, Infrastructure) || Fits(n, services, CiTooling) || Fits(n, services, Service)
            || Fits(n, services, Package) || Fits(n, services, DocsOnly);
      }
    } else {
      category := Unknown;
    }
  }

  /** The classifier's rules, tried one after another, are one table: every path fits one category and gets that one. */
  lemma CategoryByText(n: string, services: set<string>, category: Category)
    ensures ClassifyNormal(n, services).category == category <==> Fits(n, services, category)
  {
    var fitting := EverythingFits(n, services);
    FittingIsEnough(n, services, fitting);
    if Fits(n, services, category) {
      FittingIsEnough(n, services, category);
    }
  }

  /** Which service and which package a path affects. */
  lemma AffectedByText(n: string, services: set<string>, name: string)
    ensures ClassifyNormal(n, services).service == Some(name) <==> IsOfService(n, name, services)
    ensures ClassifyNormal(n, services).package == Some(name) <==> Below(n, "packages/", name)
  {
    var c := ClassifyNormal(n, services);
    ClassificationFits(n, services);
    CategoryByText(n, services, c.category);
    if c.category == Service {
      var service :| IsOfService(n, service, services);
      FittingService(n, service, services);
    } else if c.category == Package {
      var package :| Below(n, "packages/", package);
      PackagesClassify(n, package, services);
    }
    if IsOfService(n, name, services) {
      FittingService(n, name, services);
    }
    if Below(n, "packages/", name) {
      PackagesClassify(n, name, services);
    }
  }

  // ---------------------------------------------------------------- the scope of change lines

  predicate IsChanged(lines: seq<string>, path: string) {
    exists line :: line in lines && path in PathsOf(ParseLine(line))
  }

  /** Nothing but service-scoped checks is needed for such a path. */
  ghost predicate IsScoped(path: string, services: set<string>) {
    IsSomeService(Normalize(path), services) || IsDocumentation(Normalize(path))
  }

  /** What must be validated in full, and what is documentation only. */
  ghost predicate VerdictsReadOff(lines: seq<string>, services: set<string>, scope: Scope) {
    && (scope.fullValidation <==> exists path :: IsChanged(lines, path) && !IsScoped(path, services))
    && scope.failSafe == scope.runContractsTests == scope.runCdcDrillTests == scope.fullValidation
    && (scope.docsOnly <==> forall path :: IsChanged(lines, path) ==> IsDocumentation(Normalize(path)))
    && (forall path :: path in scope.changedPaths <==> IsChanged(lines, path))
  }

  ghost predicate ServicesReadOff(lines: seq<string>, services: set<string>, scope: Scope) {
    && (forall name :: name in scope.services <==>
          exists path :: IsChanged(lines, path) && IsOfService(Normalize(path), name, services))
    && (scope.runServiceScoped <==> exists path :: IsChanged(lines, path) && IsSomeService(Normalize(path), services))
  }

  ghost predicate PackagesReadOff(lines: seq<string>, scope: Scope) {
    forall name :: name in scope.packages <==>
      exists path :: IsChanged(lines, path) && Below(Normalize(path), "packages/", name)
  }

  ghost predicate UnknownReadOff(lines: seq<string>, services: set<string>, scope: Scope) {
    forall n :: n in scope.unknownPaths <==>
      exists path :: IsChanged(lines, path) && Normalize(path) == n && Fits(n, services, Unknown)
  }

  ghost predicate FlagsReadOff(lines: seq<string>, services: set<string>, scope: Scope) {
    forall category :: FlagReadOff(lines, services, scope, category)
  }

  ghost predicate FlagReadOff(lines: seq<string>, services: set<string>, scope: Scope, category: Category) {
    category in scope.flags <==>
      category in {Contracts, Architecture, Governance, Infrastructure, CiTooling}
      && HasFitting(lines, services, category)
  }

  ghost predicate HasFitting(lines: seq<string>, services: set<string>, category: Category) {
    exists path :: IsChanged(lines, path) && Fits(Normalize(path), services, category)
  }

  /** What the lines call for, each part of it read off the changed paths. */
  ghost predicate ReadsOff(lines: seq<string>, services: set<string>, scope: Scope) {
    && VerdictsReadOff(lines, services, scope) && ServicesReadOff(lines, services, scope)
    && PackagesReadOff(lines, scope) && UnknownReadOff(lines, services, scope) && FlagsReadOff(lines, services, scope)
  }

  /** What a classifier says of a path is what its text says. */
  ghost predicate ReadsPath(classify: Classifier, services: set<string>, path: string) {
    IsRead(classify(path), services, Normalize(path))
  }

  ghost predicate IsRead(c: Classification, services: set<string>, n: string) {
    && c.path == n
    && (forall category :: c.category == category <==> Fits(n, services, category))
    && (forall name :: c.service == Some(name) <==> IsOfService(n, name, services))
    && (forall name :: c.package == Some(name) <==> Below(n, "packages/", name))
  }

  lemma NormalByText(n: string, services: set<string>)
    ensures IsRead(ClassifyNormal(n, services), services, n)
  {
    forall category ensures ClassifyNormal(n, services).category == category <==> Fits(n, services, category) {
      CategoryByText(n, services, category);
    }
    forall name
      ensures ClassifyNormal(n, services).service == Some(name) <==> IsOfService(n, name, services)
      ensures ClassifyNormal(n, services).package == Some(name) <==> Below(n, "packages/", name)
    {
      AffectedByText(n, services, name);
    }
    PathIsKept(n, services);
  }

  lemma PathIsKept(n: string, services: set<string>)
    ensures ClassifyNormal(n, services).path == n
  {
  }

  lemma PathByText(path: string, known: set<string>, discovered: set<string>)
    ensures ReadsPath(RealClassifier(known, discovered), if known != {} then known else discovered, path)
  {
    NormalByText(Normalize(path), if known != {} then known else discovered);
  }

  /** These are the changed paths, and the classifier reads each of them. */
  ghost predicate ReadsAll(lines: seq<string>, services: set<string>, classify: Classifier, paths: set<string>) {
    (forall path :: path in paths <==> IsChanged(lines, path)) && forall path :: ReadsPath(classify, services, path)
  }

  lemma ScopedByText(classify: Classifier, services: set<string>, path: string)
    requires ReadsPath(classify, services, path)
    ensures IsNarrow(classify(path).category) <==> IsScoped(path, services)
    ensures classify(path).category.DocsOnly? <==> IsDocumentation(Normalize(path))
    ensures classify(path).service.Some? <==> IsSomeService(Normalize(path), services)
  {
    var n := Normalize(path);
    assert classify(path).category == Service <==> Fits(n, services, Service);
    assert classify(path).category == DocsOnly <==> Fits(n, services, DocsOnly);
    if classify(path).service.Some? {
      assert IsOfService(n, classify(path).service.value, services);
    }
  }

  lemma VerdictsAreRead(lines: seq<string>, services: set<string>, classify: Classifier, paths: set<string>)
    requires ReadsAll(lines, services, classify, paths)
    ensures VerdictsReadOff(lines, services, ScopeOf(paths, classify))
  {
    forall path
      ensures IsNarrow(classify(path).category) <==> IsScoped(path, services)
      ensures classify(path).category.DocsOnly? <==> IsDocumentation(Normalize(path))
    {
      ScopedByText(classify, services, path);
    }
  }

  lemma ServicesAreRead(lines: seq<string>, services: set<string>, classify: Classifier, paths: set<string>)
    requires ReadsAll(lines, services, classify, paths)
    ensures ServicesReadOff(lines, services, ScopeOf(paths, classify))
  {
    forall name
      ensures name in ServicesOf(paths, classify) <==>
        exists path :: IsChanged(lines, path) && IsOfService(Normalize(path), name, services)
    {
      ServiceIsRead(lines, services, classify, paths, name);
    }
    if path :| IsChanged(lines, path) && IsSomeService(Normalize(path), services) {
      ScopedByText(classify, services, path);
      assert classify(path).service.value in ServicesOf(paths, classify);
    }
    if name :| name in ServicesOf(paths, classify) {
      var path :| path in paths && classify(path).service.Some? && classify(path).service.value == name;
      ScopedByText(classify, services, path);
    }
  }

  lemma ServiceIsRead(lines: seq<string>, services: set<string>, classify: Classifier, paths: set<string>,
                      name: string)
    requires ReadsAll(lines, services, classify, paths)
    ensures name in ServicesOf(paths, classify) <==>
      exists path :: IsChanged(lines, path) && IsOfService(Normalize(path), name, services)
  {
    if path :| IsChanged(lines, path) && IsOfService(Normalize(path), name, services) {
      assert ReadsPath(classify, services, path) && path in paths;
    }
    if name in ServicesOf(paths, classify) {
      var path :| path in paths && classify(path).service.Some? && classify(path).service.value == name;
      assert ReadsPath(classify, services, path) && IsOfService(Normalize(path), name, services);
    }
  }

  lemma PackagesAreRead(lines: seq<string>, services: set<string>, classify: Classifier, paths: set<string>)
    requires ReadsAll(lines, services, classify, paths)
    ensures PackagesReadOff(lines, ScopeOf(paths, classify))
  {
    forall name
      ensures name in PackagesOf(paths, classify) <==>
        exists path :: IsChanged(lines, path) && Below(Normalize(path), "packages/", name)
    {
      if path :| IsChanged(lines, path) && Below(Normalize(path), "packages/", name) {
        assert ReadsPath(classify, services, path) && path in paths;
      }
      if name in PackagesOf(paths, classify) {
        var path :| path in paths && classify(path).package.Some? && classify(path).package.value == name;
        assert ReadsPath(classify, services, path) && Below(Normalize(path), "packages/", name);
      }
    }
  }

  lemma CategoryIsRead(lines: seq<string>, services: set<string>, classify: Classifier, paths: set<string>,
                       category: Category)
    requires ReadsAll(lines, services, classify, paths)
    ensures category in CategoriesOf(paths, classify) <==> HasFitting(lines, services, category)
  {
    forall path ensures classify(path).category == category <==> Fits(Normalize(path), services, category) {
      CategoryAt(classify, services, path, category);
    }
    if path :| IsChanged(lines, path) && Fits(Normalize(path), services, category) {
      assert path in paths && classify(path).category == category;
    }
  }

  lemma CategoryAt(classify: Classifier, services: set<string>, path: string, category: Category)
    requires ReadsPath(classify, services, path)
    ensures classify(path).category == category <==> Fits(Normalize(path), services, category)
  {
  }

  lemma FlagsAreRead(lines: seq<string>, services: set<string>, classify: Classifier, paths: set<string>)
    requires ReadsAll(lines, services, classify, paths)
    ensures FlagsReadOff(lines, services, ScopeOf(paths, classify))
  {
    forall category ensures FlagReadOff(lines, services, ScopeOf(paths, classify), category) {
      FlagIsRead(lines, services, classify, paths, category);
    }
  }

  lemma FlagIsRead(lines: seq<string>, services: set<string>, classify: Classifier, paths: set<string>,
                   category: Category)
    requires ReadsAll(lines, services, classify, paths)
    ensures FlagReadOff(lines, services, ScopeOf(paths, classify), category)
  {
    CategoryIsRead(lines, services, classify, paths, category);
    FlagsAre(paths, classify, category, HasFitting(lines, services, category));
  }

  lemma FlagsAre(paths: set<string>, classify: Classifier, category: Category, there: bool)
    requires there == (category in CategoriesOf(paths, classify))
    ensures category in ScopeOf(paths, classify).flags <==>
      category in {Contracts, Architecture, Governance, Infrastructure, CiTooling} && there
  {
  }

  lemma UnknownsAreRead(lines: seq<string>, services: set<string>, classify: Classifier, paths: set<string>)
    requires ReadsAll(lines, services, classify, paths)
    ensures UnknownReadOff(lines, services, ScopeOf(paths, classify))
  {
    forall n
      ensures n in UnknownOf(paths, classify) <==>
        exists path :: IsChanged(lines, path) && Normalize(path) == n && Fits(n, services, Unknown)
    {
      if path :| IsChanged(lines, path) && Normalize(path) == n && Fits(n, services, Unknown) {
        assert ReadsPath(classify, services, path) && path in paths && classify(path).category == Unknown;
      }
      if n in UnknownOf(paths, classify) {
        var path :| path in paths && classify(path).category.Unknown? && classify(path).path == n;
        assert ReadsPath(classify, services, path) && Fits(n, services, Unknown);
      }
    }
  }

  /** The scope of any change lines under the repository's own classifier, in terms of the paths' text alone. */
  lemma ScopeByText(lines: seq<string>, known: set<string>, discovered: set<string>)
    ensures ReadsOff(lines, if known != {} then known else discovered,
                     ScopeOf(PathsOf(ParseAll(lines)), RealClassifier(known, discovered)))
  {
    var services := if known != {} then known else discovered;
    var classify, paths := RealClassifier(known, discovered), PathsOf(ParseAll(lines));
    forall path ensures path in paths <==> IsChanged(lines, path) {
      PathsOfLines(lines, path);
    }
    forall path ensures ReadsPath(classify, services, path) {
      PathByText(path, known, discovered);
    }
    VerdictsAreRead(lines, services, classify, paths);
    ServicesAreRead(lines, services, classify, paths);
    PackagesAreRead(lines, services, classify, paths);
    UnknownsAreRead(lines, services, classify, paths);
    FlagsAreRead(lines, services, classify, paths);
  }

  // ---------------------------------------------------------------- the paths of a line

  predicate TabFree(part: string) {
    '\t' !in part
  }

  function Joined(parts: seq<string>): string {
    if parts == [] then "" else if |parts| == 1 then parts[0] else parts[0] + "\t" + Joined(parts[1..])
  }

  lemma {:induction false} SplitOfHead(head: string, tail: string)
    requires TabFree(head)
    ensures SplitTabs(head) == [head] && SplitTabs(head + "\t" + tail) == [head] + SplitTabs(tail)
  {
    var line := head + "\t" + tail;
    if head == "" {
      assert line == ['\t'] + tail && line[1..] == tail;
    } else {
      assert head == [head[0]] + head[1..] && head[0] in head;
      assert forall c :: c in head[1..] ==> c in head;
      SplitOfHead(head[1..], tail);
      assert line[1..] == head[1..] + "\t" + tail;
    }
  }

  lemma {:induction false} SplitOfJoined(parts: seq<string>)
    requires parts != [] && forall p :: p in parts ==> TabFree(p)
    ensures SplitTabs(Joined(parts)) == parts
  {
    var head, rest := parts[0], parts[1..];
    assert head in parts && parts == [head] + rest;
    if rest == [] {
      SplitOfHead(head, "");
    } else {
      assert forall p :: p in rest ==> p in parts;
      SplitOfJoined(rest);
      SplitOfHead(head, Joined(rest));
    }
  }

  /**
   The paths a line changes: none for blanks and comments; both paths of a rename; else its last column, which is the
   only one when there is no status.
   */
  lemma PathsOfALine(line: string, parts: seq<string>)
    requires parts != [] && (forall p :: p in parts ==> TabFree(p)) && Strip(line) == Joined(parts)
    ensures LineSays(ParseLine(line), Strip(line), parts)
  {
    SplitOfJoined(parts);
    ParsedLine(line, Strip(line));
    PartsSay(parts);
    SaysOfAnyText(ChangesOf(parts), Strip(line), parts);
  }

  lemma ParsedLine(line: string, text: string)
    requires text == Strip(line)
    ensures ParseLine(line) == if text == "" || text[0] == '#' then [] else ChangesOf(SplitTabs(text))
  {
    assert "#" <= text <==> text != "" && text[0] == '#';
  }

  lemma SaysOfAnyText(changes: seq<PathChange>, text: string, parts: seq<string>)
    requires parts != [] && LineSays(changes, "-", parts)
    ensures LineSays(if text == "" || text[0] == '#' then [] else changes, text, parts)
  {
    assert "-"[0] == '-';
  }

  predicate LineSays(changes: seq<PathChange>, text: string, parts: seq<string>)
    requires parts != []
  {
    if text == "" || text[0] == '#' then changes == []
    else if |parts| >= 3 && parts[0] != "" && parts[0][0] == 'R' then
      && |changes| == 2 && changes[0] == PathChange(Normalize(parts[1]), parts[0])
      && changes[1].path == Normalize(parts[2])
    else
      && |changes| == 1 && changes[0].path == Normalize(parts[|parts| - 1])
      && changes[0].status == if |parts| == 1 then "M" else parts[0]
  }

  lemma PartsSay(parts: seq<string>)
    requires parts != []
    ensures LineSays(ChangesOf(parts), "-", parts)
  {
    if |parts| == 1 {
    } else if |parts| >= 3 && "R" <= parts[0] {
      RenameSays(parts);
    } else {
      LastColumnSays(parts);
    }
  }

  lemma RenameSays(parts: seq<string>)
    requires |parts| >= 3 && "R" <= parts[0]
    ensures parts[0] != "" && parts[0][0] == 'R' && |ChangesOf(parts)| == 2
    ensures ChangesOf(parts)[0] == PathChange(Normalize(parts[1]), parts[0])
    ensures ChangesOf(parts)[1].path == Normalize(parts[2])
  {
  }

  lemma LastColumnSays(parts: seq<string>)
    requires |parts| >= 2 && !("R" <= parts[0] && |parts| >= 3)
    ensures |parts| >= 3 ==> parts[0] == "" || parts[0][0] != 'R'
    ensures ChangesOf(parts) == [PathChange(Normalize(parts[|parts| - 1]), parts[0])]
  {
    assert parts[0] != "" && parts[0][0] == 'R' ==> "R" <= parts[0];
  }
}
