/** CI path impact: classifying changed paths, and the validation scope a list of change lines leads to. */
module Impact {
  import opened Wrappers
  import opened Strings

  // ---------------------------------------------------------------- paths

  function Slashes(s: string): (r: string)
    ensures |r| == |s|
    ensures forall i :: 0 <= i < |s| ==> r[i] == if s[i] == '\\' then '/' else s[i]
  {
    if s == "" then "" else [if s[0] == '\\' then '/' else s[0]] + Slashes(s[1..])
  }

  function DropDots(s: string): (r: string)
    ensures !("./" <= r)
    ensures |r| <= |s| && r == s[|s| - |r|..]
    ensures !("./" <= s) ==> r == s
  {
    if "./" <= s then DropDots(s[2..]) else s
  }

  /** Trim, turn backslashes into slashes, and drop every leading "./". */
  function Normalize(path: string): string {
    DropDots(Slashes(Strip(path)))
  }

  predicate IsDocsOnly(path: string) {
    var n := Normalize(path);
    n == "README.md" || (EndsWith(n, ".md") && "docs/" <= n && !("docs/adr/" <= n))
  }

  datatype Category =
    | Service | Package | Contracts | Architecture | Governance | Infrastructure | CiTooling | DocsOnly | Unknown

  datatype Classification = Classification(path: string, category: Category, service: Option<string>,
                                           package: Option<string>)

  const PREFIX_RULES: seq<(string, Category)> := [
    ("contracts/", Contracts),
    ("architecture/", Architecture),
    ("docs/architecture/", Architecture),
    ("docs/adr/", Governance),
    ("infra/eventing/", Infrastructure),
    ("infra/compose/", Infrastructure),
    ("infra/", Infrastructure),
    (".github/", CiTooling),
    ("scripts/quality/", CiTooling),
    ("scripts/", CiTooling)]

  const ROOT_CONFIG: seq<string> := ["pyproject.toml", "uv.lock", ".python-version", ".editorconfig", ".gitignore"]

  const GOVERNANCE_TESTS: seq<string> := ["architecture", "governance"]

  const INFRASTRUCTURE_TESTS: seq<string> := [
    "eventing", "polling_lab", "cdc_lab", "cdc_staging_drill", "service_postgres_proof", "observation_eventing_proof",
    "nats_security_proof", "pickup_acceptance_eventing_proof"]

  function FirstRule(rules: seq<(string, Category)>, path: string): Option<Category> {
    if rules == [] then None
    else if rules[0].0 <= path then Some(rules[0].1)
    else FirstRule(rules[1..], path)
  }

  function UpToSlash(s: string): (r: Option<string>)
    ensures r.Some? ==> r.value + "/" <= s && '/' !in r.value
  {
    if s == "" then None
    else if s[0] == '/' then Some("")
    else
      var rest := UpToSlash(s[1..]);
      if rest.None? then None else Some([s[0]] + rest.value)
  }

  /** The first, non-empty path segment after the prefix, if a slash follows it. */
  function Segment(prefix: string, path: string): (r: Option<string>)
    ensures r.Some? ==> r.value != ""
  {
    if !(prefix <= path) then None
    else
      var r := UpToSlash(path[|prefix|..]);
      if r.Some? && r.value != "" then r else None
  }

  function TestArea(area: string, services: set<string>): (Category, Option<string>) {
    if area in GOVERNANCE_TESTS then (Governance, None)
    else if area == "ci" then (CiTooling, None)
    else if area in INFRASTRUCTURE_TESTS then (Infrastructure, None)
    else if area == "contracts" then (Contracts, None)
    else if area in services then (Service, Some(area))
    else (Unknown, None)
  }

  function ClassifyArea(n: string, services: set<string>): Classification {
    var service, package, area := Segment("services/", n), Segment("packages/", n), Segment("tests/", n);
    if service.Some? then Classification(n, Service, service, None)
    else if package.Some? then Classification(n, Package, None, package)
    else if area.Some? then
      var (category, tested) := TestArea(area.value, services);
      Classification(n, category, tested, None)
    else if IsDocsOnly(n) then Classification(n, DocsOnly, None, None)
    else Classification(n, Unknown, None, None)
  }

  function ClassifyNormal(n: string, services: set<string>): Classification {
    var rule := FirstRule(PREFIX_RULES, n);
    if rule.Some? then Classification(n, rule.value, None, None)
    else if ".cursor/" <= n || n == "AGENTS.md" then Classification(n, Governance, None, None)
    else if n in ROOT_CONFIG then Classification(n, CiTooling, None, None)
    else ClassifyArea(n, services)
  }

  /** An empty set of known services falls back to those of the default repository root. */
  function ClassifyPath(path: string, known: set<string>, discovered: set<string>): Classification {
    ClassifyNormal(Normalize(path), if known != {} then known else discovered)
  }

  // ---------------------------------------------------------------- change lines

  datatype PathChange = PathChange(path: string, status: string)

  function SplitTabs(line: string): (parts: seq<string>)
    ensures |parts| >= 1
  {
    if line == "" then [""]
    else
      var rest := SplitTabs(line[1..]);
      if line[0] == '\t' then [""] + rest else [[line[0]] + rest[0]] + rest[1..]
  }

  /** The changes the tab-separated parts of a line stand for. */
  function ChangesOf(parts: seq<string>): seq<PathChange>
    requires |parts| >= 1
  {
    if |parts| == 1 then [PathChange(Normalize(parts[0]), "M")]
    else if "R" <= parts[0] && |parts| >= 3 then
      [PathChange(Normalize(parts[1]), parts[0]), PathChange(Normalize(parts[2]), parts[0] + "_NEW")]
    else [PathChange(Normalize(parts[|parts| - 1]), parts[0])]
  }

  /** The changes one line of `git diff --name-status` stands for; blank lines and comments stand for none. */
  function ParseLine(raw: string): seq<PathChange> {
    var line := Strip(raw);
    if line == "" || "#" <= line then [] else ChangesOf(SplitTabs(line))
  }

  function ParseAll(lines: seq<string>): seq<PathChange> {
    if lines == [] then [] else ParseAll(lines[..|lines| - 1]) + ParseLine(lines[|lines| - 1])
  }

  method ParseChangedFiles(lines: seq<string>) returns (changes: seq<PathChange>)
    ensures changes == ParseAll(lines)
  {
    changes := [];
    for i := 0 to |lines|
      invariant changes == ParseAll(lines[..i])
    {
      assert lines[..i + 1][..i] == lines[..i];
      changes := AppendChanges(changes, lines[i]);
    }
    assert lines[..|lines|] == lines;
  }

  /** The body of the parser's loop. */
  method AppendChanges(changes: seq<PathChange>, raw: string) returns (r: seq<PathChange>)
    ensures r == changes + ParseLine(raw)
  {
    var line := Strip(raw);
    if line == "" || "#" <= line {
      return changes;
    }
    r := AppendParts(changes, SplitTabs(line));
  }

  method AppendParts(changes: seq<PathChange>, parts: seq<string>) returns (r: seq<PathChange>)
    requires |parts| >= 1
    ensures r == changes + ChangesOf(parts)
  {
    if |parts| == 1 {
      return changes + [PathChange(Normalize(parts[0]), "M")];
    }
    var status := parts[0];
    if "R" <= status && |parts| >= 3 {
      var before, after := PathChange(Normalize(parts[1]), status), PathChange(Normalize(parts[2]), status + "_NEW");
      return changes + [before, after];
    }
    return changes + [PathChange(Normalize(parts[|parts| - 1]), status)];
  }

  // ---------------------------------------------------------------- the scope

  datatype Reason =
    | UnknownExecutable(path: string) | UnknownUnmapped(unmapped: string)
    | SharedPackageChange | ContractChange | ArchitectureChange | GovernanceChange | InfrastructureChange
    | CiToolingChange
    | DependencyLockChange

  /** What an impact result says; lists the source keeps sorted and without repeats are sets. */
  datatype Scope = Scope(
    failSafe: bool, changedPaths: set<string>, services: set<string>, packages: set<string>, unknownPaths: set<string>,
    flags: set<Category>, docsOnly: bool, fullValidation: bool, runServiceScoped: bool, runContractsTests: bool,
    runCdcDrillTests: bool)

  const FLAGGED: set<Category> := {Contracts, Architecture, Governance, Infrastructure, CiTooling}

  /** Categories that a service-scoped run covers; anything else calls for full validation. */
  predicate IsNarrow(c: Category) {
    c.Service? || c.DocsOnly?
  }

  type Classifier = string -> Classification

  function PathsOf(changes: seq<PathChange>): set<string> {
    set c | c in changes :: c.path
  }

  function CategoriesOf(paths: set<string>, classify: Classifier): set<Category> {
    set p | p in paths :: classify(p).category
  }

  function ServicesOf(paths: set<string>, classify: Classifier): set<string> {
    set p | p in paths && classify(p).service.Some? :: classify(p).service.value
  }

  function PackagesOf(paths: set<string>, classify: Classifier): set<string> {
    set p | p in paths && classify(p).package.Some? :: classify(p).package.value
  }

  function UnknownOf(paths: set<string>, classify: Classifier): set<string> {
    set p | p in paths && classify(p).category.Unknown? :: classify(p).path
  }

  predicate AllNarrow(paths: set<string>, classify: Classifier) {
    forall p :: p in paths ==> IsNarrow(classify(p).category)
  }

  /** The scope a set of changed paths calls for, whatever the order or the statuses of the changes. */
  function ScopeOf(paths: set<string>, classify: Classifier): Scope {
    var full := !AllNarrow(paths, classify);
    Scope(full, paths, ServicesOf(paths, classify), PackagesOf(paths, classify), UnknownOf(paths, classify),
          CategoriesOf(paths, classify) * FLAGGED, (forall p :: p in paths ==> classify(p).category.DocsOnly?), full,
          ServicesOf(paths, classify) != {}, full, full)
  }

  predicate IsLockFile(path: string) {
    path == "pyproject.toml" || path == "uv.lock"
  }

  predicate IsContractsPath(path: string) {
    "contracts/" <= path || "tests/contracts/" <= path
  }

  predicate IsCdcDrillPath(path: string) {
    "infra/cdc/staging-drill/" <= path || "tests/cdc_staging_drill/" <= path
  }

  /** A path that one of the final checks looks for by name. */
  predicate IsSpecial(path: string) {
    IsLockFile(path) || IsContractsPath(path) || IsCdcDrillPath(path)
  }

  predicate NamesFit(c: Classification) {
    && (c.package.Some? <==> c.category.Package?)
    && (c.service.Some? ==> c.category.Service?)
  }

  /** What the scope calculation needs of a classifier. */
  ghost predicate Lawful(classify: Classifier) {
    && (forall p :: NamesFit(classify(p)))
    && (forall p :: IsSpecial(p) ==> !IsNarrow(classify(p).category))
  }

  predicate HasLockFile(changes: seq<PathChange>) {
    exists c :: c in changes && IsLockFile(c.path)
  }

  class ImpactResult {
    var failSafe: bool
    var reasons: seq<Reason>
    var changedPaths: set<string>
    var classifications: seq<Classification>
    var affectedServices: set<string>
    var affectedPackages: set<string>
    var unknownPaths: set<string>
    var impactFlags: set<Category>
    var docsOnly: bool
    var fullValidation: bool
    var runServiceScoped: bool
    var runContractsTests: bool
    var runCdcDrillTests: bool

    constructor ()
      ensures !failSafe && reasons == [] && changedPaths == {} && classifications == [] && affectedServices == {}
      ensures affectedPackages == {} && unknownPaths == {} && impactFlags == {} && !docsOnly && fullValidation
        && !runServiceScoped
    {
      failSafe, reasons, changedPaths, classifications := false, [], {}, [];
      affectedServices, affectedPackages, unknownPaths, impactFlags := {}, {}, {}, {};
      docsOnly, fullValidation, runServiceScoped, runContractsTests, runCdcDrillTests :=
        false, true, false, false, false;
    }

    function Result(): Scope
      reads this
    {
      Scope(failSafe, changedPaths, affectedServices, affectedPackages, unknownPaths, impactFlags, docsOnly,
            fullValidation,
            runServiceScoped, runContractsTests, runCdcDrillTests)
    }

    /** The last step: which test suites the changed paths call for when full validation does not. */
    method FinalizeScope()
      modifies this`runContractsTests, this`runCdcDrillTests
      ensures runContractsTests == (fullValidation || exists p :: p in changedPaths && IsContractsPath(p))
      ensures runCdcDrillTests == (fullValidation || exists p :: p in changedPaths && IsCdcDrillPath(p))
    {
      if fullValidation {
        runContractsTests, runCdcDrillTests := true, true;
      } else {
        runContractsTests := exists p :: p in changedPaths && IsContractsPath(p);
        runCdcDrillTests := exists p :: p in changedPaths && IsCdcDrillPath(p);
      }
    }

    /** For a lawful classifier full validation already decides both suites. */
    method Finish(classify: Classifier)
      requires Lawful(classify) && fullValidation == !AllNarrow(changedPaths, classify)
      modifies this`runContractsTests, this`runCdcDrillTests
      ensures runContractsTests == fullValidation && runCdcDrillTests == fullValidation
    {
      FinalizeScope();
      SuitesFollow(changedPaths, classify);
    }

    /** Note one classified change. */
    method Record(c: Classification, isExecutable: string -> bool)
      modifies this`classifications, this`affectedServices, this`affectedPackages, this`unknownPaths, this`reasons
      ensures classifications == old(classifications) + [c]
      ensures affectedServices == old(affectedServices) + if c.service.Some? then {c.service.value} else {}
      ensures affectedPackages == old(affectedPackages) + if c.package.Some? then {c.package.value} else {}
      ensures unknownPaths == old(unknownPaths) + if c.category.Unknown? then {c.path} else {}
      ensures reasons == old(reasons) + if !c.category.Unknown? then []
                                        else [if isExecutable(c.path) then UnknownExecutable(c.path)
                                              else UnknownUnmapped(c.path)]
    {
      classifications := classifications + [c];
      if c.service.Some? {
        affectedServices := affectedServices + {c.service.value};
      }
      if c.package.Some? {
        affectedPackages := affectedPackages + {c.package.value};
      }
      if c.category.Unknown? {
        unknownPaths := unknownPaths + {c.path};
        if isExecutable(c.path) {
          reasons := reasons + [UnknownExecutable(c.path)];
        } else {
          reasons := reasons + [UnknownUnmapped(c.path)];
        }
      }
    }

    /** The loop over the changes. */
    method RecordAll(changes: seq<PathChange>, classify: Classifier, isExecutable: string -> bool)
      returns (categories: set<Category>)
      requires affectedServices == {} && affectedPackages == {} && unknownPaths == {} && reasons == []
      modifies this`classifications, this`affectedServices, this`affectedPackages, this`unknownPaths, this`reasons
      ensures var paths := PathsOf(changes);
        && categories == CategoriesOf(paths, classify)
        && affectedServices == ServicesOf(paths, classify)
        && affectedPackages == PackagesOf(paths, classify)
        && unknownPaths == UnknownOf(paths, classify)
      ensures reasons != [] <==> unknownPaths != {}
    {
      categories := {};
      for i := 0 to |changes|
        invariant categories == CategoriesOf(PathsOf(changes[..i]), classify)
        invariant affectedServices == ServicesOf(PathsOf(changes[..i]), classify)
        invariant affectedPackages == PackagesOf(PathsOf(changes[..i]), classify)
        invariant unknownPaths == UnknownOf(PathsOf(changes[..i]), classify)
        invariant reasons != [] <==> unknownPaths != {}
      {
        var c := classify(changes[i].path);
        OneMorePath(changes, i, classify);
        Record(c, isExecutable);
        categories := categories + {c.category};
      }
      assert changes[..|changes|] == changes;
    }

    /** The scope of a non-empty list of changes. */
    method Assess(changes: seq<PathChange>, classify: Classifier, isExecutable: string -> bool)
      requires Lawful(classify) && changes != []
      requires affectedServices == {} && affectedPackages == {} && unknownPaths == {} && reasons == [] && !failSafe
      modifies this
      ensures Result() == ScopeOf(PathsOf(changes), classify)
    {
      changedPaths := PathsOf(changes);
      var categories := RecordAll(changes, classify, isExecutable);
      impactFlags := categories * FLAGGED;
      docsOnly := categories != {} && categories - {DocsOnly} == {};
      if unknownPaths != {} || reasons != [] {
        failSafe := true;
      }
      NoteBroadChanges(HasLockFile(changes));
      Conclude(changes, classify, categories);
    }

    method Conclude(changes: seq<PathChange>, classify: Classifier, ghost categories: set<Category>)
      requires Lawful(classify) && changes != [] && changedPaths == PathsOf(changes)
        && categories == CategoriesOf(changedPaths, classify)
      requires affectedServices == ServicesOf(changedPaths, classify)
        && affectedPackages == PackagesOf(changedPaths, classify)
      requires unknownPaths == UnknownOf(changedPaths, classify) && impactFlags == categories * FLAGGED
      requires docsOnly == (categories != {} && categories - {DocsOnly} == {})
      requires failSafe == (unknownPaths != {} || impactFlags != {} || affectedPackages != {} || HasLockFile(changes))
      modifies this`fullValidation, this`runServiceScoped, this`runContractsTests, this`runCdcDrillTests
      ensures Result() == ScopeOf(PathsOf(changes), classify)
    {
      DecideScope();
      ScopeIsThis(changes, classify, failSafe, docsOnly);
      Finish(classify);
    }

    method DecideScope()
      modifies this`fullValidation, this`runServiceScoped
      ensures fullValidation == failSafe
      ensures runServiceScoped == (affectedServices != {} && (failSafe || !docsOnly))
    {
      if failSafe {
        fullValidation := true;
        runServiceScoped := affectedServices != {};
      } else if docsOnly {
        fullValidation := false;
        runServiceScoped := false;
      } else {
        fullValidation := false;
        runServiceScoped := affectedServices != {};
      }
    }

    /** Why a change calls for full validation. */
    method NoteBroadChanges(lockFile: bool)
      modifies this`failSafe, this`reasons
      ensures failSafe == (old(failSafe) || impactFlags != {} || affectedPackages != {} || lockFile)
      requires impactFlags <= FLAGGED
    {
      if Architecture in impactFlags || Governance in impactFlags || Contracts in impactFlags
        || Infrastructure in impactFlags
        || CiTooling in impactFlags || affectedPackages != {} || lockFile {
        failSafe := true;
        if affectedPackages != {} { reasons := reasons + [SharedPackageChange]; }
        if Contracts in impactFlags { reasons := reasons + [ContractChange]; }
        if Architecture in impactFlags { reasons := reasons + [ArchitectureChange]; }
        if Governance in impactFlags { reasons := reasons + [GovernanceChange]; }
        if Infrastructure in impactFlags { reasons := reasons + [InfrastructureChange]; }
        if CiTooling in impactFlags { reasons := reasons + [CiToolingChange]; }
        if lockFile { reasons := reasons + [DependencyLockChange]; }
      }
    }
  }

  /** calculate_impact on explicit change lines. */
  method CalculateImpact(lines: seq<string>, classify: Classifier, isExecutable: string -> bool)
    returns (result: ImpactResult)
    requires Lawful(classify)
    ensures result.Result() == ScopeOf(PathsOf(ParseAll(lines)), classify)
  {
    result := new ImpactResult();
    var changes := ParseChangedFiles(lines);
    if changes == [] {
      NothingChanged(classify);
      result.docsOnly := true;
      result.fullValidation := false;
      result.runServiceScoped := false;
      result.Finish(classify);
    } else {
      result.Assess(changes, classify, isExecutable);
    }
  }

  // ---------------------------------------------------------------- why the calculation gives that scope

  lemma OneMorePath(changes: seq<PathChange>, i: nat, classify: Classifier)
    requires i < |changes|
    ensures var p := changes[i].path; var c := classify(p);
      var before := PathsOf(changes[..i]); var after := PathsOf(changes[..i + 1]);
      && after == before + {p}
      && CategoriesOf(after, classify) == CategoriesOf(before, classify) + {c.category}
      && ServicesOf(after, classify) == ServicesOf(before, classify)
        + (if c.service.Some? then {c.service.value} else {})
      && PackagesOf(after, classify) == PackagesOf(before, classify)
        + (if c.package.Some? then {c.package.value} else {})
      && UnknownOf(after, classify) == UnknownOf(before, classify) + (if c.category.Unknown? then {c.path} else {})
  {
    assert changes[..i + 1] == changes[..i] + [changes[i]];
    assert PathsOf(changes[..i + 1]) == PathsOf(changes[..i]) + {changes[i].path};
  }

  lemma NothingChanged(classify: Classifier)
    ensures ScopeOf({}, classify) == Scope(false, {}, {}, {}, {}, {}, true, false, false, false, false)
    ensures PathsOf([]) == {}
  {
  }

  lemma LockFilesAreBroad(changes: seq<PathChange>, classify: Classifier)
    requires Lawful(classify) && HasLockFile(changes)
    ensures !AllNarrow(PathsOf(changes), classify)
  {
    var c :| c in changes && IsLockFile(c.path);
    assert IsSpecial(c.path) && c.path in PathsOf(changes);
  }

  /** Fail-safe, as the calculation decides it, is having a path that is neither a service's nor documentation. */
  lemma BroadIsFailSafe(paths: set<string>, classify: Classifier, lockFile: bool)
    requires Lawful(classify) && (lockFile ==> !AllNarrow(paths, classify))
    ensures UnknownOf(paths, classify) != {} || CategoriesOf(paths, classify) * FLAGGED != {}
            || PackagesOf(paths, classify) != {} || lockFile
       <==> !AllNarrow(paths, classify)
  {
    if AllNarrow(paths, classify) {
      NarrowHasNothingElse(paths, classify);
    } else {
      var p :| p in paths && !IsNarrow(classify(p).category);
      NotNarrow(paths, classify, p);
    }
  }

  lemma DocsOnlyMeans(changes: seq<PathChange>, classify: Classifier)
    requires Lawful(classify) && changes != []
    ensures var paths := PathsOf(changes); var categories := CategoriesOf(paths, classify);
      && (categories != {} && categories - {DocsOnly} == {} <==>
            forall p :: p in paths ==> classify(p).category.DocsOnly?)
      && (categories != {} && categories - {DocsOnly} == {} ==> ServicesOf(paths, classify) == {})
  {
    var paths := PathsOf(changes);
    var categories := CategoriesOf(paths, classify);
    assert changes[0].path in paths;
    forall p | p in paths ensures classify(p).category in categories && NamesFit(classify(p)) {
    }
    assert classify(changes[0].path).category in categories;
    if forall p :: p in paths ==> classify(p).category.DocsOnly? {
      forall k | k in categories ensures k == DocsOnly {
        var p :| p in paths && classify(p).category == k;
      }
    }
    if categories - {DocsOnly} == {} {
      forall p | p in paths ensures classify(p).category.DocsOnly? {
        assert classify(p).category in categories;
        assert classify(p).category !in categories - {DocsOnly};
      }
    }
  }

  lemma ScopeIsThis(changes: seq<PathChange>, classify: Classifier, failSafe: bool, docsOnly: bool)
    requires Lawful(classify) && changes != []
    requires var paths := PathsOf(changes); var categories := CategoriesOf(paths, classify);
      && failSafe == (UnknownOf(paths, classify) != {} || categories * FLAGGED != {}
            || PackagesOf(paths, classify) != {}
                      || HasLockFile(changes))
      && docsOnly == (categories != {} && categories - {DocsOnly} == {})
    ensures var paths := PathsOf(changes); var services := ServicesOf(paths, classify);
      && failSafe == !AllNarrow(paths, classify)
      && ScopeOf(paths, classify)
         == Scope(failSafe, paths, services, PackagesOf(paths, classify), UnknownOf(paths, classify),
                  CategoriesOf(paths, classify) * FLAGGED, docsOnly, failSafe, services != {}
                    && (failSafe || !docsOnly),
                  failSafe, failSafe)
  {
    if HasLockFile(changes) {
      LockFilesAreBroad(changes, classify);
    }
    BroadIsFailSafe(PathsOf(changes), classify, HasLockFile(changes));
    DocsOnlyMeans(changes, classify);
  }

  lemma NotNarrow(paths: set<string>, classify: Classifier, p: string)
    requires Lawful(classify) && p in paths && !IsNarrow(classify(p).category)
    ensures UnknownOf(paths, classify) != {} || CategoriesOf(paths, classify) * FLAGGED != {}
      || PackagesOf(paths, classify) != {}
  {
    var c := classify(p);
    if c.category.Unknown? {
      assert c.path in UnknownOf(paths, classify);
    } else if c.category.Package? {
      assert c.package.value in PackagesOf(paths, classify);
    } else {
      assert c.category in CategoriesOf(paths, classify) * FLAGGED;
    }
  }

  lemma NarrowHasNothingElse(paths: set<string>, classify: Classifier)
    requires Lawful(classify) && AllNarrow(paths, classify)
    ensures UnknownOf(paths, classify) == {} && CategoriesOf(paths, classify) * FLAGGED == {}
      && PackagesOf(paths, classify) == {}
  {
    forall k | k in CategoriesOf(paths, classify) ensures k !in FLAGGED {
      var p :| p in paths && classify(p).category == k;
    }
  }

  /** When validation is not full, no changed path asks for the contracts or the CDC drill tests either. */
  lemma SuitesFollow(paths: set<string>, classify: Classifier)
    requires Lawful(classify)
    ensures AllNarrow(paths, classify) ==> forall p :: p in paths ==> !IsContractsPath(p) && !IsCdcDrillPath(p)
  {
    if AllNarrow(paths, classify) {
      forall p | p in paths ensures !IsSpecial(p) {
        assert IsNarrow(classify(p).category);
      }
    }
  }
}
