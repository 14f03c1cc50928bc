/**
 Laws of the CI scope: what the real classifier guarantees, and that order does not matter and adding lines never
 narrows.
 */
module ImpactLaws {
  import opened Wrappers
  import opened Strings
  import opened Impact

  // ---------------------------------------------------------------- normalized paths

  lemma {:induction false} StripRightKeeps(prefix: string, s: string)
    requires prefix <= s && prefix != "" && !IsSpace(prefix[|prefix| - 1])
    ensures prefix <= StripRight(s)
  {
    if |s| > 0 && IsSpace(s[|s| - 1]) {
      assert |s| > |prefix|;
      StripRightKeeps(prefix, s[..|s| - 1]);
    }
  }

  /** A prefix that normalization has nothing to do with stays. */
  lemma NormalizeKeeps(prefix: string, path: string)
    requires prefix <= path && |prefix| >= 2 && !IsSpace(prefix[0]) && !IsSpace(prefix[|prefix| - 1])
    requires '\\' !in prefix && !("./" <= prefix)
    ensures prefix <= Normalize(path)
  {
    assert path[0] == prefix[0];
    assert StripLeft(path) == path;
    StripRightKeeps(prefix, path);
    var stripped := Strip(path);
    var slashed := Slashes(stripped);
    assert forall i :: 0 <= i < |prefix| ==> prefix[i] in prefix && slashed[i] == prefix[i];
    assert prefix <= slashed;
    assert slashed[..2] == prefix[..2] && !("./" <= slashed);
  }

  lemma NoneInSuffix(d: string, u: string, c: char)
    requires |d| <= |u| && d == u[|u| - |d|..] && forall i :: 0 <= i < |u| ==> u[i] != c
    ensures c !in d
  {
  }

  lemma SlashesHasNoBackslash(s: string)
    ensures forall i :: 0 <= i < |Slashes(s)| ==> Slashes(s)[i] != '\\'
  {
  }

  lemma DroppedHasNone(u: string, c: char)
    requires forall i :: 0 <= i < |u| ==> u[i] != c
    ensures c !in DropDots(u)
  {
    NoneInSuffix(DropDots(u), u, c);
  }

  lemma NormalHasNoBackslash(path: string)
    ensures '\\' !in Normalize(path)
  {
    SlashesHasNoBackslash(Strip(path));
    DroppedHasNone(Slashes(Strip(path)), '\\');
  }

  lemma SlashesOfSlashes(s: string)
    requires '\\' !in s
    ensures Slashes(s) == s
  {
    assert forall i :: 0 <= i < |s| ==> s[i] in s;
  }

  predicate SpaceFirst(t: string) {
    t != "" && IsSpace(t[0])
  }

  /** A space comes to the front once every leading "./" -- or the ".\\" it is read from -- is dropped. */
  predicate HidesSpace(t: string) {
    if "./" <= t || ".\\" <= t then HidesSpace(t[2..]) else SpaceFirst(t)
  }

  predicate Slashed(t: string, u: string) {
    |t| == |u| && forall i :: 0 <= i < |t| ==> u[i] == if t[i] == '\\' then '/' else t[i]
  }

  lemma SlashedStart(t: string, u: string)
    requires Slashed(t, u)
    ensures "./" <= u <==> "./" <= t || ".\\" <= t
    ensures "./" <= u ==> Slashed(t[2..], u[2..])
  {
    if |t| >= 2 {
      assert "./" <= t <==> t[0] == '.' && t[1] == '/';
      assert ".\\" <= t <==> t[0] == '.' && t[1] == '\\';
      assert "./" <= u <==> u[0] == '.' && u[1] == '/';
    }
  }

  lemma SlashedHead(t: string, u: string)
    requires Slashed(t, u)
    ensures SpaceFirst(t) <==> SpaceFirst(u)
  {
  }

  lemma {:induction false} HiddenSpaceShows(t: string, u: string)
    requires Slashed(t, u)
    ensures HidesSpace(t) <==> SpaceFirst(DropDots(u))
  {
    SlashedHead(t, u);
    SlashedStart(t, u);
    if "./" <= u {
      HiddenSpaceShows(t[2..], u[2..]);
    }
  }

  lemma SuffixEnds(d: string, u: string)
    requires d != "" && |d| <= |u| && d == u[|u| - |d|..]
    ensures d[|d| - 1] == u[|u| - 1]
  {
  }

  lemma SlashedSpace(t: string, u: string, i: nat)
    requires Slashed(t, u) && i < |t|
    ensures IsSpace(u[i]) <==> IsSpace(t[i])
  {
  }

  predicate SpaceLast(t: string) {
    t != "" && IsSpace(t[|t| - 1])
  }

  lemma DroppedEnds(t: string, u: string)
    requires Slashed(t, u) && !SpaceLast(t)
    ensures !SpaceLast(DropDots(u))
  {
    if DropDots(u) != "" {
      SuffixEnds(DropDots(u), u);
      SlashedSpace(t, u, |t| - 1);
    }
  }

  lemma NormalFormIsFixed(n: string)
    requires '\\' !in n && !("./" <= n)
    ensures Normalize(n) == n <==> Trimmed(n)
  {
    StripIsTrimmed(n);
    if Trimmed(n) {
      SlashesOfSlashes(n);
    } else {
      assert Strip(n) != n;
      StripShortens(n);
    }
  }

  /**
   Normalizing is not idempotent: dropping "./" can bring a space to the front. It is idempotent exactly
   where that does not happen.
   */
  lemma NormalizingTwice(path: string)
    ensures Normalize(Normalize(path)) == Normalize(path) <==> !HidesSpace(Strip(path))
  {
    NormalHasNoBackslash(path);
    StripIsTrimmed(path);
    DroppedEnds(Strip(path), Slashes(Strip(path)));
    HiddenSpaceShows(Strip(path), Slashes(Strip(path)));
    NormalFormIsFixed(Normalize(path));
  }

  lemma StripShortens(s: string)
    ensures |Strip(s)| < |s| || Strip(s) == s
  {
    var t := StripLeft(s);
    assert t == s[|s| - |t|..];
  }

  lemma DottedHidesSpace(rest: string)
    requires SpaceFirst(rest) && !SpaceLast(rest)
    ensures HidesSpace("./" + rest) && Trimmed("./" + rest)
  {
    var s := "./" + rest;
    assert s[2..] == rest && s[|s| - 1] == rest[|rest| - 1];
    assert !("./" <= rest) && !(".\\" <= rest);
  }

  /** For instance "./" before a space: one normalization leaves the space, the next one takes it. */
  lemma DottedSpaceIsNotNormal(rest: string)
    requires SpaceFirst(rest) && !SpaceLast(rest)
    ensures Normalize(Normalize("./" + rest)) != Normalize("./" + rest)
  {
    DottedHidesSpace(rest);
    StripIsTrimmed("./" + rest);
    NormalizingTwice("./" + rest);
  }

  // ---------------------------------------------------------------- the classifier is lawful

  predicate AllBroad(rules: seq<(string, Category)>) {
    forall i :: 0 <= i < |rules| ==> rules[i].1 in FLAGGED
  }

  lemma {:induction false} RulesAreBroad(rules: seq<(string, Category)>, path: string)
    requires AllBroad(rules) && FirstRule(rules, path).Some?
    ensures FirstRule(rules, path).value in FLAGGED
  {
    if !(rules[0].0 <= path) {
      RulesAreBroad(rules[1..], path);
    }
  }

  lemma {:induction false} RuleApplies(rules: seq<(string, Category)>, path: string, i: nat)
    requires i < |rules| && rules[i].0 <= path
    ensures FirstRule(rules, path).Some?
  {
    if i > 0 && !(rules[0].0 <= path) {
      RuleApplies(rules[1..], path, i - 1);
    }
  }

  lemma PrefixRulesAreBroad()
    ensures AllBroad(PREFIX_RULES)
  {
  }

  lemma AreaFits(n: string, services: set<string>)
    ensures NamesFit(ClassifyArea(n, services))
  {
  }

  lemma ClassificationFits(n: string, services: set<string>)
    ensures NamesFit(ClassifyNormal(n, services))
  {
    AreaFits(n, services);
    PrefixRulesAreBroad();
    if FirstRule(PREFIX_RULES, n).Some? {
      RulesAreBroad(PREFIX_RULES, n);
    }
  }

  /** Whatever a prefix rule or a root file name decides is not narrow. */
  lemma DecidedBeforeAreas(n: string, services: set<string>)
    requires FirstRule(PREFIX_RULES, n).Some? || n in ROOT_CONFIG
    ensures !IsNarrow(ClassifyNormal(n, services).category)
  {
    PrefixRulesAreBroad();
    if FirstRule(PREFIX_RULES, n).Some? {
      RulesAreBroad(PREFIX_RULES, n);
    }
  }

  lemma {:induction false} UpToSlashOf(head: string, tail: string)
    requires '/' !in head
    ensures UpToSlash(head + "/" + tail) == Some(head)
  {
    var s := head + "/" + tail;
    if head != "" {
      UpToSlashOf(head[1..], tail);
      assert s[1..] == head[1..] + "/" + tail;
      assert s[0] == head[0] && head[0] in head;
      assert head == [head[0]] + head[1..];
    }
  }

  /** The area of a path below tests/ is its next segment. */
  lemma TestAreaOf(n: string, area: string)
    requires "tests/" + area + "/" <= n && '/' !in area && area != ""
    ensures Segment("tests/", n) == Some(area) && Segment("services/", n) == None && Segment("packages/", n) == None
  {
    var head := "tests/" + area + "/";
    assert "tests/" <= n && n[0] == 't';
    var tail := n[|head|..];
    assert n[6..] == area + "/" + tail;
    UpToSlashOf(area, tail);
  }

  /** Tests of contracts and of the CDC drill are not narrow, whichever services there are. */
  lemma SpecialTestsAreBroad(n: string, services: set<string>, area: string)
    requires "tests/" + area + "/" <= n && (area == "contracts" || area == "cdc_staging_drill")
    ensures !IsNarrow(ClassifyNormal(n, services).category)
  {
    if FirstRule(PREFIX_RULES, n).Some? {
      DecidedBeforeAreas(n, services);
    } else if !(".cursor/" <= n || n == "AGENTS.md") && n !in ROOT_CONFIG {
      NoSlashIn(area);
      TestAreaOf(n, area);
      SpecialAreas(area, services);
    }
  }

  lemma NoSlashIn(area: string)
    requires area == "contracts" || area == "cdc_staging_drill"
    ensures '/' !in area && area != ""
  {
    assert '/' !in "contracts" && '/' !in "cdc_staging_drill";
  }

  lemma SpecialAreas(area: string, services: set<string>)
    requires area == "contracts" || area == "cdc_staging_drill"
    ensures TestArea(area, services).0 in {Governance, CiTooling, Infrastructure, Contracts}
  {
    assert INFRASTRUCTURE_TESTS[3] == "cdc_staging_drill";
    assert "cdc_staging_drill" in INFRASTRUCTURE_TESTS;
  }

  lemma LockFilesClassify(path: string, services: set<string>)
    requires IsLockFile(path)
    ensures !IsNarrow(ClassifyNormal(Normalize(path), services).category)
  {
    LockFileIsNormal(path);
    LockFileIsRootConfig(path);
    DecidedBeforeAreas(path, services);
  }

  lemma LockFileIsRootConfig(path: string)
    requires IsLockFile(path)
    ensures path in ROOT_CONFIG
  {
    assert ROOT_CONFIG[0] == "pyproject.toml" && ROOT_CONFIG[1] == "uv.lock";
  }

  lemma LockFileIsNormal(path: string)
    requires IsLockFile(path)
    ensures Normalize(path) == path
  {
    assert Trimmed(path) && '\\' !in path && !("./" <= path);
    StripIsTrimmed(path);
    SlashesOfSlashes(path);
  }

  lemma PrefixedByRule(path: string, services: set<string>, i: nat, prefix: string)
    requires i < |PREFIX_RULES| && PREFIX_RULES[i].0 == prefix && prefix <= path
    requires |prefix| >= 2 && !IsSpace(prefix[0]) && !IsSpace(prefix[|prefix| - 1]) && '\\' !in prefix
      && prefix[0] != '.'
    ensures !IsNarrow(ClassifyNormal(Normalize(path), services).category)
  {
    NormalizeKeeps(prefix, path);
    RuleApplies(PREFIX_RULES, Normalize(path), i);
    DecidedBeforeAreas(Normalize(path), services);
  }

  lemma PrefixedByTests(path: string, services: set<string>, area: string)
    requires "tests/" + area + "/" <= path && (area == "contracts" || area == "cdc_staging_drill")
    ensures !IsNarrow(ClassifyNormal(Normalize(path), services).category)
  {
    var prefix := "tests/" + area + "/";
    assert prefix[0] == 't' && prefix[|prefix| - 1] == '/';
    assert '\\' !in "tests/" && '\\' !in "contracts" && '\\' !in "cdc_staging_drill" && '\\' !in "/";
    NormalizeKeeps(prefix, path);
    SpecialTestsAreBroad(Normalize(path), services, area);
  }

  lemma ContractsAreBroad(path: string, services: set<string>)
    requires "contracts/" <= path
    ensures !IsNarrow(ClassifyNormal(Normalize(path), services).category)
  {
    PrefixedByRule(path, services, 0, "contracts/");
  }

  lemma DrillIsBroad(path: string, services: set<string>)
    requires "infra/cdc/staging-drill/" <= path
    ensures !IsNarrow(ClassifyNormal(Normalize(path), services).category)
  {
    assert "infra/" <= "infra/cdc/staging-drill/";
    PrefixedByRule(path, services, 6, "infra/");
  }

  lemma ContractTestsAreBroad(path: string, services: set<string>)
    requires "tests/contracts/" <= path
    ensures !IsNarrow(ClassifyNormal(Normalize(path), services).category)
  {
    assert "tests/" + "contracts" + "/" == "tests/contracts/";
    PrefixedByTests(path, services, "contracts");
  }

  lemma DrillTestsAreBroad(path: string, services: set<string>)
    requires "tests/cdc_staging_drill/" <= path
    ensures !IsNarrow(ClassifyNormal(Normalize(path), services).category)
  {
    assert "tests/" + "cdc_staging_drill" + "/" == "tests/cdc_staging_drill/";
    PrefixedByTests(path, services, "cdc_staging_drill");
  }

  lemma SpecialPathsAreBroad(path: string, services: set<string>)
    requires IsSpecial(path)
    ensures !IsNarrow(ClassifyNormal(Normalize(path), services).category)
  {
    if IsLockFile(path) {
      LockFilesClassify(path, services);
    } else if IsContractsPath(path) {
      if "contracts/" <= path { ContractsAreBroad(path, services); } else { ContractTestsAreBroad(path, services); }
    } else {
      if "infra/cdc/staging-drill/" <= path {
        DrillIsBroad(path, services);
      } else {
        DrillTestsAreBroad(path, services);
      }
    }
  }

  function RealClassifier(known: set<string>, discovered: set<string>): Classifier {
    path => ClassifyPath(path, known, discovered)
  }

  /**
   The repository's classifier meets what the calculation needs: in particular every path the final checks look for by
   name already calls for full validation.
   */
  lemma ClassifierIsLawful(known: set<string>, discovered: set<string>)
    ensures Lawful(RealClassifier(known, discovered))
  {
    var classify := RealClassifier(known, discovered);
    var services := if known != {} then known else discovered;
    forall p ensures NamesFit(classify(p)) {
      ClassificationFits(Normalize(p), services);
    }
    forall p | IsSpecial(p) ensures !IsNarrow(classify(p).category) {
      SpecialPathsAreBroad(p, services);
    }
  }

  // ---------------------------------------------------------------- order and monotonicity

  lemma {:induction false} PathsOfLines(lines: seq<string>, path: string)
    ensures path in PathsOf(ParseAll(lines)) <==> exists line :: line in lines && path in PathsOf(ParseLine(line))
  {
    if lines != [] {
      var init, last := lines[..|lines| - 1], lines[|lines| - 1];
      assert lines == init + [last];
      PathsOfLines(init, path);
      assert path in PathsOf(ParseAll(lines)) <==> path in PathsOf(ParseAll(init)) || path in PathsOf(ParseLine(last));
    }
  }

  lemma MoreLinesMorePaths(lines: seq<string>, more: seq<string>)
    requires forall line :: line in lines ==> line in more
    ensures PathsOf(ParseAll(lines)) <= PathsOf(ParseAll(more))
  {
    forall p | p in PathsOf(ParseAll(lines)) ensures p in PathsOf(ParseAll(more)) {
      PathsOfLines(lines, p);
      PathsOfLines(more, p);
    }
  }

  lemma SameLinesSamePaths(lines: seq<string>, others: seq<string>)
    requires forall line :: line in lines <==> line in others
    ensures PathsOf(ParseAll(lines)) == PathsOf(ParseAll(others))
  {
    MoreLinesMorePaths(lines, others);
    MoreLinesMorePaths(others, lines);
  }

  /** Neither the order of the change lines nor their repetition matters to any part of the scope. */
  lemma OrderDoesNotMatter(lines: seq<string>, others: seq<string>, classify: Classifier)
    requires forall line :: line in lines <==> line in others
    ensures ScopeOf(PathsOf(ParseAll(lines)), classify) == ScopeOf(PathsOf(ParseAll(others)), classify)
  {
    SameLinesSamePaths(lines, others);
  }

  /** One scope asks for at least as much as another. */
  predicate Narrower(a: Scope, b: Scope) {
    && (a.fullValidation ==> b.fullValidation) && (a.failSafe ==> b.failSafe)
    && (a.runContractsTests ==> b.runContractsTests) && (a.runCdcDrillTests ==> b.runCdcDrillTests)
    && (a.runServiceScoped ==> b.runServiceScoped)
    && a.services <= b.services && a.packages <= b.packages && a.unknownPaths <= b.unknownPaths && a.flags <= b.flags
    && a.changedPaths <= b.changedPaths
    && (b.docsOnly ==> a.docsOnly)
  }

  lemma MorePathsWiden(paths: set<string>, more: set<string>, classify: Classifier)
    requires paths <= more
    ensures Narrower(ScopeOf(paths, classify), ScopeOf(more, classify))
  {
    assert CategoriesOf(paths, classify) <= CategoriesOf(more, classify);
  }

  /** Adding change lines never turns a check off, nor drops an affected service or package. */
  lemma AddingLinesNeverNarrows(lines: seq<string>, more: seq<string>, classify: Classifier)
    requires forall line :: line in lines ==> line in more
    ensures Narrower(ScopeOf(PathsOf(ParseAll(lines)), classify), ScopeOf(PathsOf(ParseAll(more)), classify))
  {
    MoreLinesMorePaths(lines, more);
    MorePathsWiden(PathsOf(ParseAll(lines)), PathsOf(ParseAll(more)), classify);
  }

  /** Full validation is off exactly when every changed path is a service's or documentation. */
  lemma FullValidationExactly(lines: seq<string>, classify: Classifier)
    ensures !ScopeOf(PathsOf(ParseAll(lines)), classify).fullValidation <==>
      forall line, c :: line in lines && c in ParseLine(line) ==> IsNarrow(classify(c.path).category)
  {
    var paths := PathsOf(ParseAll(lines));
    forall line, c | line in lines && c in ParseLine(line) ensures c.path in paths {
      assert c.path in PathsOf(ParseLine(line));
      PathsOfLines(lines, c.path);
    }
    forall p | p in paths ensures exists line, c :: line in lines && c in ParseLine(line) && c.path == p {
      PathsOfLines(lines, p);
      var line :| line in lines && p in PathsOf(ParseLine(line));
      var c :| c in ParseLine(line) && c.path == p;
    }
  }
}
