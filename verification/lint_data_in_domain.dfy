/**
 * `NoDataImportInDomainRule`: reports, at the import itself, every import whose path contains
 * `data` while the last package directive's name contains `domain`. Its state lives in the
 * companion object, which is shared by every run of the rule, and its message is a constant.
 */
module DataImportInDomain {
  import opened Wrappers
  import opened Strings
  import opened KtAst

  const DataModuleName: string := "data"
  const DomainModuleName: string := "domain"

  /** The message template, with `currentImportPath` as it is when the template is evaluated. */
  function MessageWith(currentImportPath: string): (m: string)
    ensures |m| == |currentImportPath| + 63
  {
    "Importing: " + currentImportPath + ". " + DataModuleName + " module import is not allowed in " +
    DomainModuleName + " module"
  }

  /** The companion object's variables. */
  datatype CompanionState = CompanionState(lastPackageName: string, currentImportPath: string)

  /** Both variables start out empty. */
  const InitialCompanion: CompanionState := CompanionState("", "")

  /** `RULE_VIOLATION_MESSAGE` is evaluated once, when the companion is initialised. */
  const RuleViolationMessage: string := MessageWith(InitialCompanion.currentImportPath)

  /** `importPath?.pathStr.orEmpty()`. */
  function OrEmpty(p: Option<string>): (s: string)
    ensures p.Some? ==> s == p.value
    ensures p.None? ==> s == ""
  {
    if p.Some? then p.value else ""
  }

  /** What one `beforeVisitChildNodes` call leaves behind: the companion's new state and the emitted error, if any. */
  datatype StepResult = StepResult(companion: CompanionState, error: Option<LintError>)

  /**
   * `beforeVisitChildNodes`: a package directive overwrites the last package name; an import
   * overwrites the current import path and is reported iff its path contains `data` and the last
   * package name contains `domain`; any other node changes nothing.
   */
  function Step(c: CompanionState, node: Node): (r: StepResult)
    ensures node.PackageDirective? ==> r.companion == c.(lastPackageName := node.name)
    ensures node.ImportDirective? ==> r.companion == c.(currentImportPath := OrEmpty(node.importPath))
    ensures !node.PackageDirective? && !node.ImportDirective? ==> r.companion == c
    ensures r.companion.lastPackageName != c.lastPackageName ==> node.PackageDirective?
    ensures r.error.Some? <==>
      node.ImportDirective? && Contains(OrEmpty(node.importPath), DataModuleName) &&
      Contains(c.lastPackageName, DomainModuleName)
    ensures r.error.Some? ==> r.error.value == LintError(node.startOffset, RuleViolationMessage, false)
  {
    match node
    case PackageDirective(_, name, _) => StepResult(c.(lastPackageName := name), None)
    case ImportDirective(path, startOffset) =>
      var current := OrEmpty(path);
      var isDataImport := Contains(current, DataModuleName);
      var isPackageNameValid := Contains(c.lastPackageName, DomainModuleName);
      StepResult(c.(currentImportPath := current),
        if isDataImport && isPackageNameValid then Some(LintError(startOffset, RuleViolationMessage, false)) else None)
    case _ => StepResult(c, None)
  }

  /** A run of the rule: the companion's final state and every error emitted, in order. */
  datatype RunResult = RunResult(companion: CompanionState, errors: seq<LintError>)

  /** The rule over a stream of visits; it acts only before a node's children and never stops early. */
  function Run(c: CompanionState, visits: seq<Visit>): (r: RunResult)
    ensures |r.errors| <= |visits|
    ensures forall e :: e in r.errors ==> !e.canBeAutoCorrected
    decreases |visits|
  {
    if visits == [] then RunResult(c, [])
    else
      match visits[0]
      case AfterChildren(_) => Run(c, visits[1..])
      case BeforeChildren(node) =>
        var s := Step(c, node);
        var rest := Run(s.companion, visits[1..]);
        RunResult(rest.companion, (if s.error.Some? then [s.error.value] else []) + rest.errors)
  }

  /** Two streams in a row: the second starts from the companion state the first leaves. */
  lemma {:induction false} RunConcat(c: CompanionState, a: seq<Visit>, b: seq<Visit>)
    ensures Run(c, a + b) == RunResult(Run(Run(c, a).companion, b).companion, Run(c, a).errors + Run(Run(c, a).companion, b).errors)
    decreases |a|
  {
    if a == [] {
      assert a + b == b;
    } else {
      assert a + b == [a[0]] + (a[1..] + b);
      assert a == [a[0]] + a[1..];
      match a[0]
      case AfterChildren(node) =>
        RunConcat(c, a[1..], b);
        RunFirst(c, AfterChildren(node), a[1..]);
        RunFirst(c, AfterChildren(node), a[1..] + b);
      case BeforeChildren(node) =>
        var s := Step(c, node);
        var e := if s.error.Some? then [s.error.value] else [];
        var ra := Run(s.companion, a[1..]);
        var rb := Run(ra.companion, b);
        RunConcat(s.companion, a[1..], b);
        assert Run(s.companion, a[1..] + b) == RunResult(rb.companion, ra.errors + rb.errors);
        RunFirst(c, BeforeChildren(node), a[1..]);
        assert Run(c, a) == RunResult(ra.companion, e + ra.errors);
        RunFirst(c, BeforeChildren(node), a[1..] + b);
        assert Run(c, a + b) == RunResult(rb.companion, e + (ra.errors + rb.errors));
        assert Run(Run(c, a).companion, b) == rb;
        assert e + (ra.errors + rb.errors) == (e + ra.errors) + rb.errors;
    }
  }

  /** One visit, then the rest of the stream. */
  lemma RunFirst(c: CompanionState, v: Visit, rest: seq<Visit>)
    ensures v.AfterChildren? ==> Run(c, [v] + rest) == Run(c, rest)
    ensures v.BeforeChildren? ==> (var s := Step(c, v.node);
      Run(c, [v] + rest) ==
      RunResult(Run(s.companion, rest).companion, (if s.error.Some? then [s.error.value] else []) + Run(s.companion, rest).errors))
  {
    assert ([v] + rest)[0] == v && ([v] + rest)[1..] == rest;
  }

  /** The visits of an import directive `import <path>` at `offset`, for each `(path, offset)`. */
  function ImportVisits(items: seq<(string, int)>): seq<Visit> {
    if items == [] then []
    else [BeforeChildren(ImportDirective(Some(items[0].0), items[0].1)), AfterChildren(ImportDirective(Some(items[0].0), items[0].1))]
         + ImportVisits(items[1..])
  }

  /** The errors a list of imports earns under a package named `domain`: one per import containing `data`. */
  function Reported(items: seq<(string, int)>): (r: seq<LintError>)
    ensures |r| <= |items|
    ensures (forall i :: 0 <= i < |items| ==> Contains(items[i].0, DataModuleName)) ==> |r| == |items|
    ensures (forall i :: 0 <= i < |items| ==> !Contains(items[i].0, DataModuleName)) ==> r == []
    ensures forall e :: e in r ==> e.message == RuleViolationMessage && !e.canBeAutoCorrected
    ensures forall e :: e in r ==> exists i :: 0 <= i < |items| && items[i].1 == e.offset && Contains(items[i].0, DataModuleName)
  {
    if items == [] then []
    else
      var rest := Reported(items[1..]);
      assert forall e :: e in rest ==> exists i :: 0 <= i < |items| && items[i].1 == e.offset && Contains(items[i].0, DataModuleName) by {
        forall e | e in rest
          ensures exists i :: 0 <= i < |items| && items[i].1 == e.offset && Contains(items[i].0, DataModuleName)
        {
          var j :| 0 <= j < |items[1..]| && items[1..][j].1 == e.offset && Contains(items[1..][j].0, DataModuleName);
          assert items[j + 1] == items[1..][j];
        }
      }
      (if Contains(items[0].0, DataModuleName) then [LintError(items[0].1, RuleViolationMessage, false)] else []) + rest
  }

  /**
   * A list of imports: the package name is untouched, and every import containing `data` is
   * reported, each at its own offset, exactly when the package name contains `domain`.
   */
  lemma {:induction false} ImportsReported(c: CompanionState, items: seq<(string, int)>)
    ensures Run(c, ImportVisits(items)).companion.lastPackageName == c.lastPackageName
    ensures Run(c, ImportVisits(items)).errors == if Contains(c.lastPackageName, DomainModuleName) then Reported(items) else []
    decreases |items|
  {
    if items != [] {
      var node := ImportDirective(Some(items[0].0), items[0].1);
      var vs := ImportVisits(items);
      assert vs[0] == BeforeChildren(node);
      assert vs[1..][0] == AfterChildren(node);
      assert vs[1..][1..] == ImportVisits(items[1..]);
      var c1 := Step(c, node).companion;
      ImportsReported(c1, items[1..]);
    }
  }

  /** Imports met before any package directive never violate: the stored name starts as "". */
  lemma ImportsBeforePackageNeverViolate(items: seq<(string, int)>)
    ensures Run(InitialCompanion, ImportVisits(items)).errors == []
  {
    ImportsReported(InitialCompanion, items);
  }

  /** The visits of a file `package <qualifiedName>` (whose last segment is `name`) followed by an import list. */
  function FileVisits(qualifiedName: string, name: string, items: seq<(string, int)>, listOffset: int): seq<Visit> {
    [BeforeChildren(PackageDirective(qualifiedName, name, 0)), AfterChildren(PackageDirective(qualifiedName, name, 0)),
     BeforeChildren(ImportList(listOffset))] + ImportVisits(items) + [AfterChildren(ImportList(listOffset))]
  }

  /** One file: its package name replaces whatever was stored, and decides alone which imports are reported. */
  lemma FileReported(c: CompanionState, qualifiedName: string, name: string, items: seq<(string, int)>, listOffset: int)
    ensures Run(c, FileVisits(qualifiedName, name, items, listOffset)).companion.lastPackageName == name
    ensures Run(c, FileVisits(qualifiedName, name, items, listOffset)).errors ==
      if Contains(name, DomainModuleName) then Reported(items) else []
  {
    var pd := PackageDirective(qualifiedName, name, 0);
    var head := [BeforeChildren(pd), AfterChildren(pd), BeforeChildren(ImportList(listOffset))];
    var tail := [AfterChildren(ImportList(listOffset))];
    assert FileVisits(qualifiedName, name, items, listOffset) == head + (ImportVisits(items) + tail);
    var c1 := c.(lastPackageName := name);
    assert head[0] == BeforeChildren(pd) && head[1..][0] == AfterChildren(pd);
    assert head[1..][1..][0] == BeforeChildren(ImportList(listOffset)) && head[1..][1..][1..] == [];
    assert Run(c1, head[1..][1..]) == Run(c1, head[1..][1..][1..]);
    assert Run(c, head) == Run(c1, head[1..]) == Run(c1, head[1..][1..]);
    assert Run(c, head) == RunResult(c1, []);
    RunConcat(c, head, ImportVisits(items) + tail);
    RunConcat(c1, ImportVisits(items), tail);
    ImportsReported(c1, items);
    var c2 := Run(c1, ImportVisits(items)).companion;
    assert Run(c2, tail) == RunResult(c2, []);
  }

  /**
   * The companion outlives a file: imports of a later stream with no package directive are judged
   * by the package name of the file before it.
   */
  lemma StaleCompanion(qualifiedName: string, name: string, items: seq<(string, int)>, listOffset: int, later: seq<(string, int)>)
    ensures Run(InitialCompanion, FileVisits(qualifiedName, name, items, listOffset) + ImportVisits(later)).errors ==
      if Contains(name, DomainModuleName) then Reported(items) + Reported(later) else []
  {
    var first := FileVisits(qualifiedName, name, items, listOffset);
    RunConcat(InitialCompanion, first, ImportVisits(later));
    FileReported(InitialCompanion, qualifiedName, name, items, listOffset);
    ImportsReported(Run(InitialCompanion, first).companion, later);
  }

  /** The message never names the offending import: it is the template filled with "", whatever the path. */
  lemma MessageIgnoresPath(path: string)
    requires path != ""
    ensures RuleViolationMessage == MessageWith("")
    ensures RuleViolationMessage != MessageWith(path)
  {
    assert |MessageWith(path)| == |RuleViolationMessage| + |path|;
  }

  /**
   * The rule's test: `package dev.sdkforge.shared.domain`, a blank line, `import
   * dev.sdkforge.shared.data`. The one error is at the import (line 3, column 1, offset 36) and
   * carries the constant message.
   */
  lemma DataInDomainTest()
    ensures Run(InitialCompanion, FileVisits("dev.sdkforge.shared.domain", "domain", [("dev.sdkforge.shared.data", 36)], 36)).errors ==
      [LintError(36, RuleViolationMessage, false)]
  {
    assert OccursAt("domain", DomainModuleName, 0);
    assert "dev.sdkforge.shared.data"[20..24] == DataModuleName;
    assert OccursAt("dev.sdkforge.shared.data", DataModuleName, 20);
    FileReported(InitialCompanion, "dev.sdkforge.shared.domain", "domain", [("dev.sdkforge.shared.data", 36)], 36);
    var items := [("dev.sdkforge.shared.data", 36)];
    assert items[1..] == [];
  }

  /** The companion object: one instance, shared by every rule object and every file. */
  class Companion {
    var lastPackageName: string
    var currentImportPath: string
    const ruleViolationMessage: string

    function State(): CompanionState
      reads this
    {
      CompanionState(lastPackageName, currentImportPath)
    }

    constructor ()
      ensures State() == InitialCompanion
      ensures ruleViolationMessage == RuleViolationMessage
    {
      var path := "";
      lastPackageName := "";
      currentImportPath := path;
      ruleViolationMessage := MessageWith(path);
    }
  }

  /** The rule object itself holds no state; it updates the companion. */
  class NoDataImportInDomainRule {
    const companion: Companion

    constructor (companion: Companion)
      ensures this.companion == companion
    {
      this.companion := companion;
    }

    /** `beforeVisitChildNodes`, returning what it passes to `emit`, if anything. */
    method BeforeVisitChildNodes(node: Node) returns (error: Option<LintError>)
      requires companion.ruleViolationMessage == RuleViolationMessage
      modifies companion
      ensures StepResult(companion.State(), error) == Step(old(companion.State()), node)
    {
      error := None;
      match node {
        case PackageDirective(_, name, _) =>
          companion.lastPackageName := name;
        case ImportDirective(path, startOffset) =>
          companion.currentImportPath := OrEmpty(path);
          var isDataImport := Contains(companion.currentImportPath, DataModuleName);
          var isPackageNameValid := Contains(companion.lastPackageName, DomainModuleName);
          if isDataImport && isPackageNameValid {
            error := Some(LintError(startOffset, companion.ruleViolationMessage, false));
          }
        case _ =>
      }
    }
  }
}
