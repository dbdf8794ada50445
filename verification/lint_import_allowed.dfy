/**
 * `NoImportAllowedInPackageRule(targetImport to targetPackage)`: collects the file's imports and,
 * once the import list has been visited, reports the first import whose path contains
 * `targetImport` if the file's package name contains `targetPackage`.
 */
module ImportAllowedInPackage {
  import opened Wrappers
  import opened Strings
  import opened KtAst

  /** Java's `%<n>s`: the argument, left-padded with spaces to at least `n` characters. */
  function Width(n: nat, s: string): (r: string)
    ensures |r| == if |s| >= n then |s| else n
    ensures r[|r| - |s|..] == s
    ensures forall i :: 0 <= i < |r| - |s| ==> r[i] == ' '
    ensures |s| >= n ==> r == s
  {
    if |s| >= n then s else seq(n - |s|, _ => ' ') + s
  }

  /**
   * `RULE_VIOLATION_MESSAGE.format(importName, targetImportName, targetPackageName)` with the
   * template `"Importing: %1s. %2s module import is not allowed in %3s module"`: the three
   * arguments padded to widths 1, 2 and 3.
   */
  function ViolationMessage(importName: string, targetImport: string, targetPackage: string): (m: string)
    ensures |m| >= 11 && m[..11] == "Importing: "
    ensures |m| >= 7 && m[|m| - 7..] == " module"
    ensures Contains(m, importName) && Contains(m, targetImport) && Contains(m, targetPackage)
  {
    var a, b, c := Width(1, importName), Width(2, targetImport), Width(3, targetPackage);
    assert a == a[..|a| - |importName|] + importName;
    assert b == b[..|b| - |targetImport|] + targetImport;
    assert c == c[..|c| - |targetPackage|] + targetPackage;
    FieldsOccur("Importing: ", a[..|a| - |importName|], importName, ". ", b[..|b| - |targetImport|], targetImport,
      " module import is not allowed in ", c[..|c| - |targetPackage|], targetPackage, " module");
    "Importing: " + a + ". " + b + " module import is not allowed in " + c + " module"
  }

  /** Each padded field of a filled-in template occurs in it. */
  lemma FieldsOccur(p0: string, pa: string, x: string, p1: string, pb: string, y: string,
                    p2: string, pc: string, z: string, p3: string)
    ensures var m := p0 + (pa + x) + p1 + (pb + y) + p2 + (pc + z) + p3;
      Contains(m, x) && Contains(m, y) && Contains(m, z)
  {
    var m := p0 + (pa + x) + p1 + (pb + y) + p2 + (pc + z) + p3;
    assert m == (p0 + pa) + x + (p1 + (pb + y) + p2 + (pc + z) + p3);
    OccursBetween(p0 + pa, x, p1 + (pb + y) + p2 + (pc + z) + p3);
    assert m == (p0 + (pa + x) + p1 + pb) + y + (p2 + (pc + z) + p3);
    OccursBetween(p0 + (pa + x) + p1 + pb, y, p2 + (pc + z) + p3);
    assert m == (p0 + (pa + x) + p1 + (pb + y) + p2 + pc) + z + p3;
    OccursBetween(p0 + (pa + x) + p1 + (pb + y) + p2 + pc, z, p3);
  }

  /** Names as long as their field widths are not padded. */
  lemma NoPadding(importName: string, targetImport: string, targetPackage: string)
    requires importName != [] && |targetImport| >= 2 && |targetPackage| >= 3
    ensures ViolationMessage(importName, targetImport, targetPackage) ==
      "Importing: " + importName + ". " + targetImport + " module import is not allowed in " + targetPackage + " module"
  {
  }

  /** Shorter names are padded: `"x" to "ui"` reports `a.x` with two spaces before `x` and one before `ui`. */
  lemma ShortNamesPadded()
    ensures ViolationMessage("a.x", "x", "ui") ==
      "Importing: " + "a.x" + ". " + " x" + " module import is not allowed in " + " ui" + " module"
  {
    assert Width(2, "x") == " x";
    assert Width(3, "ui") == " ui";
  }

  /** The rule's state: the lateinit package name (`None` until set) and the collected import paths. */
  datatype RuleState = RuleState(modulePackageName: Option<string>, imports: seq<string>)

  /** The index of the first collected import whose path contains `target`, if any. */
  function FirstMatch(imports: seq<string>, target: string): (r: Option<nat>)
    ensures r.None? <==> forall i :: 0 <= i < |imports| ==> !Contains(imports[i], target)
    ensures r.Some? ==> r.value < |imports| && Contains(imports[r.value], target)
    ensures r.Some? ==> forall j :: 0 <= j < r.value ==> !Contains(imports[j], target)
  {
    if imports == [] then None
    else if Contains(imports[0], target) then Some(0)
    else
      var rest := FirstMatch(imports[1..], target);
      if rest.None? then None else Some(rest.value + 1)
  }

  /** `beforeVisitChildNodes`: a package directive sets the package name; an import with a non-empty path is collected. */
  function StepBefore(st: RuleState, node: Node): (st': RuleState)
    ensures node.PackageDirective? ==> st' == st.(modulePackageName := Some(node.qualifiedName))
    ensures node.ImportDirective? && node.importPath.Some? && node.importPath.value != "" ==>
      st' == st.(imports := st.imports + [node.importPath.value])
    ensures !node.PackageDirective? && !(node.ImportDirective? && node.importPath.Some? && node.importPath.value != "") ==>
      st' == st
    ensures (forall p :: p in st.imports ==> p != "") ==> forall p :: p in st'.imports ==> p != ""
  {
    match node
    case PackageDirective(qualifiedName, _, _) => st.(modulePackageName := Some(qualifiedName))
    case ImportDirective(path, _) =>
      if path.Some? && path.value != "" then st.(imports := st.imports + [path.value]) else st
    case _ => st
  }

  /** What `afterVisitChildNodes` does: nothing, one violation, or the lateinit access failing. */
  datatype AfterOutcome = NoViolation | Violation(error: LintError) | UninitializedPackageName

  /**
   * `afterVisitChildNodes`: only after an import list; with imports collected, the package name
   * is read (failing if no package directive was seen), and if it contains the target package the
   * first import containing the target import is reported.
   */
  function StepAfter(st: RuleState, targetImport: string, targetPackage: string, node: Node): (r: AfterOutcome)
    ensures !node.ImportList? ==> r == NoViolation
    ensures r == UninitializedPackageName <==>
      node.ImportList? && st.imports != [] && st.modulePackageName.None?
    ensures st.imports == [] ==> r == NoViolation
    ensures st.modulePackageName.Some? && !Contains(st.modulePackageName.value, targetPackage) ==> r == NoViolation
    ensures r.Violation? <==>
      node.ImportList? && st.modulePackageName.Some? && Contains(st.modulePackageName.value, targetPackage) &&
      exists i :: 0 <= i < |st.imports| && Contains(st.imports[i], targetImport)
    ensures r.Violation? ==> exists i :: (0 <= i < |st.imports| &&
      Contains(st.imports[i], targetImport) &&
      (forall j :: 0 <= j < i ==> !Contains(st.imports[j], targetImport)) &&
      r.error == LintError(node.startOffset, ViolationMessage(st.imports[i], targetImport, targetPackage), false))
  {
    if !node.ImportList? || st.imports == [] then NoViolation
    else if st.modulePackageName.None? then UninitializedPackageName
    else if !Contains(st.modulePackageName.value, targetPackage) then NoViolation
    else
      var first := FirstMatch(st.imports, targetImport);
      if first.None? then NoViolation
      else Violation(LintError(node.startOffset, ViolationMessage(st.imports[first.value], targetImport, targetPackage), false))
  }

  /** A lint run: the errors emitted, and whether the run stopped on the uninitialised package name. */
  datatype RunResult = RunResult(errors: seq<LintError>, failed: bool)

  /** The rule over a whole stream of visits, from `st`; a failure ends the run. */
  function Run(st: RuleState, targetImport: string, targetPackage: string, visits: seq<Visit>): (r: RunResult)
    ensures |r.errors| <= |visits|
    ensures forall e :: e in r.errors ==> !e.canBeAutoCorrected
    decreases |visits|
  {
    if visits == [] then RunResult([], false)
    else match visits[0]
      case BeforeChildren(node) => Run(StepBefore(st, node), targetImport, targetPackage, visits[1..])
      case AfterChildren(node) =>
        match StepAfter(st, targetImport, targetPackage, node)
        case UninitializedPackageName => RunResult([], true)
        case NoViolation => Run(st, targetImport, targetPackage, visits[1..])
        case Violation(e) =>
          var rest := Run(st, targetImport, targetPackage, visits[1..]);
          RunResult([e] + rest.errors, rest.failed)
  }

  /** The visits of a file `package <pkg>` followed by an import list of `paths`, as the engine makes them. */
  function FileVisits(pkg: string, pkgName: string, paths: seq<string>, listOffset: int): seq<Visit> {
    [BeforeChildren(PackageDirective(pkg, pkgName, 0)), AfterChildren(PackageDirective(pkg, pkgName, 0)),
     BeforeChildren(ImportList(listOffset))] + ImportVisits(paths, listOffset) + [AfterChildren(ImportList(listOffset))]
  }

  function ImportVisits(paths: seq<string>, offset: int): seq<Visit> {
    if paths == [] then []
    else [BeforeChildren(ImportDirective(Some(paths[0]), offset)), AfterChildren(ImportDirective(Some(paths[0]), offset))]
         + ImportVisits(paths[1..], offset + |paths[0]| + 8)
  }

  /** A visit before a node's children only updates the state. */
  lemma RunBefore(st: RuleState, ti: string, tp: string, node: Node, rest: seq<Visit>)
    ensures Run(st, ti, tp, [BeforeChildren(node)] + rest) == Run(StepBefore(st, node), ti, tp, rest)
  {
    assert ([BeforeChildren(node)] + rest)[1..] == rest;
  }

  /** A visit after the children of a node other than an import list does nothing. */
  lemma RunAfterOther(st: RuleState, ti: string, tp: string, node: Node, rest: seq<Visit>)
    requires !node.ImportList?
    ensures Run(st, ti, tp, [AfterChildren(node)] + rest) == Run(st, ti, tp, rest)
  {
    assert ([AfterChildren(node)] + rest)[1..] == rest;
  }

  /** The imports of a list are collected in order, after the ones already held. */
  lemma {:induction false} ImportVisitsCollect(st: RuleState, ti: string, tp: string, paths: seq<string>, offset: int, tail: seq<Visit>)
    requires forall p :: p in paths ==> p != ""
    ensures Run(st, ti, tp, ImportVisits(paths, offset) + tail) == Run(st.(imports := st.imports + paths), ti, tp, tail)
    decreases |paths|
  {
    if paths == [] {
      assert st.(imports := st.imports + paths) == st;
      assert ImportVisits(paths, offset) + tail == tail;
    } else {
      assert paths[0] in paths;
      var node := ImportDirective(Some(paths[0]), offset);
      var next := offset + |paths[0]| + 8;
      var rest := ImportVisits(paths[1..], next) + tail;
      assert ImportVisits(paths, offset) + tail == [BeforeChildren(node), AfterChildren(node)] + rest;
      var st1 := st.(imports := st.imports + [paths[0]]);
      ImportStep(st, ti, tp, paths[0], offset, rest);
      assert forall p :: p in paths[1..] ==> p in paths;
      ImportVisitsCollect(st1, ti, tp, paths[1..], next, tail);
      assert st1.imports + paths[1..] == st.imports + paths;
    }
  }

  /** The two visits of one import directive with a non-empty path collect that path. */
  lemma ImportStep(st: RuleState, ti: string, tp: string, path: string, offset: int, rest: seq<Visit>)
    requires path != ""
    ensures Run(st, ti, tp, [BeforeChildren(ImportDirective(Some(path), offset)), AfterChildren(ImportDirective(Some(path), offset))] + rest) ==
      Run(st.(imports := st.imports + [path]), ti, tp, rest)
  {
    var node := ImportDirective(Some(path), offset);
    assert [BeforeChildren(node), AfterChildren(node)] + rest == [BeforeChildren(node)] + ([AfterChildren(node)] + rest);
    RunBefore(st, ti, tp, node, [AfterChildren(node)] + rest);
    assert StepBefore(st, node) == st.(imports := st.imports + [path]);
    RunAfterOther(StepBefore(st, node), ti, tp, node, rest);
  }

  /** The verdict after the import list of a file whose package is `pkg` and whose imports are `paths`. */
  function FileVerdict(pkg: string, paths: seq<string>, listOffset: int, ti: string, tp: string): seq<LintError> {
    if paths != [] && Contains(pkg, tp) && FirstMatch(paths, ti).Some? then
      [LintError(listOffset, ViolationMessage(paths[FirstMatch(paths, ti).value], ti, tp), false)]
    else []
  }

  /**
   * One file: with its package name containing the target package, exactly one error is reported,
   * at the import list, for the first import containing the target import; otherwise none.
   */
  lemma FileReportsFirstMatch(pkg: string, pkgName: string, paths: seq<string>, listOffset: int, ti: string, tp: string)
    requires forall p :: p in paths ==> p != ""
    ensures Run(RuleState(None, []), ti, tp, FileVisits(pkg, pkgName, paths, listOffset)) ==
      RunResult(FileVerdict(pkg, paths, listOffset, ti, tp), false)
  {
    var pd := PackageDirective(pkg, pkgName, 0);
    var tail := [AfterChildren(ImportList(listOffset))];
    var x := ImportVisits(paths, listOffset) + tail;
    var vs := FileVisits(pkg, pkgName, paths, listOffset);
    var st := RuleState(Some(pkg), []);
    assert vs == [BeforeChildren(pd), AfterChildren(pd), BeforeChildren(ImportList(listOffset))] + x;
    assert vs[0] == BeforeChildren(pd) && vs[1..][0] == AfterChildren(pd) && vs[1..][1..][0] == BeforeChildren(ImportList(listOffset));
    assert vs[1..][1..][1..] == x;
    assert Run(RuleState(None, []), ti, tp, vs) == Run(st, ti, tp, vs[1..]);
    assert Run(st, ti, tp, vs[1..]) == Run(st, ti, tp, vs[1..][1..]);
    assert Run(st, ti, tp, vs[1..][1..]) == Run(st, ti, tp, x);
    ImportVisitsCollect(st, ti, tp, paths, listOffset, tail);
    assert st.(imports := st.imports + paths) == RuleState(Some(pkg), paths);
    ListVerdict(pkg, paths, listOffset, ti, tp);
  }

  lemma ListVerdict(pkg: string, paths: seq<string>, listOffset: int, ti: string, tp: string)
    ensures Run(RuleState(Some(pkg), paths), ti, tp, [AfterChildren(ImportList(listOffset))]) ==
      RunResult(FileVerdict(pkg, paths, listOffset, ti, tp), false)
  {
    var tail := [AfterChildren(ImportList(listOffset))];
    assert tail[1..] == [];
  }

  /** When the first import already matches, the error names it. */
  lemma FirstImportVerdict(pkg: string, paths: seq<string>, listOffset: int, ti: string, tp: string)
    requires paths != [] && Contains(pkg, tp) && Contains(paths[0], ti)
    ensures FileVerdict(pkg, paths, listOffset, ti, tp) == [LintError(listOffset, ViolationMessage(paths[0], ti, tp), false)]
  {
  }

  /**
   * The rule's tests: `package <prefix><pkg>`, a blank line, then three imports `<prefix><name>`
   * of which the first is the forbidden one. The one error is at the import list, which starts at
   * the first import (line 3, column 1), and names that import.
   */
  lemma RuleTest(prefix: string, pkg: string, forbidden: string, other1: string, other2: string, listOffset: int)
    requires prefix != [] && pkg != [] && forbidden != []
    ensures Run(RuleState(None, []), forbidden, pkg,
      FileVisits(prefix + pkg, pkg, [prefix + forbidden, prefix + other1, prefix + other2], listOffset)) ==
      RunResult([LintError(listOffset, "Importing: " + prefix + forbidden + ". " + Width(2, forbidden) +
        " module import is not allowed in " + Width(3, pkg) + " module", false)], false)
  {
    var paths := [prefix + forbidden, prefix + other1, prefix + other2];
    assert (prefix + pkg)[|prefix|..|prefix| + |pkg|] == pkg;
    assert OccursAt(prefix + pkg, pkg, |prefix|);
    assert paths[0][|prefix|..|prefix| + |forbidden|] == forbidden;
    assert OccursAt(paths[0], forbidden, |prefix|);
    FileReportsFirstMatch(prefix + pkg, pkg, paths, listOffset, forbidden, pkg);
    FirstImportVerdict(prefix + pkg, paths, listOffset, forbidden, pkg);
    assert Width(1, paths[0]) == paths[0];
    assert "Importing: " + paths[0] == "Importing: " + prefix + forbidden;
  }

  /** The fully qualified names the tests use. */
  lemma SharedNames()
    ensures "dev.sdkforge.shared." + "domain" == "dev.sdkforge.shared.domain"
    ensures "dev.sdkforge.shared." + "data" == "dev.sdkforge.shared.data"
    ensures "dev.sdkforge.shared." + "ui" == "dev.sdkforge.shared.ui"
    ensures "dev.sdkforge.shared." + "presentation" == "dev.sdkforge.shared.presentation"
  {
  }

  /** `data` imported into `domain`: one error at offset 36, where the import list starts (line 3, column 1). */
  lemma DataInDomainTest()
    ensures Run(RuleState(None, []), "data", "domain",
      FileVisits("dev.sdkforge.shared.domain", "domain",
        ["dev.sdkforge.shared.data", "dev.sdkforge.shared.ui", "dev.sdkforge.shared.presentation"], 36)) ==
      RunResult([LintError(36, "Importing: " + "dev.sdkforge.shared." + "data" + ". " + "data" +
        " module import is not allowed in " + "domain" + " module", false)], false)
  {
    RuleTest("dev.sdkforge.shared.", "domain", "data", "ui", "presentation", 36);
    SharedNames();
  }

  /** `presentation` imported into `data`: one error at offset 34, where the import list starts (line 3, column 1). */
  lemma PresentationInDataTest()
    ensures Run(RuleState(None, []), "presentation", "data",
      FileVisits("dev.sdkforge.shared.data", "data",
        ["dev.sdkforge.shared.presentation", "dev.sdkforge.shared.ui", "dev.sdkforge.shared.domain"], 34)) ==
      RunResult([LintError(34, "Importing: " + "dev.sdkforge.shared." + "presentation" + ". " + "presentation" +
        " module import is not allowed in " + "data" + " module", false)], false)
  {
    RuleTest("dev.sdkforge.shared.", "data", "presentation", "ui", "domain", 34);
    SharedNames();
  }

  /** The rule object, with the fields the visitor updates. */
  class NoImportAllowedInPackageRule {
    const targetImportName: string
    const targetPackageName: string
    var modulePackageName: Option<string>   // lateinit: `None` until a package directive is visited
    var imports: seq<string>                // the collected import paths, in insertion order

    function State(): RuleState
      reads this
    {
      RuleState(modulePackageName, imports)
    }

    constructor (targetPackages: (string, string))
      ensures targetImportName == targetPackages.0 && targetPackageName == targetPackages.1
      ensures State() == RuleState(None, [])
    {
      targetImportName := targetPackages.0;
      targetPackageName := targetPackages.1;
      modulePackageName := None;
      imports := [];
    }

    method BeforeVisitChildNodes(node: Node)
      modifies this
      ensures State() == StepBefore(old(State()), node)
    {
      match node {
        case PackageDirective(qualifiedName, _, _) =>
          modulePackageName := Some(qualifiedName);
        case ImportDirective(path, _) =>
          var isNameValid := path.Some? && path.value != "";
          if isNameValid {
            imports := imports + [path.value];
          }
        case _ =>
      }
    }

    method AfterVisitChildNodes(node: Node) returns (r: AfterOutcome)
      ensures r == StepAfter(State(), targetImportName, targetPackageName, node)
    {
      if !node.ImportList? {
        return NoViolation;
      }
      if imports == [] {
        return NoViolation;
      }
      if modulePackageName.None? {
        return UninitializedPackageName;
      }
      if !Contains(modulePackageName.value, targetPackageName) {
        return NoViolation;
      }
      var i := 0;
      while i < |imports|
        invariant 0 <= i <= |imports|
        invariant forall j :: 0 <= j < i ==> !Contains(imports[j], targetImportName)
      {
        var importName := imports[i];
        if Contains(importName, targetImportName) {
          return Violation(LintError(node.startOffset, ViolationMessage(importName, targetImportName, targetPackageName), false));
        }
        i := i + 1;
      }
      r := NoViolation;
    }
  }
}
