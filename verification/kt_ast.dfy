/** The slice of the Kotlin syntax tree the lint rules look at, and what they report. */
module KtAst {
  import opened Wrappers

  /**
   * A syntax-tree node. A package directive carries both its `qualifiedName` and its `name`
   * as the PSI reports them; an import directive carries `importPath?.pathStr`.
   */
  datatype Node =
    | PackageDirective(qualifiedName: string, name: string, startOffset: int)
    | ImportDirective(importPath: Option<string>, startOffset: int)
    | ImportList(startOffset: int)
    | OtherNode(startOffset: int)

  /** The rule engine calls a rule before and after visiting each node's children. */
  datatype Visit = BeforeChildren(node: Node) | AfterChildren(node: Node)

  /** One `emit(offset, errorMessage, canBeAutoCorrected)` call. */
  datatype LintError = LintError(offset: int, message: string, canBeAutoCorrected: bool)
}
