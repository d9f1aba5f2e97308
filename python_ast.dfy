/**
 * What the tool factory reads from Python's parser. A parse either fails with
 * the syntax error's text or yields the nodes of `ast.walk(tree)` in walk order,
 * together with the unparsed text of the module's last statement when that
 * statement is a bare expression.
 */
module PythonAst {
  import opened Wrappers

  /** The callee of a call expression: a plain name, or anything else. */
  datatype Callee = Named(id: string) | Computed

  /** A positional argument: a literal (with `str()` of its value), or any other expression. */
  datatype Argument = Constant(text: string) | Expression

  /** A positional parameter with the unparsed text of its annotation, if it has one that unparses. */
  datatype Parameter = Parameter(name: string, annotation: Option<string>)

  /**
   * The node kinds the tool factory inspects. For a function definition,
   * `params` are `args.args`, `defaults` are `args.defaults` (each unparsed,
   * `None` where unparsing fails), and `returnAnnotation` is the unparsed return annotation.
   */
  datatype Node =
    | Import(names: seq<string>)
    | ImportFrom(fromModule: Option<string>)
    | Call(func: Callee, args: seq<Argument>)
    | FunctionDef(name: string, params: seq<Parameter>, defaults: seq<Option<string>>,
                  returnAnnotation: Option<string>, docstring: Option<string>)
    | OtherNode

  datatype Tree = Tree(walk: seq<Node>, lastExpression: Option<string>)

  /** `ast.parse`: the tree, or the text of the `SyntaxError`. */
  type Parser = string -> Result<Tree>
}
