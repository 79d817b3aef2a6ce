/**
  The slice of the ESTree syntax tree both rules look at. The host parser and
  its visitor are not modelled: a test case arrives already reduced to the
  shapes below, with node kinds as a closed sum type instead of the `type`
  strings the rules compare.
 */
module Syntax {

  /** The source lines a node or comment occupies, both ends inclusive. */
  datatype Span = Span(startLine: int, endLine: int) {
    predicate Covers(line: int) {
      startLine <= line <= endLine
    }
  }

  /** A comment token: its text without the comment markers, and its lines. */
  datatype Comment = Comment(value: string, loc: Span)

  /** A block statement: the spans of its top-level statements, in source
      order, and every comment found inside it (nested ones included). */
  datatype Block = Block(statements: seq<Span>, comments: seq<Comment>)

  /** The implementation argument of a call, in the four shapes that matter. */
  datatype Argument =
    | ArrowBlock(block: Block)          // `() => { ... }`
    | ArrowExpression                   // `() => expr`
    | FunctionExpression(block: Block)  // `function () { ... }`
    | OtherArgument                     // anything else, a spread included

  /** The callee of a call expression. A member access whose object is not a
      plain identifier (`a.b.c()`, `f().g()`) is an `OtherCallee`. */
  datatype Callee =
    | Identifier(name: string)              // `f(...)`
    | MemberOfIdentifier(objectName: string) // `x.m(...)`
    | OtherCallee
  {
    /** The test-registration callee: the bare identifier `it`. */
    predicate IsIt() {
      this == Identifier("it")
    }
  }

  datatype CallExpression = CallExpression(callee: Callee, arguments: seq<Argument>)

  /** A reported problem; it always targets the test-case call being checked. */
  datatype Diagnostic = Diagnostic(message: string)

}
