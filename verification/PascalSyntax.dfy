/** Structured Pascal statements, as the control-flow builder sees them. */
module PascalSyntax {
  import opened ExceptionTypes

  datatype Option<+T> = None | Some(value: T)

  /** Identity of one statement reference (a source byte range). */
  type StmtId = nat

  /** Identity of one syntactic `try..finally`. */
  type ScopeId = nat

  /**
    `Raise` names the class its constructor is proven to build, if any; `evaluates` says that
    computing the exception object can itself raise. `Repeat` carries the references of its
    keyword and of its condition.
    */
  datatype Stmt =
    | Simple(id: StmtId)
    | Raise(id: StmtId, constructed: Option<TypeId>, spelling: Option<string>, evaluates: bool)
    | Reraise(id: StmtId)
    | Exit(id: StmtId, hasArgument: bool)
    | Break(id: StmtId)
    | Continue(id: StmtId)
    | Block(body: seq<Stmt>)
    | IfElse(id: StmtId, thenBody: seq<Stmt>, elseBody: seq<Stmt>)
    | IfOnly(id: StmtId, thenBody: seq<Stmt>)
    | Loop(id: StmtId, body: seq<Stmt>)
    | Repeat(keyword: StmtId, condition: StmtId, body: seq<Stmt>)
    | Case(id: StmtId, arms: seq<Arm>, fallback: Fallback)
    | With(id: StmtId, body: seq<Stmt>)
    | TryFinally(scope: ScopeId, body: seq<Stmt>, cleanup: seq<Stmt>)
    | TryExcept(body: seq<Stmt>, handlers: seq<Handler>)

  datatype Arm = Arm(body: seq<Stmt>)

  /** The `else` part of a `case`, if present. */
  datatype Fallback = NoFallback | Fallback(body: seq<Stmt>)

  /** `Typed` names a class; `resolved` says whether the type index found that class. */
  datatype Handler =
    | Typed(declared: TypeId, resolved: bool, body: seq<Stmt>)
    | CatchAll(body: seq<Stmt>)

  /** What the type index knows about the class a handler names. */
  function HandlerFact(h: Handler): Fact {
    if h.Typed? && h.resolved then Known(h.declared) else Unknown
  }

  /** What the type index knows about the class a raise statement constructs. */
  function RaisedFact(constructed: Option<TypeId>): Fact {
    if constructed.Some? then Known(constructed.value) else Unknown
  }

  function LowerChar(c: char): char {
    if 'A' <= c <= 'Z' then c - 'A' + 'a' else c
  }

  /** ASCII lower case; Pascal names compare without case. */
  function Lower(s: string): string {
    seq(|s|, i requires 0 <= i < |s| => LowerChar(s[i]))
  }

  function LowerName(name: Option<string>): Option<string> {
    if name.Some? then Some(Lower(name.value)) else None
  }
}
