// Shared vocabulary of the compiler: data types, symbol natures, lexical
// tokens and the fatal semantic errors with the process exit codes they
// produce.

module Types {

  datatype Option<T> = None | Some(value: T)

  /** A semantic action either builds its value or stops the compiler with an error. */
  datatype Result<T> = Ok(value: T) | Err(error: ErrorKind)

  /** TIPO_INDEF, TIPO_INT, TIPO_DEC. */
  datatype DataType = Indef | Int | Dec

  /** NAT_INDEF, NAT_LITERAL, NAT_IDENTIFICADOR, NAT_FUNCAO. */
  datatype Nature = NatIndef | Literal | Identifier | Function

  /** The scanner's lexical value: line number, token class tag and lexeme. */
  datatype Token = Token(line: int, kind: int, text: string)

  /**
   * The fatal conditions the semantic checks report. Every one of them ends
   * the compiler; `Internal` is the uninitialised-stack condition of
   * `symbol_insert`, which exits with status 1. `NullRegister` is not a
   * reported error: it is an operand built from a node that holds no
   * register (a call), whose null name `strdup` dereferences.
   */
  datatype ErrorKind =
    | Undeclared(name: string, line: int)
    | Declared(name: string, line: int, previousLine: int)
    | VariableAsFunction(name: string, line: int)
    | FunctionAsVariable(name: string, line: int)
    | WrongTypeBinaryOp(line: int, left: DataType, right: DataType, op: string)
    | WrongTypeAssignment(name: string, line: int, varType: DataType, exprType: DataType)
    | WrongTypeInitialization(name: string, line: int, varType: DataType, initType: DataType)
    | WrongTypeReturnExpr(line: int, exprType: DataType, declaredType: DataType)
    | WrongTypeReturnFunc(line: int, declaredType: DataType, functionType: DataType)
    | WrongTypeIfElse(line: int, ifType: DataType, elseType: DataType)
    | MissingArgs(name: string, line: int, expected: int, provided: int)
    | ExcessArgs(name: string, line: int, expected: int, provided: int)
    | WrongTypeArgs(name: string, line: int, index: int, paramType: DataType, argType: DataType)
    | Internal
    | NullRegister(line: int)

  /**
   * The exit status of each error kind: the ERR_* constants, 1 for the
   * internal error, and for a null register the status a shell reports for
   * the segmentation fault (128 + SIGSEGV).
   */
  function ExitCode(e: ErrorKind): (code: int)
    ensures code == 1 <==> e.Internal?
    ensures code == 30 <==> (e.WrongTypeBinaryOp? || e.WrongTypeAssignment? || e.WrongTypeInitialization?
                            || e.WrongTypeReturnExpr? || e.WrongTypeReturnFunc? || e.WrongTypeIfElse?)
    ensures e.Undeclared? || e.Declared? <==> 10 <= code <= 11
    ensures e.VariableAsFunction? || e.FunctionAsVariable? <==> 20 <= code <= 21
    ensures e.MissingArgs? || e.ExcessArgs? || e.WrongTypeArgs? <==> 40 <= code <= 42
    ensures code == 139 <==> e.NullRegister?
  {
    match e
    case Undeclared(_, _) => 10
    case Declared(_, _, _) => 11
    case VariableAsFunction(_, _) => 20
    case FunctionAsVariable(_, _) => 21
    case WrongTypeBinaryOp(_, _, _, _) => 30
    case WrongTypeAssignment(_, _, _, _) => 30
    case WrongTypeInitialization(_, _, _, _) => 30
    case WrongTypeReturnExpr(_, _, _) => 30
    case WrongTypeReturnFunc(_, _, _) => 30
    case WrongTypeIfElse(_, _, _) => 30
    case MissingArgs(_, _, _, _) => 40
    case ExcessArgs(_, _, _, _) => 41
    case WrongTypeArgs(_, _, _, _, _) => 42
    case Internal => 1
    case NullRegister(_) => 139
  }
}
