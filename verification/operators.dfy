/**
  The two closed operator enumerations of the syntax tree and their canonical
  text symbols (the `Display` implementations of `src/ast.rs`), together with
  decoders that invert the symbol mapping.
 */
module Operators {
  import opened Wrappers

  datatype PrefixOperator = Bang | Minus

  datatype InfixOperator =
    | Plus
    | Minus
    | Asterisk
    | Slash
    | Equal
    | NotEqual
    | LessThan
    | GreaterThan

  /** The text `Display` writes for a prefix operator. */
  function PrefixSymbol(op: PrefixOperator): (r: string)
    ensures |r| == 1
  {
    match op
    case Bang => "!"
    case Minus => "-"
  }

  /** The text `Display` writes for an infix operator. */
  function InfixSymbol(op: InfixOperator): (r: string)
    ensures 1 <= |r| <= 2
    ensures |r| == 2 <==> op == Equal || op == NotEqual
  {
    match op
    case Plus => "+"
    case Minus => "-"
    case Asterisk => "*"
    case Slash => "/"
    case Equal => "=="
    case NotEqual => "!="
    case LessThan => "<"
    case GreaterThan => ">"
  }

  /** Reads a prefix operator back from its symbol; `None` for any other text. */
  function ParsePrefix(s: string): (r: Option<PrefixOperator>)
    ensures r.Some? ==> PrefixSymbol(r.value) == s
    ensures r.None? ==> forall op :: PrefixSymbol(op) != s
  {
    if s == "!" then Some(Bang)
    else if s == "-" then Some(PrefixOperator.Minus)
    else None
  }

  /** Reads an infix operator back from its symbol; `None` for any other text. */
  function ParseInfix(s: string): (r: Option<InfixOperator>)
    ensures r.Some? ==> InfixSymbol(r.value) == s
    ensures r.None? ==> forall op :: InfixSymbol(op) != s
  {
    if s == "+" then Some(Plus)
    else if s == "-" then Some(InfixOperator.Minus)
    else if s == "*" then Some(Asterisk)
    else if s == "/" then Some(Slash)
    else if s == "==" then Some(Equal)
    else if s == "!=" then Some(NotEqual)
    else if s == "<" then Some(LessThan)
    else if s == ">" then Some(GreaterThan)
    else None
  }

  lemma PrefixRoundTrip(op: PrefixOperator)
    ensures ParsePrefix(PrefixSymbol(op)) == Some(op)
  {
  }

  lemma InfixRoundTrip(op: InfixOperator)
    ensures ParseInfix(InfixSymbol(op)) == Some(op)
  {
  }

  /** No two prefix operators share a symbol. */
  lemma PrefixSymbolInjective(a: PrefixOperator, b: PrefixOperator)
    ensures PrefixSymbol(a) == PrefixSymbol(b) <==> a == b
  {
  }

  /** No two of the eight infix operators share a symbol. */
  lemma InfixSymbolInjective(a: InfixOperator, b: InfixOperator)
    ensures InfixSymbol(a) == InfixSymbol(b) <==> a == b
  {
  }

  /** The only symbol both enumerations use is "-", for their two `Minus` variants. */
  lemma PrefixInfixSymbolsOverlap(p: PrefixOperator, i: InfixOperator)
    ensures PrefixSymbol(p) == InfixSymbol(i) <==> p == PrefixOperator.Minus && i == InfixOperator.Minus
  {
  }

  /** An operator of either class, as a diagnostics printer sees it. */
  datatype Operator = PrefixOp(PrefixOperator) | InfixOp(InfixOperator)

  /** Which of the two enumerations a symbol is to be read as. */
  datatype OperatorClass = PrefixClass | InfixClass

  function ClassOf(o: Operator): OperatorClass
  {
    match o
    case PrefixOp(_) => PrefixClass
    case InfixOp(_) => InfixClass
  }

  function OperatorSymbol(o: Operator): string
  {
    match o
    case PrefixOp(p) => PrefixSymbol(p)
    case InfixOp(i) => InfixSymbol(i)
  }

  /** A decoder indexed by the operator class the caller expects. */
  function ParseOperator(c: OperatorClass, s: string): (r: Option<Operator>)
    ensures r.Some? ==> ClassOf(r.value) == c && OperatorSymbol(r.value) == s
    ensures r.None? ==> forall o :: ClassOf(o) == c ==> OperatorSymbol(o) != s
  {
    match c
    case PrefixClass =>
      (match ParsePrefix(s)
       case Some(p) => Some(PrefixOp(p))
       case None => None)
    case InfixClass =>
      (match ParseInfix(s)
       case Some(i) => Some(InfixOp(i))
       case None => None)
  }

  /** Knowing the class, every operator of either enumeration is recovered from its symbol. */
  lemma ClassedRoundTrip(o: Operator)
    ensures ParseOperator(ClassOf(o), OperatorSymbol(o)) == Some(o)
  {
  }

  /** Without the class, no decoder can recover every operator: the two `Minus` variants collide. */
  lemma NoClassFreeDecoder(decode: string -> Option<Operator>)
    ensures exists o :: decode(OperatorSymbol(o)) != Some(o)
  {
    var p := PrefixOp(PrefixOperator.Minus);
    var i := InfixOp(InfixOperator.Minus);
    assert OperatorSymbol(p) == OperatorSymbol(i);
    if decode(OperatorSymbol(p)) == Some(p) {
      assert decode(OperatorSymbol(i)) != Some(i);
    } else {
      assert decode(OperatorSymbol(p)) != Some(p);
    }
  }
}
