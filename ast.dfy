/** The syntax tree the parser builds and its canonical text rendering.
    Children are owned by value, so every tree is finite and equality is
    structural. */
module Syntax {
  import opened Vocabulary
  import opened Tokens
  import opened SliceDisplay

  datatype Ast =
    | NumberExpr(number: Numeral)
    | VariableExpr(name: string)
    | BinaryExpr(op: char, lhs: Ast, rhs: Ast)
    | CallExpr(callee: string, args: seq<Ast>)
    | Prototype(name: string, params: seq<string>)
    | Function(proto: Ast, body: Ast)

  /** Expression nodes, built only from expression nodes, whose operators are
      operator characters. */
  predicate IsExpr(a: Ast)
  {
    match a
    case NumberExpr(_) => true
    case VariableExpr(_) => true
    case BinaryExpr(op, l, r) => op in SymbolOpChars && IsExpr(l) && IsExpr(r)
    case CallExpr(_, args) => AllExprs(args)
    case Prototype(_, _) => false
    case Function(_, _) => false
  }

  predicate AllExprs(args: seq<Ast>)
  {
    forall i :: 0 <= i < |args| ==> IsExpr(args[i])
  }

  /** A statement: an expression, an extern prototype, or a definition whose
      prototype part is a prototype. */
  predicate IsStatement(a: Ast)
  {
    IsExpr(a) || a.Prototype? || (a.Function? && a.proto.Prototype? && IsExpr(a.body))
  }

  /** Canonical rendering: expressions infix in parentheses, calls and
      prototypes as `name(item, item)`, functions as prototype and body on
      lines of their own. */
  function Display(a: Ast): (r: string)
    ensures a.NumberExpr? ==> r == a.number
    ensures a.VariableExpr? ==> r == a.name
    ensures a.BinaryExpr? ==> |r| >= 5 && r[0] == '(' && r[|r| - 1] == ')'
    ensures a.CallExpr? || a.Prototype? ==> |r| > 0 && r[|r| - 1] == ')'
    ensures a.Function? ==> |r| > 0 && r[|r| - 1] == '\n'
    decreases a, 1
  {
    match a
    case NumberExpr(number) => number
    case VariableExpr(name) => name
    case BinaryExpr(op, lhs, rhs) => "(" + Display(lhs) + " " + [op] + " " + Display(rhs) + ")"
    case CallExpr(callee, args) => callee + "(" + SliceText(DisplayAll(args))
    case Prototype(name, params) => name + "(" + SliceText(params)
    case Function(proto, body) => Display(proto) + "\n" + Display(body) + "\n"
  }

  /** The renderings of a list of trees, in order. */
  function DisplayAll(args: seq<Ast>): (r: seq<string>)
    ensures |r| == |args|
    ensures forall i :: 0 <= i < |args| ==> r[i] == Display(args[i])
    decreases args, 0
  {
    if |args| == 0 then [] else [Display(args[0])] + DisplayAll(args[1..])
  }

  /** Text without parentheses. */
  predicate NoParens(s: string)
  {
    '(' !in s && ')' !in s
  }

  /** Trees whose numerals, names and operators contain no parentheses, as
      in every tree built from lexed tokens. */
  predicate PlainNames(a: Ast)
  {
    match a
    case NumberExpr(number) => NoParens(number)
    case VariableExpr(name) => NoParens(name)
    case BinaryExpr(op, lhs, rhs) => op != '(' && op != ')' && PlainNames(lhs) && PlainNames(rhs)
    case CallExpr(callee, args) => NoParens(callee) && forall i :: 0 <= i < |args| ==> PlainNames(args[i])
    case Prototype(name, params) => NoParens(name) && forall i :: 0 <= i < |params| ==> NoParens(params[i])
    case Function(proto, body) => PlainNames(proto) && PlainNames(body)
  }

  lemma NoParensBalanced(s: string)
    requires NoParens(s)
    ensures Balanced(s)
  {
    assert multiset(s)['('] == 0 && multiset(s)[')'] == 0;
  }

  lemma OperatorBalanced(op: char, l: string, r: string)
    requires op != '(' && op != ')' && Balanced(l) && Balanced(r)
    ensures Balanced("(" + l + " " + [op] + " " + r + ")")
  {
    var s := "(" + l + " " + [op] + " " + r + ")";
    assert multiset(s) == multiset("(") + multiset(l) + multiset(" ") + multiset([op]) + multiset(" ") + multiset(r) + multiset(")");
  }

  lemma ListBalanced(name: string, inner: string)
    requires Balanced(name) && Balanced(inner)
    ensures Balanced(name + "(" + (inner + ")"))
  {
    assert multiset(name + "(" + (inner + ")")) == multiset(name) + multiset("(") + multiset(inner) + multiset(")");
  }

  lemma LinesBalanced(a: string, b: string)
    requires Balanced(a) && Balanced(b)
    ensures Balanced(a + "\n" + b + "\n")
  {
    assert multiset(a + "\n" + b + "\n") == multiset(a) + multiset("\n") + multiset(b) + multiset("\n");
  }

  /** Every parenthesis the rendering writes is matched: it opens one before
      each operator node and each argument or parameter list and closes it
      after. */
  lemma {:induction false} DisplayBalanced(a: Ast)
    requires PlainNames(a)
    ensures Balanced(Display(a))
    decreases a, 1
  {
    match a
    case NumberExpr(number) => NoParensBalanced(number);
    case VariableExpr(name) => NoParensBalanced(name);
    case BinaryExpr(op, lhs, rhs) =>
      DisplayBalanced(lhs);
      DisplayBalanced(rhs);
      OperatorBalanced(op, Display(lhs), Display(rhs));
    case CallExpr(callee, args) =>
      NoParensBalanced(callee);
      DisplayAllBalanced(args);
      JoinBalanced(DisplayAll(args));
      ListBalanced(callee, Join(DisplayAll(args)));
    case Prototype(name, params) =>
      NoParensBalanced(name);
      forall i | 0 <= i < |params| ensures Balanced(params[i]) {
        NoParensBalanced(params[i]);
      }
      JoinBalanced(params);
      ListBalanced(name, Join(params));
    case Function(proto, body) =>
      DisplayBalanced(proto);
      DisplayBalanced(body);
      LinesBalanced(Display(proto), Display(body));
  }

  lemma {:induction false} DisplayAllBalanced(args: seq<Ast>)
    requires forall i :: 0 <= i < |args| ==> PlainNames(args[i])
    ensures forall i :: 0 <= i < |args| ==> Balanced(DisplayAll(args)[i])
    decreases args, 0
  {
    if |args| > 0 {
      DisplayBalanced(args[0]);
      DisplayAllBalanced(args[1..]);
      forall i | 0 <= i < |args| ensures Balanced(DisplayAll(args)[i]) {
        if i > 0 {
          assert DisplayAll(args)[i] == DisplayAll(args[1..])[i - 1];
        }
      }
    }
  }
}
