/**
 * The condition compiler of ActiveQuery: a condition tree (operator form or hash form)
 * compiled into one Xunsearch query string.
 *
 * A PHP condition is a scalar or an array. An array whose element 0 is set is in operator
 * form `[op, operand, ...]`; any other non-empty array is in hash form `column => value`;
 * the empty array is `Hash([])`.
 */
module Conditions {
  import opened Wrappers
  import opened Values

  datatype Cond =
    | Atom(v: Scalar)
    | OpForm(op: string, operands: seq<Cond>)
    | Hash(pairs: seq<(string, Cond)>)

  /**
   * `buildInCondition($operator, $operands, $params)`. The method is called by the compiler
   * but not defined in ActiveQuery, so it is a parameter: any output, any failure.
   */
  type InBuilder = (string, seq<Cond>) -> Result<string>

  /** `is_array`. */
  predicate IsArray(c: Cond)
  {
    !c.Atom?
  }

  /** `strtoupper` on one character: ASCII letters only. */
  function UpperChar(c: char): char
  {
    if 'a' <= c <= 'z' then (c as int - 32) as char else c
  }

  function Upper(s: string): string
  {
    seq(|s|, k requires 0 <= k < |s| => UpperChar(s[k]))
  }

  /** The builder methods of `$conditionBuilders`, and the fallback `buildSimpleCondition`. */
  datatype Handler = NotHandler | AndHandler | InHandler | WildHandler | SimpleHandler

  /** The lookup in `$conditionBuilders` of an operator already upper-cased. */
  function HandlerFor(operator: string): Handler
  {
    if operator == "NOT" then NotHandler
    else if operator == "AND" || operator == "OR" then AndHandler
    else if operator == "IN" || operator == "NOT IN" then InHandler
    else if operator == "WILD" then WildHandler
    else SimpleHandler
  }

  /** `implode($sep, $parts)`. */
  function Join(parts: seq<string>, sep: string): string
  {
    if parts == [] then ""
    else if |parts| == 1 then parts[0]
    else parts[0] + sep + Join(parts[1..], sep)
  }

  /** How `implode` prints an operand it was given uncompiled: an array prints as "Array". */
  function OperandString(c: Cond): string
  {
    if c.Atom? then StrOf(c.v) else "Array"
  }

  function OperandStrings(cs: seq<Cond>): seq<string>
  {
    seq(|cs|, k requires 0 <= k < |cs| => OperandString(cs[k]))
  }

  /**
   * Whether the AND, NOT and WILD builders keep an operand whose compiled form is s: the test
   * is `$operand !== ''` on the original value for a scalar (so null and false are kept) and
   * on the compiled string for an array.
   */
  predicate Kept(operand: Cond, s: string)
  {
    if operand.Atom? then operand.v != Str("") else s != ""
  }

  function NotArityMessage(operator: string): string
  {
    "Operator '" + operator + "' requires exactly one operand."
  }

  /** `buildCondition`: the dispatch on the shape of the condition and on its operator. */
  function BuildCondition(c: Cond, inb: InBuilder): Result<string>
    decreases c
  {
    match c
    case Atom(v) => Ok(StrOf(v))
    case Hash(pairs) => if pairs == [] then Ok("") else BuildHashCondition(pairs, inb)
    case OpForm(op, operands) =>
      var operator := Upper(op);
      match HandlerFor(operator)
      case NotHandler =>
        if |operands| != 1 then Err(InvalidParam(NotArityMessage(operator)))
        else (
          match BuildCondition(operands[0], inb)
          case Err(e) => Err(e)
          case Ok(s) => Ok(BuildNotCondition(operator, operands[0], s)))
      case AndHandler =>
        (match CompiledParts(operands, inb)
         case Err(e) => Err(e)
         case Ok(parts) => Ok(BuildAndCondition(operator, parts)))
      case InHandler => inb(operator, operands)
      case WildHandler =>
        (match CompiledParts(operands, inb)
         case Err(e) => Err(e)
         case Ok(parts) => Ok(BuildWildCondition(operands, parts)))
      case SimpleHandler => Ok(BuildSimpleCondition(operator, operands))
  }

  /**
   * The `$parts` loop shared by the AND/OR and WILD builders: each operand compiled in order
   * (the first failure propagates), the ones that are not Kept dropped.
   */
  function CompiledParts(operands: seq<Cond>, inb: InBuilder): (r: Result<seq<string>>)
    ensures r.Ok? ==> |r.value| <= |operands|
    decreases operands
  {
    if operands == [] then Ok([])
    else
      match BuildCondition(operands[0], inb)
      case Err(e) => Err(e)
      case Ok(s) =>
        match CompiledParts(operands[1..], inb)
        case Err(e) => Err(e)
        case Ok(rest) => Ok((if Kept(operands[0], s) then [s] else []) + rest)
  }

  /** `buildNotCondition` once the single operand has been compiled to s. */
  function BuildNotCondition(operator: string, operand: Cond, s: string): (r: string)
    ensures r == "" <==> !Kept(operand, s)
  {
    if Kept(operand, s) then operator + " (" + s + ")" else ""
  }

  /** `buildAndCondition` once the kept parts are known. */
  function BuildAndCondition(operator: string, parts: seq<string>): (r: string)
    ensures r == "" <==> parts == []
    ensures parts != [] ==> r[0] == '(' && r[|r| - 1] == ')'
  {
    if parts != [] then "(" + Join(parts, ") " + operator + " (") + ")" else ""
  }

  /**
   * `buildWildCondition`: the kept parts decide emptiness only; the original operands are
   * emitted, so a single kept operand is printed as it was given, an array as "Array".
   */
  function BuildWildCondition(operands: seq<Cond>, parts: seq<string>): (r: string)
    ensures r != "" ==> parts != []
    ensures parts != [] && |operands| == 1 ==> r == OperandString(operands[0])
  {
    if parts != [] then Join(OperandStrings(operands), " ") else ""
  }

  /** `buildSimpleCondition`: the operator and the uncompiled operands, space separated. */
  function BuildSimpleCondition(operator: string, operands: seq<Cond>): (r: string)
    ensures |r| > |operator|
    ensures r[..|operator| + 1] == operator + " "
  {
    operator + " " + Join(OperandStrings(operands), " ")
  }

  /** The per-column fragment of `buildHashCondition`, none for a null value. */
  function HashPart(column: string, value: Cond, inb: InBuilder): (r: Result<seq<string>>)
    ensures r.Ok? ==> |r.value| == (if value == Atom(Null) then 0 else 1)
  {
    if IsArray(value) then
      match inb("IN", [Atom(Str(column)), value])
      case Err(e) => Err(e)
      case Ok(f) => Ok([f])
    else if value.v == Null then Ok([])
    else Ok([column + ":" + StrOf(value.v)])
  }

  /** The `$parts` loop of `buildHashCondition`, in the array's order; the first failure propagates. */
  function HashParts(pairs: seq<(string, Cond)>, inb: InBuilder): (r: Result<seq<string>>)
    ensures r.Ok? ==> |r.value| <= |pairs|
  {
    if pairs == [] then Ok([])
    else
      match HashPart(pairs[0].0, pairs[0].1, inb)
      case Err(e) => Err(e)
      case Ok(head) =>
        match HashParts(pairs[1..], inb)
        case Err(e) => Err(e)
        case Ok(rest) => Ok(head + rest)
  }

  /** `buildHashCondition`: one part bare, any other number of parts (zero included) wrapped and AND-joined. */
  function BuildHashCondition(pairs: seq<(string, Cond)>, inb: InBuilder): Result<string>
  {
    match HashParts(pairs, inb)
    case Err(e) => Err(e)
    case Ok(parts) => Ok(if |parts| == 1 then parts[0] else "(" + Join(parts, ") AND (") + ")")
  }

  /** `buildWhere`: the compiled condition; its `=== '' ? '' :` test changes nothing. */
  function BuildWhere(condition: Cond, inb: InBuilder): (r: Result<string>)
    ensures r == BuildCondition(condition, inb)
  {
    match BuildCondition(condition, inb)
    case Err(e) => Err(e)
    case Ok(w) => Ok(if w == "" then "" else w)
  }
}
