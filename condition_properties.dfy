/** What the condition compiler guarantees, stated over all inputs. */
module ConditionProperties {
  import opened Wrappers
  import opened Values
  import opened Conditions

  // ---------------------------------------------------------------------------------------
  // implode and strtoupper
  // ---------------------------------------------------------------------------------------

  lemma {:induction false} JoinAppend(a: seq<string>, b: seq<string>, sep: string)
    requires a != [] && b != []
    ensures Join(a + b, sep) == Join(a, sep) + sep + Join(b, sep)
  {
    assert (a + b)[0] == a[0];
    if |a| == 1 {
      assert (a + b)[1..] == b;
    } else {
      assert (a + b)[1..] == a[1..] + b;
      JoinAppend(a[1..], b, sep);
    }
  }

  lemma UpperIdempotent(s: string)
    ensures Upper(Upper(s)) == Upper(s)
  {
  }

  /** The operator token is matched case-insensitively: only its upper-cased form matters. */
  lemma OperatorCaseInsensitive(op: string, operands: seq<Cond>, inb: InBuilder)
    ensures BuildCondition(OpForm(op, operands), inb) == BuildCondition(OpForm(Upper(op), operands), inb)
  {
    UpperIdempotent(op);
  }

  // ---------------------------------------------------------------------------------------
  // String identities
  //
  // Plain facts about concatenation, which Dafny proves unaided. They are stated apart so that
  // the lemmas about the compiler below need not rediscover them in a larger context, which
  // keeps those proofs cheap for the solver.
  // ---------------------------------------------------------------------------------------

  lemma WrapChain(x: string, y: string, name: string)
    ensures "(" + (x + (") " + name + " (") + y) + ")" == ("(" + x + ")") + " " + name + " " + ("(" + y + ")")
  {
  }

  lemma ThreeChain(a: string, b: string, c: string, name: string)
    ensures ("(" + a + ")") + " " + name + " " + (("(" + b + ")") + " " + name + " " + ("(" + c + ")"))
            == "(" + a + ") " + name + " (" + b + ") " + name + " (" + c + ")"
  {
  }

  lemma NotMessage()
    ensures NotArityMessage("NOT") == "Operator 'NOT' requires exactly one operand."
  {
  }

  lemma WildJoin()
    ensures Join(OperandStrings([Atom(Str("a")), Atom(Str("")), Atom(Str("b"))]), " ") == "a  b"
  {
    var strs := OperandStrings([Atom(Str("a")), Atom(Str("")), Atom(Str("b"))]);
    assert strs == ["a", "", "b"];
    assert strs[1..] == ["", "b"] && strs[1..][1..] == ["b"];
    assert Join(strs, " ") == "a" + " " + ("" + " " + "b");
  }

  lemma TwoColumnsString(c1: string, s1: string, c2: string, s2: string)
    ensures "(" + ((c1 + ":" + s1) + ") AND (" + (c2 + ":" + s2)) + ")"
            == "(" + c1 + ":" + s1 + ") AND (" + c2 + ":" + s2 + ")"
  {
  }

  // ---------------------------------------------------------------------------------------
  // Scalars and the empty array
  // ---------------------------------------------------------------------------------------

  /** A scalar compiles to its string cast; the empty array to "". Neither can fail. */
  lemma LiteralAndEmpty(v: Scalar, inb: InBuilder)
    ensures BuildCondition(Atom(v), inb) == Ok(StrOf(v))
    ensures BuildCondition(Hash([]), inb) == Ok("")
  {
  }

  /**
   * The scalars the AND/OR, NOT and WILD builders keep although they print empty: the test is
   * `!== ''` on the original value, so null and false pass it and then cast to "".
   */
  lemma KeptButPrintsEmpty(v: Scalar)
    ensures Kept(Atom(v), StrOf(v)) && StrOf(v) == "" <==> v == Null || v == Bool(false)
  {
    StrOfEmpty(v);
  }

  // ---------------------------------------------------------------------------------------
  // The operand loop shared by AND/OR and WILD
  // ---------------------------------------------------------------------------------------

  /** An operand the AND, NOT and WILD builders drop: it compiles, and is not Kept. */
  predicate Dropped(e: Cond, inb: InBuilder)
  {
    BuildCondition(e, inb).Ok? && !Kept(e, BuildCondition(e, inb).value)
  }

  /** Running two loops one after the other: the first failure wins, otherwise the parts concatenate. */
  function Then(first: Result<seq<string>>, second: Result<seq<string>>): Result<seq<string>>
  {
    match first
    case Err(e) => Err(e)
    case Ok(a) => (match second case Err(e) => Err(e) case Ok(b) => Ok(a + b))
  }

  lemma {:induction false} PartsAppend(xs: seq<Cond>, ys: seq<Cond>, inb: InBuilder)
    ensures CompiledParts(xs + ys, inb) == Then(CompiledParts(xs, inb), CompiledParts(ys, inb))
  {
    if xs == [] {
      assert xs + ys == ys;
      match CompiledParts(ys, inb)
      case Err(_) =>
      case Ok(b) => assert [] + b == b;
    } else {
      assert (xs + ys)[0] == xs[0];
      assert (xs + ys)[1..] == xs[1..] + ys;
      PartsAppend(xs[1..], ys, inb);
      match BuildCondition(xs[0], inb)
      case Err(_) =>
      case Ok(s) =>
        var head := if Kept(xs[0], s) then [s] else [];
        match CompiledParts(xs[1..], inb)
        case Err(_) =>
        case Ok(a) =>
          match CompiledParts(ys, inb)
          case Err(_) =>
          case Ok(b) => assert head + (a + b) == (head + a) + b;
    }
  }

  /** The loop keeps nothing exactly when every operand is dropped. */
  lemma {:induction false} PartsEmptyIff(operands: seq<Cond>, inb: InBuilder)
    requires CompiledParts(operands, inb).Ok?
    ensures CompiledParts(operands, inb).value == [] <==>
              forall k :: 0 <= k < |operands| ==> Dropped(operands[k], inb)
  {
    if operands != [] {
      var tail := operands[1..];
      PartsEmptyIff(tail, inb);
      assert forall k :: 1 <= k < |operands| ==> operands[k] == tail[k - 1];
    }
  }

  /** The loop fails with the failure of the first operand that fails. */
  lemma {:induction false} PartsFirstError(operands: seq<Cond>, i: nat, inb: InBuilder, e: Error)
    requires i < |operands|
    requires forall j :: 0 <= j < i ==> BuildCondition(operands[j], inb).Ok?
    requires BuildCondition(operands[i], inb) == Err(e)
    ensures CompiledParts(operands, inb) == Err(e)
  {
    if i > 0 {
      var tail := operands[1..];
      assert forall j :: 0 <= j < i - 1 ==> tail[j] == operands[j + 1];
      PartsFirstError(tail, i - 1, inb, e);
      assert BuildCondition(operands[0], inb).Ok?;
    }
  }

  // ---------------------------------------------------------------------------------------
  // AND / OR
  // ---------------------------------------------------------------------------------------

  /** AND/OR give "" exactly when every operand is dropped. */
  lemma AndEmptyIff(op: string, operands: seq<Cond>, inb: InBuilder)
    requires HandlerFor(Upper(op)) == AndHandler
    requires CompiledParts(operands, inb).Ok?
    ensures BuildCondition(OpForm(op, operands), inb) == Ok("") <==>
              forall k :: 0 <= k < |operands| ==> Dropped(operands[k], inb)
  {
    PartsEmptyIff(operands, inb);
  }

  /** A dropped operand, wherever it stands, leaves AND/OR unchanged. */
  lemma AndDropsOperand(op: string, xs: seq<Cond>, e: Cond, ys: seq<Cond>, inb: InBuilder)
    requires HandlerFor(Upper(op)) == AndHandler
    requires Dropped(e, inb)
    ensures BuildCondition(OpForm(op, xs + [e] + ys), inb) == BuildCondition(OpForm(op, xs + ys), inb)
  {
    assert CompiledParts([e], inb) == Ok([]) by {
      assert [e][1..] == [];
      assert [e][0] == e;
    }
    PartsAppend(xs + [e], ys, inb);
    PartsAppend(xs, [e], inb);
    PartsAppend(xs, ys, inb);
    match CompiledParts(xs, inb)
    case Err(_) =>
    case Ok(a) => assert a + [] == a;
  }

  /** AND/OR fail with the failure of their first failing operand. */
  lemma AndFirstError(op: string, operands: seq<Cond>, i: nat, inb: InBuilder, e: Error)
    requires HandlerFor(Upper(op)) == AndHandler
    requires i < |operands|
    requires forall j :: 0 <= j < i ==> BuildCondition(operands[j], inb).Ok?
    requires BuildCondition(operands[i], inb) == Err(e)
    ensures BuildCondition(OpForm(op, operands), inb) == Err(e)
  {
    PartsFirstError(operands, i, inb, e);
  }

  /** One kept operand is wrapped in one pair of parentheses. */
  lemma AndSingle(op: string, e: Cond, s: string, inb: InBuilder)
    requires HandlerFor(Upper(op)) == AndHandler
    requires BuildCondition(e, inb) == Ok(s) && Kept(e, s)
    ensures BuildCondition(OpForm(op, [e]), inb) == Ok("(" + s + ")")
  {
    assert [e][1..] == [] && [e][0] == e;
    assert [s] + [] == [s];
    assert CompiledParts([e], inb) == Ok([s]);
  }

  /** The AND/OR case of the dispatch. */
  lemma AndUnfold(op: string, operands: seq<Cond>, inb: InBuilder)
    requires HandlerFor(Upper(op)) == AndHandler
    ensures BuildCondition(OpForm(op, operands), inb) ==
              match CompiledParts(operands, inb)
              case Err(e) => Err(e)
              case Ok(parts) => Ok(BuildAndCondition(Upper(op), parts))
  {
  }

  /**
   * The chain is flat: the operands of two non-empty AND/ORs compile, side by side, to the two
   * outputs joined by the operator, with no further parentheses around either.
   */
  lemma AndConcat(op: string, xs: seq<Cond>, ys: seq<Cond>, inb: InBuilder, a: string, b: string)
    requires HandlerFor(Upper(op)) == AndHandler
    requires BuildCondition(OpForm(op, xs), inb) == Ok(a) && a != ""
    requires BuildCondition(OpForm(op, ys), inb) == Ok(b) && b != ""
    ensures BuildCondition(OpForm(op, xs + ys), inb) == Ok(a + " " + Upper(op) + " " + b)
  {
    AndUnfold(op, xs, inb);
    AndUnfold(op, ys, inb);
    AndUnfold(op, xs + ys, inb);
    var sep := ") " + Upper(op) + " (";
    var px, py := CompiledParts(xs, inb).value, CompiledParts(ys, inb).value;
    PartsAppend(xs, ys, inb);
    JoinAppend(px, py, sep);
    WrapChain(Join(px, sep), Join(py, sep), Upper(op));
  }

  /** Three non-empty literals give one flat chain: `(a) AND (b) AND (c)`. */
  lemma AndThree(op: string, a: string, b: string, c: string, inb: InBuilder)
    requires HandlerFor(Upper(op)) == AndHandler
    requires a != "" && b != "" && c != ""
    ensures BuildCondition(OpForm(op, [Atom(Str(a)), Atom(Str(b)), Atom(Str(c))]), inb)
            == Ok("(" + a + ") " + Upper(op) + " (" + b + ") " + Upper(op) + " (" + c + ")")
  {
    var x, y, z := Atom(Str(a)), Atom(Str(b)), Atom(Str(c));
    AndSingle(op, x, a, inb);
    AndSingle(op, y, b, inb);
    AndSingle(op, z, c, inb);
    AndConcat(op, [y], [z], inb, "(" + b + ")", "(" + c + ")");
    assert [y] + [z] == [y, z];
    var bc := ("(" + b + ")") + " " + Upper(op) + " " + ("(" + c + ")");
    AndConcat(op, [x], [y, z], inb, "(" + a + ")", bc);
    assert [x] + [y, z] == [x, y, z];
    ThreeChain(a, b, c, Upper(op));
  }

  /** A null operand is kept: its empty cast is still wrapped. */
  lemma OrKeepsNull(a: string, inb: InBuilder)
    requires a != ""
    ensures BuildCondition(OpForm("OR", [Atom(Str(a)), Atom(Null)]), inb) == Ok("(" + a + ") OR ()")
  {
    assert Upper("OR") == "OR";
    var ops := [Atom(Str(a)), Atom(Null)];
    assert ops[1..] == [Atom(Null)] && ops[1..][1..] == [];
    assert CompiledParts(ops[1..], inb) == Ok([""]) by {
      assert [""] + [] == [""];
    }
    assert CompiledParts(ops, inb) == Ok([a, ""]) by {
      assert [a] + [""] == [a, ""];
    }
    assert [a, ""][1..] == [""];
    assert Join([a, ""], ") OR (") == a + ") OR (" + "";
    assert ") " + "OR" + " (" == ") OR (";
    assert "(" + (a + ") OR (" + "") + ")" == "(" + a + ") OR ()";
  }

  // ---------------------------------------------------------------------------------------
  // NOT
  // ---------------------------------------------------------------------------------------

  /** NOT with any operand count but one fails, whatever the operands are. */
  lemma NotArity(op: string, operands: seq<Cond>, inb: InBuilder)
    requires HandlerFor(Upper(op)) == NotHandler && |operands| != 1
    ensures BuildCondition(OpForm(op, operands), inb)
            == Err(InvalidParam("Operator 'NOT' requires exactly one operand."))
  {
    assert Upper(op) == "NOT";
    NotMessage();
  }

  /** NOT of one operand: "" when the operand is dropped, otherwise `NOT (operand)`; failures propagate. */
  lemma NotSingle(op: string, e: Cond, inb: InBuilder)
    requires HandlerFor(Upper(op)) == NotHandler
    ensures BuildCondition(e, inb).Err? ==> BuildCondition(OpForm(op, [e]), inb) == BuildCondition(e, inb)
    ensures Dropped(e, inb) ==> BuildCondition(OpForm(op, [e]), inb) == Ok("")
    ensures BuildCondition(e, inb).Ok? && !Dropped(e, inb) ==>
              BuildCondition(OpForm(op, [e]), inb) == Ok("NOT (" + BuildCondition(e, inb).value + ")")
  {
    assert Upper(op) == "NOT";
    assert [e][0] == e;
    if BuildCondition(e, inb).Ok? {
      var s := BuildCondition(e, inb).value;
      assert "NOT" + " (" + s + ")" == "NOT (" + s + ")";
    }
  }

  // ---------------------------------------------------------------------------------------
  // WILD
  // ---------------------------------------------------------------------------------------

  /** WILD is "" when every operand is dropped, and otherwise the ORIGINAL operands space-joined. */
  lemma WildRaw(op: string, operands: seq<Cond>, inb: InBuilder)
    requires HandlerFor(Upper(op)) == WildHandler
    requires CompiledParts(operands, inb).Ok?
    ensures BuildCondition(OpForm(op, operands), inb) ==
              Ok(if forall k :: 0 <= k < |operands| ==> Dropped(operands[k], inb) then ""
                 else Join(OperandStrings(operands), " "))
  {
    PartsEmptyIff(operands, inb);
  }

  /** A composite operand of WILD is emitted as "Array", not as its compiled form. */
  lemma WildEmitsArray(inb: InBuilder)
    ensures BuildCondition(OpForm("WILD", [OpForm("AND", [Atom(Str("a"))])]), inb) == Ok("Array")
  {
    var inner := OpForm("AND", [Atom(Str("a"))]);
    assert Upper("AND") == "AND" && Upper("WILD") == "WILD";
    assert [Atom(Str("a"))][1..] == [] && [Atom(Str("a"))][0] == Atom(Str("a"));
    assert ["a"] + [] == ["a"];
    assert CompiledParts([Atom(Str("a"))], inb) == Ok(["a"]);
    assert BuildCondition(inner, inb) == Ok("(a)") by {
      assert "(" + "a" + ")" == "(a)";
    }
    assert [inner][1..] == [] && [inner][0] == inner;
    assert ["(a)"] + [] == ["(a)"];
    assert CompiledParts([inner], inb) == Ok(["(a)"]);
    assert OperandStrings([inner]) == ["Array"];
  }

  /** An empty-string operand of WILD is not dropped from the output: it leaves a double space. */
  lemma WildKeepsEmptyInOutput(inb: InBuilder)
    ensures BuildCondition(OpForm("WILD", [Atom(Str("a")), Atom(Str("")), Atom(Str("b"))]), inb) == Ok("a  b")
  {
    var ops := [Atom(Str("a")), Atom(Str("")), Atom(Str("b"))];
    assert Upper("WILD") == "WILD";
    assert ops[1..] == [Atom(Str("")), Atom(Str("b"))];
    assert ops[1..][1..] == [Atom(Str("b"))];
    assert ops[1..][1..][1..] == [];
    assert CompiledParts(ops, inb).Ok?;
    assert !Dropped(ops[0], inb);
    WildRaw("WILD", ops, inb);
    WildJoin();
  }

  // ---------------------------------------------------------------------------------------
  // Simple (unknown) operators and IN
  // ---------------------------------------------------------------------------------------

  /** An unknown operator passes through upper-cased, its operands uncompiled; it never fails. */
  lemma UnknownOperatorPassThrough(op: string, operands: seq<Cond>, inb: InBuilder)
    requires HandlerFor(Upper(op)) == SimpleHandler
    ensures BuildCondition(OpForm(op, operands), inb) == Ok(Upper(op) + " " + Join(OperandStrings(operands), " "))
  {
  }

  /** IN and NOT IN hand their operands, unchanged, to the IN builder. */
  lemma InDelegates(op: string, operands: seq<Cond>, inb: InBuilder)
    requires HandlerFor(Upper(op)) == InHandler
    ensures BuildCondition(OpForm(op, operands), inb) == inb(Upper(op), operands)
  {
  }

  // ---------------------------------------------------------------------------------------
  // Hash form
  // ---------------------------------------------------------------------------------------

  /** The number of pairs whose value is not null. */
  function NonNullCount(pairs: seq<(string, Cond)>): nat
  {
    if pairs == [] then 0 else (if pairs[0].1 == Atom(Null) then 0 else 1) + NonNullCount(pairs[1..])
  }

  /** One part per non-null pair, nulls omitted. */
  lemma {:induction false} HashPartsCount(pairs: seq<(string, Cond)>, inb: InBuilder)
    requires HashParts(pairs, inb).Ok?
    ensures |HashParts(pairs, inb).value| == NonNullCount(pairs)
  {
    if pairs != [] {
      HashPartsCount(pairs[1..], inb);
    }
  }

  lemma {:induction false} HashPartsAppend(xs: seq<(string, Cond)>, ys: seq<(string, Cond)>, inb: InBuilder)
    ensures HashParts(xs + ys, inb) == Then(HashParts(xs, inb), HashParts(ys, inb))
  {
    if xs == [] {
      assert xs + ys == ys;
      match HashParts(ys, inb)
      case Err(_) =>
      case Ok(b) => assert [] + b == b;
    } else {
      assert (xs + ys)[0] == xs[0];
      assert (xs + ys)[1..] == xs[1..] + ys;
      HashPartsAppend(xs[1..], ys, inb);
      match HashPart(xs[0].0, xs[0].1, inb)
      case Err(_) =>
      case Ok(head) =>
        match HashParts(xs[1..], inb)
        case Err(_) =>
        case Ok(a) =>
          match HashParts(ys, inb)
          case Err(_) =>
          case Ok(b) => assert head + (a + b) == (head + a) + b;
    }
  }

  /** A null-valued pair contributes nothing to the parts, wherever it stands. */
  lemma HashSkipsNull(xs: seq<(string, Cond)>, column: string, ys: seq<(string, Cond)>, inb: InBuilder)
    ensures HashParts(xs + [(column, Atom(Null))] + ys, inb) == HashParts(xs + ys, inb)
  {
    assert HashParts([(column, Atom(Null))], inb) == Ok([]) by {
      assert [(column, Atom(Null))][1..] == [];
    }
    HashPartsAppend(xs + [(column, Atom(Null))], ys, inb);
    HashPartsAppend(xs, [(column, Atom(Null))], inb);
    HashPartsAppend(xs, ys, inb);
    match HashParts(xs, inb)
    case Err(_) =>
    case Ok(a) => assert a + [] == a;
  }

  /** A non-empty hash whose values are all null gives "()", not "". */
  lemma HashAllNull(pairs: seq<(string, Cond)>, inb: InBuilder)
    requires pairs != []
    requires forall k :: 0 <= k < |pairs| ==> pairs[k].1 == Atom(Null)
    ensures BuildCondition(Hash(pairs), inb) == Ok("()")
  {
    HashPartsAllNull(pairs, inb);
    assert "(" + Join([], ") AND (") + ")" == "()";
  }

  lemma {:induction false} HashPartsAllNull(pairs: seq<(string, Cond)>, inb: InBuilder)
    requires forall k :: 0 <= k < |pairs| ==> pairs[k].1 == Atom(Null)
    ensures HashParts(pairs, inb) == Ok([])
  {
    if pairs != [] {
      assert pairs[0].1 == Atom(Null);
      var tail := pairs[1..];
      assert forall k :: 0 <= k < |tail| ==> tail[k] == pairs[k + 1];
      HashPartsAllNull(tail, inb);
      assert HashPart(pairs[0].0, pairs[0].1, inb) == Ok([]);
      var none: seq<string> := [];
      assert none + none == none;
    }
  }

  /** Scalar, non-null values give `column:value` parts, one per pair, in the array's order. */
  lemma {:induction false} HashScalarParts(pairs: seq<(string, Cond)>, inb: InBuilder)
    requires forall k :: 0 <= k < |pairs| ==> pairs[k].1.Atom? && pairs[k].1.v != Null
    ensures HashParts(pairs, inb).Ok?
    ensures |HashParts(pairs, inb).value| == |pairs|
    ensures forall k :: 0 <= k < |pairs| ==>
              HashParts(pairs, inb).value[k] == pairs[k].0 + ":" + StrOf(pairs[k].1.v)
  {
    if pairs != [] {
      var tail := pairs[1..];
      assert forall k :: 0 <= k < |tail| ==> tail[k] == pairs[k + 1];
      HashScalarParts(tail, inb);
      assert HashPart(pairs[0].0, pairs[0].1, inb) == Ok([pairs[0].0 + ":" + StrOf(pairs[0].1.v)]);
    }
  }

  /** Exactly one part is returned bare. */
  lemma HashSingleBare(pairs: seq<(string, Cond)>, inb: InBuilder, p: string)
    requires pairs != [] && HashParts(pairs, inb) == Ok([p])
    ensures BuildCondition(Hash(pairs), inb) == Ok(p)
  {
  }

  /** Two scalar columns: each wrapped, joined by AND. */
  lemma HashTwoColumns(c1: string, v1: Scalar, c2: string, v2: Scalar, inb: InBuilder)
    requires v1 != Null && v2 != Null
    ensures BuildCondition(Hash([(c1, Atom(v1)), (c2, Atom(v2))]), inb)
            == Ok("(" + c1 + ":" + StrOf(v1) + ") AND (" + c2 + ":" + StrOf(v2) + ")")
  {
    var pairs := [(c1, Atom(v1)), (c2, Atom(v2))];
    var p1, p2 := c1 + ":" + StrOf(v1), c2 + ":" + StrOf(v2);
    HashScalarParts(pairs, inb);
    var parts := HashParts(pairs, inb).value;
    assert parts == [p1, p2];
    assert Join(parts, ") AND (") == p1 + ") AND (" + p2 by {
      assert parts[1..] == [p2];
    }
    TwoColumnsString(c1, StrOf(v1), c2, StrOf(v2));
  }

  /** An array value is compiled by the IN builder as `IN [column, value]`. */
  lemma HashArrayUsesIn(column: string, value: Cond, inb: InBuilder)
    requires IsArray(value)
    ensures BuildCondition(Hash([(column, value)]), inb) ==
              match inb("IN", [Atom(Str(column)), value])
              case Err(e) => Err(e)
              case Ok(f) => Ok(f)
  {
    assert [(column, value)][1..] == [];
    match inb("IN", [Atom(Str(column)), value])
    case Err(_) =>
    case Ok(f) =>
      assert [(column, value)][0] == (column, value);
      assert HashPart(column, value, inb) == Ok([f]);
      assert [f] + [] == [f];
      assert HashParts([(column, value)], inb) == Ok([f]);
  }

  // ---------------------------------------------------------------------------------------
  // Where the IN builder is reached, and where failures come from
  // ---------------------------------------------------------------------------------------

  /** No IN/NOT IN operator and no array hash value is reachable by the compiler's recursion. */
  predicate NoIn(c: Cond)
  {
    match c
    case Atom(_) => true
    case Hash(pairs) => forall k :: 0 <= k < |pairs| ==> !IsArray(pairs[k].1)
    case OpForm(op, operands) =>
      match HandlerFor(Upper(op))
      case InHandler => false
      case SimpleHandler => true
      case _ => forall k :: 0 <= k < |operands| ==> NoIn(operands[k])
  }

  /** Without IN, the IN builder never matters. */
  lemma {:induction false} InBuilderIrrelevant(c: Cond, inb1: InBuilder, inb2: InBuilder)
    requires NoIn(c)
    ensures BuildCondition(c, inb1) == BuildCondition(c, inb2)
    decreases c
  {
    match c
    case Atom(_) =>
    case Hash(pairs) =>
      HashPartsWithoutIn(pairs, inb1, inb2);
    case OpForm(op, operands) =>
      match HandlerFor(Upper(op))
      case NotHandler =>
        if |operands| == 1 {
          InBuilderIrrelevant(operands[0], inb1, inb2);
        }
      case AndHandler =>
        PartsInBuilderIrrelevant(operands, inb1, inb2);
      case WildHandler =>
        PartsInBuilderIrrelevant(operands, inb1, inb2);
      case SimpleHandler =>
  }

  lemma {:induction false} PartsInBuilderIrrelevant(operands: seq<Cond>, inb1: InBuilder, inb2: InBuilder)
    requires forall k :: 0 <= k < |operands| ==> NoIn(operands[k])
    ensures CompiledParts(operands, inb1) == CompiledParts(operands, inb2)
    decreases operands
  {
    if operands != [] {
      InBuilderIrrelevant(operands[0], inb1, inb2);
      var tail := operands[1..];
      assert forall k :: 0 <= k < |tail| ==> tail[k] == operands[k + 1];
      PartsInBuilderIrrelevant(tail, inb1, inb2);
    }
  }

  lemma {:induction false} HashPartsWithoutIn(pairs: seq<(string, Cond)>, inb1: InBuilder, inb2: InBuilder)
    requires forall k :: 0 <= k < |pairs| ==> !IsArray(pairs[k].1)
    ensures HashParts(pairs, inb1) == HashParts(pairs, inb2)
  {
    if pairs != [] {
      var tail := pairs[1..];
      assert forall k :: 0 <= k < |tail| ==> tail[k] == pairs[k + 1];
      HashPartsWithoutIn(tail, inb1, inb2);
    }
  }

  /** Every NOT the compiler's recursion reaches has exactly one operand. */
  predicate ArityOk(c: Cond)
  {
    match c
    case Atom(_) => true
    case Hash(_) => true
    case OpForm(op, operands) =>
      match HandlerFor(Upper(op))
      case NotHandler => |operands| == 1 && ArityOk(operands[0])
      case AndHandler => forall k :: 0 <= k < |operands| ==> ArityOk(operands[k])
      case WildHandler => forall k :: 0 <= k < |operands| ==> ArityOk(operands[k])
      case _ => true
  }

  /** An IN builder that never fails. */
  ghost predicate Total(inb: InBuilder)
  {
    forall operator, operands :: inb(operator, operands).Ok?
  }

  /**
   * With an IN builder that never fails, the compiler fails exactly when a reachable NOT has the
   * wrong operand count, and then with that arity error.
   */
  lemma {:induction false} FailsOnlyOnNotArity(c: Cond, inb: InBuilder)
    requires Total(inb)
    ensures BuildCondition(c, inb).Ok? <==> ArityOk(c)
    ensures BuildCondition(c, inb).Err? ==>
              BuildCondition(c, inb).error == InvalidParam(NotArityMessage("NOT"))
    decreases c
  {
    match c
    case Atom(_) =>
    case Hash(pairs) =>
      HashPartsTotal(pairs, inb);
    case OpForm(op, operands) =>
      match HandlerFor(Upper(op))
      case NotHandler =>
        if |operands| == 1 {
          FailsOnlyOnNotArity(operands[0], inb);
        }
      case AndHandler =>
        PartsFailOnlyOnNotArity(operands, inb);
      case WildHandler =>
        PartsFailOnlyOnNotArity(operands, inb);
      case InHandler =>
      case SimpleHandler =>
  }

  lemma {:induction false} PartsFailOnlyOnNotArity(operands: seq<Cond>, inb: InBuilder)
    requires Total(inb)
    ensures CompiledParts(operands, inb).Ok? <==> forall k :: 0 <= k < |operands| ==> ArityOk(operands[k])
    ensures CompiledParts(operands, inb).Err? ==>
              CompiledParts(operands, inb).error == InvalidParam(NotArityMessage("NOT"))
    decreases operands
  {
    if operands != [] {
      FailsOnlyOnNotArity(operands[0], inb);
      var tail := operands[1..];
      assert forall k :: 0 <= k < |tail| ==> tail[k] == operands[k + 1];
      PartsFailOnlyOnNotArity(tail, inb);
      assert (forall k :: 0 <= k < |operands| ==> ArityOk(operands[k])) <==>
             ArityOk(operands[0]) && forall k :: 0 <= k < |tail| ==> ArityOk(tail[k]);
    }
  }

  lemma {:induction false} HashPartsTotal(pairs: seq<(string, Cond)>, inb: InBuilder)
    requires Total(inb)
    ensures HashParts(pairs, inb).Ok?
  {
    if pairs != [] {
      var (column, value) := pairs[0];
      assert inb("IN", [Atom(Str(column)), value]).Ok?;
      HashPartsTotal(pairs[1..], inb);
    }
  }
}
