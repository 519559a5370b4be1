/**
 * The part of LLVM's IR the kunjs compilers build: constants, the casts and
 * arithmetic instructions an IRBuilder creates, and their types.  Values are
 * kept as symbolic trees; `EvalInt` gives the 64-bit integer a tree of
 * integer constants and instructions stands for, which is what the
 * builder's constant folder computes.
 */
module IR {
  import opened Wrappers

  datatype Type = I1 | I8 | I64 | Double | Metadata | Pointer(pointee: Type)

  datatype Opcode = Add | Sub | Mul | SDiv | SRem | FAdd | FSub | FMul | FDiv | FRem

  datatype Value =
    | ConstantInt(width: nat, value: int)
    | ConstantFP(spelling: string)
    | ConstantPointerNull(pointee: Type)
    | MDString(text: string)
    /** `CreateSIToFP(v, double)` on a value that is not already a double. */
    | SIToFP(operand: Value)
    | BinaryOperator(opcode: Opcode, lhs: Value, rhs: Value, name: string)

  predicate IsFloatOpcode(op: Opcode) {
    op == FAdd || op == FSub || op == FMul || op == FDiv || op == FRem
  }

  /** The type of a value: an instruction has the type of its operands. */
  function TypeOf(v: Value): (t: Type)
    ensures v.BinaryOperator? && IsFloatOpcode(v.opcode) ==> t == Double
    ensures v.SIToFP? ==> t == Double
  {
    match v
    case ConstantInt(width, _) => if width == 1 then I1 else I64
    case ConstantFP(_) => Double
    case ConstantPointerNull(pointee) => Pointer(pointee)
    case MDString(_) => Metadata
    case SIToFP(_) => Double
    case BinaryOperator(op, lhs, _, _) => if IsFloatOpcode(op) then Double else TypeOf(lhs)
  }

  /** The integer types: the operand types of the integer opcodes and of `sitofp`. */
  predicate IsIntegerType(t: Type) { t == I1 || t == I8 || t == I64 }

  /**
   * A tree LLVM's builder accepts: both operands of an instruction have one
   * type, an integer type for the integer opcodes and double for the
   * floating-point ones, and `sitofp` converts an integer.  The builder
   * asserts on any other tree.
   */
  predicate WellTyped(v: Value) {
    match v
    case SIToFP(x) => WellTyped(x) && IsIntegerType(TypeOf(x))
    case BinaryOperator(op, lhs, rhs, _) =>
      && WellTyped(lhs) && WellTyped(rhs) && TypeOf(lhs) == TypeOf(rhs)
      && (if IsFloatOpcode(op) then TypeOf(lhs) == Double else IsIntegerType(TypeOf(lhs)))
    case _ => true
  }

  /** `llvm::ConstantPointerNull::get(PointerType::getUnqual(Int8Ty))`, the i8* null. */
  const NullI8Ptr: Value := ConstantPointerNull(I8)

  /** `llvm::ConstantPointerNull::get(Type::getInt64PtrTy(context))`, the i64* null. */
  const NullI64Ptr: Value := ConstantPointerNull(I64)

  /**
   * `builder.CreateSIToFP(v, double)`: IRBuilder's CreateCast hands back a
   * value that already has the destination type instead of casting it.
   */
  function ToDouble(v: Value): (r: Value)
    ensures TypeOf(r) == Double
    ensures TypeOf(v) == Double ==> r == v
    ensures TypeOf(v) != Double ==> r == SIToFP(v)
  {
    if TypeOf(v) == Double then v else SIToFP(v)
  }

  // ---------------------------------------------------------------- 64-bit integers

  const Two63: int := 0x8000_0000_0000_0000
  const Two64: int := 0x1_0000_0000_0000_0000

  predicate IsI64(x: int) { -Two63 <= x < Two63 }

  /** Two's-complement wrap-around of an exact result into 64 bits. */
  function Wrap64(x: int): (r: int)
    ensures IsI64(r)
    ensures (r - x) % Two64 == 0
    ensures IsI64(x) ==> r == x
  {
    (x + Two63) % Two64 - Two63
  }

  function Abs(x: int): (r: nat)
    ensures r == x || r == -x
  {
    if x < 0 then -x else x
  }

  /** Quotient rounded toward zero, as `sdiv` computes it. */
  function TruncDiv(a: int, b: int): (q: int)
    requires b != 0
    ensures Abs(q) == Abs(a) / Abs(b)
  {
    var x: int := Abs(a);
    var y: int := Abs(b);
    var q: int := x / y;
    assert 0 <= q by { assert x >= 0 && y > 0; }
    if (a < 0) == (b < 0) then q else -q
  }

  /** Remainder with the sign of the dividend, as `srem` computes it. */
  function TruncRem(a: int, b: int): (r: int)
    requires b != 0
    ensures Abs(r) == Abs(a) % Abs(b) && Abs(r) < Abs(b)
    ensures r == 0 || ((r < 0) <==> (a < 0))
  {
    var x: int := Abs(a);
    var y: int := Abs(b);
    var r: int := x % y;
    assert 0 <= r < y by { assert y > 0; }
    if a < 0 then -r else r
  }

  /** sdiv and srem fit together: the dividend is quotient times divisor plus remainder. */
  lemma {:induction false} TruncDivRem(a: int, b: int)
    requires b != 0
    ensures a == TruncDiv(a, b) * b + TruncRem(a, b)
  {
    var x: int, y: int := Abs(a), Abs(b);
    assert x == (x / y) * y + x % y;
    if a < 0 && b < 0 {
      assert TruncDiv(a, b) * b == (x / y) * (-y);
    } else if a < 0 {
      assert TruncDiv(a, b) * b == -(x / y) * y;
    } else if b < 0 {
      assert TruncDiv(a, b) * b == -(x / y) * (-y);
    }
  }

  /** Dividing a positive number by two or more makes it smaller. */
  lemma {:induction false} DivShrinks(x: nat, y: int)
    requires x > 0 && y >= 2
    ensures x / y < x
  {
    var q := x / y;
    assert x == q * y + x % y;
    assert q * y == q * 2 + q * (y - 2);
    assert q * (y - 2) >= 0;
  }

  /** The only 64-bit sdiv whose quotient does not fit is the most negative value divided by -1. */
  lemma {:induction false} TruncDivFits(a: int, b: int)
    requires b != 0 && IsI64(a) && IsI64(b) && !(a == -Two63 && b == -1)
    ensures IsI64(TruncDiv(a, b)) && IsI64(TruncRem(a, b))
  {
    if Abs(b) == 1 {
      assert Abs(a) / 1 == Abs(a);
    } else if a != 0 {
      DivShrinks(Abs(a), Abs(b));
    }
  }

  /**
   * The 64-bit integer an integer-typed value stands for.  None when the
   * tree is not an integer computation or when sdiv or srem would be
   * undefined (a zero divisor, or the most negative value divided by -1).
   */
  function EvalInt(v: Value): (r: Option<int>)
    ensures r.Some? ==> IsI64(r.value)
    decreases v, 1
  {
    match v
    case ConstantInt(width, x) => if width == 64 && IsI64(x) then Some(x) else None
    case BinaryOperator(_, _, _, _) => EvalBinary(v)
    case _ => None
  }

  /** An instruction on an operand with no 64-bit value has none either. */
  lemma UndefinedOperandPropagates(op: Opcode, lhs: Value, rhs: Value, name: string)
    requires EvalInt(lhs).None? || EvalInt(rhs).None?
    ensures EvalInt(BinaryOperator(op, lhs, rhs, name)).None?
  {
  }

  /** The 64-bit result of an integer instruction on its two operand trees. */
  function EvalBinary(v: Value): (r: Option<int>)
    requires v.BinaryOperator?
    ensures r.Some? ==> IsI64(r.value)
    decreases v, 0
  {
    match (EvalInt(v.lhs), EvalInt(v.rhs))
    case (Some(a), Some(b)) =>
      (match v.opcode
       case Add => Some(Wrap64(a + b))
       case Sub => Some(Wrap64(a - b))
       case Mul => Some(Wrap64(a * b))
       case SDiv =>
         if b == 0 || (a == -Two63 && b == -1) then None
         else TruncDivFits(a, b); Some(TruncDiv(a, b))
       case SRem =>
         if b == 0 || (a == -Two63 && b == -1) then None
         else TruncDivFits(a, b); Some(TruncRem(a, b))
       case _ => None)
    case _ => None
  }
}
