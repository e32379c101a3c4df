/** `get_number_arg`: the optional decimal number after an option letter, as in `-o10`. */
module NumberArgs {
  import opened CharUtil

  /** The first offset at or after `i` that does not hold a decimal digit. */
  function DigitEnd(p: string, i: nat): (j: nat)
    ensures i <= j
    ensures i <= |p| ==> j <= |p|
    ensures forall k :: i <= k < j ==> k < |p| && IsDigit(p[k])
    ensures !IsDigit(CharAt(p, j))
    decreases |p| - i
  {
    if IsDigit(CharAt(p, i)) then DigitEnd(p, i + 1) else i
  }

  /** The result of `get_number_arg`: the value and the updated index. */
  datatype Num = Num(value: int, next: nat)

  /** `get_number_arg(p, &idx, def)`: without a digit at `idx` the default and
      the unchanged index; otherwise the decimal value of the digit run and the
      index just past its last digit. */
  function NumberArg(p: string, idx: nat, def: int): (r: Num)
    ensures !IsDigit(CharAt(p, idx)) ==> r == Num(def, idx)
    ensures IsDigit(CharAt(p, idx)) ==>
      && idx < r.next <= |p|
      && AllDigits(p[idx..r.next])
      && !IsDigit(CharAt(p, r.next))
      && r.value == Decimal(p[idx..r.next])
  {
    if IsDigit(CharAt(p, idx)) then
      var j := DigitEnd(p, idx);
      assert AllDigits(p[idx..j]);
      Num(Decimal(p[idx..j]), j)
    else
      Num(def, idx)
  }

  /** The scanning loop of `get_number_arg` (with the conversion `atoi` makes of
      the same digits folded into it). */
  method GetNumberArg(p: string, idx: nat, def: int) returns (n: int, next: nat)
    ensures Num(n, next) == NumberArg(p, idx, def)
  {
    n, next := def, idx;
    if IsDigit(CharAt(p, idx)) {
      n := 0;
      while IsDigit(CharAt(p, next))
        invariant idx <= next <= |p|
        invariant AllDigits(p[idx..next])
        invariant n == Decimal(p[idx..next])
        invariant DigitEnd(p, next) == DigitEnd(p, idx)
        decreases |p| - next
      {
        assert p[idx..next + 1][..next - idx] == p[idx..next];
        n := 10 * n + DigitValue(p[next]);
        next := next + 1;
      }
    }
  }
}
