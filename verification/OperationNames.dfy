/** The operation names of the boundary runner: `{run}:m{turn}:t{index}`, and `{operation}:other` for the
    second operation of the cross-operation scenario. No two of them are equal. */
module OperationNames {
  predicate Numeral(s: string) { s != "" && forall i | 0 <= i < |s| :: '0' <= s[i] <= '9' }

  function Digits(n: nat): (s: string)
    ensures Numeral(s)
  {
    if n < 10 then [Digit(n)] else Digits(n / 10) + [Digit(n % 10)]
  }

  function Digit(n: nat): char
    requires n < 10
  {
    '0' + n as char
  }

  function OperationId(run: string, turn: nat, index: nat): string {
    run + ":m" + Digits(turn) + ":t" + Digits(index)
  }

  function Other(operation: string): string { operation + ":other" }

  lemma {:induction false} DigitsInjective(a: nat, b: nat)
    requires Digits(a) == Digits(b)
    ensures a == b
  {
    var x, y := Digits(a), Digits(b);
    assert x[|x| - 1] == Digit(a % 10) && y[|y| - 1] == Digit(b % 10);
    assert a % 10 == b % 10;
    if a >= 10 && b >= 10 {
      assert Digits(a / 10) == x[..|x| - 1] == y[..|y| - 1] == Digits(b / 10);
      DigitsInjective(a / 10, b / 10);
    }
  }

  /** A numeral ends where the separator begins. */
  lemma SplitInjective(a: string, b: string, c: string, d: string)
    requires Numeral(a) && Numeral(b) && a + ":t" + c == b + ":t" + d
    ensures a == b && c == d
  {
    var x, y := a + ":t" + c, b + ":t" + d;
    assert x[|a|] == ':' && y[|b|] == ':';
    assert forall i | 0 <= i < |a| :: x[i] == a[i];
    assert forall i | 0 <= i < |b| :: y[i] == b[i];
    assert |a| == |b|;
    assert a == x[..|a|] == y[..|b|] == b;
    assert c == x[|a| + 2..] == y[|b| + 2..] == d;
  }

  lemma OperationIdInjective(run: string, turn: nat, index: nat, turn': nat, index': nat)
    requires OperationId(run, turn, index) == OperationId(run, turn', index')
    ensures turn == turn' && index == index'
  {
    var n := |run| + 2;
    assert OperationId(run, turn, index)[n..] == Digits(turn) + ":t" + Digits(index);
    assert OperationId(run, turn', index')[n..] == Digits(turn') + ":t" + Digits(index');
    SplitInjective(Digits(turn), Digits(turn'), Digits(index), Digits(index'));
    DigitsInjective(turn, turn');
    DigitsInjective(index, index');
  }

  lemma OtherInjective(a: string, b: string)
    requires Other(a) == Other(b)
    ensures a == b
  {
    assert a == Other(a)[..|Other(a)| - 6] == Other(b)[..|Other(b)| - 6] == b;
  }

  lemma OtherIsNew(run: string, turn: nat, index: nat, operation: string)
    ensures OperationId(run, turn, index) != Other(operation)
  {
    var x, y := OperationId(run, turn, index), Other(operation);
    assert x[|x| - 1] == Digits(index)[|Digits(index)| - 1];
    assert '0' <= x[|x| - 1] <= '9';
    assert y[|y| - 1] == 'r';
  }
}
