/** Types shared by every component of the model. */
module Prelude {

  datatype Option<+T> = None | Some(value: T)

  /** The newest `n` elements. */
  function Newest<T>(s: seq<T>, n: nat): seq<T> {
    if |s| <= n then s else s[|s| - n..]
  }

  /** A number written with the given ten digits. */
  function Decimal<T>(digits: seq<T>, n: nat): (r: seq<T>)
    requires |digits| == 10
    ensures forall x | x in r :: x in digits
  {
    (if n < 10 then [] else Decimal(digits, n / 10)) + [digits[n % 10]]
  }

  predicate NoRepeats<T(==)>(s: seq<T>) {
    forall i, j | 0 <= i < j < |s| :: s[i] != s[j]
  }

  /** Position of the element, or the length. */
  function Position<T(==)>(s: seq<T>, x: T): (n: nat)
    ensures n <= |s| && (n < |s| ==> s[n] == x)
  {
    if s == [] || s[0] == x then 0 else 1 + Position(s[1..], x)
  }

  /** The number that digits stand for, most significant first. */
  function Number<T(==)>(digits: seq<T>, r: seq<T>): nat {
    if r == [] then 0 else 10 * Number(digits, r[..|r| - 1]) + Position(digits, r[|r| - 1])
  }

  lemma {:induction false} PositionOf<T>(s: seq<T>, i: nat)
    requires NoRepeats(s) && i < |s|
    ensures Position(s, s[i]) == i
  {
    if i > 0 { PositionOf(s[1..], i - 1); }
  }

  /** A written number reads back, and has no leading zero. */
  lemma {:induction false} DecimalReadsBack<T>(digits: seq<T>, n: nat)
    requires |digits| == 10 && NoRepeats(digits)
    ensures var r := Decimal(digits, n); Number(digits, r) == n && r != [] && (r[0] == digits[0] ==> n == 0)
  {
    if n < 10 {
      LastDigit(digits, [], n);
    } else {
      DecimalReadsBack(digits, n / 10);
      LastDigit(digits, Decimal(digits, n / 10), n);
    }
  }

  lemma LastDigit<T>(digits: seq<T>, head: seq<T>, n: nat)
    requires |digits| == 10 && NoRepeats(digits) && Number(digits, head) == n / 10
    ensures Number(digits, head + [digits[n % 10]]) == n
  {
    PositionOf(digits, n % 10);
    NumberSnoc(digits, head, digits[n % 10]);
  }

  lemma NumberSnoc<T>(digits: seq<T>, head: seq<T>, x: T)
    ensures Number(digits, head + [x]) == 10 * Number(digits, head) + Position(digits, x)
  {
    assert (head + [x])[..|head|] == head;
  }

  /** Elements of a sequence that satisfy a test, in order. */
  function Filter<T>(test: T -> bool, s: seq<T>): seq<T> {
    if s == [] then []
    else if test(s[0]) then [s[0]] + Filter(test, s[1..])
    else Filter(test, s[1..])
  }

  lemma {:induction false} FilterConcat<T>(test: T -> bool, a: seq<T>, b: seq<T>)
    ensures Filter(test, a + b) == Filter(test, a) + Filter(test, b)
  {
    if a == [] {
      assert a + b == b;
    } else {
      assert (a + b)[1..] == a[1..] + b;
      FilterConcat(test, a[1..], b);
    }
  }

  lemma {:induction false} FilterNone<T>(test: T -> bool, s: seq<T>)
    requires forall x | x in s :: !test(x)
    ensures Filter(test, s) == []
  {
    if s != [] {
      FilterNone(test, s[1..]);
    }
  }

  lemma {:induction false} FilterAll<T>(test: T -> bool, s: seq<T>)
    requires forall x | x in s :: test(x)
    ensures Filter(test, s) == s
  {
    if s != [] {
      FilterAll(test, s[1..]);
    }
  }
}

/** Conversation messages, shared by the conversation-handling components. */
module Chat {
  datatype Role = System | User | Assistant | Tool

  datatype ChatMessage = ChatMessage(role: Role, content: string)
}
