/** Small shared vocabulary: optional values, the analyser's thrown errors,
    property keys (with the ANY_STRING symbol) and decimal rendering. */
module Common {

  datatype Option<+T> = None | Some(value: T)

  /** The result of an operation of the analyser that may throw: `Throw(m)` stands
      for `throw new Error(m)` (or a failed assertion) in the source. */
  datatype Outcome<+T> = Ok(value: T) | Throw(message: string) {
    predicate IsFailure() { Throw? }

    function PropagateFailure<U>(): Outcome<U>
      requires Throw?
    {
      Throw(message)
    }

    function Extract(): T
      requires Ok?
    {
      value
    }
  }

  /** A property key: an ordinary string key, or the `ANY_STRING` symbol that stands
      for "some key the analysis cannot compute". Numeric keys are their decimal text. */
  datatype Key = Name(name: string) | AnyString

  /** Concatenation is associative; stated once so that proofs about lists of
      errors or possibilities need not redo it element by element. */
  lemma AppendAssoc<T>(a: seq<T>, b: seq<T>, c: seq<T>)
    ensures a + (b + c) == (a + b) + c
  {
  }

  function Digit(d: nat): (c: char)
    requires d < 10
    ensures '0' <= c <= '9'
  {
    "0123456789"[d]
  }

  predicate IsDigit(c: char) { '0' <= c <= '9' }

  /** `String(n)` for a non-negative integer. */
  function NatToString(n: nat): (s: string)
    ensures |s| >= 1
    ensures forall i :: 0 <= i < |s| ==> IsDigit(s[i])
  {
    if n < 10 then [Digit(n)] else NatToString(n / 10) + [Digit(n % 10)]
  }

  /** The integer test the analyser applies to a path segment (`isInteger`):
      a non-empty run of decimal digits. */
  predicate IsInteger(s: string)
  {
    |s| > 0 && forall i :: 0 <= i < |s| ==> IsDigit(s[i])
  }

  /** The key a literal property or index denotes once the host converts it to a property name. */
  function IndexKey(n: nat): Key
  {
    Name(NatToString(n))
  }
}
