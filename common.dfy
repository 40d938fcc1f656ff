/** Small shared vocabulary: optional values and bytes. */
module Common {

  /** A value that may be absent (Python's `None`). */
  datatype Option<T> = None | Some(value: T)

  /** The two quantities a power-supply channel is programmed in. */
  datatype Quantity = Voltage | Current

  /** The Python exceptions the modelled code raises, and the vendor library's read error. */
  datatype Error = TypeError | ValueError | KeyError | AttributeError | SystemExit | ULError

  /** A call that returns a value or raises. */
  datatype Result<T> = Ok(value: T) | Raised(error: Error)

  /** A call that returns nothing or raises. */
  datatype Status = Done | Failed(error: Error)

  /** One octet on a serial or socket link. */
  type byte = b: int | 0 <= b < 256

  /** `k` copies of `x`, as Python's `[x] * k` (empty when `k` is not positive). */
  function Repeat<T>(x: T, k: int): (r: seq<T>)
    ensures |r| == if k < 0 then 0 else k
    ensures forall i :: 0 <= i < |r| ==> r[i] == x
  {
    if k <= 0 then [] else [x] + Repeat(x, k - 1)
  }

  /** Dropping `i` and then `j` elements drops `i + j`. */
  lemma DropDrop<T>(s: seq<T>, i: nat, j: nat)
    requires i + j <= |s|
    ensures s[i..][j..] == s[i + j..]
  {
  }

  /** Concatenation is associative; stated once so callers need not re-derive it element by element. */
  lemma AppendAssoc<T>(a: seq<T>, b: seq<T>, c: seq<T>)
    ensures (a + b) + c == a + (b + c)
  {
  }

  /** A slice lying wholly in the second part of a concatenation. */
  lemma SliceOfAppend<T>(a: seq<T>, b: seq<T>, i: nat, j: nat)
    requires |a| <= i <= j <= |a| + |b|
    ensures (a + b)[i..j] == b[i - |a|..j - |a|]
  {
  }

  function Min(a: real, b: real): (m: real)
    ensures m <= a && m <= b
    ensures m == a || m == b
  {
    if a <= b then a else b
  }

  /** `c.upper()` on ASCII: lower-case letters become capitals, everything else stays. */
  function UpperChar(c: char): (u: char)
    ensures 'a' <= c <= 'z' ==> u as int == c as int - 32
    ensures !('a' <= c <= 'z') ==> u == c
  {
    if 'a' <= c <= 'z' then (c as int - 32) as char else c
  }

  /** `s.upper()` on ASCII text, character by character. */
  function AsciiUpper(s: string): (r: string)
    ensures |r| == |s| && forall i :: 0 <= i < |s| ==> r[i] == UpperChar(s[i])
  {
    if s == [] then [] else [UpperChar(s[0])] + AsciiUpper(s[1..])
  }
}
