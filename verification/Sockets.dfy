/** Values shared by the whole library: result codes, results and the bytes on the wire. */
module Sockets {
  newtype Byte = b: int | 0 <= b < 0x100

  datatype Option<+T> = None | Some(value: T)

  /** The result codes the retry loops branch on; every other code is `Failed` with its number. */
  datatype SocketCode =
    | Success
    | SocketTimeout
    | SocketClosed
    | SocketEventError
    | ConnectionInProgress
    | ConnectionNeedToBeBlocked
    | Failed(number: nat)

  /** `bytes` defaults to -1 in the source. */
  datatype SocketResult = SocketResult(code: SocketCode, bytes: int)

  const TWO_TO_THE_31: int := 0x8000_0000
  const TWO_TO_THE_32: int := 0x1_0000_0000

  /** The value of a size after its conversion to a signed 32-bit integer. */
  function Int32(n: nat): (r: int)
    ensures -TWO_TO_THE_31 <= r < TWO_TO_THE_31
    ensures n < TWO_TO_THE_31 ==> r == n
    ensures r % TWO_TO_THE_32 == n % TWO_TO_THE_32
  {
    var low := n % TWO_TO_THE_32;
    if low < TWO_TO_THE_31 then low else low - TWO_TO_THE_32
  }

  function Zeros(n: nat): (z: seq<Byte>)
    ensures |z| == n
    ensures forall i :: 0 <= i < n ==> z[i] == 0
  {
    seq(n, i => 0)
  }

  /** No value occurs twice. */
  ghost predicate NoDup<T>(s: seq<T>) {
    forall i, j :: 0 <= i < j < |s| ==> s[i] != s[j]
  }

  function IndexFrom<T(==)>(s: seq<T>, x: T, from: nat): (i: nat)
    requires from <= |s|
    ensures from <= i <= |s|
    ensures i < |s| ==> s[i] == x
    ensures forall j :: from <= j < i ==> s[j] != x
    decreases |s| - from
  {
    if from == |s| || s[from] == x then from else IndexFrom(s, x, from + 1)
  }

  /** The first position of `x`, or the length when `x` is absent: what std::find answers. */
  function IndexOf<T(==)>(s: seq<T>, x: T): (i: nat)
    ensures i <= |s|
    ensures i < |s| ==> s[i] == x
    ensures forall j :: 0 <= j < i ==> s[j] != x
  {
    IndexFrom(s, x, 0)
  }

  /** `erase(iter)`, guarded by `iter != end()` as every caller does. */
  function EraseAt<T>(s: seq<T>, i: nat): seq<T> {
    if i < |s| then s[..i] + s[i + 1..] else s
  }

  lemma ErasedAt<T>(s: seq<T>, i: nat)
    ensures |EraseAt(s, i)| == if i < |s| then |s| - 1 else |s|
    ensures forall k :: 0 <= k < |EraseAt(s, i)| ==> EraseAt(s, i)[k] == s[if k < i then k else k + 1]
  {
  }

  function Without<T(==)>(s: seq<T>, x: T): seq<T> {
    EraseAt(s, IndexOf(s, x))
  }

  lemma WithoutMembers<T>(s: seq<T>, x: T)
    requires NoDup(s)
    ensures NoDup(Without(s, x))
    ensures x !in Without(s, x)
    ensures forall y :: y != x ==> (y in s <==> y in Without(s, x))
    ensures x !in s ==> Without(s, x) == s
    ensures |Without(s, x)| == if x in s then |s| - 1 else |s|
  {
    var k := IndexOf(s, x);
    var w := Without(s, x);
    assert forall i :: 0 <= i < |w| ==> w[i] == if i < k then s[i] else s[i + 1];
    forall y | y != x && y in s
      ensures y in w
    {
      var i :| 0 <= i < |s| && s[i] == y;
      assert w[if i < k then i else i - 1] == y;
    }
  }

  /** A list without duplicates has as many members as its set. */
  lemma {:induction false} NoDupSize<T>(s: seq<T>, t: set<T>)
    requires NoDup(s) && t == set x | x in s
    ensures |t| == |s|
  {
    if s != [] {
      var rest := set x | x in s[1..];
      NoDupSize(s[1..], rest);
      assert t == rest + {s[0]};
    }
  }
}
