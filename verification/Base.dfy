/** Shared vocabulary: options, word sizes and duplicate-free queues. */
module Base {

  datatype Option<+T> = None | Some(value: T)

  const U32 := 0x1_0000_0000
  const U64 := 0x1_0000_0000_0000_0000
  const I64_LIMIT := 0x8000_0000_0000_0000

  /** A 64-bit register or memory word. */
  type u64 = x: nat | x < U64

  ghost predicate NoDup<T(!new)>(q: seq<T>) {
    forall i, j :: 0 <= i < j < |q| ==> q[i] != q[j]
  }

  lemma NoDupCons<T(!new)>(q: seq<T>, rest: seq<T>)
    requires q != [] && forall x :: x in rest ==> x in q[1..]
    ensures NoDup(q) && NoDup(rest) ==> NoDup([q[0]] + rest)
  {
    if NoDup(q) && NoDup(rest) {
      forall i, j | 0 <= i < j < 1 + |rest| ensures ([q[0]] + rest)[i] != ([q[0]] + rest)[j] {
        assert rest[j - 1] in q[1..];
      }
    }
  }

  /** `retain(|x| x != p)` on a queue. */
  function Without<T(==, !new)>(q: seq<T>, p: T): (r: seq<T>)
    ensures |r| <= |q|
    ensures forall x :: x in r <==> x in q && x != p
    ensures NoDup(q) ==> NoDup(r)
  {
    if q == [] then []
    else
      var rest := Without(q[1..], p);
      assert NoDup(q) ==> NoDup(q[1..]);
      assert q == [q[0]] + q[1..];
      if q[0] == p then rest else (NoDupCons(q, rest); [q[0]] + rest)
  }

  lemma {:induction false} WithoutAbsent<T(!new)>(q: seq<T>, p: T)
    requires p !in q
    ensures Without(q, p) == q
  {
    if q != [] {
      WithoutAbsent(q[1..], p);
    }
  }

  lemma {:induction false} WithoutConcat<T(!new)>(a: seq<T>, b: seq<T>, p: T)
    ensures Without(a + b, p) == Without(a, p) + Without(b, p)
  {
    if a == [] {
      assert a + b == b;
    } else {
      assert (a + b)[1..] == a[1..] + b;
      WithoutConcat(a[1..], b, p);
    }
  }

  lemma SubsetSize<T>(a: set<T>, b: set<T>)
    requires a <= b
    ensures |a| <= |b|
  {
    assert b == a + (b - a);
  }
}
