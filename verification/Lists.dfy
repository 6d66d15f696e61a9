/** Facts about the `std::list<uint32_t>` fields, seen as sequences. */
module Lists {

  datatype Option<+T> = None | Some(value: T)

  const U32: nat := 0x1_0000_0000
  type u32 = n: nat | n < U32
  /** A buffer's sequence number, a `uint32_t`. */
  type SeqNum = u32

  predicate NoDup(s: seq<SeqNum>) {
    s == [] || (s[0] !in s[1..] && NoDup(s[1..]))
  }

  /** `s` without its first occurrence of `x`. */
  function Without(s: seq<SeqNum>, x: SeqNum): seq<SeqNum> {
    if s == [] then []
    else if s[0] == x then s[1..]
    else [s[0]] + Without(s[1..], x)
  }

  /** The elements of `s` that satisfy `p`, in order. */
  function Keep(s: seq<SeqNum>, p: SeqNum -> bool): seq<SeqNum> {
    if s == [] then []
    else if p(s[0]) then [s[0]] + Keep(s[1..], p)
    else Keep(s[1..], p)
  }

  ghost predicate Subsequence(a: seq<SeqNum>, b: seq<SeqNum>) {
    if a == [] then true
    else if b == [] then false
    else (a[0] == b[0] && Subsequence(a[1..], b[1..])) || Subsequence(a, b[1..])
  }

  lemma {:induction false} WithoutAbsent(s: seq<SeqNum>, x: SeqNum)
    requires x !in s
    ensures Without(s, x) == s
  {
    if s != [] {
      WithoutAbsent(s[1..], x);
    }
  }

  lemma {:induction false} NoDupIndex(s: seq<SeqNum>, i: nat, j: nat)
    requires NoDup(s) && i < j < |s|
    ensures s[i] != s[j]
  {
    if i == 0 {
      assert s[j] == s[1..][j - 1];
    } else {
      NoDupIndex(s[1..], i - 1, j - 1);
    }
  }

  /** Erasing from a duplicate-free list removes exactly that element. */
  lemma {:induction false} WithoutMembers(s: seq<SeqNum>, x: SeqNum)
    requires NoDup(s)
    ensures NoDup(Without(s, x))
    ensures forall y :: y in Without(s, x) <==> y in s && y != x
    ensures |Without(s, x)| == if x in s then |s| - 1 else |s|
  {
    if s != [] {
      assert s == [s[0]] + s[1..];
      WithoutMembers(s[1..], x);
      if s[0] != x { assert ([s[0]] + Without(s[1..], x))[1..] == Without(s[1..], x); }
    }
  }

  lemma {:induction false} NoDupConcat(a: seq<SeqNum>, b: seq<SeqNum>)
    requires NoDup(a) && NoDup(b) && forall x :: x in a ==> x !in b
    ensures NoDup(a + b)
  {
    if a == [] {
      assert a + b == b;
    } else {
      assert (a + b)[1..] == a[1..] + b;
      assert a[0] in a;
      NoDupConcat(a[1..], b);
    }
  }

  lemma NoDupSnoc(s: seq<SeqNum>, x: SeqNum)
    requires NoDup(s) && x !in s
    ensures NoDup(s + [x])
  {
    NoDupConcat(s, [x]);
  }

  lemma CutMembers(s: seq<SeqNum>, i: nat, x: SeqNum)
    requires i <= |s|
    ensures x in s <==> x in s[..i] || x in s[i..]
  {
    assert s == s[..i] + s[i..];
  }

  lemma {:induction false} NoDupTake(s: seq<SeqNum>, i: nat)
    requires i <= |s| && NoDup(s)
    ensures NoDup(s[..i])
  {
    if i > 0 {
      NoDupTake(s[1..], i - 1);
      assert s[..i][1..] == s[1..][..i - 1];
      CutMembers(s[1..], i - 1, s[0]);
    }
  }

  lemma {:induction false} NoDupDrop(s: seq<SeqNum>, i: nat)
    requires i <= |s| && NoDup(s)
    ensures NoDup(s[i..])
  {
    if i > 0 {
      NoDupDrop(s[1..], i - 1);
      assert s[i..] == s[1..][i - 1..];
    }
  }

  lemma NoDupApart(s: seq<SeqNum>, i: nat, x: SeqNum)
    requires i <= |s| && NoDup(s) && x in s[..i]
    ensures x !in s[i..]
  {
    var j :| 0 <= j < i && s[j] == x;
    forall k | i <= k < |s| ensures s[k] != x { NoDupIndex(s, j, k); }
  }

  /** The two sides of a cut of a duplicate-free list are duplicate-free and disjoint. */
  lemma NoDupCut(s: seq<SeqNum>, i: nat)
    requires i <= |s| && NoDup(s)
    ensures NoDup(s[..i]) && NoDup(s[i..])
    ensures forall x :: x in s <==> x in s[..i] || x in s[i..]
    ensures forall x :: x in s[..i] ==> x !in s[i..]
  {
    NoDupTake(s, i);
    NoDupDrop(s, i);
    forall x ensures x in s <==> x in s[..i] || x in s[i..] { CutMembers(s, i, x); }
    forall x | x in s[..i] ensures x !in s[i..] { NoDupApart(s, i, x); }
  }

  /** Erasing at a position of a duplicate-free list. */
  lemma RemoveAt(s: seq<SeqNum>, k: nat)
    requires k < |s| && NoDup(s)
    ensures var r := s[..k] + s[k + 1..];
            NoDup(r) && |r| == |s| - 1 && forall x :: x in r <==> x in s && x != s[k]
  {
    NoDupCut(s, k);
    NoDupCut(s, k + 1);
    assert s[..k + 1] == s[..k] + [s[k]] && s[k] in s[k..];
    assert s[k..] == [s[k]] + s[k + 1..];
    NoDupConcat(s[..k], s[k + 1..]);
  }

  lemma RemoveFirst(s: seq<SeqNum>)
    requires s != [] && NoDup(s)
    ensures NoDup(s[1..]) && forall x :: x in s[1..] <==> x in s && x != s[0]
  {
    RemoveAt(s, 0);
    assert s[..0] + s[1..] == s[1..];
  }

  /** Moving the head to the back and erasing the next element. */
  lemma RotateAndRemove(s: seq<SeqNum>)
    requires |s| >= 2 && NoDup(s)
    ensures var r := s[2..] + [s[0]];
            NoDup(r) && |r| == |s| - 1 && forall x :: x in r <==> x in s && x != s[1]
  {
    RemoveFirst(s);
    RemoveFirst(s[1..]);
    assert s[1..][1..] == s[2..];
    NoDupSnoc(s[2..], s[0]);
  }

  function Elems(s: seq<SeqNum>): set<SeqNum> {
    set x | x in s
  }

  lemma {:induction false} NoDupCardinality(s: seq<SeqNum>)
    requires NoDup(s)
    ensures |Elems(s)| == |s|
  {
    if s != [] {
      var init, last := s[..|s| - 1], s[|s| - 1];
      NoDupCut(s, |s| - 1);
      NoDupCardinality(init);
      assert Elems(s) == Elems(init) + {last};
      assert last in s[|s| - 1..];
    }
  }

  lemma {:induction false} KeepConcat(a: seq<SeqNum>, b: seq<SeqNum>, p: SeqNum -> bool)
    ensures Keep(a + b, p) == Keep(a, p) + Keep(b, p)
  {
    if a == [] {
      assert a + b == b;
    } else {
      assert (a + b)[1..] == a[1..] + b;
      KeepConcat(a[1..], b, p);
    }
  }

  lemma {:induction false} KeepNone(a: seq<SeqNum>, p: SeqNum -> bool)
    requires forall x :: x in a ==> !p(x)
    ensures Keep(a, p) == []
  {
    if a != [] { KeepNone(a[1..], p); }
  }

  lemma {:induction false} KeepAll(a: seq<SeqNum>, p: SeqNum -> bool)
    requires forall x :: x in a ==> p(x)
    ensures Keep(a, p) == a
  {
    if a != [] { KeepAll(a[1..], p); }
  }

  /** Filters that agree on the members agree on the list. */
  lemma {:induction false} KeepCong(a: seq<SeqNum>, p: SeqNum -> bool, q: SeqNum -> bool)
    requires forall x :: x in a ==> p(x) == q(x)
    ensures Keep(a, p) == Keep(a, q)
  {
    if a != [] { KeepCong(a[1..], p, q); }
  }

  lemma {:induction false} KeepMembers(a: seq<SeqNum>, p: SeqNum -> bool)
    ensures forall x :: x in Keep(a, p) <==> x in a && p(x)
    ensures NoDup(a) ==> NoDup(Keep(a, p))
    ensures |Keep(a, p)| <= |a|
  {
    if a != [] {
      KeepMembers(a[1..], p);
      assert a == [a[0]] + a[1..];
      if NoDup(a) {
        NoDupCut(a, 1);
        assert a[0] in a[..1];
      }
    }
  }

  lemma {:induction false} SubsequenceRefl(a: seq<SeqNum>)
    ensures Subsequence(a, a)
  {
    if a != [] { SubsequenceRefl(a[1..]); }
  }

  lemma {:induction false} SubsequenceEmptyTail(a: seq<SeqNum>, b: seq<SeqNum>)
    requires Subsequence(a, b)
    ensures |a| <= |b|
    ensures a != [] ==> Subsequence(a[1..], b)
    decreases |b|
  {
    if a != [] {
      if a[0] == b[0] && Subsequence(a[1..], b[1..]) {
        SubsequenceEmptyTail(a[1..], b[1..]);
      } else {
        SubsequenceEmptyTail(a, b[1..]);
      }
    }
  }

  lemma {:induction false} SubsequenceTrans(a: seq<SeqNum>, b: seq<SeqNum>, c: seq<SeqNum>)
    requires Subsequence(a, b) && Subsequence(b, c)
    ensures Subsequence(a, c)
    decreases |c|
  {
    if a != [] && b != [] {
      if b[0] == c[0] && Subsequence(b[1..], c[1..]) {
        if a[0] == b[0] && Subsequence(a[1..], b[1..]) {
          SubsequenceTrans(a[1..], b[1..], c[1..]);
        } else {
          SubsequenceTrans(a, b[1..], c[1..]);
        }
      } else {
        SubsequenceTrans(a, b, c[1..]);
      }
    }
  }

  lemma {:induction false} SubsequenceConcat(a: seq<SeqNum>, b: seq<SeqNum>, c: seq<SeqNum>, d: seq<SeqNum>)
    requires Subsequence(a, b) && Subsequence(c, d)
    ensures Subsequence(a + c, b + d)
    decreases |b|
  {
    if b == [] {
      assert a == [] && a + c == c && b + d == d;
    } else {
      assert (b + d)[1..] == b[1..] + d;
      if a == [] {
        SubsequenceConcat(a, b[1..], c, d);
      } else if a[0] == b[0] && Subsequence(a[1..], b[1..]) {
        assert (a + c)[1..] == a[1..] + c;
        SubsequenceConcat(a[1..], b[1..], c, d);
      } else {
        SubsequenceConcat(a, b[1..], c, d);
      }
    }
  }

  lemma {:induction false} KeepSubsequence(a: seq<SeqNum>, p: SeqNum -> bool)
    ensures Subsequence(Keep(a, p), a)
  {
    if a != [] { KeepSubsequence(a[1..], p); }
  }
}
