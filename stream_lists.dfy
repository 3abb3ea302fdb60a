/** The global lists of Shared Cache Maps, as ordered sequences of stream
    identities. A stream's `SharedCacheMapLinks` entry sits on exactly one
    of the clean list and the dirty list; the dirty list is scanned from
    head to tail by the lazy writer. Unlinking an entry from a doubly-linked
    list is removing its one position from the sequence. */
module StreamLists {

  /** Identity of a stream: the address of its Shared Cache Map. */
  type StreamId = nat

  /** `s` with the entry for `x` spliced out: its predecessor and successor
      become neighbours. Only the first entry for `x` is touched; on a list
      in which `x` occurs at most once that is the whole story. */
  function Unlink(s: seq<StreamId>, x: StreamId): (r: seq<StreamId>)
    ensures x !in s ==> r == s
    ensures multiset(r) == multiset(s) - multiset{x}
  {
    if s == [] then []
    else if s[0] == x then
      assert s == [x] + s[1..];
      s[1..]
    else
      assert s == [s[0]] + s[1..];
      [s[0]] + Unlink(s[1..], x)
  }

  /** Unlinking removes exactly the position `i` of the first entry for
      `x`: everything before it and everything after it stays, in order. */
  lemma {:induction false} UnlinkRemovesOnePosition(s: seq<StreamId>, x: StreamId, i: nat)
    requires i < |s| && s[i] == x && x !in s[..i]
    ensures Unlink(s, x) == s[..i] + s[i + 1..]
  {
    if i == 0 {
      assert s[..0] + s[1..] == s[1..];
    } else {
      var t := s[1..];
      assert s[0] in s[..i];
      assert t[..i - 1] == s[1..i];
      UnlinkRemovesOnePosition(t, x, i - 1);
      calc {
        Unlink(s, x);
        [s[0]] + Unlink(t, x);
        [s[0]] + (t[..i - 1] + t[i..]);
        ([s[0]] + t[..i - 1]) + t[i..];
        { assert s[..i] == [s[0]] + t[..i - 1]; assert s[i + 1..] == t[i..]; }
        s[..i] + s[i + 1..];
      }
    }
  }

  /** `s` as seen by everyone but `x`: every entry for `x` dropped. */
  function Without(s: seq<StreamId>, x: StreamId): (r: seq<StreamId>)
    ensures x !in r
    ensures forall y :: y in r <==> y in s && y != x
    ensures |r| <= |s|
  {
    if s == [] then []
    else if s[0] == x then Without(s[1..], x)
    else [s[0]] + Without(s[1..], x)
  }

  /** The entries of a list are pairwise distinct exactly when every entry
      has multiplicity one. */
  predicate Distinct(s: seq<StreamId>)
  {
    forall x | x in s :: multiset(s)[x] == 1
  }

  lemma {:induction false} WithoutAppend(a: seq<StreamId>, b: seq<StreamId>, x: StreamId)
    ensures Without(a + b, x) == Without(a, x) + Without(b, x)
  {
    if a == [] {
      assert a + b == b;
    } else {
      assert (a + b)[1..] == a[1..] + b;
      WithoutAppend(a[1..], b, x);
    }
  }

  lemma {:induction false} WithoutUnlink(s: seq<StreamId>, x: StreamId)
    ensures Without(Unlink(s, x), x) == Without(s, x)
  {
    if s != [] && s[0] != x {
      WithoutUnlink(s[1..], x);
    }
  }

  /** Moving `x` from wherever it is in `s` to the tail leaves the relative
      order of every other stream exactly as it was. */
  lemma {:induction false} MoveToTailKeepsOthersInOrder(s: seq<StreamId>, x: StreamId)
    ensures Without(Unlink(s, x) + [x], x) == Without(s, x)
  {
    WithoutAppend(Unlink(s, x), [x], x);
    WithoutUnlink(s, x);
    assert Without([x], x) == [];
  }

  /** Moving `x`, linked exactly once on the pair of lists `c` and `d`, to
      the tail of `d` links the very same streams as before, each as many
      times as before. */
  lemma MoveToTailKeepsLinkedStreams(c: seq<StreamId>, d: seq<StreamId>, x: StreamId)
    requires multiset(c + d)[x] == 1
    ensures multiset(Unlink(c, x) + (Unlink(d, x) + [x])) == multiset(c + d)
  {
    assert multiset(c + d) == multiset(c) + multiset(d);
    MovedMultiset(c, d, x);
    if x in multiset(c) {
      RemoveFromFirst(multiset(c), multiset(d), x);
    } else {
      RemoveFromFirst(multiset(d), multiset(c), x);
    }
  }

  lemma MovedMultiset(c: seq<StreamId>, d: seq<StreamId>, x: StreamId)
    ensures multiset(Unlink(c, x) + (Unlink(d, x) + [x]))
            == (multiset(c) - multiset{x}) + (multiset(d) - multiset{x}) + multiset{x}
  {
  }

  lemma RemoveFromFirst(m: multiset<StreamId>, n: multiset<StreamId>, x: StreamId)
    requires m[x] == 1 && n[x] == 0
    ensures (m - multiset{x}) + (n - multiset{x}) + multiset{x} == m + n
  {
    assert n - multiset{x} == n;
    assert (m - multiset{x}) + multiset{x} == m;
  }

  /** ... so lists whose entries were distinct stay distinct. */
  lemma MoveToTailKeepsDistinct(c: seq<StreamId>, d: seq<StreamId>, x: StreamId)
    requires x in c + d && Distinct(c + d)
    ensures Distinct(Unlink(c, x) + (Unlink(d, x) + [x]))
  {
    var after := Unlink(c, x) + (Unlink(d, x) + [x]);
    MoveToTailKeepsLinkedStreams(c, d, x);
    forall y | y in after
      ensures multiset(after)[y] == 1
    {
      assert y in multiset(after);
    }
  }
}
