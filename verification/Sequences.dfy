/** Filtering and reversing sequences of distinct elements. */
module Sequences {
  import opened Links

  function Elements<T>(s: seq<T>): set<T> {
    set x | x in s
  }

  /** `s` with every element of `drop` removed, order kept. */
  function Without<T(==,!new)>(s: seq<T>, drop: set<T>): (r: seq<T>)
    ensures |r| <= |s|
  {
    if s == [] then []
    else if s[0] in drop then Without(s[1..], drop)
    else [s[0]] + Without(s[1..], drop)
  }

  function Reverse<T>(s: seq<T>): (r: seq<T>)
    ensures |r| == |s|
  {
    if s == [] then [] else Reverse(s[1..]) + [s[0]]
  }

  lemma {:induction false} WithoutMembers<T(!new)>(s: seq<T>, drop: set<T>)
    ensures forall x :: x in Without(s, drop) <==> x in s && x !in drop
  {
    if s != [] {
      WithoutMembers(s[1..], drop);
      assert s == [s[0]] + s[1..];
    }
  }

  lemma {:induction false} ReverseMembers<T(!new)>(s: seq<T>)
    ensures forall x :: x in Reverse(s) <==> x in s
  {
    if s != [] {
      ReverseMembers(s[1..]);
      assert s == [s[0]] + s[1..];
    }
  }

  lemma {:induction false} WithoutConcat<T(!new)>(s: seq<T>, t: seq<T>, drop: set<T>)
    ensures Without(s + t, drop) == Without(s, drop) + Without(t, drop)
  {
    if s == [] {
      assert s + t == t;
    } else {
      assert (s + t)[1..] == s[1..] + t;
      WithoutConcat(s[1..], t, drop);
    }
  }

  lemma {:induction false} WithoutDistinct<T(!new)>(s: seq<T>, drop: set<T>)
    requires Distinct(s)
    ensures Distinct(Without(s, drop))
  {
    if s != [] {
      WithoutDistinct(s[1..], drop);
      WithoutMembers(s[1..], drop);
      assert s[0] !in s[1..];
    }
  }

  lemma {:induction false} WithoutNone<T(!new)>(s: seq<T>, drop: set<T>)
    requires forall x :: x in s ==> x !in drop
    ensures Without(s, drop) == s
  {
    if s != [] {
      assert s[0] in s && forall x :: x in s[1..] ==> x in s;
      WithoutNone(s[1..], drop);
    }
  }

  lemma {:induction false} WithoutAll<T(!new)>(s: seq<T>, drop: set<T>)
    requires forall x :: x in s ==> x in drop
    ensures Without(s, drop) == []
  {
    if s != [] {
      assert s[0] in s && forall x :: x in s[1..] ==> x in s;
      WithoutAll(s[1..], drop);
    }
  }

  lemma {:induction false} WithoutTwice<T(!new)>(s: seq<T>, a: set<T>, b: set<T>)
    ensures Without(Without(s, a), b) == Without(s, a + b)
  {
    if s != [] {
      WithoutTwice(s[1..], a, b);
    }
  }

  lemma NotElsewhere<T(!new)>(s: seq<T>, j: nat)
    requires Distinct(s) && j < |s|
    ensures forall x :: x in s[..j] || x in s[j + 1..] ==> x !in {s[j]}
    ensures s == s[..j] + ([s[j]] + s[j + 1..])
  {
  }

  /** Removing one present element of a sequence of distinct elements is dropping its position. */
  lemma WithoutIsDrop<T(!new)>(s: seq<T>, j: nat)
    requires Distinct(s) && j < |s|
    ensures Without(s, {s[j]}) == Drop(s, j)
  {
    hide Distinct;
    var x, front, back := s[j], s[..j], s[j + 1..];
    NotElsewhere(s, j);
    WithoutConcat(front, [x] + back, {x});
    assert ([x] + back)[1..] == back;
    WithoutNone(front, {x});
    WithoutNone(back, {x});
  }

  /** At most as many elements disappear as there are distinct elements to remove. */
  lemma {:induction false} WithoutLength<T(!new)>(s: seq<T>, drop: seq<T>)
    requires Distinct(s)
    ensures |Without(s, Elements(drop))| >= |s| - |drop|
    decreases |drop|
  {
    if drop == [] {
      WithoutNone(s, Elements(drop));
    } else {
      var x := drop[0];
      var rest := Without(s, {x});
      WithoutDistinct(s, {x});
      if x in s {
        var j :| 0 <= j < |s| && s[j] == x;
        WithoutIsDrop(s, j);
      } else {
        WithoutNone(s, {x});
      }
      WithoutLength(rest, drop[1..]);
      WithoutTwice(s, {x}, Elements(drop[1..]));
      assert {x} + Elements(drop[1..]) == Elements(drop) by {
        assert drop == [x] + drop[1..];
      }
    }
  }

  /** Exactly the elements of `drop` disappear when they are distinct and present. */
  lemma {:induction false} WithoutLengthExact<T(!new)>(s: seq<T>, drop: seq<T>)
    requires Distinct(s) && Distinct(drop)
    requires forall x :: x in drop ==> x in s
    ensures |Without(s, Elements(drop))| == |s| - |drop|
    decreases |drop|
  {
    if drop == [] {
      WithoutNone(s, Elements(drop));
    } else {
      var x := drop[0];
      var rest := Without(s, {x});
      WithoutDistinct(s, {x});
      assert x in drop;
      var j :| 0 <= j < |s| && s[j] == x;
      WithoutIsDrop(s, j);
      assert x !in drop[1..];
      WithoutMembers(s, {x});
      WithoutLengthExact(rest, drop[1..]);
      WithoutTwice(s, {x}, Elements(drop[1..]));
      assert {x} + Elements(drop[1..]) == Elements(drop) by {
        assert drop == [x] + drop[1..];
      }
    }
  }

  lemma {:induction false} ReverseConcat<T(!new)>(s: seq<T>, t: seq<T>)
    ensures Reverse(s + t) == Reverse(t) + Reverse(s)
  {
    if s == [] {
      assert s + t == t;
    } else {
      assert (s + t)[1..] == s[1..] + t;
      ReverseConcat(s[1..], t);
    }
  }

  lemma {:induction false} ReverseWithout<T(!new)>(s: seq<T>, drop: set<T>)
    ensures Reverse(Without(s, drop)) == Without(Reverse(s), drop)
  {
    if s != [] {
      ReverseWithout(s[1..], drop);
      WithoutConcat(Reverse(s[1..]), [s[0]], drop);
      if s[0] !in drop {
        ReverseConcat([s[0]], Without(s[1..], drop));
        assert Reverse([s[0]]) == [s[0]];
        assert Without([s[0]], drop) == [s[0]];
      }
    }
  }

  lemma Regroup<T>(a: seq<T>, b: seq<T>, c: seq<T>)
    ensures (a + b) + c == a + (b + c)
  {
  }

  lemma DistinctConcat<T(!new)>(s: seq<T>, t: seq<T>)
    requires Distinct(s) && Distinct(t) && forall x :: x in s ==> x !in t
    ensures Distinct(s + t)
  {
    forall i, j | 0 <= i < j < |s + t| ensures (s + t)[i] != (s + t)[j] {
      if i < |s| <= j {
        assert s[i] in s && t[j - |s|] in t;
      }
    }
  }

  lemma {:induction false} ElementsSize<T>(s: seq<T>)
    requires Distinct(s)
    ensures |Elements(s)| == |s|
  {
    if s != [] {
      var rest := s[1..];
      ElementsSize(rest);
      assert s == [s[0]] + rest && s[0] !in rest;
      assert Elements(s) == {s[0]} + Elements(rest);
    }
  }

  lemma {:induction false} RangeSize(s: set<int>, n: nat)
    requires forall x :: x in s ==> 0 <= x < n
    ensures |s| <= n
  {
    if n == 0 {
      assert forall x :: x !in s;
    } else {
      RangeSize(s - {n - 1}, n - 1);
    }
  }

  /** Distinct numbers below n are at most n, and exactly n if none is missing. */
  lemma DistinctBelow(s: seq<int>, n: nat)
    requires Distinct(s) && InRange(s, n)
    ensures |s| <= n
    ensures (forall x :: 0 <= x < n ==> x in s) ==> |s| == n
    ensures (exists x :: 0 <= x < n && x !in s) ==> |s| < n
  {
    ElementsSize(s);
    RangeSize(Elements(s), n);
    if forall x :: 0 <= x < n ==> x in s { CoversAll(Elements(s), n); }
    if x :| 0 <= x < n && x !in s {
      assert Elements(s + [x]) == Elements(s) + {x};
      RangeSize(Elements(s) + {x}, n);
    }
  }

  lemma {:induction false} CoversAll(s: set<int>, n: nat)
    requires forall x :: 0 <= x < n ==> x in s
    ensures |s| >= n
  {
    if n > 0 { CoversAll(s - {n - 1}, n - 1); }
  }

  /** What is in `a` and not in `b`, in the order of `a`. */
  function Missing<T(==,!new)>(a: seq<T>, b: seq<T>): seq<T> {
    Without(a, Elements(b))
  }

  lemma MissingSelf<T(!new)>(a: seq<T>)
    ensures Missing(a, a) == []
  {
    WithoutAll(a, Elements(a));
  }

  lemma MissingOne<T(!new)>(a: seq<T>, x: T)
    requires Distinct(a) && x in a
    ensures Missing(a, Without(a, {x})) == [x] && Missing(Without(a, {x}), a) == []
  {
    WithoutMembers(a, {x});
    var j := IndexOf(a, x);
    var b := Elements(Without(a, {x}));
    assert a == a[..j] + [x] + a[j + 1..];
    WithoutConcat(a[..j] + [x], a[j + 1..], b);
    WithoutConcat(a[..j], [x], b);
    forall y | y in a[..j] || y in a[j + 1..] ensures y in b { NotElsewhere(a, j); }
    WithoutAll(a[..j], b);
    WithoutAll(a[j + 1..], b);
    WithoutNone([x], b);
    WithoutAll(Without(a, {x}), Elements(a));
  }

  lemma MissingLast<T(!new)>(a: seq<T>, x: T)
    requires x !in a
    ensures Missing(a + [x], a) == [x] && Missing(a, a + [x]) == []
  {
    WithoutConcat(a, [x], Elements(a));
    WithoutAll(a, Elements(a));
    WithoutNone([x], Elements(a));
    WithoutAll(a, Elements(a + [x]));
  }

  lemma MissingFirst<T(!new)>(a: seq<T>, x: T)
    requires x !in a
    ensures Missing([x] + a, a) == [x]
  {
    WithoutConcat([x], a, Elements(a));
    WithoutAll(a, Elements(a));
    WithoutNone([x], Elements(a));
  }
}
