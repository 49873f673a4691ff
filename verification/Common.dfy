/** Shared vocabulary: options, finite sums, least elements, strict orders and sorting. */
module Common {

  datatype Option<+T> = None | Some(value: T)

  function Max(a: int, b: int): int { if a >= b then a else b }

  function Min(a: int, b: int): int { if a <= b then a else b }

  // ---------- finite sums ----------

  /** The sum of f over a finite set; the order of summation does not matter (SumRemove). */
  ghost function Sum<K(!new)>(s: set<K>, f: K -> int): int
  {
    if s == {} then 0 else
      var x :| x in s;
      f(x) + Sum(s - {x}, f)
  }

  lemma {:induction false} SumRemove<K(!new)>(s: set<K>, f: K -> int, x: K)
    requires x in s
    ensures Sum(s, f) == f(x) + Sum(s - {x}, f)
    decreases |s|
  {
    var y :| y in s && Sum(s, f) == f(y) + Sum(s - {y}, f);
    if y != x {
      SumRemove(s - {y}, f, x);
      SumRemove(s - {x}, f, y);
      assert s - {y} - {x} == s - {x} - {y};
    }
  }

  lemma SumInsert<K(!new)>(s: set<K>, f: K -> int, x: K)
    requires x !in s
    ensures Sum(s + {x}, f) == f(x) + Sum(s, f)
  {
    SumRemove(s + {x}, f, x);
    assert s + {x} - {x} == s;
  }

  lemma {:induction false} SumAgree<K(!new)>(s: set<K>, f: K -> int, g: K -> int)
    requires forall x :: x in s ==> f(x) == g(x)
    ensures Sum(s, f) == Sum(s, g)
    decreases |s|
  {
    if s != {} {
      var x :| x in s;
      SumRemove(s, f, x);
      SumRemove(s, g, x);
      SumAgree(s - {x}, f, g);
    }
  }

  lemma {:induction false} SumAtMost<K(!new)>(s: set<K>, t: set<K>, f: K -> int)
    requires s <= t
    requires forall x :: x in t ==> f(x) >= 0
    ensures 0 <= Sum(s, f) <= Sum(t, f)
    decreases |t|
  {
    if t != {} {
      var x :| x in t;
      SumRemove(t, f, x);
      if x in s {
        SumRemove(s, f, x);
        SumAtMost(s - {x}, t - {x}, f);
      } else {
        SumAtMost(s, t - {x}, f);
      }
    }
  }

  lemma {:induction false} SumUnion<K(!new)>(s: set<K>, t: set<K>, f: K -> int)
    requires s !! t
    ensures Sum(s + t, f) == Sum(s, f) + Sum(t, f)
    decreases |s|
  {
    if s == {} {
      assert s + t == t;
    } else {
      var x :| x in s;
      SumRemove(s, f, x);
      SumRemove(s + t, f, x);
      assert s + t - {x} == (s - {x}) + t;
      SumUnion(s - {x}, t, f);
    }
  }

  lemma {:induction false} SumPlus<K(!new)>(s: set<K>, f: K -> int, g: K -> int, h: K -> int)
    requires forall x :: x in s ==> h(x) == f(x) + g(x)
    ensures Sum(s, h) == Sum(s, f) + Sum(s, g)
    decreases |s|
  {
    if s != {} {
      var x :| x in s;
      SumRemove(s, f, x);
      SumRemove(s, g, x);
      SumRemove(s, h, x);
      SumPlus(s - {x}, f, g, h);
    }
  }

  lemma {:induction false} SumZero<K(!new)>(s: set<K>, f: K -> int)
    requires forall x :: x in s ==> f(x) == 0
    ensures Sum(s, f) == 0
    decreases |s|
  {
    if s != {} {
      var x :| x in s;
      SumRemove(s, f, x);
      SumZero(s - {x}, f);
    }
  }

  // ---------- cardinality ----------

  lemma Pick<T>(s: set<T>) returns (x: T)
    requires s != {}
    ensures x in s
  {
    x :| x in s;
  }

  /** The next key of a range over a map: any of those not visited yet. */
  method Take<T(==)>(s: set<T>) returns (x: T)
    requires s != {}
    ensures x in s
  {
    x :| x in s;
  }

  /** Visiting x moves it from the keys left to the keys done. */
  lemma Visit<T>(rest: set<T>, done: set<T>, all: set<T>, x: T)
    requires rest + done == all && rest !! done && x in rest
    ensures (rest - {x}) + (done + {x}) == all && (rest - {x}) !! (done + {x}) && x !in done && x in all
    ensures |rest - {x}| == |rest| - 1
  {
  }

  /** A map that is injective on s does not lose elements. */
  lemma {:induction false} InjectionBound<A(!new), B(!new)>(s: set<A>, t: set<B>, f: A -> B)
    requires forall a :: a in s ==> f(a) in t
    requires forall a, b :: a in s && b in s && f(a) == f(b) ==> a == b
    ensures |s| <= |t|
    decreases |s|
  {
    if s != {} {
      var a :| a in s;
      InjectionBound(s - {a}, t - {f(a)}, f);
    }
  }

  lemma {:induction false} SubsetSize<A>(s: set<A>, t: set<A>)
    requires s <= t
    ensures |s| <= |t|
    ensures |s| == |t| ==> s == t
    decreases |t|
  {
    if s != {} {
      var a :| a in s;
      SubsetSize(s - {a}, t - {a});
      if |s| == |t| {
        assert s - {a} == t - {a};
        assert s == (s - {a}) + {a} == (t - {a}) + {a} == t;
      }
    }
  }

  ghost function Interval(lo: int, hi: int): (s: set<int>)
    ensures forall x :: x in s <==> lo <= x < hi
    decreases hi - lo
  {
    if lo >= hi then {} else Interval(lo, hi - 1) + {hi - 1}
  }

  lemma {:induction false} IntervalSize(lo: int, hi: int)
    requires lo <= hi
    ensures |Interval(lo, hi)| == hi - lo
    decreases hi - lo
  {
    if lo < hi { IntervalSize(lo, hi - 1); }
  }

  // ---------- least elements ----------

  lemma {:induction false} MinExists(s: set<int>)
    requires s != {}
    ensures exists m :: m in s && forall x :: x in s ==> m <= x
    decreases |s|
  {
    var m := Pick(s);
    var rest := s - {m};
    assert s == rest + {m};
    if rest == {} {
      assert forall x :: x in s ==> m <= x;
    } else {
      MinExists(rest);
      var n :| n in rest && forall x :: x in rest ==> n <= x;
      var least := Min(m, n);
      assert least in s && forall x :: x in rest + {m} ==> least <= x;
    }
  }

  ghost function SetMin(s: set<int>): (m: int)
    requires s != {}
    ensures m in s && forall x :: x in s ==> m <= x
  {
    MinExists(s);
    var m :| m in s && forall x :: x in s ==> m <= x;
    m
  }

  // ---------- strict orders and sorting ----------

  /** less is a strict total order on the elements of s. */
  ghost predicate Orders<T(!new)>(less: (T, T) -> bool, s: set<T>)
  {
    && (forall a :: a in s ==> !less(a, a))
    && (forall a, b :: a in s && b in s && less(a, b) ==> !less(b, a))
    && (forall a, b, c :: a in s && b in s && c in s && less(a, b) && less(b, c) ==> less(a, c))
    && (forall a, b :: a in s && b in s && a != b ==> less(a, b) || less(b, a))
  }

  ghost predicate Ascending<T(!new)>(less: (T, T) -> bool, xs: seq<T>)
  {
    forall i, j :: 0 <= i < j < |xs| ==> less(xs[i], xs[j])
  }

  ghost predicate Distinct<T(!new)>(xs: seq<T>) { forall i, j :: 0 <= i < j < |xs| ==> xs[i] != xs[j] }

  ghost function Elements<T>(xs: seq<T>): set<T> { set x | x in xs }

  lemma AppendElement<T(!new)>(xs: seq<T>, x: T)
    ensures Elements(xs + [x]) == Elements(xs) + {x}
    ensures Distinct(xs) && x !in Elements(xs) ==> Distinct(xs + [x])
  {
    assert (xs + [x])[|xs|] == x;
    assert forall i :: 0 <= i < |xs| ==> (xs + [x])[i] == xs[i];
  }

  lemma OrderAt<T(!new)>(less: (T, T) -> bool, s: set<T>, a: T, b: T, c: T)
    requires Orders(less, s) && a in s && b in s && c in s
    ensures less(a, b) && less(b, c) ==> less(a, c)
    ensures a != b ==> (less(a, b) <==> !less(b, a))
    ensures !less(a, a)
  {
  }

  lemma OrdersSubset<T(!new)>(less: (T, T) -> bool, s: set<T>, t: set<T>)
    requires Orders(less, t) && s <= t
    ensures Orders(less, s)
  {
  }

  ghost predicate IsLeast<T(!new)>(less: (T, T) -> bool, s: set<T>, m: T)
  {
    m in s && forall x :: x in s && x != m ==> less(m, x)
  }

  lemma {:induction false} LeastExists<T(!new)>(less: (T, T) -> bool, s: set<T>)
    requires s != {} && Orders(less, s)
    ensures exists m :: IsLeast(less, s, m)
    decreases |s|
  {
    hide Orders;
    var m :| m in s;
    var rest := s - {m};
    OrdersSubset(less, rest, s);
    assert forall x :: x in s && x != m ==> x in rest;
    if rest == {} {
      assert IsLeast(less, s, m);
    } else {
      LeastExists(less, rest);
      var n :| IsLeast(less, rest, n);
      var least := if less(n, m) then n else m;
      forall x | x in s && x != least ensures less(least, x) {
        OrderAt(less, s, m, n, x);
        OrderAt(less, s, n, m, x);
        assert x == m || x in rest;
      }
      assert IsLeast(less, s, least);
    }
  }

  ghost function Least<T(!new)>(less: (T, T) -> bool, s: set<T>): (m: T)
    requires s != {} && Orders(less, s)
    ensures IsLeast(less, s, m)
  {
    LeastExists(less, s);
    var m :| IsLeast(less, s, m);
    m
  }

  /** The one ascending listing of s: what the source obtains from sort.Slice on distinct keys. */
  ghost function SortSet<T(!new)>(less: (T, T) -> bool, s: set<T>): (xs: seq<T>)
    requires Orders(less, s)
    ensures Elements(xs) == s && |xs| == |s| && Ascending(less, xs)
    decreases |s|
  {
    if s == {} then [] else
      var m := Least(less, s);
      var rest := SortSet(less, s - {m});
      AscendingCons(less, m, rest, s);
      [m] + rest
  }

  lemma AscendingCons<T(!new)>(less: (T, T) -> bool, m: T, rest: seq<T>, s: set<T>)
    requires IsLeast(less, s, m) && Elements(rest) == s - {m} && Ascending(less, rest)
    ensures Ascending(less, [m] + rest) && Elements([m] + rest) == s
  {
    var xs := [m] + rest;
    forall i, j | 0 <= i < j < |xs| ensures less(xs[i], xs[j]) {
      assert xs[j] == rest[j - 1] && rest[j - 1] in Elements(rest);
    }
    forall x ensures x in Elements(xs) <==> x in s {
      if x in s && x != m {
        assert x in Elements(rest);
        var i :| 0 <= i < |rest| && rest[i] == x;
        assert xs[i + 1] == x;
      }
      if x in xs && x != m {
        var i :| 0 <= i < |xs| && xs[i] == x;
        assert rest[i - 1] == x && x in Elements(rest);
      }
    }
  }

  lemma {:induction false} AscendingUnique<T(!new)>(less: (T, T) -> bool, xs: seq<T>, ys: seq<T>)
    requires Orders(less, Elements(xs)) && Elements(xs) == Elements(ys)
    requires Ascending(less, xs) && Ascending(less, ys)
    ensures xs == ys
    decreases |xs|
  {
    HeadIsElement(xs);
    HeadIsElement(ys);
    if xs == [] {
    } else {
      assert xs[0] in Elements(ys);
      assert ys[0] in Elements(xs);
      var i :| 0 <= i < |ys| && ys[i] == xs[0];
      var j :| 0 <= j < |xs| && xs[j] == ys[0];
      assert xs[0] == ys[0];
      AscendingTail(less, xs);
      AscendingTail(less, ys);
      AscendingUnique(less, xs[1..], ys[1..]);
    }
  }

  lemma HeadIsElement<T(!new)>(xs: seq<T>)
    ensures xs != [] ==> xs[0] in Elements(xs)
    ensures xs == [] ==> Elements(xs) == {}
  {
  }

  lemma AscendingTail<T(!new)>(less: (T, T) -> bool, xs: seq<T>)
    requires xs != [] && Orders(less, Elements(xs)) && Ascending(less, xs)
    ensures Ascending(less, xs[1..])
    ensures Elements(xs[1..]) == Elements(xs) - {xs[0]}
  {
    var tail := xs[1..];
    forall x ensures x in Elements(tail) <==> x in Elements(xs) - {xs[0]} {
      if x in tail {
        var i :| 0 <= i < |tail| && tail[i] == x;
        assert xs[i + 1] == x && less(xs[0], x);
        assert xs[0] in Elements(xs) && x in Elements(xs);
      }
      if x in Elements(xs) - {xs[0]} {
        var i :| 0 <= i < |xs| && xs[i] == x;
        assert tail[i - 1] == x;
      }
    }
  }

  /** sort.Slice on a slice without equal keys, as an insertion sort. */
  method SortSlice<T(!new)>(less: (T, T) -> bool, xs: seq<T>) returns (ys: seq<T>)
    requires Orders(less, Elements(xs))
    requires Distinct(xs)
    ensures ys == SortSet(less, Elements(xs))
  {
    ys := [];
    for k := 0 to |xs|
      invariant Elements(ys) == Elements(xs[..k])
      invariant Ascending(less, ys)
    {
      var i := 0;
      while i < |ys| && less(ys[i], xs[k])
        invariant 0 <= i <= |ys|
        invariant forall j :: 0 <= j < i ==> less(ys[j], xs[k])
      {
        i := i + 1;
      }
      assert xs[..k + 1] == xs[..k] + [xs[k]];
      assert xs[k] !in Elements(ys);
      assert Elements(ys) <= Elements(xs);
      InsertAscending(less, Elements(xs), ys, i, xs[k]);
      ys := ys[..i] + [xs[k]] + ys[i..];
    }
    assert xs[..|xs|] == xs;
    AscendingUnique(less, ys, SortSet(less, Elements(xs)));
  }

  lemma InsertAscending<T(!new)>(less: (T, T) -> bool, s: set<T>, ys: seq<T>, i: nat, x: T)
    requires i <= |ys| && Elements(ys) <= s && x in s && x !in ys && Orders(less, s)
    requires Ascending(less, ys)
    requires forall j :: 0 <= j < i ==> less(ys[j], x)
    requires i < |ys| ==> !less(ys[i], x)
    ensures Ascending(less, ys[..i] + [x] + ys[i..])
    ensures Elements(ys[..i] + [x] + ys[i..]) == Elements(ys) + {x}
  {
    hide Orders;
    var zs := ys[..i] + [x] + ys[i..];
    forall j | i <= j < |ys| ensures less(x, ys[j]) {
      assert ys[i] in Elements(ys) && ys[j] in Elements(ys);
      OrderAt(less, s, x, ys[i], ys[j]);
    }
    forall a, b | 0 <= a < b < |zs| ensures less(zs[a], zs[b]) {
      if b < i {
        assert zs[a] == ys[a] && zs[b] == ys[b];
      } else if b == i {
        assert zs[a] == ys[a];
      } else if a < i {
        assert zs[a] == ys[a] && zs[b] == ys[b - 1];
      } else if a > i {
        assert zs[a] == ys[a - 1] && zs[b] == ys[b - 1];
      } else {
        assert zs[b] == ys[b - 1];
      }
    }
    assert ys == ys[..i] + ys[i..];
  }

  function IntLess(a: int, b: int): bool { a < b }

  /** Byte-wise string comparison, Go's `<` on strings. */
  function StrLess(a: string, b: string): bool
  {
    if b == "" then false
    else if a == "" then true
    else if a[0] != b[0] then a[0] < b[0]
    else StrLess(a[1..], b[1..])
  }

  lemma {:induction false} StrLessAsym(a: string, b: string)
    ensures !(StrLess(a, b) && StrLess(b, a))
    ensures a == b ==> !StrLess(a, b)
  {
    if a != "" && b != "" && a[0] == b[0] { StrLessAsym(a[1..], b[1..]); }
  }

  lemma {:induction false} StrLessTrans(a: string, b: string, c: string)
    requires StrLess(a, b) && StrLess(b, c)
    ensures StrLess(a, c)
  {
    if a != "" && a[0] == b[0] == c[0] { StrLessTrans(a[1..], b[1..], c[1..]); }
  }

  lemma {:induction false} StrLessTotal(a: string, b: string)
    requires a != b
    ensures StrLess(a, b) || StrLess(b, a)
  {
    if a != "" && b != "" && a[0] == b[0] {
      assert a == [a[0]] + a[1..] && b == [b[0]] + b[1..];
      StrLessTotal(a[1..], b[1..]);
    }
  }

  lemma StrOrders(s: set<string>)
    ensures Orders(StrLess, s)
  {
    forall a: string, b: string ensures !(StrLess(a, b) && StrLess(b, a)) && (a == b ==> !StrLess(a, b)) {
      StrLessAsym(a, b);
    }
    forall a: string, b: string, c: string | StrLess(a, b) && StrLess(b, c) ensures StrLess(a, c) {
      StrLessTrans(a, b, c);
    }
    forall a: string, b: string | a != b ensures StrLess(a, b) || StrLess(b, a) { StrLessTotal(a, b); }
  }
}
