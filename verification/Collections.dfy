/**
 Optional values, the outcomes of a Go call, and the two list combinators (filtering and flattening)
 by which the operator's accumulator loops are specified.
 */
module Collections {

  datatype Option<+T> = None | Some(value: T)

  /** What a Go function that returns `(T, error)` can do. `Misconfigured` is a MisconfiguredManifestError, `Failed` any
      other error, and `Panicked` a run-time panic (an index out of range or a nil dereference). */
  datatype Result<+T> = Ok(value: T) | Misconfigured | Failed | Panicked

  /** The elements of `s` that satisfy `p`, in order. */
  function Filter<T>(p: T -> bool, s: seq<T>): seq<T>
  {
    if s == [] then []
    else Filter(p, s[..|s| - 1]) + if p(s[|s| - 1]) then [s[|s| - 1]] else []
  }

  lemma FilterStep<T>(p: T -> bool, s: seq<T>, i: nat)
    requires i < |s|
    ensures Filter(p, s[..i + 1]) == Filter(p, s[..i]) + if p(s[i]) then [s[i]] else []
  {
    assert s[..i + 1][..i] == s[..i];
  }

  lemma {:induction false} FilterMembers<T>(p: T -> bool, s: seq<T>)
    ensures var f := Filter(p, s);
            && |f| <= |s|
            && (forall i :: 0 <= i < |f| ==> f[i] in s && p(f[i]))
            && (forall i :: 0 <= i < |s| ==> (s[i] in f <==> p(s[i])))
  {
    if s != [] {
      var front := s[..|s| - 1];
      FilterMembers(p, front);
      assert s == front + [s[|s| - 1]];
    }
  }

  lemma FilterOne<T>(p: T -> bool, s: seq<T>)
    requires |s| == 1
    ensures Filter(p, s) == if p(s[0]) then s else []
  {
    var none := s[..0];
    assert none == [] && Filter(p, none) == [];
    assert s == [s[0]] && none + s == s && none + none == none;
  }

  lemma {:induction false} FilterConcat<T>(p: T -> bool, a: seq<T>, b: seq<T>)
    ensures Filter(p, a + b) == Filter(p, a) + Filter(p, b)
  {
    if b == [] {
      assert a + b == a;
    } else {
      FilterConcat(p, a, b[..|b| - 1]);
      assert (a + b)[..|a + b| - 1] == a + b[..|b| - 1];
    }
  }

  /** A list all of whose elements satisfy `p` is its own filtering. */
  lemma {:induction false} FilterAll<T>(p: T -> bool, s: seq<T>)
    requires forall i :: 0 <= i < |s| ==> p(s[i])
    ensures Filter(p, s) == s
  {
    if s != [] {
      var front := s[..|s| - 1];
      FilterAll(p, front);
      assert s == front + [s[|s| - 1]];
    }
  }

  lemma {:induction false} FilterGrows<T>(p: T -> bool, s: seq<T>, i: nat)
    requires i <= |s| && Filter(p, s[..i]) != []
    ensures Filter(p, s) != []
    decreases |s|
  {
    if i < |s| {
      assert s[..|s| - 1][..i] == s[..i];
      FilterGrows(p, s[..|s| - 1], i);
    } else {
      assert s[..i] == s;
    }
  }

  /** Dropping an element that fails `p` does not change the filtering. */
  lemma FilterSkip<T>(p: T -> bool, s: seq<T>, i: nat)
    requires i < |s| && !p(s[i])
    ensures Filter(p, s[..i] + s[i + 1..]) == Filter(p, s)
  {
    FilterStep(p, s, i);
    FilterPieces(p, s[..i], s[..i + 1], s[i + 1..]);
    SplitAt(s, i + 1);
  }

  lemma SplitAt<T>(s: seq<T>, i: nat)
    requires i <= |s|
    ensures s[..i] + s[i..] == s
  {
  }

  lemma FilterPieces<T>(p: T -> bool, a: seq<T>, b: seq<T>, c: seq<T>)
    requires Filter(p, a) == Filter(p, b)
    ensures Filter(p, a + c) == Filter(p, b + c)
  {
    FilterConcat(p, a, c);
    FilterConcat(p, b, c);
  }

  lemma Regroup<T>(a: seq<T>, b: seq<T>, c: seq<T>, d: seq<T>)
    ensures a + b + c + d == a + (b + (c + d)) == a + ((b + c) + d) == (a + b) + (c + d)
  {
  }

  lemma Prefixes<T>(s: seq<T>, i: nat)
    requires i < |s|
    ensures |s[..i + 1]| == i + 1 && s[..i + 1][..i] == s[..i] && s[..i + 1][i] == s[i]
  {
  }

  lemma Front<T>(s: seq<T>, x: T)
    ensures |s + [x]| == |s| + 1 && (s + [x])[..|s|] == s && (s + [x])[|s|] == x
  {
  }

  lemma Unsnoc<T>(s: seq<T>)
    requires s != []
    ensures s == s[..|s| - 1] + [s[|s| - 1]]
    ensures multiset(s) == multiset(s[..|s| - 1]) + multiset{s[|s| - 1]}
  {
    assert s == s[..|s| - 1] + [s[|s| - 1]];
  }

  lemma Snoc<T>(a: seq<T>, s: seq<T>, i: nat)
    requires i < |s|
    ensures (a + s[..i]) + [s[i]] == a + s[..i + 1]
  {
  }

  lemma Associate<T>(a: seq<T>, b: seq<T>, c: seq<T>)
    ensures (a + b) + c == a + (b + c)
  {
  }

  /** The concatenation of `f(x)` for the elements `x` of `s`, in order. */
  function FlatMap<A, B>(f: A -> seq<B>, s: seq<A>): seq<B>
  {
    if s == [] then [] else FlatMap(f, s[..|s| - 1]) + f(s[|s| - 1])
  }

  lemma FlatMapStep<A, B>(f: A -> seq<B>, s: seq<A>, i: nat)
    requires i < |s|
    ensures FlatMap(f, s[..i + 1]) == FlatMap(f, s[..i]) + f(s[i])
  {
    assert s[..i + 1][..i] == s[..i];
  }

  lemma {:induction false} FlatMapMembers<A, B>(f: A -> seq<B>, s: seq<A>, y: B)
    ensures y in FlatMap(f, s) <==> exists x :: x in s && y in f(x)
  {
    if s != [] {
      FlatMapMembers(f, s[..|s| - 1], y);
      assert s == s[..|s| - 1] + [s[|s| - 1]];
      assert forall x :: x in s <==> x in s[..|s| - 1] || x == s[|s| - 1];
    }
  }

  lemma {:induction false} FlatMapConcat<A, B>(f: A -> seq<B>, a: seq<A>, b: seq<A>)
    ensures FlatMap(f, a + b) == FlatMap(f, a) + FlatMap(f, b)
  {
    if b == [] {
      assert a + b == a;
    } else {
      FlatMapConcat(f, a, b[..|b| - 1]);
      assert (a + b)[..|a + b| - 1] == a + b[..|b| - 1];
    }
  }

  /** Replacing an element by one with the same image, or dropping one with an empty image, changes nothing. */
  lemma FlatMapReplace<A, B>(f: A -> seq<B>, s: seq<A>, i: nat, x: A)
    requires i < |s|
    ensures f(x) == f(s[i]) ==> FlatMap(f, s[i := x]) == FlatMap(f, s)
    ensures f(s[i]) == [] ==> FlatMap(f, s[..i] + s[i + 1..]) == FlatMap(f, s)
  {
    var a, c := s[..i], s[i + 1..];
    FlatMapOnce(f, a, s[i], c);
    FlatMapOnce(f, a, x, c);
    FlatMapConcat(f, a, c);
    assert s == a + [s[i]] + c;
    assert s[i := x] == a + [x] + c;
  }

  lemma FlatMapOnce<A, B>(f: A -> seq<B>, a: seq<A>, x: A, c: seq<A>)
    ensures FlatMap(f, a + [x] + c) == FlatMap(f, a) + f(x) + FlatMap(f, c)
  {
    FlatMapConcat(f, a + [x], c);
    Front(a, x);
  }

  /** A flattening loop that gives up at the first element for which `f` fails. */
  function TryFlatMap<A, B>(f: A -> Option<seq<B>>, s: seq<A>): Option<seq<B>>
  {
    if s == [] then Some([])
    else match TryFlatMap(f, s[..|s| - 1])
         case None => None
         case Some(front) => (match f(s[|s| - 1]) case None => None case Some(last) => Some(front + last))
  }

  lemma TryFlatMapStep<A, B>(f: A -> Option<seq<B>>, s: seq<A>, i: nat)
    requires i < |s| && TryFlatMap(f, s[..i]).Some?
    ensures TryFlatMap(f, s[..i + 1])
         == match f(s[i]) case None => None case Some(last) => Some(TryFlatMap(f, s[..i]).value + last)
  {
    assert s[..i + 1][..i] == s[..i];
  }

  /** The loop fails exactly when `f` fails for some element. */
  lemma {:induction false} TryFlatMapFails<A, B>(f: A -> Option<seq<B>>, s: seq<A>)
    ensures TryFlatMap(f, s).None? <==> exists i :: 0 <= i < |s| && f(s[i]).None?
  {
    if s != [] {
      var front := s[..|s| - 1];
      TryFlatMapFails(f, front);
      forall i | 0 <= i < |s| && f(s[i]).None? ensures TryFlatMap(f, s).None? {
        if i < |front| { assert front[i] == s[i]; }
      }
      if TryFlatMap(f, front).None? {
        var i :| 0 <= i < |front| && f(front[i]).None?;
        assert f(s[i]).None?;
      }
    }
  }

  /** And otherwise it yields what `f` yields for some element. */
  lemma {:induction false} TryFlatMapMembers<A, B>(f: A -> Option<seq<B>>, s: seq<A>, y: B)
    requires TryFlatMap(f, s).Some?
    ensures y in TryFlatMap(f, s).value <==> exists x :: x in s && f(x).Some? && y in f(x).value
  {
    if s != [] {
      TryFlatMapMembers(f, s[..|s| - 1], y);
      assert s == s[..|s| - 1] + [s[|s| - 1]];
      assert forall x :: x in s <==> x in s[..|s| - 1] || x == s[|s| - 1];
    }
  }

  /** Once the loop has failed it stays failed. */
  lemma {:induction false} TryFlatMapStops<A, B>(f: A -> Option<seq<B>>, s: seq<A>, i: nat)
    requires i <= |s| && TryFlatMap(f, s[..i]).None?
    ensures TryFlatMap(f, s).None?
    decreases |s|
  {
    if i < |s| {
      assert s[..|s| - 1][..i] == s[..i];
      TryFlatMapStops(f, s[..|s| - 1], i);
    } else {
      assert s[..i] == s;
    }
  }

  /** The union of `f(x)` for the elements `x` of `s`. */
  ghost function Gather<A, B>(f: A -> set<B>, s: seq<A>): set<B>
  {
    if s == [] then {} else Gather(f, s[..|s| - 1]) + f(s[|s| - 1])
  }

  lemma GatherStep<A, B>(f: A -> set<B>, s: seq<A>, i: nat)
    requires i < |s|
    ensures Gather(f, s[..i + 1]) == Gather(f, s[..i]) + f(s[i])
  {
    assert s[..i + 1][..i] == s[..i];
  }

  lemma {:induction false} GatherMembers<A, B>(f: A -> set<B>, s: seq<A>, y: B)
    ensures y in Gather(f, s) <==> exists i :: 0 <= i < |s| && y in f(s[i])
  {
    if s != [] {
      var front := s[..|s| - 1];
      GatherMembers(f, front, y);
      if y in Gather(f, front) {
        var i :| 0 <= i < |front| && y in f(front[i]);
        assert y in f(s[i]);
      }
      forall i | 0 <= i < |s| && y in f(s[i]) ensures y in Gather(f, s) {
        if i < |front| { assert front[i] == s[i]; }
      }
    }
  }

  /** The first element of `s` that satisfies `p`. */
  function First<T>(p: T -> bool, s: seq<T>): Option<T>
  {
    if s == [] then None else if p(s[0]) then Some(s[0]) else First(p, s[1..])
  }

  /** `First` finds an element exactly when there is one, and none before it satisfies `p`. */
  lemma {:induction false} FirstIsFirst<T>(p: T -> bool, s: seq<T>)
    ensures First(p, s).None? <==> forall x :: x in s ==> !p(x)
    ensures First(p, s).Some? ==> exists i :: 0 <= i < |s| && s[i] == First(p, s).value && p(s[i])
                                              && forall j :: 0 <= j < i ==> !p(s[j])
  {
    if s != [] {
      assert s == [s[0]] + s[1..];
      if !p(s[0]) {
        FirstIsFirst(p, s[1..]);
        if First(p, s[1..]).Some? {
          var i :| 0 <= i < |s[1..]| && s[1..][i] == First(p, s).value && p(s[1..][i])
                   && forall j :: 0 <= j < i ==> !p(s[1..][j]);
          assert s[i + 1] == First(p, s).value;
          forall j | 0 <= j < i + 1 ensures !p(s[j]) {
            if j > 0 { assert s[j] == s[1..][j - 1]; }
          }
        }
      } else {
        assert s[0] == First(p, s).value;
      }
    }
  }

  /** A search loop that has seen no match so far. */
  lemma {:induction false} FirstSkips<T>(p: T -> bool, s: seq<T>, i: nat)
    requires i <= |s| && forall j :: 0 <= j < i ==> !p(s[j])
    ensures First(p, s) == First(p, s[i..])
  {
    if i > 0 {
      assert s[1..][i - 1..] == s[i..];
      assert forall j :: 0 <= j < i - 1 ==> s[1..][j] == s[j + 1];
      FirstSkips(p, s[1..], i - 1);
    } else {
      assert s[0..] == s;
    }
  }

  /** Searching a filtered list is searching the list for both properties. */
  lemma {:induction false} FirstOfFilter<T>(q: T -> bool, p: T -> bool, both: T -> bool, s: seq<T>)
    requires forall x :: both(x) <==> q(x) && p(x)
    ensures First(p, Filter(q, s)) == First(both, s)
  {
    if s != [] {
      FirstOfFilter(q, p, both, s[..|s| - 1]);
      assert s == s[..|s| - 1] + [s[|s| - 1]];
      FirstConcat(both, s[..|s| - 1], [s[|s| - 1]]);
      FirstConcat(p, Filter(q, s[..|s| - 1]), if q(s[|s| - 1]) then [s[|s| - 1]] else []);
    }
  }

  lemma {:induction false} FirstConcat<T>(p: T -> bool, a: seq<T>, b: seq<T>)
    ensures First(p, a + b) == if First(p, a).Some? then First(p, a) else First(p, b)
  {
    if a == [] {
      assert a + b == b;
    } else {
      assert (a + b)[1..] == a[1..] + b;
      FirstConcat(p, a[1..], b);
    }
  }
}
