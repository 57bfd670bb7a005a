/** Sequence and set utilities shared by the job-queue model. */
module Collections {

  datatype Option<T> = None | Some(value: T)

  /** No element occurs twice in `s`. */
  ghost predicate NoDup<T>(s: seq<T>) {
    forall i, j | 0 <= i < j < |s| :: s[i] != s[j]
  }

  /** The elements of `s`, as a set. */
  ghost function Elems<T>(s: seq<T>): set<T> {
    set x | x in s
  }

  /** A duplicate-free sequence has as many elements as its set. */
  lemma {:induction false} NoDupCard<T>(s: seq<T>)
    requires NoDup(s)
    ensures |Elems(s)| == |s|
  {
    if s != [] {
      assert NoDup(s[1..]) by {
        forall i, j | 0 <= i < j < |s[1..]| ensures s[1..][i] != s[1..][j] {
          assert s[1..][i] == s[i + 1] && s[1..][j] == s[j + 1];
        }
      }
      NoDupCard(s[1..]);
      assert Elems(s) == {s[0]} + Elems(s[1..]);
      assert s[0] !in Elems(s[1..]) by {
        forall j | 0 <= j < |s[1..]| ensures s[1..][j] != s[0] {
          assert s[1..][j] == s[j + 1];
        }
      }
    }
  }

  /** A subset as large as its superset is the whole superset. */
  lemma SubsetSameSize<T>(a: set<T>, b: set<T>)
    requires a <= b && |a| == |b|
    ensures a == b
  {
    var missing := b - a;
    assert b == a + missing;
    assert |missing| == 0;
  }

  /** A slice of a duplicate-free sequence is duplicate-free. */
  lemma NoDupSlice<T>(s: seq<T>, a: nat, b: nat)
    requires NoDup(s) && a <= b <= |s|
    ensures NoDup(s[a..b])
  {
    forall i, j | 0 <= i < j < b - a ensures s[a..b][i] != s[a..b][j] {
      assert s[a..b][i] == s[a + i] && s[a..b][j] == s[a + j];
    }
  }

  /** `pos` places the elements of `r` at strictly increasing positions of `s`. */
  ghost predicate Embedding<T>(r: seq<T>, s: seq<T>, pos: seq<nat>) {
    && |pos| == |r|
    && (forall k | 0 <= k < |pos| :: pos[k] < |s| && r[k] == s[pos[k]])
    && (forall k1, k2 | 0 <= k1 < k2 < |pos| :: pos[k1] < pos[k2])
  }

  /** `r` is `s` with some elements left out, the rest in their order. */
  ghost predicate Subsequence<T>(r: seq<T>, s: seq<T>) {
    exists pos :: Embedding(r, s, pos)
  }

  /** An embedding survives putting one more element in front of `s`. */
  lemma EmbedShift<T>(x: T, r: seq<T>, s: seq<T>, pos: seq<nat>)
    requires Embedding(r, s, pos)
    ensures Embedding(r, [x] + s, seq(|pos|, k requires 0 <= k < |pos| => pos[k] + 1))
  {
    var shifted := seq(|pos|, k requires 0 <= k < |pos| => pos[k] + 1);
    forall k | 0 <= k < |pos| ensures shifted[k] < |[x] + s| && ([x] + s)[shifted[k]] == r[k] {
      assert ([x] + s)[pos[k] + 1] == s[pos[k]];
    }
  }

  /** An embedding survives putting one more element in front of `s`, and
      of both sequences. */
  lemma EmbedCons<T>(x: T, r: seq<T>, s: seq<T>, pos: seq<nat>)
    requires Embedding(r, s, pos)
    ensures var shifted := seq(|pos|, k requires 0 <= k < |pos| => pos[k] + 1);
            Embedding(r, [x] + s, shifted) && Embedding([x] + r, [x] + s, [0] + shifted)
  {
    var shifted := seq(|pos|, k requires 0 <= k < |pos| => pos[k] + 1);
    EmbedShift(x, r, s, pos);
    var p := [0] + shifted;
    forall k | 0 < k < |p| ensures ([x] + r)[k] == r[k - 1] && p[k] == shifted[k - 1] {
    }
  }

  /** An embedding survives putting one more element behind `s`, and behind
      both sequences. */
  lemma EmbedSnoc<T>(x: T, r: seq<T>, s: seq<T>, pos: seq<nat>)
    requires Embedding(r, s, pos)
    ensures Embedding(r, s + [x], pos) && Embedding(r + [x], s + [x], pos + [|s|])
  {
  }

  /** `s` with every occurrence of `x` taken out, the rest in order. */
  function Without<T(==,!new)>(s: seq<T>, x: T): (r: seq<T>)
    ensures forall y :: y in r <==> y in s && y != x
    ensures |r| <= |s|
  {
    if s == [] then []
    else if s[0] == x then Without(s[1..], x)
    else [s[0]] + Without(s[1..], x)
  }

  /** On a duplicate-free sequence, taking out `x` shortens it by exactly one
      when `x` occurs and leaves it alone otherwise. */
  lemma {:induction false} WithoutOnce<T(!new)>(s: seq<T>, x: T)
    requires NoDup(s)
    ensures NoDup(Without(s, x))
    ensures |Without(s, x)| == if x in s then |s| - 1 else |s|
    ensures x !in s ==> Without(s, x) == s
  {
    if s != [] {
      assert NoDup(s[1..]) by {
        forall i, j | 0 <= i < j < |s[1..]| ensures s[1..][i] != s[1..][j] {
          assert s[1..][i] == s[i + 1] && s[1..][j] == s[j + 1];
        }
      }
      WithoutOnce(s[1..], x);
      assert s[0] !in s[1..] by {
        forall j | 0 <= j < |s[1..]| ensures s[1..][j] != s[0] {
          assert s[1..][j] == s[j + 1];
        }
      }
      if s[0] == x {
        assert x !in s[1..];
      } else {
        var r := Without(s, x);
        assert r == [s[0]] + Without(s[1..], x);
        forall i, j | 0 <= i < j < |r| ensures r[i] != r[j] {
          if i == 0 {
            assert r[j] in Without(s[1..], x);
          }
        }
        assert x in s <==> x in s[1..];
        if x !in s {
          assert s == [s[0]] + s[1..];
        }
      }
    }
  }

  /** Lists the elements of a finite set, each once, in an order the caller may not rely on. */
  method Enumerate<T(==)>(xs: set<T>) returns (r: seq<T>)
    ensures NoDup(r)
    ensures Elems(r) == xs
    ensures |r| == |xs|
  {
    r := [];
    var rest := xs;
    while rest != {}
      invariant NoDup(r)
      invariant Elems(r) + rest == xs
      invariant Elems(r) !! rest
      decreases |rest|
    {
      var x :| x in rest;
      assert x !in Elems(r);
      assert Elems(r + [x]) == Elems(r) + {x};
      r := r + [x];
      rest := rest - {x};
    }
    NoDupCard(r);
  }
}
