/**
 * The in-place sort that every report in the system uses:
 * `sort.Slice(xs, func(i, j int) bool { return key(xs[i]) > key(xs[j]) })`.
 * Go's `sort.Slice` is not stable, so all that is promised is a
 * non-increasing order by key and a permutation of the input.
 */
module Sorting {

  /** `s` is ordered by non-increasing `key`. */
  ghost predicate DescendingBy<T>(s: seq<T>, key: T -> real) {
    forall p, q :: 0 <= p < q < |s| ==> key(s[p]) >= key(s[q])
  }

  /** Exchanges `a[j - 1]` and `a[j]`; the contents stay the same multiset. */
  method SwapAdjacent<T>(a: array<T>, j: int)
    requires 0 < j < a.Length
    modifies a
    ensures a[..] == old(a[..])[j - 1 := old(a[j])][j := old(a[j - 1])]
    ensures multiset(a[..]) == old(multiset(a[..]))
  {
    a[j - 1], a[j] := a[j], a[j - 1];
  }

  /** Sorts `a` in place so that keys never increase from left to right. */
  method SortDescending<T>(a: array<T>, key: T -> real)
    modifies a
    ensures DescendingBy(a[..], key)
    ensures multiset(a[..]) == old(multiset(a[..]))
  {
    for i := 0 to a.Length
      invariant forall p, q :: 0 <= p < q < i ==> key(a[p]) >= key(a[q])
      invariant multiset(a[..]) == old(multiset(a[..]))
    {
      var j := i;
      while j > 0 && key(a[j - 1]) < key(a[j])
        invariant 0 <= j <= i
        invariant forall p, q :: 0 <= p < q <= i && q != j ==> key(a[p]) >= key(a[q])
        invariant 0 < j < i ==> key(a[j - 1]) >= key(a[j + 1])
        invariant multiset(a[..]) == old(multiset(a[..]))
      {
        SwapAdjacent(a, j);
        j := j - 1;
      }
    }
  }

  /** A sorted copy of `s`: the values are copied into an array and sorted there. */
  method SortedBy<T>(s: seq<T>, key: T -> real) returns (sorted: seq<T>)
    ensures DescendingBy(sorted, key)
    ensures multiset(sorted) == multiset(s)
  {
    var a := new T[|s|](i requires 0 <= i < |s| => s[i]);
    assert a[..] == s;
    SortDescending(a, key);
    sorted := a[..];
  }

  /**
   * `s` names each key of `keys` exactly once, through `name`: no two
   * elements share a name, every name is a key, every key is named.
   */
  ghost predicate ListsExactly<T>(s: seq<T>, name: T -> string, keys: set<string>) {
    && (forall i :: 0 <= i < |s| ==> name(s[i]) in keys)
    && (forall i, j :: 0 <= i < j < |s| ==> name(s[i]) != name(s[j]))
    && (forall k :: k in keys ==> exists i :: 0 <= i < |s| && name(s[i]) == k)
  }

  /** Appending an element under a name not yet listed extends the listing by that name. */
  lemma ListsExactlyAppend<T>(s: seq<T>, name: T -> string, keys: set<string>, x: T)
    requires ListsExactly(s, name, keys)
    requires name(x) !in keys
    ensures ListsExactly(s + [x], name, keys + {name(x)})
  {
    var s' := s + [x];
    forall k | k in keys + {name(x)} ensures exists i :: 0 <= i < |s'| && name(s'[i]) == k {
      if k == name(x) {
        assert name(s'[|s|]) == k;
      } else {
        var i :| 0 <= i < |s| && name(s[i]) == k;
        assert name(s'[i]) == k;
      }
    }
  }

  /** Listing the element named by one more pending key. */
  lemma ListsOneMore<T>(s: seq<T>, name: T -> string, keys: set<string>, pending: set<string>, x: T)
    requires ListsExactly(s, name, keys - pending)
    requires name(x) in keys && name(x) in pending
    ensures ListsExactly(s + [x], name, keys - (pending - {name(x)}))
  {
    ListsExactlyAppend(s, name, keys - pending, x);
    assert keys - (pending - {name(x)}) == (keys - pending) + {name(x)};
  }

  /** Passing over a pending name that is not a key leaves the listing complete. */
  lemma ListsSkipping<T>(s: seq<T>, name: T -> string, keys: set<string>, pending: set<string>, k: string)
    requires ListsExactly(s, name, keys - pending)
    requires k !in keys
    ensures ListsExactly(s, name, keys - (pending - {k}))
  {
    assert keys - (pending - {k}) == keys - pending;
  }

  /** The names `s` uses. */
  ghost function Names<T>(s: seq<T>, name: T -> string): set<string> {
    set i | 0 <= i < |s| :: name(s[i])
  }

  /** Distinct names: as many names as elements. */
  lemma {:induction false} DistinctNamesCount<T>(s: seq<T>, name: T -> string)
    requires forall i, j :: 0 <= i < j < |s| ==> name(s[i]) != name(s[j])
    ensures |Names(s, name)| == |s|
  {
    if s != [] {
      var init := s[..|s| - 1];
      DistinctNamesCount(init, name);
      assert Names(s, name) == Names(init, name) + {name(s[|s| - 1])} by {
        forall i | 0 <= i < |init| ensures init[i] == s[i] {}
      }
      assert name(s[|s| - 1]) !in Names(init, name);
    }
  }

  /** A listing of `keys` has one element per key. */
  lemma ListsExactlyCount<T>(s: seq<T>, name: T -> string, keys: set<string>)
    requires ListsExactly(s, name, keys)
    ensures |s| == |keys|
  {
    DistinctNamesCount(s, name);
    assert Names(s, name) == keys;
  }

  /** In a sequence without repeated names, an element occurs at most once. */
  lemma {:induction false} AtMostOnce<T>(s: seq<T>, name: T -> string, x: T)
    requires forall i, j :: 0 <= i < j < |s| ==> name(s[i]) != name(s[j])
    ensures multiset(s)[x] <= 1
  {
    if s != [] {
      var init := s[..|s| - 1];
      assert s == init + [s[|s| - 1]];
      AtMostOnce(init, name, x);
    }
  }

  /** Reordering a listing (as the sort does) leaves it a listing of the same keys. */
  lemma PermutationKeepsListing<T>(s: seq<T>, s': seq<T>, name: T -> string, keys: set<string>)
    requires ListsExactly(s, name, keys)
    requires multiset(s) == multiset(s')
    ensures ListsExactly(s', name, keys)
    ensures forall x :: x in s' <==> x in s
  {
    assert forall x :: x in s' <==> x in s by {
      forall x ensures x in s' <==> x in s {
        assert x in s' <==> x in multiset(s');
        assert x in s <==> x in multiset(s);
      }
    }
    forall i | 0 <= i < |s'| ensures name(s'[i]) in keys {
      assert s'[i] in s;
    }
    forall i, j | 0 <= i < j < |s'| ensures name(s'[i]) != name(s'[j]) {
      if name(s'[i]) == name(s'[j]) {
        assert s'[i] in s && s'[j] in s;
        var i0 :| 0 <= i0 < |s| && s[i0] == s'[i];
        var j0 :| 0 <= j0 < |s| && s[j0] == s'[j];
        assert i0 == j0;
        assert s' == s'[..j] + s'[j..];
        assert s'[..j][i] == s[i0];
        assert s'[j..][0] == s[i0];
        assert multiset(s')[s[i0]] >= 2;
        AtMostOnce(s, name, s[i0]);
      }
    }
    forall k | k in keys ensures exists i :: 0 <= i < |s'| && name(s'[i]) == k {
      var i0 :| 0 <= i0 < |s| && name(s[i0]) == k;
      assert s[i0] in s';
    }
  }
}
