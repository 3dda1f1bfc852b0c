// The paths `load` collects (std's `PathBuf`): a path is its sequence of
// components, shown joined with "/", and paths are ordered as `PathBuf`'s
// `Ord` orders them, component by component, each component by its
// characters. `sort_unstable` is the sorted permutation under that order.
module Paths {

  /** A path as its components, the first being "." for the working directory. */
  type Path = seq<string>

  /** `to_string_lossy()`: the components joined with "/". */
  function Display(p: Path): string
    decreases |p|
  {
    if |p| == 0 then ""
    else if |p| == 1 then p[0]
    else Display(p[..|p| - 1]) + "/" + p[|p| - 1]
  }

  // ------------------------------------------------------------- the order

  /** Lexicographic order on strings by character (the byte order of their UTF-8 form). */
  predicate StrLe(a: string, b: string)
    decreases |a|
  {
    a == [] || (b != [] && (a[0] < b[0] || (a[0] == b[0] && StrLe(a[1..], b[1..]))))
  }

  /** The order of `PathBuf`: lexicographic on components. */
  predicate PathLe(a: Path, b: Path)
    decreases |a|
  {
    a == [] || (b != [] && ((StrLe(a[0], b[0]) && a[0] != b[0]) || (a[0] == b[0] && PathLe(a[1..], b[1..]))))
  }

  lemma {:induction false} StrLeTotal(a: string, b: string)
    ensures StrLe(a, b) || StrLe(b, a)
    decreases |a|
  {
    if a != [] && b != [] && a[0] == b[0] {
      StrLeTotal(a[1..], b[1..]);
    }
  }

  lemma {:induction false} StrLeAntisymmetric(a: string, b: string)
    requires StrLe(a, b) && StrLe(b, a)
    ensures a == b
    decreases |a|
  {
    if a != [] {
      StrLeAntisymmetric(a[1..], b[1..]);
      assert a == [a[0]] + a[1..] && b == [b[0]] + b[1..];
    }
  }

  lemma {:induction false} StrLeTransitive(a: string, b: string, c: string)
    requires StrLe(a, b) && StrLe(b, c)
    ensures StrLe(a, c)
    decreases |a|
  {
    if a != [] && a[0] == b[0] && b[0] == c[0] {
      StrLeTransitive(a[1..], b[1..], c[1..]);
    }
  }

  /** Any two paths are ordered one way or the other. */
  lemma {:induction false} PathLeTotal(a: Path, b: Path)
    ensures PathLe(a, b) || PathLe(b, a)
    decreases |a|
  {
    if a != [] && b != [] {
      if a[0] == b[0] {
        PathLeTotal(a[1..], b[1..]);
      } else {
        StrLeTotal(a[0], b[0]);
      }
    }
  }

  /** Two paths ordered both ways are equal. */
  lemma {:induction false} PathLeAntisymmetric(a: Path, b: Path)
    requires PathLe(a, b) && PathLe(b, a)
    ensures a == b
    decreases |a|
  {
    if a != [] {
      if a[0] == b[0] {
        PathLeAntisymmetric(a[1..], b[1..]);
        assert a == [a[0]] + a[1..] && b == [b[0]] + b[1..];
      } else {
        StrLeAntisymmetric(a[0], b[0]);
      }
    }
  }

  /** The order of paths is transitive. */
  lemma {:induction false} PathLeTransitive(a: Path, b: Path, c: Path)
    requires PathLe(a, b) && PathLe(b, c)
    ensures PathLe(a, c)
    decreases |a|
  {
    if a != [] {
      if a[0] == b[0] && b[0] == c[0] {
        PathLeTransitive(a[1..], b[1..], c[1..]);
      } else if a[0] == b[0] {
        assert StrLe(b[0], c[0]) && b[0] != c[0];
      } else if b[0] == c[0] {
        assert StrLe(a[0], b[0]) && a[0] != b[0];
      } else {
        StrLeTransitive(a[0], b[0], c[0]);
        if a[0] == c[0] {
          StrLeAntisymmetric(a[0], b[0]);
        }
      }
    }
  }

  // --------------------------------------------------------------- sorting

  predicate Sorted(s: seq<Path>)
  {
    forall i, j :: 0 <= i < j < |s| ==> PathLe(s[i], s[j])
  }

  /** `p` inserted in front of the first element it is not above. */
  function Insert(p: Path, s: seq<Path>): (r: seq<Path>)
    ensures multiset(r) == multiset(s) + multiset{p}
    ensures |r| == |s| + 1
  {
    if s == [] then [p]
    else if PathLe(p, s[0]) then [p] + s
    else
      assert s == [s[0]] + s[1..];
      [s[0]] + Insert(p, s[1..])
  }

  /** `sort_unstable`: insertion of each path, last to first, into the sorted rest. */
  function SortPaths(s: seq<Path>): (r: seq<Path>)
    ensures multiset(r) == multiset(s)
    ensures |r| == |s|
  {
    if s == [] then []
    else
      assert s == [s[0]] + s[1..];
      Insert(s[0], SortPaths(s[1..]))
  }

  /** Inserting into a sorted list keeps it sorted. */
  lemma {:induction false} InsertSorted(p: Path, s: seq<Path>)
    requires Sorted(s)
    ensures Sorted(Insert(p, s))
    decreases |s|
  {
    if s != [] && !PathLe(p, s[0]) {
      PathLeTotal(p, s[0]);
      InsertSorted(p, s[1..]);
      var rest := Insert(p, s[1..]);
      var r := [s[0]] + rest;
      forall k | 0 <= k < |rest|
        ensures PathLe(s[0], rest[k])
      {
        assert rest[k] in multiset(rest);
        assert rest[k] in multiset(s[1..]) + multiset{p};
        if rest[k] != p {
          assert rest[k] in s[1..];
          var j :| 0 <= j < |s[1..]| && s[1..][j] == rest[k];
          assert PathLe(s[0], s[j + 1]);
        }
      }
      forall i, j | 0 <= i < j < |r|
        ensures PathLe(r[i], r[j])
      {
        if i > 0 {
          assert r[i] == rest[i - 1] && r[j] == rest[j - 1];
        } else {
          assert r[j] == rest[j - 1];
        }
      }
    } else if s != [] {
      var r := [p] + s;
      forall i, j | 0 <= i < j < |r|
        ensures PathLe(r[i], r[j])
      {
        if i == 0 {
          assert PathLe(s[0], s[j - 1]) || j == 1;
          if j > 1 {
            PathLeTransitive(p, s[0], s[j - 1]);
          }
        }
      }
    }
  }

  /** The sorted list is sorted and holds the same paths. */
  lemma {:induction false} SortPathsSorted(s: seq<Path>)
    ensures Sorted(SortPaths(s)) && multiset(SortPaths(s)) == multiset(s)
    decreases |s|
  {
    if s != [] {
      SortPathsSorted(s[1..]);
      InsertSorted(s[0], SortPaths(s[1..]));
    }
  }

  /** A sorted permutation is unique: sorting a sorted list gives it back. */
  lemma {:induction false} SortPathsOfSorted(s: seq<Path>)
    requires Sorted(s)
    ensures SortPaths(s) == s
    decreases |s|
  {
    if s != [] {
      SortPathsOfSorted(s[1..]);
      assert SortPaths(s[1..]) == s[1..];
      if |s| > 1 {
        assert PathLe(s[0], s[1]);
      }
      assert s == [s[0]] + s[1..];
    }
  }
}
