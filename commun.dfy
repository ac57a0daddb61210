/** Values shared by both stacks of the theme-park application: a nullable value,
    the outcome of an operation that may throw, and the two list scans (first
    match, filter) that the data-access layer performs over table rows. */
module Commun {

  /** A Java reference that may be null. */
  datatype Option<T> = None | Some(value: T)

  /** A call that returns a value or throws a checked exception. */
  datatype Result<T, E> = Ok(value: T) | Err(error: E)

  /** A `void` call that returns normally or throws. */
  datatype Outcome<E> = Pass | Fail(error: E)

  /** The first element of `s` satisfying `p`: what a query returns when the
      caller keeps only the first row of its result set. */
  function PremierTel<T>(s: seq<T>, p: T -> bool): (r: Option<T>)
    ensures r.None? <==> forall i :: 0 <= i < |s| ==> !p(s[i])
    ensures r.Some? ==> exists i :: 0 <= i < |s| && s[i] == r.value && p(s[i]) &&
                                   forall j :: 0 <= j < i ==> !p(s[j])
  {
    if s == [] then None
    else if p(s[0]) then Some(s[0])
    else
      var r := PremierTel(s[1..], p);
      assert r.Some? ==> exists i :: 1 <= i < |s| && s[i] == r.value && p(s[i]) &&
                                     forall j :: 0 <= j < i ==> !p(s[j]) by {
        if r.Some? {
          var i :| 0 <= i < |s[1..]| && s[1..][i] == r.value && p(s[1..][i]) &&
                   forall j :: 0 <= j < i ==> !p(s[1..][j]);
          assert s[i + 1] == r.value;
          assert forall j :: 0 <= j < i + 1 ==> !p(s[j]) by {
            forall j | 0 <= j < i + 1 ensures !p(s[j]) {
              if j > 0 { assert s[j] == s[1..][j - 1]; }
            }
          }
        }
      }
      r
  }

  /** A row appended after rows that do not match is the first match. */
  lemma PremierTelApresAjout<T>(s: seq<T>, x: T, p: T -> bool)
    requires forall i :: 0 <= i < |s| ==> !p(s[i])
    requires p(x)
    ensures PremierTel(s + [x], p) == Some(x)
  {
    assert p((s + [x])[|s|]);
    assert forall i :: 0 <= i < |s| ==> (s + [x])[i] == s[i];
  }

  /** The rows of `s` that do not satisfy `p`, in their original order: what a
      `DELETE ... WHERE p` leaves in a table. */
  function Sans<T>(s: seq<T>, p: T -> bool): (r: seq<T>)
    ensures |r| <= |s|
    ensures forall i :: 0 <= i < |r| ==> r[i] in s && !p(r[i])
    ensures forall i :: 0 <= i < |s| && !p(s[i]) ==> s[i] in r
    ensures |r| == |s| <==> forall i :: 0 <= i < |s| ==> !p(s[i])
  {
    if s == [] then []
    else if p(s[0]) then
      var r := Sans(s[1..], p);
      assert s == [s[0]] + s[1..];
      r
    else
      var r := Sans(s[1..], p);
      assert s == [s[0]] + s[1..];
      assert forall i :: 1 <= i < |s| ==> s[i] == s[1..][i - 1];
      [s[0]] + r
  }

  /** The first row a filter keeps is the first row of `s` it does not remove. */
  lemma {:induction false} SansPremier<T>(s: seq<T>, p: T -> bool)
    ensures Sans(s, p) != [] ==> exists i :: 0 <= i < |s| && s[i] == Sans(s, p)[0] && !p(s[i]) &&
                                             forall j :: 0 <= j < i ==> p(s[j])
  {
    if s != [] {
      SansPremier(s[1..], p);
      if !p(s[0]) {
        assert Sans(s, p)[0] == s[0];
      } else if Sans(s, p) != [] {
        var i :| 0 <= i < |s[1..]| && s[1..][i] == Sans(s[1..], p)[0] && !p(s[1..][i]) &&
                 forall j :: 0 <= j < i ==> p(s[1..][j]);
        assert s[i + 1] == Sans(s, p)[0];
        forall j | 0 <= j < i + 1 ensures p(s[j]) {
          if j > 0 { assert s[j] == s[1..][j - 1]; }
        }
      }
    }
  }

  /** Removing the same rows a second time removes nothing more. */
  lemma {:induction false} SansIdempotent<T>(s: seq<T>, p: T -> bool)
    ensures Sans(Sans(s, p), p) == Sans(s, p)
  {
    if s != [] {
      SansIdempotent(s[1..], p);
    }
  }

  /** Filtering a list built one element at a time: the new element is kept
      exactly when it does not match. */
  lemma {:induction false} SansAjout<T>(s: seq<T>, x: T, p: T -> bool)
    ensures Sans(s + [x], p) == Sans(s, p) + (if p(x) then [] else [x])
  {
    var t := s + [x];
    if s == [] {
      assert t == [x];
    } else {
      assert t[0] == s[0] && t[1..] == s[1..] + [x];
      SansAjout(s[1..], x, p);
      if p(s[0]) {
        assert Sans(t, p) == Sans(t[1..], p);
        assert Sans(s, p) == Sans(s[1..], p);
      } else {
        assert Sans(t, p) == [s[0]] + Sans(t[1..], p);
        assert Sans(s, p) == [s[0]] + Sans(s[1..], p);
      }
    }
  }

  /** Filtering one more element of a prefix: the element is kept exactly when
      it does not match. */
  lemma SansPrefixe<T>(s: seq<T>, i: int, p: T -> bool)
    requires 0 <= i < |s|
    ensures Sans(s[..i + 1], p) == Sans(s[..i], p) + (if p(s[i]) then [] else [s[i]])
  {
    SansAjout(s[..i], s[i], p);
    assert s[..i + 1] == s[..i] + [s[i]];
  }

  /** Removing rows that every element matches leaves nothing. */
  lemma {:induction false} SansTout<T>(s: seq<T>, p: T -> bool)
    requires forall i :: 0 <= i < |s| ==> p(s[i])
    ensures Sans(s, p) == []
  {
    if s != [] {
      SansTout(s[1..], p);
    }
  }

  /** `apres` is `avant` with every element satisfying `p` replaced by `x`:
      what an `UPDATE ... WHERE p` leaves in a table. */
  predicate Remplace<T(==)>(avant: seq<T>, apres: seq<T>, p: T -> bool, x: T) {
    |apres| == |avant| && forall i :: 0 <= i < |avant| ==> apres[i] == if p(avant[i]) then x else avant[i]
  }

  /** After such a replacement, a row that still matches is the first match. */
  lemma {:induction false} PremierTelRemplace<T>(avant: seq<T>, apres: seq<T>, p: T -> bool, x: T)
    requires Remplace(avant, apres, p, x) && p(x) && PremierTel(avant, p).Some?
    ensures PremierTel(apres, p) == Some(x)
  {
    assert apres[0] == if p(avant[0]) then x else avant[0];
    if !p(avant[0]) {
      assert Remplace(avant[1..], apres[1..], p, x);
      PremierTelRemplace(avant[1..], apres[1..], p, x);
    }
  }

  /** No two elements of `s` share a key: a primary-key column. */
  predicate ClesDistinctes<T>(s: seq<T>, cle: T -> int) {
    forall i, j :: 0 <= i < j < |s| ==> cle(s[i]) != cle(s[j])
  }

  /** A row appended with a key that no earlier row has keeps the keys distinct. */
  lemma ClesDistinctesAjout<T>(s: seq<T>, x: T, cle: T -> int)
    requires ClesDistinctes(s, cle)
    requires forall i :: 0 <= i < |s| ==> cle(s[i]) != cle(x)
    ensures ClesDistinctes(s + [x], cle)
  {
    var t := s + [x];
    forall i, j | 0 <= i < j < |t| ensures cle(t[i]) != cle(t[j]) {
      assert t[i] == s[i];
      if j < |s| {
        assert t[j] == s[j];
      }
    }
  }

  /** A row put in front of rows with distinct keys, none equal to its own,
      keeps the keys distinct. */
  lemma ClesDistinctesDevant<T>(x: T, r: seq<T>, cle: T -> int)
    requires ClesDistinctes(r, cle)
    requires forall j :: 0 <= j < |r| ==> cle(x) != cle(r[j])
    ensures ClesDistinctes([x] + r, cle)
  {
    var t := [x] + r;
    forall i, j | 0 <= i < j < |t| ensures cle(t[i]) != cle(t[j]) {
      assert t[j] == r[j - 1];
      if i > 0 {
        assert t[i] == r[i - 1];
      }
    }
  }

  /** The first key of a keyed table is the key of none of the later rows that
      survive a removal. */
  lemma SansClesTete<T>(s: seq<T>, p: T -> bool, cle: T -> int)
    requires s != [] && ClesDistinctes(s, cle)
    ensures forall j :: 0 <= j < |Sans(s[1..], p)| ==> cle(s[0]) != cle(Sans(s[1..], p)[j])
  {
    var r := Sans(s[1..], p);
    forall j | 0 <= j < |r| ensures cle(s[0]) != cle(r[j]) {
      assert r[j] in s[1..];
      var k :| 0 <= k < |s[1..]| && s[1..][k] == r[j];
      assert s[k + 1] == r[j];
    }
  }

  /** Keys that are pairwise distinct stay so after rows are removed. */
  lemma {:induction false} SansClesDistinctes<T>(s: seq<T>, p: T -> bool, cle: T -> int)
    requires ClesDistinctes(s, cle)
    ensures ClesDistinctes(Sans(s, p), cle)
  {
    if s != [] {
      var r := Sans(s[1..], p);
      SansClesDistinctes(s[1..], p, cle);
      if !p(s[0]) {
        SansClesTete(s, p, cle);
        ClesDistinctesDevant(s[0], r, cle);
        assert Sans(s, p) == [s[0]] + r;
      }
    }
  }

  /** Removing rows that no element matches leaves the table as it was. */
  lemma {:induction false} SansRien<T>(s: seq<T>, p: T -> bool)
    requires forall i :: 0 <= i < |s| ==> !p(s[i])
    ensures Sans(s, p) == s
  {
    if s != [] {
      SansRien(s[1..], p);
      assert s == [s[0]] + s[1..];
    }
  }
}
