/** Option and Result values used in place of Python's None and raised errors. */
module Wrappers {

  datatype Option<+T> = None | Some(value: T) {
    function GetOr(default: T): T {
      match this
      case Some(v) => v
      case None => default
    }
  }

  /** A computation that either succeeds with a value or fails with the
      message of the error the source raises. */
  datatype Result<+T> = Success(value: T) | Failure(error: string)

  /** The values `f` gives, in order, for the elements it does not drop. */
  function FilterMap<T, U>(s: seq<T>, f: T -> Option<U>): seq<U> {
    if s == [] then []
    else FilterMap(s[..|s| - 1], f) + (match f(s[|s| - 1]) case Some(u) => [u] case None => [])
  }

  /** Mapping one more element adds its image, if it has one. */
  lemma FilterMapSnoc<T, U>(s: seq<T>, x: T, f: T -> Option<U>)
    ensures FilterMap(s + [x], f) == FilterMap(s, f) + (match f(x) case Some(u) => [u] case None => [])
  {
    assert (s + [x])[..|s|] == s;
  }

  lemma {:induction false} FilterMapConcat<T, U>(a: seq<T>, b: seq<T>, f: T -> Option<U>)
    ensures FilterMap(a + b, f) == FilterMap(a, f) + FilterMap(b, f)
  {
    if b == [] {
      assert a + b == a;
    } else {
      var ab := a + b;
      assert ab[..|ab| - 1] == a + b[..|b| - 1];
      assert ab[|ab| - 1] == b[|b| - 1];
      FilterMapConcat(a, b[..|b| - 1], f);
    }
  }

  /** Nothing is kept exactly when `f` drops every element. */
  lemma {:induction false} FilterMapEmpty<T, U>(s: seq<T>, f: T -> Option<U>)
    ensures FilterMap(s, f) == [] <==> forall i :: 0 <= i < |s| ==> f(s[i]).None?
  {
    if s != [] {
      var p := s[..|s| - 1];
      FilterMapEmpty(p, f);
      assert forall i :: 0 <= i < |p| ==> p[i] == s[i];
    }
  }

  /** The kept values are exactly the images of the kept elements. */
  lemma {:induction false} FilterMapMember<T, U>(s: seq<T>, f: T -> Option<U>, x: U)
    ensures x in FilterMap(s, f) <==> exists i :: 0 <= i < |s| && f(s[i]) == Some(x)
  {
    if s != [] {
      var p := s[..|s| - 1];
      FilterMapMember(p, f, x);
      if x in FilterMap(p, f) {
        var i :| 0 <= i < |p| && f(p[i]) == Some(x);
        assert f(s[i]) == Some(x);
      }
      if exists i :: 0 <= i < |s| && f(s[i]) == Some(x) {
        var i :| 0 <= i < |s| && f(s[i]) == Some(x);
        if i < |p| {
          assert f(p[i]) == Some(x);
        }
      }
    }
  }

  /** When `f` keeps every element, the result lists their images in the
      order of the input. */
  lemma {:induction false} FilterMapAllKept<T, U>(s: seq<T>, f: T -> Option<U>)
    requires forall i :: 0 <= i < |s| ==> f(s[i]).Some?
    ensures |FilterMap(s, f)| == |s|
    ensures forall i :: 0 <= i < |s| ==> FilterMap(s, f)[i] == f(s[i]).value
  {
    if s != [] {
      var p := s[..|s| - 1];
      assert forall i :: 0 <= i < |p| ==> p[i] == s[i];
      FilterMapAllKept(p, f);
    }
  }
}
