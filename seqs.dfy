/** Keeping, in order, the images of the elements a partial projection
    accepts: the shape of every `for entry in array { if .. { push(..) } }`
    loop in the parser. */
module Seqs {
  import opened Wrappers

  /** Defined from the back, as a loop that pushes builds it. */
  function FilterMap<A, B>(s: seq<A>, f: A -> Option<B>): (r: seq<B>)
    ensures |r| <= |s|
  {
    if s == [] then []
    else
      var rest := FilterMap(s[..|s| - 1], f);
      match f(s[|s| - 1])
      case Some(b) => rest + [b]
      case None => rest
  }

  /** One more element: its image, if any, goes at the end. */
  lemma FilterMapSnoc<A, B>(s: seq<A>, x: A, f: A -> Option<B>)
    ensures FilterMap(s + [x], f) == FilterMap(s, f) + (if f(x).Some? then [f(x).value] else [])
  {
    assert (s + [x])[..|s + [x]| - 1] == s;
  }

  /** Order preservation: filtering a concatenation concatenates the parts. */
  lemma {:induction false} FilterMapAppend<A, B>(a: seq<A>, b: seq<A>, f: A -> Option<B>)
    ensures FilterMap(a + b, f) == FilterMap(a, f) + FilterMap(b, f)
    decreases |b|
  {
    if b == [] {
      assert a + b == a;
    } else {
      var b' := b[..|b| - 1];
      var x := b[|b| - 1];
      assert b == b' + [x];
      assert a + b == (a + b') + [x];
      FilterMapAppend(a, b', f);
      FilterMapSnoc(a + b', x, f);
      FilterMapSnoc(b', x, f);
    }
  }

  /** An output element is exactly the image of some accepted input element. */
  lemma {:induction false} FilterMapMember<A, B>(s: seq<A>, f: A -> Option<B>, y: B)
    ensures y in FilterMap(s, f) <==> exists i :: 0 <= i < |s| && f(s[i]) == Some(y)
    decreases |s|
  {
    if s != [] {
      var s' := s[..|s| - 1];
      FilterMapMember(s', f, y);
      if y in FilterMap(s, f) && !(y in FilterMap(s', f)) {
        assert f(s[|s| - 1]) == Some(y);
      }
      if exists i :: 0 <= i < |s| && f(s[i]) == Some(y) {
        var i :| 0 <= i < |s| && f(s[i]) == Some(y);
        if i < |s| - 1 {
          assert s'[i] == s[i];
        }
      }
    }
  }

  /** The output is empty exactly when the projection rejects every element. */
  lemma {:induction false} FilterMapEmpty<A, B>(s: seq<A>, f: A -> Option<B>)
    ensures FilterMap(s, f) == [] <==> forall i :: 0 <= i < |s| ==> f(s[i]).None?
    decreases |s|
  {
    if s != [] {
      var s' := s[..|s| - 1];
      FilterMapEmpty(s', f);
      assert forall i :: 0 <= i < |s'| ==> s'[i] == s[i];
    }
  }
}
