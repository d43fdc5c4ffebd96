/** Sequence facts the imperative loops of the model need: appending one piece at a time to a
    growing output, and the concatenation of a list of pieces. */
module Seqs {
  lemma AppendAssoc<T>(a: seq<T>, b: seq<T>, c: seq<T>)
    ensures (a + b) + c == a + (b + c)
  {
  }

  lemma AppendAssoc4<T>(a: seq<T>, b: seq<T>, c: seq<T>, d: seq<T>, e: seq<T>)
    ensures a + b + c + d + e == a + (b + c + d + e)
  {
    AppendAssoc(a, b, c);
    AppendAssoc(a, b + c, d);
    AppendAssoc(a, b + c + d, e);
  }

  /** Something that is in neither of the last two parts is in the whole exactly when it is in
      the first. */
  lemma InFirstOfThree<T>(x: T, a: seq<T>, b: seq<T>, c: seq<T>)
    requires x !in b && x !in c
    ensures x in a + b + c <==> x in a
  {
  }

  /** When nothing in the first part is late and nothing in the second is early, every early
      element of the whole comes before every late one. */
  lemma EarlyBeforeLate<T>(a: seq<T>, b: seq<T>, early: T -> bool, late: T -> bool)
    requires forall x :: x in a ==> !late(x)
    requires forall x :: x in b ==> !early(x)
    ensures forall i, j :: 0 <= i < |a + b| && 0 <= j < |a + b| && late((a + b)[i]) && early((a + b)[j]) ==> j < i
  {
    var r := a + b;
    assert forall k :: 0 <= k < |a| ==> r[k] == a[k];
    assert forall k :: |a| <= k < |r| ==> r[k] == b[k - |a|];
  }

  lemma SliceSnoc<T>(s: seq<T>, n: nat)
    requires 0 < n <= |s|
    ensures s[..n] == s[..n - 1] + [s[n - 1]]
  {
  }

  /** The pieces one after the other. */
  function Flatten<T>(parts: seq<seq<T>>): (r: seq<T>)
  {
    if parts == [] then [] else Flatten(parts[..|parts| - 1]) + parts[|parts| - 1]
  }

  /** One more piece goes at the end. */
  lemma FlattenSnoc<T>(parts: seq<seq<T>>, p: seq<T>)
    ensures Flatten(parts + [p]) == Flatten(parts) + p
  {
    assert (parts + [p])[..|parts|] == parts;
  }

  /** Something is in the concatenation exactly when it is in one of the pieces. */
  lemma {:induction false} FlattenMember<T>(parts: seq<seq<T>>, x: T)
    ensures x in Flatten(parts) <==> exists i :: 0 <= i < |parts| && x in parts[i]
  {
    if parts != [] {
      var init := parts[..|parts| - 1];
      FlattenMember(init, x);
      if x in Flatten(init) {
        var i :| 0 <= i < |init| && x in init[i];
        assert x in parts[i];
      }
      if exists i :: 0 <= i < |parts| && x in parts[i] {
        var i :| 0 <= i < |parts| && x in parts[i];
        if i < |init| {
          assert x in init[i];
        }
      }
    }
  }

  /** The concatenation is empty exactly when every piece is. */
  lemma {:induction false} FlattenEmpty<T>(parts: seq<seq<T>>)
    ensures Flatten(parts) == [] <==> forall i :: 0 <= i < |parts| ==> parts[i] == []
  {
    if parts != [] {
      var init := parts[..|parts| - 1];
      FlattenEmpty(init);
      if Flatten(parts) == [] {
        assert Flatten(init) == [] && parts[|parts| - 1] == [];
        forall i | 0 <= i < |parts| ensures parts[i] == [] {
          if i < |init| {
            assert parts[i] == init[i];
          }
        }
      }
    }
  }
}
