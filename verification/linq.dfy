/** The three LINQ operators the checkout relies on, over immutable sequences:
    `Where` (a repository specification's filter), `First`/`FirstOrDefault`
    (the first element matching a predicate, or nothing). */
module Linq {
  import opened Outcomes

  /** `FirstOrDefault(s, p)`: the first element of `s` satisfying `p`, or `None`.
      `Enumerable.First` is the same search, throwing where this returns `None`. */
  function First<T>(s: seq<T>, p: T -> bool): (r: Option<T>)
    ensures r.None? <==> forall i :: 0 <= i < |s| ==> !p(s[i])
    ensures r.Some? ==>
      exists k :: 0 <= k < |s| && s[k] == r.value && p(s[k]) &&
        forall j :: 0 <= j < k ==> !p(s[j])
  {
    if |s| == 0 then None
    else if p(s[0]) then Some(s[0])
    else First(s[1..], p)
  }

  /** `Where(s, p)`: the elements of `s` satisfying `p`, in their original order. */
  function Where<T>(s: seq<T>, p: T -> bool): (r: seq<T>)
    ensures |r| <= |s|
    ensures forall i :: 0 <= i < |r| ==> r[i] in s && p(r[i])
    ensures forall i :: 0 <= i < |s| && p(s[i]) ==> s[i] in r
  {
    if |s| == 0 then []
    else (if p(s[0]) then [s[0]] else []) + Where(s[1..], p)
  }

  /** `Where` keeps order and multiplicity: filtering a concatenation
      concatenates the filtered parts. With `WhereSingleton` this fixes
      `Where` on every sequence. */
  lemma {:induction false} WhereAppend<T>(s: seq<T>, t: seq<T>, p: T -> bool)
    ensures Where(s + t, p) == Where(s, p) + Where(t, p)
  {
    if |s| == 0 {
      assert s + t == t;
    } else {
      var head := if p(s[0]) then [s[0]] else [];
      calc {
        Where(s + t, p);
        { assert (s + t)[1..] == s[1..] + t; assert (s + t)[0] == s[0]; }
        head + Where(s[1..] + t, p);
        { WhereAppend(s[1..], t, p); }
        head + (Where(s[1..], p) + Where(t, p));
        (head + Where(s[1..], p)) + Where(t, p);
        Where(s, p) + Where(t, p);
      }
    }
  }

  /** A single element is kept exactly when it matches. */
  lemma WhereSingleton<T>(x: T, p: T -> bool)
    ensures Where([x], p) == (if p(x) then [x] else [])
  {
    assert [x][1..] == [];
  }

  /** Searching a filtered sequence for something the filter keeps finds the
      same element as searching the whole sequence. */
  lemma {:induction false} FirstOfWhere<T>(s: seq<T>, keep: T -> bool, p: T -> bool)
    requires forall x :: p(x) ==> keep(x)
    ensures First(Where(s, keep), p) == First(s, p)
  {
    if |s| > 0 {
      FirstOfWhere(s[1..], keep, p);
      if keep(s[0]) {
        assert Where(s, keep) == [s[0]] + Where(s[1..], keep);
        assert ([s[0]] + Where(s[1..], keep))[1..] == Where(s[1..], keep);
      } else {
        assert Where(s, keep) == Where(s[1..], keep);
      }
    }
  }
}
