/** Option and Result values shared by the modules of this model. */
module Wrappers {

  datatype Option<+T> = None | Some(value: T)

  /** A Python exception is modelled as an error value of this kind. */
  datatype Error = ValueError | IndexError | ZeroDivisionError | AttributeError

  datatype Result<+T> = Ok(value: T) | Err(error: Error)

  /** Python's `s[i]`: a negative index counts from the end, anything else outside the list raises IndexError. */
  function PyIndex<T>(s: seq<T>, i: int): (r: Result<T>)
    ensures r.Ok? <==> -|s| <= i < |s|
    ensures 0 <= i < |s| ==> r == Ok(s[i])
    ensures -|s| <= i < 0 ==> r == Ok(s[|s| + i])
  {
    if 0 <= i < |s| then Ok(s[i])
    else if -|s| <= i < 0 then Ok(s[|s| + i])
    else Err(IndexError)
  }

  /** No element of a Python list occurs twice. */
  predicate Distinct<T(==)>(s: seq<T>)
  {
    forall i, j :: 0 <= i < j < |s| ==> s[i] != s[j]
  }

  /** Python's `list.remove(x)`: drops the first occurrence of `x`. */
  function RemoveFirst<T(==)>(s: seq<T>, x: T): (r: seq<T>)
    ensures x in s ==> |r| == |s| - 1
    ensures x !in s ==> r == s
    ensures forall y :: y in r ==> y in s
  {
    if s == [] then []
    else
      assert s == [s[0]] + s[1..];
      if s[0] == x then s[1..]
      else [s[0]] + RemoveFirst(s[1..], x)
  }

  /** Removing an element from a list without repetitions keeps it without repetitions. */
  lemma {:induction false} RemoveFirstDistinct<T>(s: seq<T>, x: T)
    requires Distinct(s)
    ensures Distinct(RemoveFirst(s, x)) && x !in RemoveFirst(s, x)
  {
    if s != [] && s[0] != x {
      RemoveFirstDistinct(s[1..], x);
      var r := RemoveFirst(s, x);
      assert r == [s[0]] + RemoveFirst(s[1..], x);
      assert s[0] !in RemoveFirst(s[1..], x) by {
        assert s[0] !in s[1..];
      }
    } else if s != [] {
      assert s[0] !in s[1..];
    }
  }

  /** In a list without repetitions, `remove(x)` leaves exactly the other elements. */
  lemma RemoveFirstMembers<T>(s: seq<T>, x: T)
    requires Distinct(s)
    ensures forall y :: y in RemoveFirst(s, x) <==> y in s && y != x
  {
    RemoveFirstDistinct(s, x);
    RemoveFirstMultiset(s, x);
    forall y | y in s && y != x
      ensures y in RemoveFirst(s, x)
    {
      assert multiset(RemoveFirst(s, x))[y] == multiset(s)[y];
    }
  }

  /** `remove` takes out one copy of `x` and nothing else. */
  lemma {:induction false} RemoveFirstMultiset<T>(s: seq<T>, x: T)
    ensures multiset(RemoveFirst(s, x)) == multiset(s) - multiset{x}
  {
    if s != [] {
      assert s == [s[0]] + s[1..];
      if s[0] != x {
        RemoveFirstMultiset(s[1..], x);
        calc {
          multiset(RemoveFirst(s, x));
          multiset([s[0]] + RemoveFirst(s[1..], x));
          multiset{s[0]} + (multiset(s[1..]) - multiset{x});
          multiset{s[0]} + multiset(s[1..]) - multiset{x};
        }
      }
    }
  }

  /** `remove` cuts out the first occurrence: the position i holding `x` with no `x` before it. */
  lemma {:induction false} RemoveFirstOccurrence<T>(s: seq<T>, x: T, i: nat)
    requires i < |s| && s[i] == x && x !in s[..i]
    ensures RemoveFirst(s, x) == s[..i] + s[i + 1..]
  {
    if i > 0 {
      var t := s[1..];
      assert s[0] in s[..i];
      assert t[..i - 1] == s[1..i] && t[i..] == s[i + 1..];
      RemoveFirstOccurrence(t, x, i - 1);
      calc {
        RemoveFirst(s, x);
        [s[0]] + RemoveFirst(t, x);
        [s[0]] + (s[1..i] + s[i + 1..]);
        { assert s[..i] == [s[0]] + s[1..i]; }
        s[..i] + s[i + 1..];
      }
    }
  }

  /** In a list without repetitions, removing the element at position i cuts out exactly that position. */
  lemma RemoveFirstAt<T>(s: seq<T>, i: nat)
    requires i < |s| && Distinct(s)
    ensures RemoveFirst(s, s[i]) == s[..i] + s[i + 1..]
  {
    assert s[i] !in s[..i];
    RemoveFirstOccurrence(s, s[i], i);
  }

  /** The entries of `s` that are not in `gone`, in their order in `s`. */
  function Filtered<T(==)>(s: seq<T>, gone: set<T>): seq<T>
  {
    if s == [] then []
    else
      assert s == [s[0]] + s[1..];
      (if s[0] in gone then [] else [s[0]]) + Filtered(s[1..], gone)
  }

  /** In a list without repetitions, removing one more element keeps the order of the rest: `remove` filters. */
  lemma {:induction false} FilteredRemove<T>(s: seq<T>, gone: set<T>, x: T)
    requires Distinct(s)
    ensures Filtered(s, gone + {x}) == RemoveFirst(Filtered(s, gone), x)
  {
    if s != [] {
      var t := s[1..];
      var rest := Filtered(t, gone);
      if s[0] == x {
        assert x !in t by {
          forall i | 0 <= i < |t|
            ensures t[i] != x
          {
            assert t[i] == s[i + 1];
          }
        }
        FilteredSkips(t, gone, x);
        FilteredMembers(t, gone);
        assert Filtered(s, gone + {x}) == Filtered(t, gone);
        if x !in gone {
          assert ([x] + rest)[1..] == rest;
        }
      } else {
        assert Distinct(t) by {
          forall i, j | 0 <= i < j < |t|
            ensures t[i] != t[j]
          {
            assert t[i] == s[i + 1] && t[j] == s[j + 1];
          }
        }
        FilteredRemove(t, gone, x);
        if s[0] in gone {
          assert Filtered(s, gone + {x}) == Filtered(t, gone + {x});
          assert Filtered(s, gone) == rest;
        } else {
          assert Filtered(s, gone + {x}) == [s[0]] + Filtered(t, gone + {x});
          assert Filtered(s, gone) == [s[0]] + rest;
          RemoveFirstPast(s[0], rest, x);
        }
      }
    }
  }

  /** `remove` passes over a head that is not the element removed. */
  lemma RemoveFirstPast<T>(y: T, s: seq<T>, x: T)
    requires y != x
    ensures RemoveFirst([y] + s, x) == [y] + RemoveFirst(s, x)
  {
    assert ([y] + s)[0] == y && ([y] + s)[1..] == s;
  }

  /** Filtering keeps exactly the entries that are not in `gone`. */
  lemma {:induction false} FilteredMembers<T>(s: seq<T>, gone: set<T>)
    ensures forall y :: y in Filtered(s, gone) <==> y in s && y !in gone
  {
    if s != [] {
      FilteredMembers(s[1..], gone);
      assert s == [s[0]] + s[1..];
    }
  }

  /** Filtering out nothing keeps the list. */
  lemma {:induction false} FilteredNone<T>(s: seq<T>)
    ensures Filtered(s, {}) == s
  {
    if s != [] {
      FilteredNone(s[1..]);
    }
  }

  /** An element that is not in `s` makes no difference to filtering it. */
  lemma {:induction false} FilteredSkips<T>(s: seq<T>, gone: set<T>, x: T)
    requires x !in s
    ensures Filtered(s, gone + {x}) == Filtered(s, gone)
  {
    if s != [] {
      assert s[0] != x;
      FilteredSkips(s[1..], gone, x);
    }
  }
}
