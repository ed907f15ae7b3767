/** Argument validation and the shared window arithmetic of the list operations
    (`raise_errors` and the windowing in `get_items` / `get_carts`). */
module Listing {
  import opened Contracts
  import opened Outcomes

  /** A supplied bound that is below zero. */
  predicate Negative(bound: Option<real>)
  {
    bound.Some? && bound.value < 0.0
  }

  /** Whether some supplied bound in the list is negative. */
  function AnyNegative(bounds: seq<Option<real>>): (r: bool)
    ensures r <==> exists i :: 0 <= i < |bounds| && Negative(bounds[i])
  {
    if bounds == [] then false
    else Negative(bounds[0]) || AnyNegative(bounds[1..])
  }

  /** `raise_errors`: the first check that fails, or `None` when the arguments are acceptable.
      An absent bound is never refused. */
  function ValidateListing(offset: int, limit: int, bounds: seq<Option<real>>): (r: Option<ArgumentError>)
    ensures r.None? <==> offset >= 0 && limit > 0 && forall i :: 0 <= i < |bounds| ==> !Negative(bounds[i])
    ensures r == Some(NegativeOffset) <==> offset < 0
    ensures r == Some(NonPositiveLimit) <==> offset >= 0 && limit <= 0
    ensures r == Some(NegativeBound) <==>
              offset >= 0 && limit > 0 && exists i :: 0 <= i < |bounds| && Negative(bounds[i])
  {
    if offset < 0 then Some(NegativeOffset)
    else if limit <= 0 then Some(NonPositiveLimit)
    else if AnyNegative(bounds) then Some(NegativeBound)
    else None
  }

  /** The ids visited by a list operation over a store of `size` entries: the code returns
      early when `offset >= size`, else clips `limit` to `size - offset`, and walks
      `range(offset, offset + limit)`. */
  function Window(size: nat, offset: int, limit: int): (r: seq<int>)
    requires offset >= 0 && limit > 0
    ensures |r| <= limit
    ensures offset >= size ==> r == []
    ensures forall j :: 0 <= j < |r| ==> r[j] == offset + j
    ensures forall k :: k in r <==> offset <= k < offset + limit && k < size
  {
    if offset >= size then []
    else
      var clipped := if offset + limit >= size then size - offset else limit;
      var ids := seq(clipped, j => offset + j);
      assert forall k | offset <= k < offset + clipped :: k in ids by {
        forall k | offset <= k < offset + clipped ensures k in ids {
          assert ids[k - offset] == k;
        }
      }
      ids
  }

  /** `x` lies within every supplied bound; an absent bound admits everything. */
  predicate InBounds(x: real, lo: Option<real>, hi: Option<real>)
  {
    (lo.None? || x >= lo.value) && (hi.None? || x <= hi.value)
  }

  predicate Ascending(s: seq<int>)
  {
    forall i, j :: 0 <= i < j < |s| ==> s[i] < s[j]
  }

  /** Dropping the first id keeps the rest ascending, and all of it above the first. */
  lemma AscendingTail(s: seq<int>)
    requires s != []
    ensures Ascending(s) ==> Ascending(s[1..]) && forall x :: x in s[1..] ==> s[0] < x
  {
  }

  /** Putting an id below all others in front of an ascending list keeps it ascending. */
  lemma AscendingCons(x: int, s: seq<int>)
    ensures Ascending(s) && (forall y :: y in s ==> x < y) ==> Ascending([x] + s)
  {
    if Ascending(s) && forall y :: y in s ==> x < y {
      var r := [x] + s;
      forall i, j | 0 <= i < j < |r| ensures r[i] < r[j] {
        if i == 0 {
          assert r[j] == s[j - 1] && s[j - 1] in s;
        } else {
          assert r[i] == s[i - 1] && r[j] == s[j - 1];
        }
      }
    }
  }

  lemma FirstIsMember(s: seq<int>)
    ensures s != [] ==> s[0] in s
  {
  }

  /** An ascending list of ids is determined by which ids it holds. */
  lemma {:induction false} AscendingSameMembers(s: seq<int>, t: seq<int>)
    requires Ascending(s) && Ascending(t)
    requires forall x :: x in s <==> x in t
    ensures s == t
  {
    if s == [] || t == [] {
      FirstIsMember(s);
      FirstIsMember(t);
    } else {
      AscendingTail(s);
      AscendingTail(t);
      var s1, t1 := s[1..], t[1..];
      assert s == [s[0]] + s1 && t == [t[0]] + t1;
      assert s[0] in t && t[0] in s;
      forall x ensures x in s[1..] <==> x in t[1..] {
        if x in s[1..] {
          assert x in s && x != t[0];
        }
        if x in t[1..] {
          assert x in t && x != s[0];
        }
      }
      AscendingSameMembers(s[1..], t[1..]);
    }
  }
}
