/**
 * The records produced by the external aligners `diff::lines` and
 * `diff::chars`: each unit is only in the left ("expected") input, only in
 * the right ("actual") input, or in both.  The aligners themselves are not
 * part of this model; their output is taken as input and is required to be
 * well formed wherever a property depends on it.
 */
module Alignment {

  datatype Record<T> = Left(l: T) | Right(r: T) | Both(l: T, r: T)

  /** The left input read back from an alignment: `Left` and the left half of `Both`. */
  function Lefts<T>(d: seq<Record<T>>): seq<T>
  {
    if d == [] then []
    else
      var last := d[|d| - 1];
      Lefts(d[..|d| - 1]) + (if last.Right? then [] else [last.l])
  }

  /** The right input read back from an alignment: `Right` and the right half of `Both`. */
  function Rights<T>(d: seq<Record<T>>): seq<T>
  {
    if d == [] then []
    else
      var last := d[|d| - 1];
      Rights(d[..|d| - 1]) + (if last.Left? then [] else [last.r])
  }

  /** Every `Both` record pairs two equal units. */
  predicate MatchesAgree<T(==)>(d: seq<Record<T>>)
  {
    forall i :: 0 <= i < |d| && d[i].Both? ==> d[i].l == d[i].r
  }

  /** `d` is an alignment of `left` against `right`. */
  predicate WellFormed<T(==)>(d: seq<Record<T>>, left: seq<T>, right: seq<T>)
  {
    Lefts(d) == left && Rights(d) == right && MatchesAgree(d)
  }

  /** Number of `Both` records: the units the two inputs share. */
  function CountBoth<T>(d: seq<Record<T>>): nat
  {
    if d == [] then 0
    else CountBoth(d[..|d| - 1]) + (if d[|d| - 1].Both? then 1 else 0)
  }

  /** Number of `Left` records: the units only the left input has. */
  function CountLeft<T>(d: seq<Record<T>>): nat
  {
    if d == [] then 0
    else CountLeft(d[..|d| - 1]) + (if d[|d| - 1].Left? then 1 else 0)
  }

  /** Number of `Right` records: the units only the right input has. */
  function CountRight<T>(d: seq<Record<T>>): nat
  {
    if d == [] then 0
    else CountRight(d[..|d| - 1]) + (if d[|d| - 1].Right? then 1 else 0)
  }

  /** The left unit of a `Left` or `Both` record is part of the left input. */
  lemma {:induction false} LeftIsRead<T>(d: seq<Record<T>>, i: nat)
    requires i < |d| && !d[i].Right?
    ensures d[i].l in Lefts(d)
  {
    if i < |d| - 1 {
      LeftIsRead(d[..|d| - 1], i);
    }
  }

  /** The right unit of a `Right` or `Both` record is part of the right input. */
  lemma {:induction false} RightIsRead<T>(d: seq<Record<T>>, i: nat)
    requires i < |d| && !d[i].Left?
    ensures d[i].r in Rights(d)
  {
    if i < |d| - 1 {
      RightIsRead(d[..|d| - 1], i);
    }
  }

  /** Every unit of the left input comes from a `Left` or `Both` record. */
  lemma {:induction false} LeftSource<T>(d: seq<Record<T>>, k: nat)
    requires k < |Lefts(d)|
    ensures exists i :: 0 <= i < |d| && !d[i].Right? && d[i].l == Lefts(d)[k]
  {
    var init := d[..|d| - 1];
    if k < |Lefts(init)| {
      LeftSource(init, k);
      var i :| 0 <= i < |init| && !init[i].Right? && init[i].l == Lefts(init)[k];
      assert d[i] == init[i];
    } else {
      assert !d[|d| - 1].Right?;
    }
  }

  /** Every unit of the right input comes from a `Right` or `Both` record. */
  lemma {:induction false} RightSource<T>(d: seq<Record<T>>, k: nat)
    requires k < |Rights(d)|
    ensures exists i :: 0 <= i < |d| && !d[i].Left? && d[i].r == Rights(d)[k]
  {
    var init := d[..|d| - 1];
    if k < |Rights(init)| {
      RightSource(init, k);
      var i :| 0 <= i < |init| && !init[i].Left? && init[i].r == Rights(init)[k];
      assert d[i] == init[i];
    } else {
      assert !d[|d| - 1].Left?;
    }
  }

  predicate AllBoth<T>(d: seq<Record<T>>)
  {
    forall i :: 0 <= i < |d| ==> d[i].Both?
  }
}
