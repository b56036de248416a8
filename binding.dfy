/**
 * Binding a list of names, one after another, into a table that rejects a
 * name it already holds: what a call does when it defines `this` and its
 * parameters in a fresh frame.
 */
module Binding {
  import opened Wrappers
  import A = Ast

  /** Binding `names[k]` after the distinct `names[..k]`: it aborts exactly when it repeats one of them. */
  lemma BindStep<V>(names: seq<string>, vals: seq<V>, k: nat)
    requires |names| == |vals| && k < |names| && Distinct(names[..k])
    ensures names[k] in Bindings(names[..k], vals[..k]) <==> names[k] in names[..k]
    ensures names[k] in names[..k] ==> FirstRepeatedFrom(names, k) == Some(names[k])
    ensures names[k] !in names[..k] ==>
      Distinct(names[..k + 1]) && FirstRepeatedFrom(names, k) == FirstRepeatedFrom(names, k + 1)
      && Bindings(names[..k + 1], vals[..k + 1]) == Bindings(names[..k], vals[..k])[names[k] := vals[k]]
  {
    Snoc(names, k);
    Snoc(vals, k);
  }

  lemma Snoc<T>(xs: seq<T>, k: nat)
    requires k < |xs|
    ensures xs[..k + 1] == xs[..k] + [xs[k]] && xs[..k + 1][..k] == xs[..k]
  {
  }

  ghost predicate Distinct(names: seq<string>)
  {
    forall i, j :: 0 <= i < j < |names| ==> names[i] != names[j]
  }

  /** The first name, from position `k` on, that repeats an earlier one. */
  function FirstRepeatedFrom(names: seq<string>, k: nat): (r: Option<string>)
    requires k <= |names| && Distinct(names[..k])
    ensures r.None? <==> Distinct(names)
    ensures r.Some? ==> exists i :: k <= i < |names| && names[i] == r.value && r.value in names[..i] && Distinct(names[..i])
    decreases |names| - k
  {
    if k == |names| then
      assert names[..k] == names;
      None
    else if names[k] in names[..k] then
      assert !Distinct(names) by {
        var j :| 0 <= j < k && names[..k][j] == names[k];
        assert names[j] == names[k];
      }
      Some(names[k])
    else
      assert Distinct(names[..k + 1]) by {
        assert names[..k + 1] == names[..k] + [names[k]];
      }
      FirstRepeatedFrom(names, k + 1)
  }

  /** The map built by inserting `vals[i]` under `names[i]` in order; a later name replaces an earlier one. */
  function Bindings<V>(names: seq<string>, vals: seq<V>): (m: map<string, V>)
    requires |names| == |vals|
    ensures m.Keys == set n | n in names
    decreases |names|
  {
    if names == [] then map[]
    else
      var n := |names| - 1;
      assert names == names[..n] + [names[n]];
      Bindings(names[..n], vals[..n])[names[n] := vals[n]]
  }

  /** One more name and value extend the bindings by that name. */
  lemma BindingsExtend<V>(names: seq<string>, prior: seq<V>, k: nat, v: V)
    requires k < |names| && |prior| == k
    ensures Bindings(names[..k + 1], prior + [v]) == Bindings(names[..k], prior)[names[k] := v]
  {
    assert names[..k + 1][..k] == names[..k] && (prior + [v])[..k] == prior;
  }

  /** A name bound only once from position `k` on maps to the value given with it there. */
  lemma {:induction false} BindingsLast<V>(names: seq<string>, vals: seq<V>, k: nat)
    requires |names| == |vals| && k < |names| && names[k] !in names[k + 1..]
    ensures Bindings(names, vals)[names[k]] == vals[k]
    decreases |names|
  {
    var n := |names| - 1;
    if k < n {
      assert names[..n][k + 1..] == names[k + 1..n];
      assert names[k] != names[n] by {
        assert names[n] == names[k + 1..][n - k - 1];
      }
      BindingsLast(names[..n], vals[..n], k);
    }
  }

  /** With distinct names, every name maps to the value given with it. */
  lemma BindingsDistinct<V>(names: seq<string>, vals: seq<V>)
    requires |names| == |vals| && Distinct(names)
    ensures forall k :: 0 <= k < |names| ==> names[k] in Bindings(names, vals) && Bindings(names, vals)[names[k]] == vals[k]
  {
    forall k | 0 <= k < |names|
      ensures Bindings(names, vals)[names[k]] == vals[k]
    {
      assert names[k] !in names[k + 1..] by {
        forall j | k + 1 <= j < |names|
          ensures names[j] != names[k]
        {
        }
      }
      BindingsLast(names, vals, k);
    }
  }

  /** The names a call binds: `this`, then one parameter per argument, as far as the shorter list goes. */
  function BoundNames(params: seq<A.Parameter>, argCount: nat): (names: seq<string>)
    ensures |names| == 1 + (if |params| < argCount then |params| else argCount)
    ensures names[0] == "this"
    ensures forall i :: 1 <= i < |names| ==> names[i] == params[i - 1].name
  {
    ["this"] + seq(if |params| < argCount then |params| else argCount, i requires 0 <= i < |params| => params[i].name)
  }
}
