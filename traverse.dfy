/** Applying a fallible step to each element in order, stopping at the first failure:
    the shape of every loop in the client that raises on the first bad element. */
module Traverse {
  import opened Wrappers

  function MapUntilError<T, U, E>(xs: seq<T>, f: T -> Result<U, E>): (r: Result<seq<U>, E>)
    ensures r.Ok? ==> |r.value| == |xs| && forall i :: 0 <= i < |xs| ==> f(xs[i]) == Ok(r.value[i])
    ensures r.Err? ==> exists i :: 0 <= i < |xs| && f(xs[i]) == Err(r.error) && forall j :: 0 <= j < i ==> f(xs[j]).Ok?
  {
    if xs == [] then Ok([])
    else match f(xs[0])
      case Err(e) => Err(e)
      case Ok(y) =>
        match MapUntilError(xs[1..], f)
        case Err(e) =>
          ghost var i :| 0 <= i < |xs[1..]| && f(xs[1..][i]) == Err(e) && forall j :: 0 <= j < i ==> f(xs[1..][j]).Ok?;
          assert f(xs[i + 1]) == Err(e);
          assert forall j :: 0 <= j < i + 1 ==> f(xs[j]).Ok? by {
            forall j | 0 <= j < i + 1 ensures f(xs[j]).Ok? {
              if j > 0 { assert xs[j] == xs[1..][j - 1]; }
            }
          }
          Err(e)
        case Ok(ys) => Ok([y] + ys)
  }

  /** When every step succeeds, the result is the sequence of their values, in order. */
  lemma {:induction false} MapUntilErrorAllOk<T, U, E>(xs: seq<T>, f: T -> Result<U, E>, ys: seq<U>)
    requires |ys| == |xs| && forall i :: 0 <= i < |xs| ==> f(xs[i]) == Ok(ys[i])
    ensures MapUntilError(xs, f) == Ok(ys)
  {
    if xs != [] {
      assert f(xs[0]) == Ok(ys[0]);
      assert forall i :: 0 <= i < |xs[1..]| ==> f(xs[1..][i]) == Ok(ys[1..][i]) by {
        forall i | 0 <= i < |xs[1..]| ensures f(xs[1..][i]) == Ok(ys[1..][i]) {
          assert xs[1..][i] == xs[i + 1] && ys[1..][i] == ys[i + 1];
        }
      }
      MapUntilErrorAllOk(xs[1..], f, ys[1..]);
      assert ys == [ys[0]] + ys[1..];
    }
  }

  /** The first failing step decides the error: nothing after it is looked at. */
  lemma {:induction false} MapUntilErrorFirst<T, U, E>(xs: seq<T>, f: T -> Result<U, E>, k: nat)
    requires k < |xs| && f(xs[k]).Err? && forall j :: 0 <= j < k ==> f(xs[j]).Ok?
    ensures MapUntilError(xs, f) == Err(f(xs[k]).error)
  {
    if k > 0 {
      assert f(xs[0]).Ok?;
      assert xs[1..][k - 1] == xs[k];
      assert forall j :: 0 <= j < k - 1 ==> f(xs[1..][j]).Ok? by {
        forall j | 0 <= j < k - 1 ensures f(xs[1..][j]).Ok? {
          assert xs[1..][j] == xs[j + 1];
        }
      }
      MapUntilErrorFirst(xs[1..], f, k - 1);
    }
  }

  /** One more step of a loop that has succeeded so far. */
  lemma MapUntilErrorExtend<T, U, E>(xs: seq<T>, f: T -> Result<U, E>, k: nat)
    requires k < |xs| && MapUntilError(xs[..k], f).Ok?
    ensures f(xs[k]).Ok? ==> MapUntilError(xs[..k + 1], f) == Ok(MapUntilError(xs[..k], f).value + [f(xs[k]).value])
    ensures f(xs[k]).Err? ==> MapUntilError(xs, f) == Err(f(xs[k]).error)
  {
    var ys := MapUntilError(xs[..k], f).value;
    assert forall i :: 0 <= i < k ==> xs[..k][i] == xs[i];
    if f(xs[k]).Ok? {
      var zs := ys + [f(xs[k]).value];
      assert forall i :: 0 <= i < k + 1 ==> xs[..k + 1][i] == xs[i];
      MapUntilErrorAllOk(xs[..k + 1], f, zs);
    } else {
      MapUntilErrorFirst(xs, f, k);
    }
  }

  /** The pairs (i, xs[i]): Python's `enumerate`. */
  function Enumerate<T>(xs: seq<T>): (r: seq<(nat, T)>)
    ensures |r| == |xs| && forall i :: 0 <= i < |xs| ==> r[i] == (i, xs[i])
  {
    seq(|xs|, i requires 0 <= i < |xs| => (i as nat, xs[i]))
  }

  /** The pairs (xs[i], ys[i]), as long as the shorter of the two: Python's `zip`. */
  function Zip<T, U>(xs: seq<T>, ys: seq<U>): (r: seq<(T, U)>)
    ensures |r| == (if |xs| <= |ys| then |xs| else |ys|)
    ensures forall i :: 0 <= i < |r| ==> r[i] == (xs[i], ys[i])
  {
    var n := if |xs| <= |ys| then |xs| else |ys|;
    seq(n, i requires 0 <= i < n => (xs[i], ys[i]))
  }
}
