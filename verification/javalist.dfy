/** The `java.util.ArrayList` operations the engines use, over Dafny sequences. */
module JavaList {

  datatype Option<T> = None | Some(value: T)

  /** `list.remove(i)`: the element at `i` goes and every later element shifts down one place. */
  function RemoveAt<T>(s: seq<T>, i: nat): (r: seq<T>)
    requires i < |s|
    ensures |r| == |s| - 1
    ensures forall k :: 0 <= k < i ==> r[k] == s[k]
    ensures forall k :: i <= k < |r| ==> r[k] == s[k + 1]
    ensures multiset(r) + multiset{s[i]} == multiset(s)
  {
    assert s == s[..i] + [s[i]] + s[i + 1..];
    s[..i] + s[i + 1..]
  }

  /** How many times one projectile-loop iteration calls `remove(index)`: once for a hit, once for leaving the field. */
  function Removals(hit: bool, off: bool): nat {
    (if hit then 1 else 0) + (if off then 1 else 0)
  }
}
