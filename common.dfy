/** Small shared vocabulary: optional values, the two plot axes, and a first-index search. */
module Common {

  datatype Option<T> = None | Some(value: T)

  /** The two kinds of plotted quantity: independent ("xdata") and dependent ("ydata"). */
  datatype Axis = X | Y {
    /** The type string the tool stores for a quantity of this axis. */
    function TypeName(): string {
      if X? then "xdata" else "ydata"
    }
  }

  /** The index of the first element that satisfies `p`: the one search every lookup of the tool is. */
  function FirstWhere<T>(xs: seq<T>, p: T -> bool): (r: Option<nat>)
    ensures r.Some? ==> r.value < |xs| && p(xs[r.value])
    ensures r.Some? ==> forall k :: 0 <= k < r.value ==> !p(xs[k])
    ensures r.None? ==> forall k :: 0 <= k < |xs| ==> !p(xs[k])
    decreases |xs|
  {
    if xs == [] then None
    else if p(xs[0]) then Some(0)
    else match FirstWhere(xs[1..], p)
      case None => None
      case Some(i) => Some(i + 1)
  }

  /** The index of the first occurrence of a value. */
  function Find<T(==)>(ns: seq<T>, n: T): (r: Option<nat>)
    ensures r.Some? ==> r.value < |ns| && ns[r.value] == n
    ensures r.Some? ==> forall k :: 0 <= k < r.value ==> ns[k] != n
    ensures r.None? ==> forall k :: 0 <= k < |ns| ==> ns[k] != n
  {
    FirstWhere(ns, (x: T) => x == n)
  }

  /** The first index that holds a value, when nothing before it does. */
  lemma FindFirst<T>(ns: seq<T>, i: nat)
    requires i < |ns| && forall k :: 0 <= k < i ==> ns[k] != ns[i]
    ensures Find(ns, ns[i]) == Some(i)
  {
  }
}
