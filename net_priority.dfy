/**
 * NetPriority: a priority class and an integer priority within the class,
 * compared lexicographically — class ascending, then the integer
 * descending.
 */
module Priority {

  /** NetPriorityType; `Rank` gives the enum's underlying values. */
  datatype PriorityType = Low | Trivial | Emergency

  function Rank(t: PriorityType): (r: int)
    ensures 0 <= r <= 2
    ensures r == 0 <==> t == Low
    ensures r == 2 <==> t == Emergency
  {
    match t
    case Low => 0
    case Trivial => 1
    case Emergency => 2
  }

  datatype NetPriority = NetPriority(kind: PriorityType, taskPriority: int)

  /** Int32.CompareTo: -1, 0 or 1 as `a` is below, equal to or above `b`. */
  function CompareInt(a: int, b: int): (r: int)
    ensures r == -1 <==> a < b
    ensures r == 0 <==> a == b
    ensures r == 1 <==> a > b
  {
    if a < b then -1 else if a > b then 1 else 0
  }

  /** NetPriority.CompareTo(pp), called on `self`. */
  function CompareTo(self: NetPriority, pp: NetPriority): (r: int)
    ensures r == -1 || r == 0 || r == 1
  {
    if Rank(self.kind) > Rank(pp.kind) then 1
    else if Rank(self.kind) < Rank(pp.kind) then -1
    else CompareInt(pp.taskPriority, self.taskPriority)
  }

  /** `a` is ordered no later than `b`. */
  predicate AtMost(a: NetPriority, b: NetPriority) {
    CompareTo(a, b) <= 0
  }

  /** The class decides whenever the classes differ, whatever the integers. */
  lemma ClassDominates(a: NetPriority, b: NetPriority)
    requires a.kind != b.kind
    ensures CompareTo(a, b) == 1 <==> Rank(a.kind) > Rank(b.kind)
    ensures CompareTo(a, b) == -1 <==> Rank(a.kind) < Rank(b.kind)
    ensures CompareTo(a, b) != 0
  {
  }

  /** An Emergency priority compares greater than every Low or Trivial one. */
  lemma EmergencyIsGreatest(a: NetPriority, b: NetPriority)
    requires a.kind == Emergency && b.kind != Emergency
    ensures CompareTo(a, b) == 1 && CompareTo(b, a) == -1
  {
  }

  /** Within one class the higher integer compares less. */
  lemma WithinClassDescending(a: NetPriority, b: NetPriority)
    requires a.kind == b.kind
    ensures CompareTo(a, b) == -1 <==> a.taskPriority > b.taskPriority
    ensures CompareTo(a, b) == 1 <==> a.taskPriority < b.taskPriority
  {
  }

  /** Zero exactly for equal class and equal integer; in particular x.CompareTo(x) == 0. */
  lemma ZeroIffEquivalent(a: NetPriority, b: NetPriority)
    ensures CompareTo(a, b) == 0 <==> a == b
    ensures CompareTo(a, a) == 0
  {
  }

  lemma Antisymmetric(a: NetPriority, b: NetPriority)
    ensures CompareTo(a, b) == -CompareTo(b, a)
  {
  }

  lemma Transitive(a: NetPriority, b: NetPriority, c: NetPriority)
    requires AtMost(a, b) && AtMost(b, c)
    ensures AtMost(a, c)
    ensures CompareTo(a, b) == -1 || CompareTo(b, c) == -1 ==> CompareTo(a, c) == -1
  {
  }

  lemma Total(a: NetPriority, b: NetPriority)
    ensures AtMost(a, b) || AtMost(b, a)
  {
  }

  /** `AtMost` is a total preorder: reflexive, transitive and total. */
  lemma TotalPreorder()
    ensures forall a :: AtMost(a, a)
    ensures forall a, b, c :: AtMost(a, b) && AtMost(b, c) ==> AtMost(a, c)
    ensures forall a, b :: AtMost(a, b) || AtMost(b, a)
  {
    forall a, b, c | AtMost(a, b) && AtMost(b, c) ensures AtMost(a, c) {
      Transitive(a, b, c);
    }
  }
}
