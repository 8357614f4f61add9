/**
 * NetTaskPass: the process-wide, ordered list of task mutators that the
 * state machine runs before sending. A pass is known by its type name and
 * acts on the task as a function.
 */
module Passes {
  import opened NetTasks

  datatype Pass = Pass(name: string, run: NetTask -> NetTask)

  /** The task after every pass of `ps` has run on it, first to last. */
  function Fold(ps: seq<Pass>, t: NetTask): NetTask
    decreases |ps|
  {
    if ps == [] then t else Fold(ps[1..], ps[0].run(t))
  }

  /** Running `ps + qs` is running `ps`, then handing the result to `qs`. */
  lemma {:induction false} FoldAppend(ps: seq<Pass>, qs: seq<Pass>, t: NetTask)
    ensures Fold(ps + qs, t) == Fold(qs, Fold(ps, t))
    decreases |ps|
  {
    if ps == [] {
      assert ps + qs == qs;
    } else {
      assert (ps + qs)[1..] == ps[1..] + qs;
      FoldAppend(ps[1..], qs, ps[0].run(t));
    }
  }

  /** The last pass receives the output of all the passes before it. */
  lemma {:induction false} FoldSnoc(ps: seq<Pass>, p: Pass, t: NetTask)
    ensures Fold(ps + [p], t) == p.run(Fold(ps, t))
  {
    FoldAppend(ps, [p], t);
  }

  /**
   * The intermediate tasks of a run: stage `i` is the input of pass `i`
   * and stage `i + 1` its output.
   */
  function Stages(ps: seq<Pass>, t: NetTask): (s: seq<NetTask>)
    ensures |s| == |ps| + 1 && s[0] == t
    decreases |ps|
  {
    [t] + if ps == [] then [] else Stages(ps[1..], ps[0].run(t))
  }

  /** Each pass runs exactly once, in list order, on the previous pass's output; the result is the last stage. */
  lemma {:induction false} FoldRunsEachPassOnce(ps: seq<Pass>, t: NetTask)
    ensures forall i :: 0 <= i < |ps| ==> Stages(ps, t)[i + 1] == ps[i].run(Stages(ps, t)[i])
    ensures Fold(ps, t) == Stages(ps, t)[|ps|]
    decreases |ps|
  {
    if ps != [] {
      var rest := Stages(ps[1..], ps[0].run(t));
      FoldRunsEachPassOnce(ps[1..], ps[0].run(t));
      assert Stages(ps, t) == [t] + rest;
      forall i | 0 <= i < |ps| ensures Stages(ps, t)[i + 1] == ps[i].run(Stages(ps, t)[i]) {
        if i > 0 {
          assert ps[1..][i - 1] == ps[i];
        }
      }
    }
  }

  /** Position of the first pass named `name`, or -1. */
  function IndexOfName(ps: seq<Pass>, name: string): (r: int)
    ensures -1 <= r < |ps|
    ensures r == -1 <==> forall j :: 0 <= j < |ps| ==> ps[j].name != name
    ensures r >= 0 ==> ps[r].name == name && forall j :: 0 <= j < r ==> ps[j].name != name
    decreases |ps|
  {
    if ps == [] then -1
    else if ps[0].name == name then 0
    else
      var k := IndexOfName(ps[1..], name);
      if k == -1 then -1 else k + 1
  }

  /** The list after the first entry named `name` is removed, if there is one. */
  function RemoveFirst(ps: seq<Pass>, name: string): seq<Pass> {
    var i := IndexOfName(ps, name);
    if i == -1 then ps else ps[..i] + ps[i + 1..]
  }

  /** Without an entry of that name the list is unchanged. */
  lemma RemoveFirstAbsent(ps: seq<Pass>, name: string)
    requires forall j :: 0 <= j < |ps| ==> ps[j].name != name
    ensures RemoveFirst(ps, name) == ps
  {
  }

  /**
   * With an entry of that name, exactly the first one goes: the list is one
   * shorter, entries before it stay in place and later ones move down by one.
   */
  lemma RemoveFirstPresent(ps: seq<Pass>, name: string, i: int)
    requires 0 <= i < |ps| && ps[i].name == name
    requires forall j :: 0 <= j < i ==> ps[j].name != name
    ensures |RemoveFirst(ps, name)| == |ps| - 1
    ensures forall j :: 0 <= j < i ==> RemoveFirst(ps, name)[j] == ps[j]
    ensures forall j :: i <= j < |ps| - 1 ==> RemoveFirst(ps, name)[j] == ps[j + 1]
  {
    assert IndexOfName(ps, name) == i;
  }

  /** At most one entry goes, and every entry left was there before. */
  lemma RemoveFirstRemovesAtMostOne(ps: seq<Pass>, name: string)
    ensures |RemoveFirst(ps, name)| >= |ps| - 1
    ensures multiset(RemoveFirst(ps, name)) <= multiset(ps)
  {
    var i := IndexOfName(ps, name);
    if i != -1 {
      assert ps == ps[..i] + [ps[i]] + ps[i + 1..];
    }
  }

  /** `NetTaskPass.Passes` together with the two static operations on it. */
  class PassRegistry {
    var passes: seq<Pass>

    constructor ()
      ensures passes == []
    {
      passes := [];
    }

    /** `Passes.Add`, through which passes are registered. */
    method Add(p: Pass)
      modifies this
      ensures passes == old(passes) + [p]
    {
      passes := passes + [p];
    }

    /** RunOnField: the task threaded through every pass, in list order. */
    method RunOnField(content: NetTask) returns (r: NetTask)
      ensures r == Fold(passes, content)
      ensures passes == [] ==> r == content
    {
      r := content;
      for i := 0 to |passes|
        invariant r == Fold(passes[..i], content)
      {
        FoldSnoc(passes[..i], passes[i], content);
        assert passes[..i + 1] == passes[..i] + [passes[i]];
        r := passes[i].run(r);
      }
      assert passes[..|passes|] == passes;
    }

    /** RemoveFromPasses<T>, with T given by its type name. */
    method RemoveFromPasses(className: string)
      modifies this
      ensures passes == RemoveFirst(old(passes), className)
    {
      var i := 0;
      while i < |passes|
        invariant 0 <= i <= |passes| && passes == old(passes)
        invariant forall j :: 0 <= j < i ==> passes[j].name != className
      {
        if passes[i].name == className {
          RemoveFirstPresent(passes, className, i);
          passes := passes[..i] + passes[i + 1..];
          return;
        }
        i := i + 1;
      }
    }
  }
}
