/** Every reachable state keeps the invariant: any sequence of steps, in any order. */
module Safety {
  import opened Text
  import opened Model
  import opened Twin
  import opened Invariants
  import KeepsControl
  import KeepsPublic
  import KeepsRun
  import KeepsDelivery
  import KeepsReceive

  lemma StepKeeps(c: Casing, s: State, l: Label)
    requires Invariant(c, s)
    ensures Invariant(c, Step(c, s, l))
  {
    hide Invariant; hide ControlStep; hide PublicStep; hide RunStep; hide DeliveryStep; hide ReceiveStep;
    if !(s.drafting.Some? && NeedsLock(l)) {
      match l
      case OnControl(k) => KeepsControl.ControlKeeps(c, s, k);
      case OnPublic(p) => KeepsPublic.PublicKeeps(c, s, p);
      case OnRun(r) => KeepsRun.RunKeeps(c, s, r);
      case OnDelivery(d) => KeepsDelivery.DeliveryKeeps(c, s, d);
      case OnReceive(r) => KeepsReceive.ReceiveKeeps(c, s, r);
    }
  }

  lemma {:induction false} RunsKeep(c: Casing, s: State, labels: seq<Label>)
    requires Invariant(c, s)
    ensures Invariant(c, Execute(c, s, labels))
  {
    hide Invariant; hide Step;
    if labels != [] {
      RunsKeep(c, s, labels[..|labels| - 1]);
      StepKeeps(c, Execute(c, s, labels[..|labels| - 1]), labels[|labels| - 1]);
    }
  }

  ghost predicate Reachable(c: Casing, s: State) {
    exists now: int, labels: seq<Label> :: s == Execute(c, Start(now), labels)
  }

  lemma ReachableOk(c: Casing, s: State)
    requires Reachable(c, s)
    ensures Invariant(c, s)
  {
    var now: int, labels: seq<Label> :| s == Execute(c, Start(now), labels);
    StartOk(c, now);
    RunsKeep(c, Start(now), labels);
  }

  lemma {:induction false} ExecuteAppend(c: Casing, s: State, a: seq<Label>, b: seq<Label>)
    ensures Execute(c, Execute(c, s, a), b) == Execute(c, s, a + b)
  {
    hide Step;
    if b == [] {
      assert a + b == a;
    } else {
      var n := |b| - 1;
      ExecuteAppend(c, s, a, b[..n]);
      assert (a + b)[..|a + b| - 1] == a + b[..n];
    }
  }

  lemma ExecuteNext(c: Casing, s: State, labels: seq<Label>, k: nat)
    requires k < |labels|
    ensures Execute(c, s, labels[..k + 1]) == Step(c, Execute(c, s, labels[..k]), labels[k])
  {
    assert labels[..k + 1][..k] == labels[..k];
    hide Step;
  }

  lemma OneStep(c: Casing, s: State, l: Label)
    ensures Execute(c, s, [l]) == Step(c, s, l)
  {
    assert [l][..0] == [];
    hide Step;
  }

  // Whatever follows a reachable state is reachable.
  lemma ReachableOnward(c: Casing, s: State, labels: seq<Label>)
    requires Reachable(c, s)
    ensures Reachable(c, Execute(c, s, labels))
  {
    var now: int, before: seq<Label> :| s == Execute(c, Start(now), before);
    ExecuteAppend(c, Start(now), before, labels);
    hide Execute;
  }

  lemma ReachableNext(c: Casing, s: State, l: Label)
    requires Reachable(c, s)
    ensures Reachable(c, Step(c, s, l))
  {
    ReachableOnward(c, s, [l]);
    OneStep(c, s, l);
  }
}
