/** The order lifecycle table and what lies beyond one step of it. */
module Lifecycle {
  datatype Status =
    Proposal | Verified | Submitted | Pending | PartiallyFilled | Filled | Cancelled | Failed | Reconciled | Ambiguous

  function Successors(s: Status): set<Status> {
    match s
    case Proposal => {Verified, Failed}
    case Verified => {Submitted, Failed}
    case Submitted => {Pending, Failed, Verified, Ambiguous}
    case Pending => {PartiallyFilled, Filled, Cancelled, Pending}
    case PartiallyFilled => {PartiallyFilled, Filled, Cancelled}
    case Filled => {Reconciled}
    case Cancelled => {Reconciled}
    case Failed => {Reconciled}
    case Reconciled => {}
    case Ambiguous => {Verified, Pending, PartiallyFilled, Filled, Cancelled, Failed, Reconciled}
  }

  predicate Allowed(current: Status, target: Status) {
    target in Successors(current)
  }

  predicate Terminal(s: Status) {
    s == Filled || s == Cancelled
  }

  predicate Path(p: seq<Status>) {
    forall i :: 0 <= i < |p| - 1 ==> Allowed(p[i], p[i + 1])
  }

  predicate Joins(p: seq<Status>, a: Status, b: Status) {
    |p| >= 2 && p[0] == a && p[|p| - 1] == b && Path(p)
  }

  /** The transitive closure of the table: one or more steps lead from `a` to `b`. */
  ghost predicate Reaches(a: Status, b: Status) {
    exists p: seq<Status> :: Joins(p, a, b)
  }

  /** The closure in closed form. Only a record that was never handed to the broker can be retried. */
  function Onward(s: Status): set<Status> {
    match s
    case Proposal | Verified | Submitted | Ambiguous =>
      {Verified, Submitted, Ambiguous, Pending, PartiallyFilled, Filled, Cancelled, Failed, Reconciled}
    case Pending => {Pending, PartiallyFilled, Filled, Cancelled, Reconciled}
    case PartiallyFilled => {PartiallyFilled, Filled, Cancelled, Reconciled}
    case Filled | Cancelled | Failed => {Reconciled}
    case Reconciled => {}
  }

  lemma {:induction false} PathStaysOnward(p: seq<Status>)
    requires |p| >= 2 && Path(p)
    ensures p[|p| - 1] in Onward(p[0])
  {
    if |p| > 2 {
      var rest := p[1..];
      forall i | 0 <= i < |rest| - 1
        ensures Allowed(rest[i], rest[i + 1])
      {
        assert rest[i] == p[i + 1] && rest[i + 1] == p[i + 2];
      }
      PathStaysOnward(rest);
      assert Allowed(p[0], p[1]) && p[|p| - 1] in Onward(p[1]);
    }
  }

  lemma OneStep(a: Status, b: Status)
    requires Allowed(a, b)
    ensures Reaches(a, b)
  {
    assert Joins([a, b], a, b);
  }

  lemma Concatenate(a: Status, b: Status, c: Status)
    requires Allowed(a, b) && Reaches(b, c)
    ensures Reaches(a, c)
  {
    var p :| Joins(p, b, c);
    var q := [a] + p;
    forall i | 0 <= i < |q| - 1
      ensures Allowed(q[i], q[i + 1])
    {
      if i > 0 {
        assert q[i] == p[i - 1] && q[i + 1] == p[i];
      }
    }
    assert Joins(q, a, c);
  }

  lemma OpenReaches(b: Status)
    ensures b in Onward(PartiallyFilled) ==> Reaches(PartiallyFilled, b)
    ensures b in Onward(Pending) ==> Reaches(Pending, b)
  {
    OneStep(Filled, Reconciled);
    Concatenate(PartiallyFilled, Filled, Reconciled);
    Concatenate(Pending, Filled, Reconciled);
    if Allowed(PartiallyFilled, b) {
      OneStep(PartiallyFilled, b);
    }
    if Allowed(Pending, b) {
      OneStep(Pending, b);
    }
  }

  lemma AmbiguousReaches(b: Status)
    requires b in Onward(Ambiguous)
    ensures Reaches(Ambiguous, b)
  {
    if Allowed(Ambiguous, b) {
      OneStep(Ambiguous, b);
    } else {
      OneStep(Submitted, Ambiguous);
      OneStep(Verified, Submitted);
      Concatenate(Verified, Submitted, Ambiguous);
      Concatenate(Ambiguous, Verified, b);
    }
  }

  /** The table's transitive closure is exactly the closed form. */
  lemma ReachesIff(a: Status, b: Status)
    ensures Reaches(a, b) <==> b in Onward(a)
  {
    if Reaches(a, b) {
      var p :| Joins(p, a, b);
      PathStaysOnward(p);
    }
    if b in Onward(a) {
      match a
      case Filled | Cancelled | Failed => OneStep(a, b);
      case Pending | PartiallyFilled => OpenReaches(b);
      case _ =>
        AmbiguousReaches(b);
        Concatenate(Submitted, Ambiguous, b);
        Concatenate(Verified, Submitted, b);
        Concatenate(Proposal, Verified, b);
    }
  }
}
