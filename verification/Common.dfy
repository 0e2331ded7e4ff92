/** Results, optional values and the error values of the portal's services. */
module Common {

  datatype Option<+T> = None | Some(value: T)

  /** The sentinel errors of the subscription, admin and billing services, plus one
      value each for "the store call failed" and "the gateway call failed". */
  datatype Error =
    | StoreFailed
    | GatewayFailed
    | GatewayDisabled
    | ForeignKey
    | NotFound
    | BadRequest
    | AlreadySubscribed
    | ProductDeprecated
    | InvalidTransition
    | NoCredential
    | NoActiveSubscription
    | SandboxNotConfigured
    | NoSandboxEligibleSubscription
    | NoSandboxKey
    | InvalidClientID
    | HasSubscriptions
    | OAuthMigrationBlocked
    | ContextPathTaken
    | SlugTaken
    | PlanNameTaken

  datatype Result<+T> = Ok(value: T) | Err(error: Error) {
    predicate IsFailure() {
      Err?
    }

    function PropagateFailure<U>(): Result<U>
      requires Err?
    {
      Err(error)
    }

    function Extract(): T
      requires Ok?
    {
      value
    }
  }

  /** The elements `pick` selects from 0, 1, ..., n - 1, in that order: a query over
      a table whose rows are numbered below n. */
  function Collect<T>(n: nat, pick: nat -> Option<T>): seq<T> {
    if n == 0 then []
    else
      var rest := Collect(n - 1, pick);
      match pick(n - 1)
      case Some(x) => rest + [x]
      case None => rest
  }

  /** A query returns exactly the selected elements. */
  lemma {:induction false} CollectMembers<T>(n: nat, pick: nat -> Option<T>)
    ensures forall x :: x in Collect(n, pick) <==> exists i: nat :: i < n && pick(i) == Some(x)
  {
    if n > 0 {
      CollectMembers(n - 1, pick);
      forall x ensures x in Collect(n, pick) <==> exists i: nat :: i < n && pick(i) == Some(x) {
        if x in Collect(n, pick) {
          if x in Collect(n - 1, pick) {
            var i: nat :| i < n - 1 && pick(i) == Some(x);
            assert i < n;
          } else {
            assert pick(n - 1) == Some(x);
          }
        }
        if i: nat :| i < n && pick(i) == Some(x) {
          if i < n - 1 {
            assert x in Collect(n - 1, pick);
          }
        }
      }
    }
  }

  predicate Distinct<T(==)>(ss: seq<T>) {
    forall i, j :: 0 <= i < j < |ss| ==> ss[i] != ss[j]
  }

  /** A query whose rows all differ returns nothing twice. */
  lemma {:induction false} CollectIsDistinct<T>(n: nat, pick: nat -> Option<T>)
    requires forall i: nat, j: nat :: i < j < n && pick(i).Some? ==> pick(i) != pick(j)
    ensures Distinct(Collect(n, pick))
  {
    if n > 0 {
      CollectIsDistinct(n - 1, pick);
      if pick(n - 1).Some? {
        NotYetCollected(n - 1, pick, pick(n - 1).value);
      }
    }
  }

  lemma NotYetCollected<T>(n: nat, pick: nat -> Option<T>, x: T)
    requires forall i: nat :: i < n ==> pick(i) != Some(x)
    ensures x !in Collect(n, pick)
  {
    CollectMembers(n, pick);
  }

  /** If every row that `narrow` selects is selected by `wide`, then `narrow` returns no
      more rows, and it returns as many only when it selects every row `wide` does. */
  lemma {:induction false} CollectNarrower<T, U>(n: nat, narrow: nat -> Option<T>, wide: nat -> Option<U>)
    requires forall i: nat :: i < n && narrow(i).Some? ==> wide(i).Some?
    ensures |Collect(n, narrow)| <= |Collect(n, wide)|
    ensures |Collect(n, narrow)| == |Collect(n, wide)| ==>
              forall i: nat :: i < n && wide(i).Some? ==> narrow(i).Some?
  {
    if n > 0 {
      CollectNarrower(n - 1, narrow, wide);
    }
  }
}
