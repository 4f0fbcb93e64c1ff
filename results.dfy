/** Outcome types shared by the model: the exceptions of the original become
    values. */
module Results {

  /** A value that may be absent: a `fetchone` that found no row, say. */
  datatype Option<+T> = None | Some(value: T)

  /** Either a validated value or the message of the `ValueError` that
      rejected it. */
  datatype Result<+T> = Success(value: T) | Failure(error: string) {

    predicate IsFailure() {
      Failure?
    }

    function PropagateFailure<U>(): Result<U>
      requires Failure?
    {
      Failure(error)
    }

    function Extract(): T
      requires Success?
    {
      value
    }
  }

  /** The message of a failed result, if any. */
  function ErrorOf<T>(r: Result<T>): (e: Option<string>)
    ensures e.None? <==> r.Success?
    ensures r.Failure? ==> e == Some(r.error)
  {
    match r
    case Success(_) => None
    case Failure(msg) => Some(msg)
  }

  /** The first message present in `errors`, scanning left to right: the
      error that an ordered series of checks reports. */
  function FirstError(errors: seq<Option<string>>): (e: Option<string>)
    ensures e.None? <==> forall i :: 0 <= i < |errors| ==> errors[i].None?
    ensures e.Some? ==> exists i :: 0 <= i < |errors| && errors[i] == e
                          && forall j :: 0 <= j < i ==> errors[j].None?
  {
    if errors == [] then None
    else if errors[0].Some? then errors[0]
    else
      var rest := FirstError(errors[1..]);
      assert rest.Some? ==> exists i :: 1 <= i < |errors| && errors[i] == rest
                              && forall j :: 0 <= j < i ==> errors[j].None? by {
        if rest.Some? {
          var k :| 0 <= k < |errors| - 1 && errors[1..][k] == rest
                   && forall j :: 0 <= j < k ==> errors[1..][j].None?;
          assert errors[k + 1] == rest;
          assert forall j :: 0 <= j < k + 1 ==> errors[j].None? by {
            forall j | 0 <= j < k + 1 ensures errors[j].None? {
              if j > 0 { assert errors[j] == errors[1..][j - 1]; }
            }
          }
        }
      }
      rest
  }

  /** The first message is the one at the first index holding a message. */
  lemma FirstErrorAt(errors: seq<Option<string>>, k: nat)
    requires k < |errors| && errors[k].Some?
    requires forall j :: 0 <= j < k ==> errors[j].None?
    ensures FirstError(errors) == errors[k]
  {
  }

  /** A list comprehension whose element constructor may raise: the first
      failing element's error aborts it, otherwise every element is mapped,
      in order. */
  function MapAll<S, T>(xs: seq<S>, f: S -> Result<T>): (r: Result<seq<T>>)
    ensures r.Success? <==> forall i :: 0 <= i < |xs| ==> f(xs[i]).Success?
    ensures r.Success? ==> |r.value| == |xs|
                           && forall i :: 0 <= i < |xs| ==> f(xs[i]) == Success(r.value[i])
    ensures r.Failure? ==> exists i :: 0 <= i < |xs| && f(xs[i]) == Failure(r.error)
                             && forall j :: 0 <= j < i ==> f(xs[j]).Success?
  {
    if xs == [] then Success([])
    else
      match f(xs[0])
      case Failure(e) => Failure(e)
      case Success(y) =>
        var rest := MapAll(xs[1..], f);
        if rest.Failure? then
          assert exists i :: 0 <= i < |xs| && f(xs[i]) == Failure(rest.error)
                   && forall j :: 0 <= j < i ==> f(xs[j]).Success? by {
            var k :| 0 <= k < |xs| - 1 && f(xs[1..][k]) == Failure(rest.error)
                     && forall j :: 0 <= j < k ==> f(xs[1..][j]).Success?;
            assert f(xs[k + 1]) == Failure(rest.error);
            forall j | 0 <= j < k + 1 ensures f(xs[j]).Success? {
              if j > 0 { assert xs[j] == xs[1..][j - 1]; }
            }
          }
          Failure(rest.error)
        else
          Success([y] + rest.value)
  }

  /** Mapping one more element at the end: the mapped list grows by its
      image when everything succeeds; an earlier failure keeps its error;
      otherwise the new element's error is the result. */
  lemma {:induction false} MapAllAppend<S, T>(xs: seq<S>, x: S, f: S -> Result<T>)
    ensures MapAll(xs, f).Failure? ==> MapAll(xs + [x], f) == MapAll(xs, f)
    ensures MapAll(xs, f).Success? ==>
              MapAll(xs + [x], f) == match f(x)
                                     case Success(y) => Success(MapAll(xs, f).value + [y])
                                     case Failure(e) => Failure(e)
  {
    var all := xs + [x];
    var r := MapAll(all, f);
    var before := MapAll(xs, f);
    assert forall i :: 0 <= i < |xs| ==> all[i] == xs[i];
    assert all[|xs|] == x;
    if before.Failure? {
      var k :| 0 <= k < |xs| && f(xs[k]) == Failure(before.error)
               && forall j :: 0 <= j < k ==> f(xs[j]).Success?;
      assert r.Failure?;
      var m :| 0 <= m < |all| && f(all[m]) == Failure(r.error)
               && forall j :: 0 <= j < m ==> f(all[j]).Success?;
      assert m == k;
    } else if f(x).Success? {
      var expected := before.value + [f(x).value];
      assert forall i :: 0 <= i < |all| ==> f(all[i]) == Success(expected[i]);
      assert r.value == expected;
    } else {
      var m :| 0 <= m < |all| && f(all[m]) == Failure(r.error)
               && forall j :: 0 <= j < m ==> f(all[j]).Success?;
      assert m == |xs|;
    }
  }
}
