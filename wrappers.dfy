// Outcome types shared by every module of the model.  A Python exception
// raised by the calibration code becomes `Err` with the exception's kind; a
// numpy computation whose value is not a finite real (a division by zero or
// the median of an empty array, which numpy turns into inf or nan) becomes
// `Err(NonFinite)`.

module Wrappers {

  datatype Option<T> = None | Some(value: T)

  datatype Error =
    | ValueError(msg: string)
    | KeyError
    | IndexError
    | TypeError
    | AssertionError
    | NotImplemented
    | AttributeError
    | NonFinite

  datatype Result<T> = Ok(value: T) | Err(error: Error)
  {
    predicate IsFailure() { Err? }

    function PropagateFailure<U>(): Result<U>
      requires Err?
    {
      Err(error)
    }

    function Extract(): T
      requires Ok?
    {
      value
    }
  }

  /**
   * A loop that applies a step to each element in turn, appending what it
   * yields to acc, and stops at the first step that raises.
   */
  function Collect<A, B>(step: A -> Result<B>, xs: seq<A>, acc: seq<B>): Result<seq<B>>
    decreases |xs|
  {
    if |xs| == 0 then Ok(acc)
    else match step(xs[0])
      case Err(e) => Err(e)
      case Ok(y) => Collect(step, xs[1..], acc + [y])
  }

  /**
   * The loop succeeds exactly when every step does, and then appends one
   * result per element, in order; otherwise its error is that of the first
   * failing step.
   */
  lemma {:induction false} CollectMeaning<A, B>(step: A -> Result<B>, xs: seq<A>, acc: seq<B>)
    ensures Collect(step, xs, acc).Ok? <==> forall k :: 0 <= k < |xs| ==> step(xs[k]).Ok?
    ensures Collect(step, xs, acc).Ok? ==>
      var r := Collect(step, xs, acc).value;
      |r| == |acc| + |xs| && r[..|acc|] == acc && forall k :: 0 <= k < |xs| ==> r[|acc| + k] == step(xs[k]).value
    ensures Collect(step, xs, acc).Err? ==>
      exists k :: 0 <= k < |xs| && step(xs[k]) == Err(Collect(step, xs, acc).error) &&
        forall j :: 0 <= j < k ==> step(xs[j]).Ok?
  {
    if |xs| > 0 {
      assert forall k :: 0 <= k < |xs[1..]| ==> xs[1..][k] == xs[k + 1];
      if step(xs[0]).Ok? {
        var acc' := acc + [step(xs[0]).value];
        CollectMeaning(step, xs[1..], acc');
        if Collect(step, xs, acc).Ok? {
          var r := Collect(step, xs, acc).value;
          assert r[..|acc'|] == acc';
          assert r[..|acc|] == acc'[..|acc|];
          forall k | 0 <= k < |xs| ensures r[|acc| + k] == step(xs[k]).value {
            if k == 0 {
              assert r[|acc|] == acc'[|acc|];
            } else {
              assert r[|acc'| + (k - 1)] == step(xs[1..][k - 1]).value;
            }
          }
        }
        if Collect(step, xs, acc).Err? {
          var k :| 0 <= k < |xs[1..]| && step(xs[1..][k]) == Err(Collect(step, xs, acc).error) &&
            forall j :: 0 <= j < k ==> step(xs[1..][j]).Ok?;
          assert step(xs[k + 1]) == Err(Collect(step, xs, acc).error);
          assert forall j :: 0 <= j < k + 1 ==> step(xs[j]).Ok? by {
            forall j | 0 <= j < k + 1 ensures step(xs[j]).Ok? {
              if j > 0 {
                assert step(xs[1..][j - 1]).Ok?;
              }
            }
          }
        }
      }
    }
  }

  /** The loop from an empty accumulator: one result per element, exactly when every step succeeds. */
  lemma CollectAll<A, B>(step: A -> Result<B>, xs: seq<A>)
    ensures Collect(step, xs, []).Ok? <==> forall k :: 0 <= k < |xs| ==> step(xs[k]).Ok?
    ensures Collect(step, xs, []).Ok? ==>
      var r := Collect(step, xs, []).value;
      |r| == |xs| && forall k :: 0 <= k < |xs| ==> r[k] == step(xs[k]).value
  {
    var none: seq<B> := [];
    CollectMeaning(step, xs, none);
    var c := Collect(step, xs, none);
    if c.Ok? {
      forall k | 0 <= k < |xs| ensures c.value[k] == step(xs[k]).value {
        assert c.value[|none| + k] == step(xs[k]).value;
      }
    }
  }

  /** Collecting one more element extends the loop: the step form a method's loop invariant uses. */
  lemma CollectStep<A, B>(step: A -> Result<B>, xs: seq<A>, i: nat, acc: seq<B>)
    requires i < |xs|
    ensures Collect(step, xs[i..], acc) ==
      if step(xs[i]).Err? then Err(step(xs[i]).error) else Collect(step, xs[i + 1..], acc + [step(xs[i]).value])
  {
    assert xs[i..][1..] == xs[i + 1..];
  }
}
