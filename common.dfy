/** Types shared by every part of the model: optional values, the outcome of one
    call to the text-generation service, and the oracle that supplies outcomes. */
module Common {

  datatype Option<T> = None | Some(value: T)

  /** What one `generate_content` call produces: the response text, or the
      message of the exception it raised (`str(e)`). */
  datatype Outcome = Ok(text: string) | Err(message: string)

  /** The generation backend as an input: the k-th call of a run (counting from 0)
      returns `oracle(k)`. Every behaviour of the service is one such function. */
  type Oracle = nat -> Outcome

  /** True when calls `from` .. `from + n - 1` all raised. */
  predicate AllFailed(oracle: Oracle, from: nat, n: nat)
  {
    n == 0 || (AllFailed(oracle, from, n - 1) && oracle(from + n - 1).Err?)
  }

  /** Each of calls `from` .. `from + n - 1` raised. */
  lemma {:induction false} AllFailedAt(oracle: Oracle, from: nat, n: nat, k: nat)
    requires AllFailed(oracle, from, n) && k < n
    ensures oracle(from + k).Err?
    decreases n
  {
    if k < n - 1 {
      AllFailedAt(oracle, from, n - 1, k);
    }
  }

  /** The position, counted from `from`, of the first of calls `from` ..
      `from + n - 1` that succeeds; None when they all raise. */
  function FirstOk(oracle: Oracle, from: nat, n: nat): (r: Option<nat>)
    ensures r.Some? ==> r.value < n && oracle(from + r.value).Ok? && AllFailed(oracle, from, r.value)
    ensures r.None? <==> AllFailed(oracle, from, n)
  {
    if n == 0 then None
    else
      var earlier := FirstOk(oracle, from, n - 1);
      if earlier.Some? then earlier
      else if oracle(from + n - 1).Ok? then Some(n - 1)
      else None
  }

  /** A call that succeeds after calls that all raised is the first success. */
  lemma {:induction false} FirstOkAt(oracle: Oracle, from: nat, n: nat, k: nat)
    requires k < n && oracle(from + k).Ok? && AllFailed(oracle, from, k)
    ensures FirstOk(oracle, from, n) == Some(k)
  {
    if n > k + 1 {
      FirstOkAt(oracle, from, n - 1, k);
    }
  }
}
