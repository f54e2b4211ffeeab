/**
 * What the three webhook notifiers share: how Python binds the positional
 * arguments of a call to the notifier's parameters, how the envelope's
 * pydantic model turns the field dictionary into the JSON body it posts,
 * and what a notifier call can come to.
 */
module Webhook {
  import opened Common

  /**
   * A function's parameters in order, named by a key type of the caller's
   * choosing; the first `required` have no default, the rest default to None.
   */
  datatype Signature<K> = Signature(params: seq<K>, required: nat)

  predicate WellFormed<K(==)>(sig: Signature<K>)
  {
    && sig.required <= |sig.params|
    && forall i, j :: 0 <= i < j < |sig.params| ==> sig.params[i] != sig.params[j]
  }

  /**
   * Calling a function with positional arguments: too few or too many raise
   * TypeError before the body runs (for an `async def` as well, at the call);
   * otherwise parameter i takes argument i, and None where none is given.
   */
  function Bind<K(==)>(sig: Signature<K>, args: seq<PyValue>): (r: Result<map<K, PyValue>>)
    requires WellFormed(sig)
    ensures r.Failure? ==> r.error == TypeError
    ensures r.Success? <==> sig.required <= |args| <= |sig.params|
    ensures r.Success? ==> r.value.Keys == set i | 0 <= i < |sig.params| :: sig.params[i]
    ensures r.Success? ==> forall i :: 0 <= i < |args| ==> r.value[sig.params[i]] == args[i]
    ensures r.Success? ==> forall i :: |args| <= i < |sig.params| ==> r.value[sig.params[i]] == PyNone
  {
    if |args| < sig.required || |args| > |sig.params| then Failure(TypeError)
    else Success(map i | 0 <= i < |sig.params| :: sig.params[i] := if i < |args| then args[i] else PyNone)
  }

  /**
   * `Model(**fields).__dict__`: every field the model declares, with the
   * value the dictionary gives it or the model's default.
   */
  function Dump<K(==)>(model: map<K, PyValue>, fields: map<K, PyValue>): map<K, PyValue>
  {
    map k | k in model :: if k in fields then fields[k] else model[k]
  }

  /** A model dump holds every declared field, and a given field's value. */
  lemma DumpFields<K>(model: map<K, PyValue>, fields: map<K, PyValue>, k: K)
    requires fields.Keys <= model.Keys
    ensures Dump(model, fields).Keys == model.Keys
    ensures k in fields ==> Dump(model, fields)[k] == fields[k]
    ensures k in model && k !in fields ==> Dump(model, fields)[k] == model[k]
  {
  }

  /** A JSON body handed to the HTTP client for one URL; K names the body's keys. */
  datatype Post<K> = Post(url: string, body: map<K, PyValue>)

  /**
   * What one notifier call comes to: the call itself raised (its arguments do
   * not fit the signature), the body raised and swallowed the exception
   * before posting, or the envelope was posted. The answer of the webhook
   * receiver is only logged, so a post that fails in transit is still Posted.
   */
  datatype Delivery<K> = CallRaised(error: PyError) | Swallowed | Posted(post: Post<K>)
}
