/**
 * `AggregateError` of the oldest generation: builds an error that keeps an
 * inner error and, when the inner error has a stack, appends it to the message.
 */
module AggregateErrors {

  datatype Option<T> = None | Some(value: T)

  /**
   * An error object: its message, the stack the runtime recorded (opaque;
   * an empty stack is falsy like a missing one) and an optional inner error.
   */
  datatype Error = Error(message: string, stack: Option<string>, innerError: Option<Error>)

  /** The dashed line between the outer message and the inner stack (48 dashes). */
  const Separator := "\n------------------------------------------------\n"

  const InnerPrefix := "inner error: "

  /** Whether `inner.stack` is truthy. */
  predicate HasStack(e: Error)
  {
    e.stack.Some? && e.stack.value != ""
  }

  /** Whether `inner.innerError && skipIfAlreadyAggregate` short-circuits. */
  predicate Skips(inner: Option<Error>, skipIfAlreadyAggregate: bool)
  {
    inner.Some? && inner.value.innerError.Some? && skipIfAlreadyAggregate
  }

  /**
   * `AggregateError(message, innerError, skipIfAlreadyAggregate)`. `freshStack`
   * is what the runtime records as the new error's stack.
   */
  function AggregateError(message: string, inner: Option<Error>, skipIfAlreadyAggregate: bool,
                          freshStack: Option<string>): (e: Error)
    ensures Skips(inner, skipIfAlreadyAggregate) ==> e == inner.value
    ensures !Skips(inner, skipIfAlreadyAggregate) ==>
              && e.innerError == inner
              && e.stack == freshStack
              && message <= e.message
              && (e.message == message <==> !(inner.Some? && HasStack(inner.value)))
    ensures !Skips(inner, skipIfAlreadyAggregate) && inner.Some? && HasStack(inner.value) ==>
              e.message[|message|..] == Separator + InnerPrefix + inner.value.stack.value
  {
    if inner.Some? && inner.value.innerError.Some? && skipIfAlreadyAggregate then
      inner.value
    else
      var msg := if inner.Some? && HasStack(inner.value)
                 then message + Separator + InnerPrefix + inner.value.stack.value
                 else message;
      Error(msg, freshStack, inner)
  }

  /** The result records an inner error exactly when one was given. */
  lemma InnerErrorIffGiven(message: string, inner: Option<Error>, skip: bool, freshStack: Option<string>)
    ensures var e := AggregateError(message, inner, skip, freshStack);
      e.innerError.Some? <==> inner.Some?
  {
  }

  /**
   * Aggregating an aggregate with `skipIfAlreadyAggregate` returns it unchanged,
   * so repeated wrapping with skip is idempotent.
   */
  lemma SkipIsIdempotent(m1: string, e: Error, skip1: bool, s1: Option<string>,
                         m2: string, s2: Option<string>)
    ensures var a := AggregateError(m1, Some(e), skip1, s1);
      AggregateError(m2, Some(a), true, s2) == a
  {
    var a := AggregateError(m1, Some(e), skip1, s1);
    assert a.innerError.Some?;
  }

  /** The outer message and the inner stack can be read back from the aggregate's message. */
  lemma MessageSplits(message: string, inner: Error, freshStack: Option<string>)
    requires HasStack(inner) && inner.innerError.None?
    ensures var e := AggregateError(message, Some(inner), true, freshStack);
      var n := |message|;
      var k := n + |Separator| + |InnerPrefix|;
      |e.message| == k + |inner.stack.value|
      && e.message[..n] == message
      && e.message[n..k] == Separator + InnerPrefix
      && e.message[k..] == inner.stack.value
  {
  }
}
