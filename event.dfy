/** A one-shot wrapper: its content is consumed once and can be peeked at forever
    (other/Event.kt). */
module Events {
  import opened Wrappers

  /** What one `getContentIfNotHandled` call does, from the flag it finds: the new flag
      and the returned value. */
  function ConsumeStep<T>(handled: bool, data: T): (r: (bool, Option<T>))
    ensures r.0
    ensures r.1 == Some(data) <==> !handled
    ensures r.1 == None <==> handled
  {
    if handled then (true, None) else (true, Some(data))
  }

  /** The values returned by `n` consecutive `getContentIfNotHandled` calls starting from the flag `handled`. */
  function ConsumeRun<T>(handled: bool, data: T, n: nat): (r: seq<Option<T>>)
    ensures |r| == n
    decreases n
  {
    if n == 0 then [] else [ConsumeStep(handled, data).1] + ConsumeRun(ConsumeStep(handled, data).0, data, n - 1)
  }

  /** Consume once: on an unhandled event, the first of any number of calls returns the data
      and every later call returns null; on a handled event every call returns null. */
  lemma {:induction false} ConsumedAtMostOnce<T>(handled: bool, data: T, n: nat)
    ensures forall i :: 0 <= i < n ==>
      ConsumeRun(handled, data, n)[i] == (if i == 0 && !handled then Some(data) else None)
    decreases n
  {
    if n > 0 {
      ConsumedAtMostOnce(true, data, n - 1);
    }
  }

  class Event<T> {
    /** The wrapped content; private and immutable in the source. */
    const data: T
    /** Whether the content has been handed out; only this class sets it, and only to true. */
    var hasBeenHandles: bool

    /** A fresh event has not been handled. */
    constructor (data: T)
      ensures this.data == data && !hasBeenHandles
    {
      this.data := data;
      hasBeenHandles := false;
    }

    /** Returns the content the first time and null ever after; the flag only ever becomes true. */
    method GetContentIfNotHandled() returns (r: Option<T>)
      modifies this
      ensures (hasBeenHandles, r) == ConsumeStep(old(hasBeenHandles), data)
      ensures old(hasBeenHandles) ==> r == None && hasBeenHandles
    {
      if hasBeenHandles {
        r := None;
      } else {
        hasBeenHandles := true;
        r := Some(data);
      }
    }

    /** Returns the content whether or not it was handled, and changes nothing. */
    method PeekContent() returns (r: T)
      ensures r == data
    {
      r := data;
    }
  }
}
