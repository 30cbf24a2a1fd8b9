/**
 * What the form layouts tell their parent page while a write is under way. Each form
 * receives callbacks `onLoading`, `onError`, and one success callback (`onEdited` or
 * `onSubmited`), plus `onCancel`; a form's observable behaviour is the sequence of those
 * calls, interleaved with the writes it hands to the data layer and its own form resets.
 * That sequence is recorded as a trace of `Event`s.
 */
module Mutation {

  /** The mutation kinds a notification slot is keyed by (`"add" | "edit" | "delete"`). */
  datatype Kind = Add | Edit | Delete

  /** How an asynchronous write settles: resolved, or rejected with an error's `message`. */
  datatype Outcome = Succeeded | Failed(message: string)

  /** One observable step of a form; `R` is the form's write request. */
  datatype Event<R> =
    | Loading(kind: Kind, title: string)                  // onLoading(kind, title)
    | Write(request: R)                                   // the write handed to the data layer
    | FormReset                                           // reset(defaultValues, ...)
    | Edited                                              // onEdited()
    | Submitted(kind: Kind, title: string)                // onSubmited(kind, title)
    | Error(kind: Kind, title: string, message: string)   // onError(kind, title, message)
    | Cancelled                                           // onCancel()

  /** A success or error callback: the events that settle a write. */
  predicate Settles<R>(e: Event<R>)
  {
    e.Edited? || e.Submitted? || e.Error?
  }

  /**
   * The lifecycle shared by every submit: `onLoading`, then the write, then either the
   * success steps (when the write resolves) or one `onError` carrying the error message.
   */
  function Lifecycle<R>(kind: Kind, loadingTitle: string, request: R, onSuccess: seq<Event<R>>,
                        errorTitle: string, outcome: Outcome): seq<Event<R>>
  {
    [Loading(kind, loadingTitle), Write(request)]
      + (if outcome.Succeeded? then onSuccess else [Error(kind, errorTitle, outcome.message)])
  }

  /** Some event of `t` is an `onError` call. */
  predicate HasError<R>(t: seq<Event<R>>)
  {
    exists i :: 0 <= i < |t| && t[i].Error?
  }

  /** How many events of `t` settle a write. */
  function SettleCount<R>(t: seq<Event<R>>): nat
  {
    if t == [] then 0 else (if Settles(t[0]) then 1 else 0) + SettleCount(t[1..])
  }

  /** Settling events of a concatenation are those of its two parts. */
  lemma {:induction false} SettleCountAppend<R>(a: seq<Event<R>>, b: seq<Event<R>>)
    ensures SettleCount(a + b) == SettleCount(a) + SettleCount(b)
  {
    if a == [] {
      assert a + b == b;
    } else {
      assert (a + b)[0] == a[0];
      assert (a + b)[1..] == a[1..] + b;
      SettleCountAppend(a[1..], b);
    }
  }

  /**
   * Whatever the outcome, the lifecycle announces loading first and issues the write
   * second, exactly once each; when the success steps settle once and contain no loading,
   * write or error, the lifecycle settles exactly once, with an error iff the write failed.
   */
  lemma LifecycleOrder<R>(kind: Kind, loadingTitle: string, request: R, onSuccess: seq<Event<R>>,
                          errorTitle: string, outcome: Outcome)
    requires forall e :: e in onSuccess ==> !e.Loading? && !e.Write? && !e.Error?
    requires SettleCount(onSuccess) == 1
    ensures var t := Lifecycle(kind, loadingTitle, request, onSuccess, errorTitle, outcome);
      && t[0] == Loading(kind, loadingTitle)
      && t[1] == Write(request)
      && (forall i :: 1 <= i < |t| ==> !t[i].Loading?)
      && (forall i :: 2 <= i < |t| ==> !t[i].Write?)
      && SettleCount(t) == 1
      && (HasError(t) <==> outcome.Failed?)
  {
    var t := Lifecycle(kind, loadingTitle, request, onSuccess, errorTitle, outcome);
    var head: seq<Event<R>> := [Loading(kind, loadingTitle), Write(request)];
    var tail := if outcome.Succeeded? then onSuccess else [Error(kind, errorTitle, outcome.message)];
    assert t == head + tail;
    forall i | 2 <= i < |t| ensures t[i] == tail[i - 2] && t[i] in tail { }
    SettleCountAppend(head, tail);
    assert SettleCount(head) == 0 by {
      assert head[1..] == [Write(request)];
      assert head[1..][1..] == [];
    }
    if outcome.Failed? {
      assert t[2].Error?;
      assert tail[1..] == [];
    }
  }
}
