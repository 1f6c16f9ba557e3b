/** The `collecter` package: one `Get` per stream, run concurrently under an
    errgroup, gathered into a slice in stream order. The goroutines become a
    loop that handles the streams in the order their `Get` calls completed;
    that order, and the select case each `Get` took, are inputs. */
module Collecter {
  import opened Wrappers
  import opened Errors
  import opened Ticker
  import opened Stream

  /** `order` is a completion order of `n` goroutines: it lists every index
      below `n`, and nothing else, in the order the calls returned. */
  predicate IsCompletionOrder(order: seq<nat>, n: nat) {
    && |order| == n
    && (forall j | 0 <= j < |order| :: order[j] < n)
    && (forall i | 0 <= i < n :: i in order)
  }

  /** The error an errgroup's Wait reports: the first non-nil error among
      the replies, taken in the order they were returned. */
  function FirstErr(replies: seq<Reply>): Option<Error>
    decreases |replies|
  {
    if replies == [] then None
    else if FirstErr(replies[..|replies| - 1]).Some? then FirstErr(replies[..|replies| - 1])
    else replies[|replies| - 1].err
  }

  /** FirstErr is nil exactly when every reply succeeded, and otherwise it is
      the error of a reply that no earlier reply's error precedes. */
  lemma {:induction false} FirstErrIsFirstFailure(replies: seq<Reply>)
    ensures FirstErr(replies).None? <==> forall j | 0 <= j < |replies| :: replies[j].err.None?
    ensures FirstErr(replies).Some? ==>
      exists j | 0 <= j < |replies| ::
        replies[j].err == FirstErr(replies) && forall k | 0 <= k < j :: replies[k].err.None?
    decreases |replies|
  {
    if replies != [] {
      var init := replies[..|replies| - 1];
      FirstErrIsFirstFailure(init);
      if FirstErr(init).Some? {
        var j :| 0 <= j < |init| && init[j].err == FirstErr(init) && forall k | 0 <= k < j :: init[k].err.None?;
        assert replies[j] == init[j];
      } else {
        assert forall k | 0 <= k < |init| :: replies[k] == init[k];
      }
    }
  }

  /** Unwraps a slice of non-nil pointers. */
  function Values(s: seq<Option<Price>>): (r: seq<Price>)
    requires forall i | 0 <= i < |s| :: s[i].Some?
    ensures |r| == |s| && forall i | 0 <= i < |s| :: s[i] == Some(r[i])
  {
    seq(|s|, i requires 0 <= i < |s| => s[i].value)
  }

  /** A collecter over an ordered list of streams. */
  datatype StreamCollecter = StreamCollecter(streams: seq<ChanStream>) {

    /** The replies of the streams, in the order their calls completed. */
    function InOrder(ready: seq<Ready>, order: seq<nat>): (r: seq<Reply>)
      requires |ready| == |streams|
      requires forall j | 0 <= j < |order| :: order[j] < |streams|
      ensures |r| == |order|
      ensures forall j | 0 <= j < |order| :: r[j] == streams[order[j]].Get(ready[order[j]])
    {
      seq(|order|, j requires 0 <= j < |order| => streams[order[j]].Get(ready[order[j]]))
    }

    /** Gathers one price per stream. On success slot i holds exactly what
        stream i returned, whatever the completion order, and the slice has
        one slot per stream; if any stream fails the slice is nil and the
        error is the one the first failing call (in completion order)
        returned. `ready[i]` is the select case stream i's `Get` took. */
    method Collect(ready: seq<Ready>, order: seq<nat>) returns (prices: Option<seq<Price>>, err: Option<Error>)
      requires |ready| == |streams|
      requires IsCompletionOrder(order, |streams|)
      ensures prices.Some? != err.Some?
      ensures err.None? <==> forall i | 0 <= i < |streams| :: streams[i].Get(ready[i]).err.None?
      ensures prices.Some? ==>
        && |prices.value| == |streams|
        && forall i | 0 <= i < |streams| :: streams[i].Get(ready[i]).price == Some(prices.value[i])
      ensures err.Some? ==>
        exists j | 0 <= j < |order| ::
          && streams[order[j]].Get(ready[order[j]]).err == err
          && forall k | 0 <= k < j :: streams[order[k]].Get(ready[order[k]]).err.None?
    {
      var slots := new Option<Price>[|streams|](_ => None);
      ghost var replies := InOrder(ready, order);
      var first: Option<Error> := None;
      var j := 0;
      while j < |order|
        invariant 0 <= j <= |order|
        invariant first == FirstErr(replies[..j])
        invariant forall k | 0 <= k < j && replies[k].err.None? :: slots[order[k]] == replies[k].price
      {
        var i := order[j];
        var reply := streams[i].Get(ready[i]);
        if reply.err.Some? {
          if first.None? {
            first := reply.err;
          }
        } else {
          slots[i] := reply.price;
        }
        assert replies[..j + 1][..j] == replies[..j];
        j := j + 1;
      }
      assert replies[..j] == replies;
      FirstErrIsFirstFailure(replies);
      if first.Some? {
        prices, err := None, first;
        return;
      }
      forall i | 0 <= i < |streams|
        ensures slots[i] == streams[i].Get(ready[i]).price && slots[i].Some?
      {
        assert i in order;
        var k :| 0 <= k < |order| && order[k] == i;
        assert replies[k].err.None?;
      }
      prices, err := Some(Values(slots[..])), None;
    }
  }

  /** Keeps the given streams, in the given order. */
  function NewStreamCollecter(streams: seq<ChanStream>): (c: StreamCollecter)
    ensures c.streams == streams
  {
    StreamCollecter(streams)
  }
}
