/**
 * A full-table scan as a sequence of replies to successive `scan` calls: the
 * k-th call (the first without a start key, each later one with the previous
 * page's `LastEvaluatedKey`) receives `replies[k]`, a page or a failure.
 * How the store sizes pages and which records each holds is its own affair.
 */
module Scan {
  import opened Wrappers
  import opened Store

  /** One page of a scan: its `Items` and, when more remain, its `LastEvaluatedKey`. */
  datatype Page = Page(items: seq<Item>, lastEvaluatedKey: Option<Item>)

  type ScanReply = Result<Page, StoreError>

  /** A reply after which the handler makes no further scan call. */
  predicate Ends(reply: ScanReply) {
    reply.Failure? || reply.value.lastEvaluatedKey.None?
  }

  /** Some reply ends the scan, so the handler's loop stops. */
  predicate Terminates(replies: seq<ScanReply>)
    decreases |replies|
  {
    |replies| > 0 && (Ends(replies[0]) || Terminates(replies[1..]))
  }

  /** How many scan calls the handler makes. */
  function ScanCalls(replies: seq<ScanReply>): (n: nat)
    requires Terminates(replies)
    ensures 1 <= n <= |replies|
    decreases |replies|
  {
    if Ends(replies[0]) then 1 else 1 + ScanCalls(replies[1..])
  }

  /** Prefix a successful result with `items`; a failure stays that failure. */
  function Prepend(items: seq<Item>, r: Result<seq<Item>, StoreError>): Result<seq<Item>, StoreError> {
    match r
    case Ok(rest) => Ok(items + rest)
    case Failure(e) => Failure(e)
  }

  /** What the scan yields as a whole: every page's records in order, or the failure that stopped it. */
  function ScanAll(replies: seq<ScanReply>): Result<seq<Item>, StoreError>
    requires Terminates(replies)
    decreases |replies|
  {
    match replies[0]
    case Failure(e) => Failure(e)
    case Ok(page) =>
      if page.lastEvaluatedKey.None? then Ok(page.items)
      else Prepend(page.items, ScanAll(replies[1..]))
  }

  /** The records of the successful replies, concatenated in order. */
  function Concat(replies: seq<ScanReply>): seq<Item> {
    if |replies| == 0 then []
    else (if replies[0].Ok? then replies[0].value.items else []) + Concat(replies[1..])
  }

  /** The number of replies that are pages carrying a `LastEvaluatedKey`. */
  function KeyedPages(replies: seq<ScanReply>): nat {
    if |replies| == 0 then 0
    else (if replies[0].Ok? && replies[0].value.lastEvaluatedKey.Some? then 1 else 0) + KeyedPages(replies[1..])
  }

  lemma {:induction false} ConcatAppend(replies: seq<ScanReply>, reply: ScanReply)
    ensures Concat(replies + [reply]) == Concat(replies) + (if reply.Ok? then reply.value.items else [])
  {
    if |replies| > 0 {
      assert (replies + [reply])[1..] == replies[1..] + [reply];
      ConcatAppend(replies[1..], reply);
    } else {
      assert replies + [reply] == [reply];
    }
  }

  /**
   * The handler makes one call for the first reply and one more for every page
   * that carried a `LastEvaluatedKey`: the calls stop at the first reply that
   * ends the scan, and every earlier reply is a page with a continuation key.
   */
  lemma {:induction false} ScanCallsStopAtFirstEnd(replies: seq<ScanReply>)
    requires Terminates(replies)
    ensures Ends(replies[ScanCalls(replies) - 1])
    ensures forall j :: 0 <= j < ScanCalls(replies) - 1 ==> !Ends(replies[j])
    ensures ScanCalls(replies) == 1 + KeyedPages(replies[..ScanCalls(replies)])
  {
    var n := ScanCalls(replies);
    if Ends(replies[0]) {
      assert replies[..1][1..] == [];
    } else {
      var tail := replies[1..];
      ScanCallsStopAtFirstEnd(tail);
      assert n == 1 + ScanCalls(tail);
      forall j | 0 <= j < n - 1
        ensures !Ends(replies[j])
      {
        if j > 0 {
          assert replies[j] == tail[j - 1];
        }
      }
      assert replies[..n][1..] == tail[..n - 1];
    }
  }

  /**
   * The scan's result is the concatenation, in order, of the records of the
   * pages up to the one that ends it, unless that last reply is a failure, in
   * which case the scan fails with that error.
   */
  lemma {:induction false} ScanAllIsConcatenation(replies: seq<ScanReply>)
    requires Terminates(replies)
    ensures var n := ScanCalls(replies);
      ScanAll(replies) == if replies[n - 1].Failure? then Failure(replies[n - 1].error) else Ok(Concat(replies[..n]))
  {
    ScanCallsStopAtFirstEnd(replies);
    var n := ScanCalls(replies);
    if Ends(replies[0]) {
      assert n == 1;
      assert replies[..1][1..] == [];
      assert Concat(replies[..1]) == if replies[0].Ok? then replies[0].value.items else [];
    } else {
      var tail := replies[1..];
      ScanAllIsConcatenation(tail);
      assert n == 1 + ScanCalls(tail);
      assert replies[n - 1] == tail[n - 2];
      assert replies[..n][1..] == tail[..n - 1];
    }
  }
}
