/** The shape of every server answer: `successResponse` (status 200 with a
    message and data), `errorResponse` (a status, an error text and an
    optional code), or an exception that escapes the handler. */
module Http {
  import opened Common

  datatype Reply<T> =
    | Ok(message: string, data: T)
    | Err(status: int, error: Option<string>, code: Option<string>)
    | Crash(message: string)

  /** `Number(q) || fallback` for a query value that is absent, not a number
      (both None) or an integer. */
  function QueryNumber(q: Option<int>, fallback: int): (n: int)
    ensures TruthyNum(q) ==> n == q.value
    ensures !TruthyNum(q) ==> n == fallback
  {
    if TruthyNum(q) then q.value else fallback
  }

  /** What a service call ends in: a value, or an exception it throws. */
  datatype Outcome<T> = Returned(value: T) | Threw(message: string)

  /** The store refuses a query with a negative limit or offset. */
  const NEGATIVE_WINDOW := "negative limit or offset"

  /** How many of `n` rows a window at `offset` of `limit` rows holds: none
      past the end, `limit` when they all fit, otherwise the rest. */
  function PageLength(n: nat, offset: nat, limit: nat): (k: nat)
    ensures k <= limit && (k == 0 || offset + k <= n)
  {
    if offset >= n then 0 else if offset + limit <= n then limit else n - offset
  }

  /** `limit` rows from `offset` on, fewer at the end. */
  function Window<T>(rows: seq<T>, offset: nat, limit: nat): (w: seq<T>)
    ensures |w| <= limit
    ensures |w| == PageLength(|rows|, offset, limit)
    ensures forall i :: 0 <= i < |w| ==> offset + i < |rows| && w[i] == rows[offset + i]
  {
    if offset >= |rows| then []
    else if offset + limit >= |rows| then rows[offset..]
    else rows[offset..offset + limit]
  }

  /** A window of the reversed sequence takes its elements from the sequence,
      and in decreasing order when the sequence increases. */
  lemma WindowOfReverse<T>(s: seq<T>, offset: nat, limit: nat, key: T -> int)
    requires Increasing(s, key)
    ensures var w := Window(Reverse(s), offset, limit);
      && |w| == PageLength(|s|, offset, limit)
      && (forall i :: 0 <= i < |w| ==> offset + i < |s| && w[i] == s[|s| - 1 - (offset + i)])
      && (forall i :: 0 <= i < |w| ==> w[i] in s)
      && (forall i, j :: 0 <= i < j < |w| ==> key(w[i]) > key(w[j]))
  {
    var w := Window(Reverse(s), offset, limit);
    forall i | 0 <= i < |w| ensures w[i] == s[|s| - 1 - (offset + i)] {
    }
  }
}
