/** Sending a request with a fixed number of tries, `_send_with_fixed_retries`
    (wings_control/proxy/gateway.py).  What each send would do is given as a sequence of outcomes. */
module SendRetry {

  /** A response with its status, an exception worth retrying (connect error, connect timeout, pool
      timeout), another request error, or any other exception. */
  datatype Outcome = Response(status: int) | Retriable | OtherRequestError | OtherError

  datatype Result = Returned(send: nat, retryCount: nat) | BadGateway | Reraised(send: nat)

  predicate ShouldRetryStatus(stream: bool, status: int, attempt: nat, total: nat) {
    stream && status in {502, 503, 504} && attempt < total
  }

  function Total(tries: int): (n: nat)
    ensures n >= 1
  {
    if tries > 1 then tries else 1
  }

  /** A send that makes the loop go round again, if tries are left. */
  predicate WorthRetrying(stream: bool, o: Outcome) {
    o == Retriable || (stream && o.Response? && o.status in {502, 503, 504})
  }

  /** Index of the last send, starting from send `i`: the first outcome that is not worth retrying,
      or the last one allowed. */
  function LastSend(stream: bool, outcomes: seq<Outcome>, total: nat, i: nat): (n: nat)
    requires i < total <= |outcomes|
    ensures i <= n < total
    ensures forall j :: i <= j < n ==> WorthRetrying(stream, outcomes[j])
    ensures n < total - 1 ==> !WorthRetrying(stream, outcomes[n])
    decreases total - i
  {
    if i == total - 1 || !WorthRetrying(stream, outcomes[i]) then i
    else LastSend(stream, outcomes, total, i + 1)
  }

  function ResultOf(o: Outcome, n: nat): Result {
    match o
    case Response(_) => Returned(n, n)
    case OtherError => Reraised(n)
    case _ => BadGateway
  }

  /** For every sequence of outcomes the loop sends at least once and at most RETRY_TRIES times, goes on
      exactly while a send is worth retrying and tries are left, and leaves by returning the last
      response, which records one retry less than sends, or by raising for the last exception.  It has
      closed exactly the responses it received and did not return.  The code after the loop is never
      reached. */
  method SendWithFixedRetries(stream: bool, tries: int, outcomes: seq<Outcome>)
    returns (result: Result, sends: nat, closed: set<nat>)
    requires |outcomes| >= if tries > 1 then tries else 1
    ensures 1 <= sends <= if tries > 1 then tries else 1
    ensures forall i :: 0 <= i < sends - 1 ==>
              outcomes[i] == Retriable || (stream && outcomes[i].Response? && 502 <= outcomes[i].status <= 504)
    ensures (outcomes[sends - 1] == Retriable
             || (stream && outcomes[sends - 1].Response? && 502 <= outcomes[sends - 1].status <= 504))
            ==> sends == if tries > 1 then tries else 1
    ensures result == Returned(sends - 1, sends - 1) <==> outcomes[sends - 1].Response?
    ensures result == Reraised(sends - 1) <==> outcomes[sends - 1] == OtherError
    ensures result == BadGateway <==> outcomes[sends - 1] == Retriable || outcomes[sends - 1] == OtherRequestError
    ensures sends == LastSend(stream, outcomes, Total(tries), 0) + 1
    ensures result == ResultOf(outcomes[sends - 1], sends - 1)
    ensures forall i: nat ::
              i in closed <==> (i < sends && outcomes[i].Response? && !(result.Returned? && result.send == i))
  {
    var total := Total(tries);
    closed := {};
    sends := 0;
    var attempt := 1;
    while attempt <= total
      invariant 1 <= attempt <= total && sends == attempt - 1
      invariant LastSend(stream, outcomes, total, 0) == LastSend(stream, outcomes, total, sends)
      invariant forall i: nat :: i in closed <==> i < sends && outcomes[i].Response?
      decreases total - attempt
    {
      var o := outcomes[sends];
      sends := sends + 1;
      if o.Response? {
        if !ShouldRetryStatus(stream, o.status, attempt, total) {
          result := Returned(sends - 1, attempt - 1);
          return;
        }
        closed := closed + {sends - 1};
      } else if o.Retriable? && attempt < total {
        // wait and go round again
      } else if o.Retriable? || o.OtherRequestError? {
        result := BadGateway;
        return;
      } else {
        result := Reraised(sends - 1);
        return;
      }
      attempt := attempt + 1;
    }
    assert false;
  }
}
