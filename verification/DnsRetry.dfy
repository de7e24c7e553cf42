/** One uncached resolution in internal/awg/tunnel.go: how often it asks, whom, and when it believes
    that a name does not exist. */
module DnsRetry {
  import opened Basics

  /** One for each time limit: 2, 4 and 6 seconds. */
  const ATTEMPTS: nat := 3

  /** What one query comes to. `IsTimeout` covers the three ways an error can be one. */
  datatype Reply = Addresses(addrs: seq<nat>) | NotFound | IsTimeout | Broken

  datatype Outcome = Resolved(addrs: seq<nat>) | Empty | Failed(last: Option<Reply>)

  /** `retryDecision`. */
  function RetryDecision(err: Reply, notFoundSeen: bool): (bool, bool) {
    match err
    case NotFound => (!notFoundSeen, true)
    case IsTimeout => (true, notFoundSeen)
    case _ => (false, notFoundSeen)
  }

  /** The first `n` replies. */
  function Replies(replies: nat -> Reply, n: nat): (rs: seq<Reply>)
    ensures |rs| == n
  {
    if n == 0 then [] else Replies(replies, n - 1) + [replies(n - 1)]
  }

  /** The local resolver that attempt `i` (counted from zero) asks. */
  function Server(i: nat, servers: nat): nat {
    if servers > 0 then i % servers else 0
  }

  function Servers(servers: nat, n: nat): (whom: seq<nat>)
    ensures |whom| == n
  {
    if n == 0 then [] else Servers(servers, n - 1) + [Server(n - 1, servers)]
  }

  /** The name was reported missing. */
  predicate Missing(rs: seq<Reply>) {
    NotFound in rs
  }

  /** Asking went on after each of these replies: timeouts, and a first "no such host". */
  predicate AllRetried(rs: seq<Reply>) {
    && (forall r :: r in rs ==> r.NotFound? || r.IsTimeout?)
    && (forall i, j :: 0 <= i < j < |rs| ==> !(rs[i].NotFound? && rs[j].NotFound?))
  }

  /** What the caller gets: an answer counts only if it holds an address, and a failure is that of
      the last reply. */
  function OutcomeOf(asked: seq<Reply>): Outcome {
    if asked == [] then Failed(None)
    else
      var last := asked[|asked| - 1];
      if last.Addresses? then (if last.addrs != [] then Resolved(last.addrs) else Empty) else Failed(Some(last))
  }

  /** What each outcome tells of the replies: addresses come from the last one, an empty answer is no
      success, an error is the last one's, and there is none only if nobody was asked. */
  lemma OutcomesTell(asked: seq<Reply>, addrs: seq<nat>, last: Reply)
    ensures OutcomeOf(asked) == Resolved(addrs) <==> addrs != [] && asked != [] && asked[|asked| - 1] == Addresses(addrs)
    ensures OutcomeOf(asked) == Empty <==> asked != [] && asked[|asked| - 1] == Addresses([])
    ensures OutcomeOf(asked) == Failed(Some(last)) <==> asked != [] && asked[|asked| - 1] == last && !last.Addresses?
    ensures OutcomeOf(asked) == Failed(None) <==> asked == []
  {
  }

  lemma {:induction false} AtLeastOnce(k: int, m: nat)
    requires k >= 1
    ensures k * m >= m
  {
    if k > 1 {
      AtLeastOnce(k - 1, m);
      assert k * m == (k - 1) * m + m;
    }
  }

  lemma NoLess(q: int, r: int, q2: int, r2: int, m: nat)
    requires 0 <= r < m && 0 <= r2 < m && q * m + r == q2 * m + r2
    ensures q >= q2
  {
    assert (q2 - q) * m == q2 * m - q * m;
    if q < q2 {
      AtLeastOnce(q2 - q, m);
    }
  }

  lemma NextServer(j: nat, m: nat)
    requires m > 0
    ensures (j + 1) % m == if j % m + 1 == m then 0 else j % m + 1
  {
    var q, r := j / m, j % m;
    var q2, r2 := (j + 1) / m, (j + 1) % m;
    assert q * m + r == j && q2 * m + r2 == j + 1;
    var wraps := r + 1 == m;
    var q1, r1 := if wraps then q + 1 else q, if wraps then 0 else r + 1;
    assert q1 * m + r1 == j + 1 by {
      assert (q + 1) * m == q * m + m;
    }
    NoLess(q1, r1, q2, r2, m);
    NoLess(q2, r2, q1, r1, m);
  }

  /** The local resolvers take turns: the first one first, then each the one after it, and after the last
      one the first again. */
  lemma {:induction false} ServersTakeTurns(servers: nat, n: nat, i: nat)
    requires i < n && servers > 0
    ensures Servers(servers, n)[0] == 0 && Servers(servers, n)[i] < servers
    ensures i + 1 < n ==>
              Servers(servers, n)[i + 1] == if Servers(servers, n)[i] + 1 == servers then 0 else Servers(servers, n)[i] + 1
    decreases n
  {
    if n > 1 {
      ServersTakeTurns(servers, n - 1, if i < n - 1 then i else 0);
    }
    AsksInTurn(servers, n, i);
    if i + 1 < n {
      AsksInTurn(servers, n, i + 1);
      NextServer(i, servers);
    }
  }

  lemma {:induction false} AsksInTurn(servers: nat, n: nat, i: nat)
    requires i < n && servers > 0
    ensures Servers(servers, n)[i] == i % servers
    decreases n
  {
    if i < n - 1 {
      AsksInTurn(servers, n - 1, i);
    }
  }

  /** After these replies there is no further attempt: an answer, an error that is no timeout, or a
      name reported missing a second time. */
  predicate Settled(asked: seq<Reply>) {
    asked != [] && var last := asked[|asked| - 1];
                   last.Addresses? || last.Broken? || (last.NotFound? && Missing(asked[..|asked| - 1]))
  }

  /** The replies of a run of attempts: all but the last one asked for another. */
  predicate Justified(asked: seq<Reply>) {
    asked != [] ==> AllRetried(asked[..|asked| - 1])
  }

  /** One more reply, and whether it settles the matter. */
  lemma OneMore(asked: seq<Reply>, r: Reply)
    requires AllRetried(asked)
    ensures var more := asked + [r];
      && Justified(more) && OutcomeOf(more) == OutcomeOf([r])
      && (Missing(more) <==> Missing(asked) || r.NotFound?)
      && (Settled(more) <==> r.Addresses? || !RetryDecision(r, Missing(asked)).0)
      && (!Settled(more) ==> AllRetried(more))
  {
    assert (asked + [r])[..|asked|] == asked;
  }

  /** The loop of `lookupUncached`: `replies` and `alive` say what each attempt gets and whether the
      context is still alive before it; `servers` is the number of local resolvers, of which each
      attempt asks the next, and zero when the in-tunnel resolver is asked. It asks again after a
      timeout, and once after a first "no such host", and stops only when the matter is settled, the
      context ended, or all attempts were made. */
  method LookupUncached(servers: nat, replies: nat -> Reply, alive: nat -> bool)
      returns (r: Outcome, asked: seq<Reply>, whom: seq<nat>)
    ensures |asked| <= 3 && asked == Replies(replies, |asked|) && whom == Servers(servers, |asked|)
    ensures r == OutcomeOf(asked)
    ensures Justified(asked)
    ensures Settled(asked) || |asked| == 3 || !alive(|asked|)
    ensures forall i :: 0 <= i < |asked| ==> alive(i)
  {
    asked, whom := [], [];
    var notFound := false;
    for attempt := 1 to ATTEMPTS + 1
      invariant asked == Replies(replies, attempt - 1) && whom == Servers(servers, attempt - 1)
      invariant forall i :: 0 <= i < attempt - 1 ==> alive(i)
      invariant AllRetried(asked) && notFound == Missing(asked) && Justified(asked)
    {
      if !alive(attempt - 1) {
        break;
      }
      var reply := replies(attempt - 1);
      OneMore(asked, reply);
      whom := whom + [Server(attempt - 1, servers)];
      asked := asked + [reply];
      var retry;
      r, retry, notFound := Judge(reply, notFound);
      if !retry {
        return;
      }
    }
    r := OutcomeOf(asked);
  }

  /** What one reply means for the loop: an answer ends it, an error is put to `retryDecision`. */
  method Judge(reply: Reply, notFoundSeen: bool) returns (r: Outcome, retry: bool, notFound: bool)
    ensures r == OutcomeOf([reply])
    ensures retry <==> !reply.Addresses? && RetryDecision(reply, notFoundSeen).0
    ensures retry ==> notFound == RetryDecision(reply, notFoundSeen).1
  {
    if reply.Addresses? {
      return if reply.addrs != [] then Resolved(reply.addrs) else Empty, false, notFoundSeen;
    }
    r := Failed(Some(reply));
    var (again, nf) := RetryDecision(reply, notFoundSeen);
    retry, notFound := again, nf;
  }
}
