/** The connect loop of EventConsumerBase.ExecuteAsync: exponential backoff up to a cap, until the
    first subscription or until the host stops. */
module Backoff {

  const INITIAL_RETRY_DELAY := 1
  const MAX_RETRY_DELAY := 30

  /** How the try block of one turn goes. A cancellation while connecting ends the loop, whoever raised it.
      Once subscribed the consumer waits until the host stops: nothing else ends that wait, so nothing
      after it re-enters the loop. */
  datatype Connecting = Refused | RefusedThenStopped | Canceled | Subscribed

  /** `disposeRaises`: disposing the channel or the connection, in the finally block, raises; nothing in
      ExecuteAsync catches that. */
  datatype Turn = Turn(connecting: Connecting, disposeRaises: bool)

  function Power2(k: nat): (p: nat)
    ensures p >= 1
  {
    if k == 0 then 1 else 2 * Power2(k - 1)
  }

  /** The wait after the k-th consecutive failure, counting from zero. */
  function Delay(k: nat): nat {
    if Power2(k) < MAX_RETRY_DELAY then Power2(k) else MAX_RETRY_DELAY
  }

  function Delays(n: nat): (s: seq<nat>)
    ensures |s| == n && forall k :: 0 <= k < n ==> s[k] == if k < 5 then [1, 2, 4, 8, 16][k] else 30
    ensures forall k :: 0 <= k < n ==> s[k] == Delay(k)
  {
    assert forall k: nat | k < n :: Delay(k) == if k < 5 then [1, 2, 4, 8, 16][k] else 30 by {
      forall k: nat | k < n ensures Delay(k) == if k < 5 then [1, 2, 4, 8, 16][k] else 30 { DelaysAre(k); }
    }
    seq(n, (k: nat) => Delay(k))
  }

  lemma {:induction false} PowersAre(k: nat)
    ensures if k < 5 then Power2(k) == [1, 2, 4, 8, 16][k] else Power2(k) >= 32
  {
    if k > 0 { PowersAre(k - 1); }
  }

  /** 1, 2, 4, 8, 16 seconds, and 30 from then on. */
  lemma DelaysAre(k: nat)
    ensures Delay(k) == if k < 5 then [1, 2, 4, 8, 16][k] else 30
  {
    PowersAre(k);
  }

  /** The turn fails and the loop goes on. */
  predicate Retries(turn: Turn) { turn.connecting.Refused? && !turn.disposeRaises }

  /** How many turns fail before one ends the loop. */
  function Failures(turns: seq<Turn>): (n: nat)
    ensures n <= |turns| && (forall k :: 0 <= k < n ==> turns[k] == Turn(Refused, false))
    ensures n < |turns| ==> turns[n] != Turn(Refused, false)
  {
    if turns == [] || !Retries(turns[0]) then 0 else 1 + Failures(turns[1..])
  }

  lemma {:induction false} FailuresSplit(turns: seq<Turn>, i: nat)
    requires i <= |turns| && forall k :: 0 <= k < i ==> Retries(turns[k])
    ensures Failures(turns) == i + Failures(turns[i..])
  {
    if i > 0 {
      FailuresSplit(turns[1..], i - 1);
      assert turns[1..][i - 1..] == turns[i..];
    } else {
      assert turns[0..] == turns;
    }
  }

  /** `turns` is what the broker does until the host stops; the waits are returned in order. The waits are
      1, 2, 4, 8, 16 and then 30 seconds; the loop ends at the first turn that does not retry, has
      subscribed exactly if that turn did, and raises exactly if its disposal does. */
  method ExecuteAsync(turns: seq<Turn>) returns (waits: seq<nat>, subscribed: bool, raised: bool)
    ensures var n := Failures(turns);
            && waits == Delays(if n < |turns| && turns[n].connecting in {Refused, RefusedThenStopped} then n + 1 else n)
            && (subscribed <==> n < |turns| && turns[n].connecting.Subscribed?)
            && (raised <==> n < |turns| && turns[n].disposeRaises)
  {
    var retryDelay := INITIAL_RETRY_DELAY;
    waits, subscribed, raised := [], false, false;
    var i := 0;
    while i < |turns|          // until the host stops
      invariant 0 <= i <= |turns| && forall k :: 0 <= k < i ==> Retries(turns[k])
      invariant retryDelay == Delay(i) && waits == Delays(i) && !subscribed && !raised
    {
      FailuresSplit(turns, i);
      var stops := true;
      match turns[i].connecting {
        case Canceled =>
        case Subscribed =>
          retryDelay := INITIAL_RETRY_DELAY;
          subscribed := true;
        case RefusedThenStopped => waits := waits + [retryDelay];
        case Refused =>
          waits := waits + [retryDelay];
          var doubledSeconds := retryDelay * 2;
          retryDelay := if doubledSeconds < MAX_RETRY_DELAY then doubledSeconds else MAX_RETRY_DELAY;
          stops := false;
      }
      raised := turns[i].disposeRaises;          // finally
      if stops || raised { return; }
      i := i + 1;
    }
    FailuresSplit(turns, i);
  }

  function Sum(s: seq<nat>): nat {
    if s == [] then 0 else Sum(s[..|s| - 1]) + s[|s| - 1]
  }

  /** After n failures the consumer has waited 2^n - 1 seconds, or from the fifth on 31 + 30 (n - 5). */
  lemma {:induction false} TotalWait(n: nat)
    ensures Sum(Delays(n)) == if n <= 5 then [0, 1, 3, 7, 15, 31][n] else 31 + 30 * (n - 5)
  {
    if n > 0 {
      TotalWait(n - 1);
      assert Delays(n)[..n - 1] == Delays(n - 1);
      DelaysAre(n - 1);
    }
  }

  /** When turn n starts, if every turn before it fails, turn k after `took(k)` seconds of connecting. */
  function StartOf(took: nat -> nat, n: nat): (start: nat)
    ensures start >= n
  {
    if n == 0 then 0 else StartOf(took, n - 1) + took(n - 1) + Delay(n - 1)
  }

  /** The starts are the waits of ExecuteAsync and the attempts between them. */
  lemma {:induction false} StartsAreWaits(took: nat -> nat, n: nat)
    ensures StartOf(took, n) == Sum(Delays(n)) + Sum(seq(n, (k: nat) => took(k)))
  {
    var attempts := seq(n, (k: nat) => took(k));
    if n > 0 {
      StartsAreWaits(took, n - 1);
      assert Delays(n)[..n - 1] == Delays(n - 1);
      assert attempts[..n - 1] == seq(n - 1, (k: nat) => took(k));
    }
  }

  /** An outage costs less than one capped wait and one attempt more than it lasts, however long failing
      attempts take: the first turn n that starts when it is over starts at most 30 seconds after the attempt
      before it ended, and less than 30 seconds and that attempt's length after the outage did. */
  lemma OutageCost(took: nat -> nat, outage: nat) returns (n: nat)
    requires outage > 0
    ensures 0 < n <= outage && forall k :: 0 <= k < n ==> StartOf(took, k) < outage
    ensures outage <= StartOf(took, n) <= StartOf(took, n - 1) + took(n - 1) + 30
    ensures StartOf(took, n) < outage + took(n - 1) + 30
  {
    n := 1;
    while StartOf(took, n) < outage
      invariant 0 < n <= outage && forall k :: 0 <= k < n ==> StartOf(took, k) < outage
      decreases outage - n
    {
      n := n + 1;
    }
  }
}
