/** The waits of the reconnect loop that keeps the mail-command consumer open.
    All times are in milliseconds. */
module Backoff {

  const INITIAL_MS: nat := 100
  const CAP_MS: nat := 30_000

  /** The update of `backoff` at the end of one iteration of the loop. */
  function Advance(backoff: nat): nat {
    if backoff < CAP_MS then
      if backoff * 2 > CAP_MS then CAP_MS else backoff * 2
    else
      backoff
  }

  /** The wait of iteration `k`, counted from 0. */
  function WaitAt(k: nat): nat {
    if k == 0 then INITIAL_MS else Advance(WaitAt(k - 1))
  }

  function Pow2(k: nat): nat {
    if k == 0 then 1 else 2 * Pow2(k - 1)
  }

  /** The time spent in the first `n` waits. */
  function TotalWait(n: nat): nat {
    if n == 0 then 0 else TotalWait(n - 1) + WaitAt(n - 1)
  }

  lemma {:induction false} WaitClosedForm(k: nat)
    ensures WaitAt(k) == if INITIAL_MS * Pow2(k) < CAP_MS then INITIAL_MS * Pow2(k) else CAP_MS
  {
    if k > 0 {
      WaitClosedForm(k - 1);
    }
  }

  /** In milliseconds: the first wait, the last one below the cap, and all further ones. */
  lemma {:induction false} NamedWaits(k: nat)
    ensures WaitAt(0) == 100 && WaitAt(8) == 25_600 && (k >= 9 ==> WaitAt(k) == 30_000)
  {
    assert WaitAt(4) == 1_600;
    assert WaitAt(8) == 25_600;
    if k > 9 {
      NamedWaits(k - 1);
    }
  }

  lemma {:induction false} WaitsNeverShrink(j: nat, k: nat)
    requires j <= k
    ensures WaitAt(j) <= WaitAt(k) <= CAP_MS
  {
    if j < k {
      WaitsNeverShrink(j, k - 1);
    } else if k > 0 {
      WaitsNeverShrink(j - 1, k - 1);
    }
  }

  lemma {:induction false} TotalWaitClosedForm(n: nat)
    requires n >= 9
    ensures TotalWait(n) == 51_100 + CAP_MS * (n - 9)
  {
    if n == 9 {
      FirstNineWaits();
    } else {
      TotalWaitClosedForm(n - 1);
      WaitClosedForm(9);
      assert Pow2(9) == 512;
      WaitsNeverShrink(9, n - 1);
    }
  }

  lemma FirstNineWaits()
    ensures TotalWait(8) == 25_500 && TotalWait(9) == 51_100
  {
    assert WaitAt(4) == 1_600;
    assert TotalWait(4) == 1_500;
    assert WaitAt(8) == 25_600;
    assert TotalWait(8) == 25_500;
  }

  lemma {:induction false} TotalWaitMonotone(m: nat, n: nat)
    requires m <= n
    ensures TotalWait(m) <= TotalWait(n)
  {
    if m < n {
      TotalWaitMonotone(m, n - 1);
    }
  }

  /** How many waits fit into a window that begins at start-up: the loop reconnects for the
      `n`-th time inside `window` exactly when `n` is at most this bound. */
  lemma ReconnectsWithinWindow(n: nat, window: nat)
    requires n >= 9
    ensures TotalWait(n) <= window <==> window >= 51_100 && n <= 9 + (window - 51_100) / CAP_MS
  {
    TotalWaitClosedForm(n);
    var k := n - 9;
    var room := window - 51_100;
    if room >= 0 {
      assert CAP_MS * k <= room <==> k <= room / CAP_MS;
    }
  }
}
