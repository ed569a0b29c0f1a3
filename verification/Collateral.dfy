/** How much is sent along with commit and precommit messages. */
module Collateral {
  import opened Options

  datatype Config = Config(fromMinerBalance: bool, disableFallback: bool, buffer: int)

  /** All tokens there are, in the smallest unit. */
  const TOTAL_FILECOIN: nat := 2_000_000_000 * 1_000_000_000_000_000_000

  function Clamp(x: int): nat { if x < 0 then 0 else x }

  /** What is sent with one message for the given collateral. */
  function SendAmount(cfg: Config, balance: int, collateral: int): int {
    if !cfg.fromMinerBalance then collateral
    else if cfg.disableFallback then 0
    else Clamp(collateral - Clamp(balance - cfg.buffer))
  }

  /** The balance a round of single messages starts with. */
  function Available(cfg: Config, balance: int): nat {
    if cfg.fromMinerBalance && !cfg.disableFallback then Clamp(balance - cfg.buffer) else TOTAL_FILECOIN
  }

  function Worth(c: Option<nat>): nat { if c.Some? then c.value else 0 }

  /** The summed collateral of the sectors of a round for which one is known. */
  function Total(order: seq<nat>, collateral: nat -> Option<nat>): nat {
    if order == [] then 0 else Total(order[..|order| - 1], collateral) + Worth(collateral(order[|order| - 1]))
  }

  /** The sum of what was sent with each message. */
  function Paid(sent: seq<Option<nat>>): nat {
    if sent == [] then 0 else Paid(sent[..|sent| - 1]) + Worth(sent[|sent| - 1])
  }

  /** What a round of single messages for the given total spends. */
  function RoundSpends(cfg: Config, balance: int, total: nat): nat {
    if cfg.fromMinerBalance then Clamp(total - Available(cfg, balance)) else total
  }

  /** One message: what is sent, and what is left of the balance. */
  method ProcessSingle(cfg: Config, avail: nat, collateral: nat) returns (send: nat, left: nat)
    ensures !cfg.fromMinerBalance ==> send == collateral && left == avail
    ensures cfg.fromMinerBalance ==> send == Clamp(collateral - avail) && left == Clamp(avail - collateral)
    ensures cfg.fromMinerBalance ==> send + avail == collateral + left
  {
    send, left := collateral, avail;
    if cfg.fromMinerBalance {
      var c := collateral - avail;
      var a := avail - collateral;
      send := if c < 0 then 0 else c;
      left := if a < 0 then 0 else a;
    }
  }

  /** A round of single messages, in whatever order the sectors come; sectors without a known collateral are skipped. */
  method ProcessIndividually(cfg: Config, balance: int, order: seq<nat>, collateral: nat -> Option<nat>)
    returns (sent: seq<Option<nat>>)
    ensures |sent| == |order| && forall i :: 0 <= i < |order| ==> (sent[i].Some? <==> collateral(order[i]).Some?)
    ensures Paid(sent) == RoundSpends(cfg, balance, Total(order, collateral))
  {
    var start := Available(cfg, balance);
    var avail: nat := start;
    ghost var total := 0;
    sent := [];
    for i := 0 to |order|
      invariant |sent| == i && total == Total(order[..i], collateral)
      invariant forall k :: 0 <= k < i ==> (sent[k].Some? <==> collateral(order[k]).Some?)
      invariant Paid(sent) == if cfg.fromMinerBalance then Clamp(total - start) else total
      invariant cfg.fromMinerBalance ==> avail == Clamp(start - total)
    {
      ghost var before := sent;
      assert order[..i + 1][..i] == order[..i];
      total := total + Worth(collateral(order[i]));
      var c := collateral(order[i]);
      if c.None? {
        sent := sent + [None];
      } else {
        var send, left := ProcessSingle(cfg, avail, c.value);
        sent, avail := sent + [Some(send)], left;
      }
      assert sent[..i] == before;
    }
    assert order[..|order|] == order;
  }

  /**
   A round of single messages spends in total what one message for the summed collateral would send, exactly unless the
   miner pays from its balance without fallback and the sum exceeds all tokens there are.
   */
  lemma RoundSpendsSendAmount(cfg: Config, balance: int, total: nat)
    ensures RoundSpends(cfg, balance, total) == SendAmount(cfg, balance, total)
            <==> !(cfg.fromMinerBalance && cfg.disableFallback) || total <= TOTAL_FILECOIN
  {
  }

  // ---------- the order does not matter ----------

  lemma {:induction false} TotalSplit(s: seq<nat>, i: nat, collateral: nat -> Option<nat>)
    requires i < |s|
    ensures Total(s, collateral) == Total(s[..i] + s[i + 1..], collateral) + Worth(collateral(s[i]))
    decreases |s|
  {
    var n := |s| - 1;
    if i == n {
      assert s[..i] + s[i + 1..] == s[..n];
    } else {
      TotalSplit(s[..n], i, collateral);
      var rest := s[..i] + s[i + 1..];
      assert rest[..|rest| - 1] == s[..n][..i] + s[..n][i + 1..];
    }
  }

  lemma RemoveOne(s: seq<nat>, i: nat)
    requires i < |s|
    ensures multiset(s[..i] + s[i + 1..]) == multiset(s) - multiset{s[i]}
  {
    assert s == s[..i] + [s[i]] + s[i + 1..];
  }

  /** Whatever order a round goes through its sectors in, its total is the same. */
  lemma {:induction false} OrderDoesNotMatter(a: seq<nat>, b: seq<nat>, collateral: nat -> Option<nat>)
    requires multiset(a) == multiset(b)
    ensures Total(a, collateral) == Total(b, collateral)
    decreases |a|
  {
    assert |a| == |multiset(a)| && |b| == |multiset(b)|;
    if a != [] {
      var n := |a| - 1;
      assert a[n] in multiset(b);
      var i :| 0 <= i < |b| && b[i] == a[n];
      RemoveOne(a, n);
      RemoveOne(b, i);
      assert a[..n] + a[n + 1..] == a[..n];
      OrderDoesNotMatter(a[..n], b[..i] + b[i + 1..], collateral);
      TotalSplit(b, i, collateral);
    }
  }
}
