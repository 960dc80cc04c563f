/**
 * The sequential meaning of `drill` (src/transaction/mod.rs): records are
 * routed by client to one worker each, created when the client is first
 * seen; each worker applies its records in order until `handle` reports a
 * terminal `Handle`, and the snapshots are reported in first-seen order.
 * Every account is owned by one worker, so the concurrent run has this
 * outcome whatever the interleaving of workers.
 */
module Router {
  import opened Wrappers
  import opened Transactions
  import opened Accounts

  /** Every deposit and withdrawal in the queue carries an amount. */
  predicate HasAmounts(queue: seq<Transaction>) {
    forall i :: 0 <= i < |queue| ==> Admissible(Some(queue[i]))
  }

  predicate AmountsNonNegative(queue: seq<Transaction>) {
    forall i :: 0 <= i < |queue| ==> AmountNonNegative(queue[i])
  }

  // ---------------------------------------------------------------------
  // One worker.

  /**
   * The snapshot a worker yields: it applies `Step` to each queued record,
   * ignoring `Ok` and non-terminal errors, and stops at the first `Handle`;
   * once the queue is exhausted the closed queue yields `Handle`.
   */
  function Run(l: Ledger, queue: seq<Transaction>): (s: Snapshot)
    requires HistoryWellFormed(l.history) && HasAmounts(queue)
    ensures s.clientId == l.account.clientId
    ensures l.account.locked ==> s == l.account
    ensures NonNegative(l) && AmountsNonNegative(queue) ==> s.available >= 0.0 && s.held >= 0.0
    decreases |queue|
  {
    var (next, reply) := Step(l, if queue == [] then None else Some(queue[0]));
    if reply.IsTerminal() then reply.error.snapshot
    else Run(next, queue[1..])
  }

  /** The worker task spawned for one client: loops on `Handle` until it is terminal. */
  method RunWorker(admin: AccountAdmin, queue: seq<Transaction>) returns (s: Snapshot)
    requires admin.Valid() && HasAmounts(queue)
    modifies admin, admin.account
    ensures s == Run(old(admin.State()), queue)
  {
    var i := 0;
    while true
      invariant 0 <= i <= |queue| && admin.Valid()
      invariant Run(admin.State(), queue[i..]) == Run(old(admin.State()), queue)
      decreases |queue| - i
    {
      var reply := admin.Handle(if i < |queue| then Some(queue[i]) else None);
      if reply.IsTerminal() {
        return reply.error.snapshot;
      }
      assert queue[i..][1..] == queue[i + 1..];
      i := i + 1;
    }
  }

  /** A fresh account for `clientId`, run over the client's queue. */
  method SpawnWorker(clientId: u16, queue: seq<Transaction>) returns (s: Snapshot)
    requires HasAmounts(queue)
    ensures s == Run(NewLedger(clientId), queue)
  {
    var admin := new AccountAdmin(clientId);
    s := RunWorker(admin, queue);
  }

  /** Whether the worker stops on one of the queued records, before the queue closes. */
  predicate Halts(l: Ledger, queue: seq<Transaction>)
    requires HistoryWellFormed(l.history) && HasAmounts(queue)
    decreases |queue|
  {
    && queue != []
    && var (next, reply) := Step(l, Some(queue[0]));
       reply.IsTerminal() || Halts(next, queue[1..])
  }

  /** Records sent after the worker has stopped are dropped without effect. */
  lemma {:induction false} DropAfterTerminate(l: Ledger, a: seq<Transaction>, b: seq<Transaction>)
    requires HistoryWellFormed(l.history) && HasAmounts(a) && HasAmounts(b)
    requires Halts(l, a)
    ensures HasAmounts(a + b) && Run(l, a + b) == Run(l, a)
    decreases |a|
  {
    assert (a + b)[0] == a[0];
    assert (a + b)[1..] == a[1..] + b;
    var (next, reply) := Step(l, Some(a[0]));
    if !reply.IsTerminal() {
      DropAfterTerminate(next, a[1..], b);
    }
  }

  /**
   * After a successful chargeback the worker's snapshot is the locked
   * account left by it, whatever records follow.
   */
  lemma ChargebackIsFinal(l: Ledger, cb: Transaction, rest: seq<Transaction>)
    requires HistoryWellFormed(l.history) && HasAmounts(rest)
    requires cb.ttype == Chargeback && Step(l, Some(cb)).1.Ok?
    ensures HasAmounts([cb] + rest)
    ensures Run(l, [cb] + rest) == Step(l, Some(cb)).0.account
    ensures Run(l, [cb] + rest).locked
  {
    assert ([cb] + rest)[1..] == rest;
  }

  /** The amount a deposit adds and a withdrawal removes. */
  function NetFlow(queue: seq<Transaction>): real
    requires HasAmounts(queue)
    requires forall i :: 0 <= i < |queue| ==> MovesFunds(queue[i])
    decreases |queue|
  {
    if queue == [] then 0.0
    else
      var a := queue[0].amount.value;
      (if queue[0].ttype == Deposit then a else -a) + NetFlow(queue[1..])
  }

  /** Starting from `available`, every withdrawal is covered when it arrives. */
  predicate NeverOverdraws(available: real, queue: seq<Transaction>)
    requires HasAmounts(queue)
    requires forall i :: 0 <= i < |queue| ==> MovesFunds(queue[i])
    decreases |queue|
  {
    queue == [] ||
    var a := queue[0].amount.value;
    if queue[0].ttype == Deposit then NeverOverdraws(available + a, queue[1..])
    else a <= available && NeverOverdraws(available - a, queue[1..])
  }

  /**
   * An unlocked account fed only deposits and covered withdrawals ends with
   * `available` raised by the net flow, `held` unchanged, and unlocked.
   */
  lemma {:induction false} CashOnlyRun(l: Ledger, queue: seq<Transaction>)
    requires HistoryWellFormed(l.history) && HasAmounts(queue) && !l.account.locked
    requires forall i :: 0 <= i < |queue| ==> MovesFunds(queue[i])
    requires NeverOverdraws(l.account.available, queue)
    ensures Run(l, queue) == l.account.(available := l.account.available + NetFlow(queue))
    decreases |queue|
  {
    if queue != [] {
      var (next, reply) := Step(l, Some(queue[0]));
      assert !reply.IsTerminal();
      CashOnlyRun(next, queue[1..]);
    }
  }

  // ---------------------------------------------------------------------
  // Routing.

  /** The distinct clients of the records, in the order they first appear. */
  function FirstSeen(recs: seq<Transaction>): (clients: seq<u16>)
    ensures forall i, j :: 0 <= i < j < |clients| ==> clients[i] != clients[j]
    ensures forall i :: 0 <= i < |recs| ==> recs[i].clientId in clients
    decreases |recs|
  {
    if recs == [] then []
    else
      var earlier := FirstSeen(recs[..|recs| - 1]);
      var c := recs[|recs| - 1].clientId;
      if c in earlier then earlier else earlier + [c]
  }

  /** Every reported client comes from some record of the input. */
  lemma {:induction false} FirstSeenFromInput(recs: seq<Transaction>, c: u16)
    requires c in FirstSeen(recs)
    ensures exists i :: 0 <= i < |recs| && recs[i].clientId == c
    decreases |recs|
  {
    var init := recs[..|recs| - 1];
    if c in FirstSeen(init) {
      FirstSeenFromInput(init, c);
      var i :| 0 <= i < |init| && init[i].clientId == c;
      assert recs[i] == init[i];
    } else {
      assert recs[|recs| - 1].clientId == c;
    }
  }

  /** Clients seen in a prefix of the input keep their places in the report. */
  lemma {:induction false} FirstSeenPrefix(recs: seq<Transaction>, k: nat)
    requires k <= |recs|
    ensures FirstSeen(recs[..k]) <= FirstSeen(recs)
    decreases |recs|
  {
    if k < |recs| {
      var init := recs[..|recs| - 1];
      assert init[..k] == recs[..k];
      FirstSeenPrefix(init, k);
    } else {
      assert recs[..k] == recs;
    }
  }

  /**
   * A client first seen at position `k` takes the report slot right after
   * the clients seen before `k`.
   */
  lemma FirstSeenSlot(recs: seq<Transaction>, k: nat)
    requires k < |recs| && recs[k].clientId !in FirstSeen(recs[..k])
    ensures |FirstSeen(recs[..k])| < |FirstSeen(recs)|
    ensures FirstSeen(recs)[|FirstSeen(recs[..k])|] == recs[k].clientId
  {
    var upTo := recs[..k + 1];
    assert upTo[..|upTo| - 1] == recs[..k];
    assert FirstSeen(upTo) == FirstSeen(recs[..k]) + [recs[k].clientId];
    FirstSeenPrefix(recs, k + 1);
  }

  /** The records routed to client `c`'s worker, in input order. */
  function ForClient(recs: seq<Transaction>, c: u16): (queue: seq<Transaction>)
    ensures |queue| <= |recs|
    ensures forall i :: 0 <= i < |queue| ==> queue[i].clientId == c
    ensures HasAmounts(recs) ==> HasAmounts(queue)
    decreases |recs|
  {
    if recs == [] then []
    else
      var earlier := ForClient(recs[..|recs| - 1], c);
      var t := recs[|recs| - 1];
      if t.clientId == c then earlier + [t] else earlier
  }

  /**
   * A client's queue takes records only from the input, and every record
   * of that client: nothing is lost and nothing is made up.
   */
  lemma {:induction false} ForClientFromInput(recs: seq<Transaction>, c: u16)
    ensures multiset(ForClient(recs, c)) <= multiset(recs)
    ensures forall t :: t in recs && t.clientId == c ==> t in ForClient(recs, c)
    decreases |recs|
  {
    if recs != [] {
      var init := recs[..|recs| - 1];
      assert recs == init + [recs[|recs| - 1]];
      ForClientFromInput(init, c);
    }
  }

  /** A client that has not appeared yet has nothing queued for it. */
  lemma {:induction false} NotSeenHasNoQueue(recs: seq<Transaction>, c: u16)
    requires c !in FirstSeen(recs)
    ensures ForClient(recs, c) == []
    decreases |recs|
  {
    if recs != [] {
      var init := recs[..|recs| - 1];
      assert FirstSeen(init) <= FirstSeen(recs);
      NotSeenHasNoQueue(init, c);
    }
  }

  /** Routing distributes over concatenation of the input. */
  lemma {:induction false} ForClientAppend(a: seq<Transaction>, b: seq<Transaction>, c: u16)
    ensures ForClient(a + b, c) == ForClient(a, c) + ForClient(b, c)
    decreases |b|
  {
    if b == [] {
      assert a + b == a;
    } else {
      var b' := b[..|b| - 1];
      assert (a + b)[..|a + b| - 1] == a + b';
      ForClientAppend(a, b', c);
    }
  }

  /** The snapshot client `c`'s worker yields for the input `recs`. */
  function ClientSnapshot(recs: seq<Transaction>, c: u16): (s: Snapshot)
    requires HasAmounts(recs)
    ensures s.clientId == c
  {
    Run(NewLedger(c), ForClient(recs, c))
  }

  /**
   * A record of another client, inserted anywhere, leaves client `c`'s
   * snapshot unchanged: the outcome of an account does not depend on how
   * other accounts' records are interleaved with its own.
   */
  lemma OtherClientsDoNotInterfere(a: seq<Transaction>, t: Transaction, b: seq<Transaction>, c: u16)
    requires HasAmounts(a + [t] + b) && t.clientId != c
    ensures HasAmounts(a + b)
    ensures ClientSnapshot(a + [t] + b, c) == ClientSnapshot(a + b, c)
  {
    ForClientAppend(a + [t], b, c);
    ForClientAppend(a, [t], c);
    ForClientAppend(a, b, c);
    assert [t][..0] == [];
    assert forall i :: 0 <= i < |a + b| ==> (a + b)[i] == (a + [t] + b)[if i < |a| then i else i + 1];
  }

  /**
   * The report: one snapshot per distinct client of the accepted records,
   * in first-seen order.
   */
  function Report(lines: seq<Line>, parseAmount: string -> Option<real>): (report: seq<Snapshot>)
    requires HasAmounts(Accepted(lines, parseAmount))
    ensures |report| == |FirstSeen(Accepted(lines, parseAmount))|
    ensures forall i :: 0 <= i < |report| ==> report[i].clientId == FirstSeen(Accepted(lines, parseAmount))[i]
  {
    var recs := Accepted(lines, parseAmount);
    var clients := FirstSeen(recs);
    seq(|clients|, i requires 0 <= i < |clients| => ClientSnapshot(recs, clients[i]))
  }

  /** A line drawn from the iterator that parses extends the records routed so far. */
  lemma AcceptedAdvance(lines: seq<Line>, parseAmount: string -> Option<real>,
                        seen: seq<Transaction>, at: nat, tx: Transaction)
    requires at < |lines| && FromFields(lines[at], parseAmount) == Parsed(tx)
    requires Accepted(lines, parseAmount) == seen + Accepted(lines[at..], parseAmount)
    ensures Accepted(lines, parseAmount) == (seen + [tx]) + Accepted(lines[at + 1..], parseAmount)
  {
    assert lines[at..][0] == lines[at];
    assert lines[at..][1..] == lines[at + 1..];
    var rest := Accepted(lines[at + 1..], parseAmount);
    assert Accepted(lines[at..], parseAmount) == [tx] + rest;
    assert seen + ([tx] + rest) == (seen + [tx]) + rest;
  }

  /** At the end of the input, or at a malformed line, the records routed so far are all of them. */
  lemma AcceptedDone(lines: seq<Line>, parseAmount: string -> Option<real>, seen: seq<Transaction>, at: nat)
    requires at <= |lines| && (at < |lines| ==> FromFields(lines[at], parseAmount) == InvalidRecord)
    requires Accepted(lines, parseAmount) == seen + Accepted(lines[at..], parseAmount)
    ensures Accepted(lines, parseAmount) == seen
  {
    if at < |lines| {
      assert lines[at..][0] == lines[at];
    }
  }

  /**
   * The router's state after the records `seen`: a worker spawned for each
   * client in first-seen order, and each client's pipe holding its records.
   */
  ghost predicate Routed(seen: seq<Transaction>, pipes: map<u16, seq<Transaction>>, spawned: seq<u16>) {
    && spawned == FirstSeen(seen)
    && (forall c :: c in pipes <==> c in spawned)
    && (forall c :: c in pipes ==> pipes[c] == ForClient(seen, c))
  }

  /**
   * Sending `tx` on its client's pipe, or, for a client not seen before,
   * creating its pipe and spawning its worker.
   */
  method Dispatch(ghost seen: seq<Transaction>, tx: Transaction, pipes: map<u16, seq<Transaction>>, spawned: seq<u16>)
    returns (pipes': map<u16, seq<Transaction>>, spawned': seq<u16>)
    requires Routed(seen, pipes, spawned)
    ensures Routed(seen + [tx], pipes', spawned')
  {
    ghost var seen' := seen + [tx];
    assert seen'[..|seen'| - 1] == seen;
    var c := tx.clientId;
    if c in pipes {
      pipes', spawned' := pipes[c := pipes[c] + [tx]], spawned;
    } else {
      NotSeenHasNoQueue(seen, c);
      pipes', spawned' := pipes[c := [tx]], spawned + [c];
    }
    assert spawned' == FirstSeen(seen');
    forall d | d in pipes'
      ensures pipes'[d] == ForClient(seen', d)
    {
      assert ForClient(seen', d) == if d == c then ForClient(seen, d) + [tx] else ForClient(seen, d);
    }
  }

  /**
   * `drill`: drain the record iterator, creating a queue (a pipe) and a
   * worker the first time a client is seen and appending its later records
   * to that queue; then close the queues and collect each worker's
   * snapshot in the order the workers were spawned.
   */
  method Drill(lines: seq<Line>, parseAmount: string -> Option<real>) returns (report: seq<Snapshot>)
    requires HasAmounts(Accepted(lines, parseAmount))
    ensures report == Report(lines, parseAmount)
  {
    var iter := new TransactionIterator(lines, parseAmount);
    var pipes, spawned, seen := RouteAll(iter);
    RoutedPipes(seen, pipes, spawned);
    report := AwaitWorkers(spawned, pipes);
    RoutedReport(lines, parseAmount, pipes, spawned, report);
  }

  /** The routing half of `drill`: every accepted record is appended to its client's queue. */
  method RouteAll(iter: TransactionIterator) returns (pipes: map<u16, seq<Transaction>>, spawned: seq<u16>, ghost seen: seq<Transaction>)
    requires iter.Valid() && iter.pos == 0
    modifies iter
    ensures seen == Accepted(iter.lines, iter.parseAmount)
    ensures Routed(seen, pipes, spawned)
  {
    pipes := map[];
    spawned := [];
    seen := [];
    ghost var lines, parseAmount := iter.lines, iter.parseAmount;
    assert lines[iter.pos..] == lines;
    while true
      invariant iter.Valid() && iter.lines == lines && iter.parseAmount == parseAmount
      invariant Accepted(lines, parseAmount) == seen + Accepted(lines[iter.pos..], parseAmount)
      invariant Routed(seen, pipes, spawned)
      decreases |lines| - iter.pos
    {
      ghost var at := iter.pos;
      var next := iter.Next();
      if next.None? {
        AcceptedDone(lines, parseAmount, seen, at);
        break;
      }
      var tx := next.value;
      AcceptedAdvance(lines, parseAmount, seen, at, tx);
      pipes, spawned := Dispatch(seen, tx, pipes, spawned);
      seen := seen + [tx];
    }
  }

  /** Every spawned worker has a pipe, holding only records that carry their amounts. */
  lemma RoutedPipes(seen: seq<Transaction>, pipes: map<u16, seq<Transaction>>, spawned: seq<u16>)
    requires HasAmounts(seen) && Routed(seen, pipes, spawned)
    ensures forall c :: c in spawned ==> c in pipes && HasAmounts(pipes[c])
  {
  }

  /**
   * Closing every pipe and awaiting the workers in spawn order: entry `j`
   * of the report is what the `j`-th worker yields on its queue.
   */
  method AwaitWorkers(spawned: seq<u16>, pipes: map<u16, seq<Transaction>>) returns (report: seq<Snapshot>)
    requires forall c :: c in spawned ==> c in pipes && HasAmounts(pipes[c])
    ensures |report| == |spawned|
    ensures forall j :: 0 <= j < |spawned| ==> report[j] == Run(NewLedger(spawned[j]), pipes[spawned[j]])
  {
    report := [];
    var k := 0;
    while k < |spawned|
      invariant k <= |spawned| && |report| == k
      invariant forall j :: 0 <= j < k ==> report[j] == Run(NewLedger(spawned[j]), pipes[spawned[j]])
    {
      var c := spawned[k];
      var s := SpawnWorker(c, pipes[c]);
      report := report + [s];
      k := k + 1;
    }
  }

  /** What the awaited workers yield, once every accepted record is routed, is the report. */
  lemma RoutedReport(lines: seq<Line>, parseAmount: string -> Option<real>, pipes: map<u16, seq<Transaction>>,
                     spawned: seq<u16>, report: seq<Snapshot>)
    requires HasAmounts(Accepted(lines, parseAmount)) && Routed(Accepted(lines, parseAmount), pipes, spawned)
    requires |report| == |spawned|
    requires forall j :: 0 <= j < |spawned| ==> report[j] == Run(NewLedger(spawned[j]), pipes[spawned[j]])
    ensures report == Report(lines, parseAmount)
  {
    var recs := Accepted(lines, parseAmount);
    forall j | 0 <= j < |report|
      ensures report[j] == Report(lines, parseAmount)[j]
    {
      assert pipes[spawned[j]] == ForClient(recs, spawned[j]);
    }
  }

  // ---------------------------------------------------------------------
  // The scenarios of the documented example input.

  /** The two lines of the example input both parse, so both are routed. */
  lemma ExampleAccepted(parseAmount: string -> Option<real>)
    requires parseAmount("1.0") == Some(1.0) && parseAmount("0.5") == Some(0.5)
    ensures Accepted([Some(["deposit", "1", "1", "1.0"]), Some(["withdrawal", "1", "2", "0.5"])], parseAmount)
         == [NewWithAmount(Deposit, 1, 1, 1.0), NewWithAmount(Withdrawal, 1, 2, 0.5)]
  {
    var lines := [Some(["deposit", "1", "1", "1.0"]), Some(["withdrawal", "1", "2", "0.5"])];
    FromFieldsExamples(parseAmount);
    assert FromFields(lines[1], parseAmount) == Parsed(NewWithAmount(Withdrawal, 1, 2, 0.5)) by {
      assert ParseU16("1") == Some(1) by { ParseU16RoundTrip(1); assert ToDecimal(1) == "1"; }
      assert ParseU32("2") == Some(2) by { ParseU32RoundTrip(2); assert ToDecimal(2) == "2"; }
    }
    assert |Accepted(lines, parseAmount)| == 2;
  }

  /** The example's two records go to one worker, spawned for client 1. */
  lemma ExampleRouting()
    ensures var recs := [NewWithAmount(Deposit, 1, 1, 1.0), NewWithAmount(Withdrawal, 1, 2, 0.5)];
      FirstSeen(recs) == [1] && ForClient(recs, 1) == recs
  {
    var d, w := NewWithAmount(Deposit, 1, 1, 1.0), NewWithAmount(Withdrawal, 1, 2, 0.5);
    assert [d, w][..1] == [d] && [d][..0] == [];
    assert FirstSeen([d]) == [1];
  }

  /** The worker credits the deposit and debits the covered withdrawal. */
  lemma ExampleRun()
    ensures var recs := [NewWithAmount(Deposit, 1, 1, 1.0), NewWithAmount(Withdrawal, 1, 2, 0.5)];
      HasAmounts(recs) && Run(NewLedger(1), recs) == Snapshot(1, 0.5, 0.0, false)
  {
    var d, w := NewWithAmount(Deposit, 1, 1, 1.0), NewWithAmount(Withdrawal, 1, 2, 0.5);
    var recs := [d, w];
    assert recs[1..] == [w] && [w][1..] == [];
    assert NetFlow([w]) == -0.5;
    assert NeverOverdraws(0.0, recs);
    CashOnlyRun(NewLedger(1), recs);
  }

  /** A deposit then a smaller withdrawal: one account, holding the difference. */
  lemma DepositThenWithdraw(parseAmount: string -> Option<real>)
    requires parseAmount("1.0") == Some(1.0) && parseAmount("0.5") == Some(0.5)
    ensures var lines := [Some(["deposit", "1", "1", "1.0"]), Some(["withdrawal", "1", "2", "0.5"])];
      HasAmounts(Accepted(lines, parseAmount)) &&
      Report(lines, parseAmount) == [Snapshot(1, 0.5, 0.0, false)]
  {
    var recs := [NewWithAmount(Deposit, 1, 1, 1.0), NewWithAmount(Withdrawal, 1, 2, 0.5)];
    var lines := [Some(["deposit", "1", "1", "1.0"]), Some(["withdrawal", "1", "2", "0.5"])];
    ExampleAccepted(parseAmount);
    ExampleRouting();
    ExampleRun();
    assert |Report(lines, parseAmount)| == 1;
    assert Report(lines, parseAmount)[0] == ClientSnapshot(recs, 1);
  }
}
