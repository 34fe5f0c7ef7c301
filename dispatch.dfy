/** What one batch of updated transactions does, as a value: the pending
    payments left, the restore accumulator after the batch, and the effects
    produced, transaction by transaction in delivery order. The coordinator's
    batch method is proved to produce exactly this. */
module Dispatch {
  import opened IAPTypes
  import opened Registries

  /** The states after which the queue expects the transaction to be finished. */
  predicate IsTerminal(s: TransactionState)
  {
    s == Purchased || s == Restored || s == Failed
  }

  /** StoreKit attaches an error to every failed transaction; the dispatcher unwraps it. */
  predicate WellFormed(tx: Transaction)
  {
    tx.state == Failed ==> tx.error.Some?
  }

  predicate AllWellFormed(txs: seq<Transaction>)
  {
    forall i :: 0 <= i < |txs| ==> WellFormed(txs[i])
  }

  /** The state a batch works on. */
  datatype Batch = Batch(payments: seq<Payment>, restored: seq<Transaction>, effects: seq<Effect>)

  /** A callback that resolves `tx`: success with the transaction itself, or
      failure with the error the transaction carries. */
  predicate Answers(e: Effect, tx: Transaction)
  {
    (e.Success? && e.payload == PaidTransaction(tx)) || (e.Failure? && tx.error == Some(e.error))
  }

  /** The callback of the payment entry popped for a terminal transaction. */
  function Resolve(tx: Transaction, entry: Option<Payment>): (es: seq<Effect>)
    requires WellFormed(tx)
    ensures |es| <= 1
    ensures entry.None? ==> es == []
    ensures |es| == 1 <==> entry.Some? && (if tx.state == Failed then entry.value.failure else entry.value.success).Some?
    ensures forall e :: e in es ==> Answers(e, tx)
    ensures tx.state == Failed ==> forall e :: e in es ==> e.Failure? && entry.Some? && Some(e.handler) == entry.value.failure
    ensures tx.state != Failed ==> forall e :: e in es ==> e.Success? && entry.Some? && Some(e.handler) == entry.value.success
  {
    match entry
    case None => []
    case Some(p) =>
      if tx.state == Failed then FailureCall(p.failure, tx.error.value)
      else SuccessCall(p.success, PaidTransaction(tx))
  }

  /** One transaction of a batch. `purchasing` and `deferred` only log; the
      terminal states finish the transaction, then pop the earliest payment for
      its product and resolve it; `restored` is also accumulated. */
  function Step(b: Batch, tx: Transaction): (r: Batch)
    requires WellFormed(tx)
    ensures !IsTerminal(tx.state) ==> r == b
    ensures IsTerminal(tx.state) ==> |b.effects| < |r.effects| && r.effects[..|b.effects| + 1] == b.effects + [Finish(tx)]
  {
    if !IsTerminal(tx.state) then b
    else
      var p := PopPayment(b.payments, tx.productIdentifier);
      Batch(p.rest,
            if tx.state == Restored then b.restored + [tx] else b.restored,
            b.effects + [Finish(tx)] + Resolve(tx, p.entry))
  }

  /** A terminal transaction is linked to the earliest pending payment for its
      product: that entry, and only it, leaves the registry, and right after
      the finish its success handler gets the transaction, or its failure
      handler the transaction's error. With no such payment the registry is
      unchanged and the finish is the only effect. */
  lemma StepResolvesEarliest(b: Batch, tx: Transaction)
    requires WellFormed(tx) && IsTerminal(tx.state)
    ensures var k := PaymentIndex(b.payments, tx.productIdentifier);
            var s := Step(b, tx);
            k < |b.payments| ==>
              s.payments == b.payments[..k] + b.payments[k + 1..] &&
              s.effects == b.effects + [Finish(tx)] +
                (if tx.state == Failed then FailureCall(b.payments[k].failure, tx.error.value)
                 else SuccessCall(b.payments[k].success, PaidTransaction(tx)))
    ensures var k := PaymentIndex(b.payments, tx.productIdentifier);
            var s := Step(b, tx);
            k == |b.payments| ==> s.payments == b.payments && s.effects == b.effects + [Finish(tx)]
  {
  }

  /** A whole batch, transactions taken in delivery order. A batch only
      appends effects and never registers a payment. */
  function Run(b: Batch, txs: seq<Transaction>): (r: Batch)
    requires AllWellFormed(txs)
    ensures |r.payments| <= |b.payments|
    ensures |b.effects| <= |r.effects| && r.effects[..|b.effects|] == b.effects
    decreases |txs|
  {
    if txs == [] then b
    else Step(Run(b, txs[..|txs| - 1]), txs[|txs| - 1])
  }

  /** Extending a batch by one transaction is one more step. */
  lemma RunExtend(b: Batch, txs: seq<Transaction>, i: nat)
    requires AllWellFormed(txs) && i < |txs|
    ensures AllWellFormed(txs[..i]) && AllWellFormed(txs[..i + 1])
    ensures Run(b, txs[..i + 1]) == Step(Run(b, txs[..i]), txs[i])
  {
    assert txs[..i + 1][..i] == txs[..i];
  }

  /** A step only appends to the effects it starts from. */
  lemma StepKeepsEarlierEffects(b: Batch, earlier: seq<Effect>, tx: Transaction)
    requires WellFormed(tx)
    ensures var s := Step(b, tx);
            Step(Batch(b.payments, b.restored, earlier + b.effects), tx) == Batch(s.payments, s.restored, earlier + s.effects)
  {
  }

  /** The `restored` transactions of `txs`, in order. */
  function RestoredOf(txs: seq<Transaction>): (r: seq<Transaction>)
    ensures forall tx :: tx in r <==> tx in txs && tx.state == Restored
    decreases |txs|
  {
    if txs == [] then []
    else
      var last := txs[|txs| - 1];
      assert txs == txs[..|txs| - 1] + [last];
      RestoredOf(txs[..|txs| - 1]) + (if last.state == Restored then [last] else [])
  }

  /** The terminal transactions of `txs`, in order. */
  function TerminalOf(txs: seq<Transaction>): (r: seq<Transaction>)
    ensures forall tx :: tx in r <==> tx in txs && IsTerminal(tx.state)
    decreases |txs|
  {
    if txs == [] then []
    else
      var last := txs[|txs| - 1];
      assert txs == txs[..|txs| - 1] + [last];
      TerminalOf(txs[..|txs| - 1]) + (if IsTerminal(last.state) then [last] else [])
  }

  /** The transactions finished by `es`, in order. */
  function Finished(es: seq<Effect>): seq<Transaction>
    decreases |es|
  {
    if es == [] then []
    else
      var last := es[|es| - 1];
      assert es == es[..|es| - 1] + [last];
      Finished(es[..|es| - 1]) + (if last.Finish? then [last.tx] else [])
  }

  lemma {:induction false} FinishedAppend(a: seq<Effect>, c: seq<Effect>)
    ensures Finished(a + c) == Finished(a) + Finished(c)
    decreases |c|
  {
    if c == [] {
      assert a + c == a;
    } else {
      var n := |c| - 1;
      assert (a + c)[..|a + c| - 1] == a + c[..n];
      assert (a + c)[|a + c| - 1] == c[n];
      FinishedAppend(a, c[..n]);
    }
  }

  /** The accumulator gains exactly the `restored` transactions of the batch,
      in order; as the batch starts from an empty accumulator, it ends holding
      exactly those. */
  lemma {:induction false} RunRestored(b: Batch, txs: seq<Transaction>)
    requires AllWellFormed(txs)
    ensures Run(b, txs).restored == b.restored + RestoredOf(txs)
    decreases |txs|
  {
    if txs != [] {
      RunRestored(b, txs[..|txs| - 1]);
    }
  }

  /** The batch never adds payments and removes at most one per terminal
      transaction; what remains is a sub-multiset of what was pending. */
  lemma {:induction false} RunPaymentsBound(b: Batch, txs: seq<Transaction>)
    requires AllWellFormed(txs)
    ensures |b.payments| - |TerminalOf(txs)| <= |Run(b, txs).payments| <= |b.payments|
    ensures multiset(Run(b, txs).payments) <= multiset(b.payments)
    decreases |txs|
  {
    if txs != [] {
      RunPaymentsBound(b, txs[..|txs| - 1]);
    }
  }

  /** One terminal transaction adds its own finish and nothing else that finishes. */
  lemma StepFinishes(b: Batch, tx: Transaction)
    requires WellFormed(tx) && IsTerminal(tx.state)
    ensures Finished(Step(b, tx).effects) == Finished(b.effects) + [tx]
  {
    var p := PopPayment(b.payments, tx.productIdentifier);
    var es := Resolve(tx, p.entry);
    assert Step(b, tx).effects == b.effects + ([Finish(tx)] + es);
    FinishedAppend(b.effects, [Finish(tx)] + es);
    FinishedAppend([Finish(tx)], es);
    assert Finished(es) == [] by {
      if es != [] {
        assert es[..0] == [];
      }
    }
    assert Finished([Finish(tx)]) == [tx] by {
      assert [Finish(tx)][..0] == [];
    }
  }

  /** Every `purchased`, `restored` or `failed` transaction is finished exactly
      once, in delivery order, and nothing else is finished. */
  lemma {:induction false} RunFinishes(b: Batch, txs: seq<Transaction>)
    requires AllWellFormed(txs)
    ensures Finished(Run(b, txs).effects) == Finished(b.effects) + TerminalOf(txs)
    decreases |txs|
  {
    if txs != [] {
      var prev := Run(b, txs[..|txs| - 1]);
      var tx := txs[|txs| - 1];
      RunFinishes(b, txs[..|txs| - 1]);
      if IsTerminal(tx.state) {
        StepFinishes(prev, tx);
      }
    }
  }

  /** Every callback of a batch comes right after the finish of the
      transaction it resolves. */
  predicate CallbacksFollowFinish(es: seq<Effect>)
  {
    forall j :: 0 <= j < |es| && !es[j].Finish? ==> 0 < j && es[j - 1].Finish? && Answers(es[j], es[j - 1].tx)
  }

  /** Finish comes before the callback of every transaction, and each finished
      transaction resolves at most one callback. */
  lemma {:induction false} RunCallbacksFollowFinish(b: Batch, txs: seq<Transaction>)
    requires AllWellFormed(txs)
    requires CallbacksFollowFinish(b.effects)
    ensures CallbacksFollowFinish(Run(b, txs).effects)
    decreases |txs|
  {
    if txs != [] {
      var prev := Run(b, txs[..|txs| - 1]);
      var tx := txs[|txs| - 1];
      RunCallbacksFollowFinish(b, txs[..|txs| - 1]);
      if IsTerminal(tx.state) {
        var p := PopPayment(prev.payments, tx.productIdentifier);
        var es := Resolve(tx, p.entry);
        var all := prev.effects + [Finish(tx)] + es;
        var n := |prev.effects|;
        forall j | 0 <= j < |all| && !all[j].Finish?
          ensures 0 < j && all[j - 1].Finish? && Answers(all[j], all[j - 1].tx)
        {
          if j > n {
            assert all[j] == es[j - n - 1] && j == n + 1;
            assert all[j] in es;
          } else {
            assert j < n;
            assert all[j] == prev.effects[j];
          }
        }
      }
    }
  }

  /** A batch with no terminal transaction changes nothing and produces nothing. */
  lemma {:induction false} RunInertWithoutTerminal(b: Batch, txs: seq<Transaction>)
    requires AllWellFormed(txs)
    requires forall i :: 0 <= i < |txs| ==> !IsTerminal(txs[i].state)
    ensures Run(b, txs) == b
    decreases |txs|
  {
    if txs != [] {
      RunInertWithoutTerminal(b, txs[..|txs| - 1]);
    }
  }
}
