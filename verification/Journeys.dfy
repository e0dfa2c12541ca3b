/** The way of a transaction from chain to chain, told by its kind. */
module Journeys {
  import opened Options
  import opened Ledger
  import opened Transition
  import opened Processor
  import opened Conservation
  import opened DealCalls
  import opened Lifecycle
  import opened MultiChain

  /** Money to a user; a new contract; a call that is paid for or free; a report that a chain is idle; a proof of work. */
  datatype Kind = Payment | Deployment | Invocation | IdleReport | WorkReport

  function KindOf(tx: Tx): (k: Kind) {
    if tx.to.User? then Payment
    else if tx.create then Deployment
    else if tx.idle then IdleReport
    else if tx.IsFree() && tx.seed > 0 then WorkReport
    else Invocation
  }

  /** Where it starts. */
  function Start(tx: Tx): (k: Key) {
    match KindOf(tx)
    case Payment => Key(tx.from, tx.id, TransferPayment)
    case Deployment => Key(tx.from, tx.id, ContractFreeze)
    case Invocation => Key(tx.from, tx.id, ContractFreeze)
    case IdleReport => Key(SC, tx.id, SCIdleContractDeal)
    case WorkReport => Key(SC, tx.id, PowTxContractDeal)
  }

  /** A submitted transaction has one action in flight: its start. */
  lemma StartsThere(s: Sys, tx: Tx)
    requires Inv(s) && CanSubmit(s, tx)
    ensures forall j :: j in Submit(s, tx).pending && j.id == tx.id <==> j == Start(tx)
    ensures Submit(s, tx).pending[Start(tx)] == TxExec(tx, Start(tx).action, None)
  {
    hide ChainsOk, FrontAlone, MarksOk;
    forall j | j in s.pending
      ensures j.id != tx.id
    {
      assert GoodKey(s.txs, j, s.pending[j]);
    }
  }

  /** What a deal's receipt sends out: one coin flow to each account in it. */
  function Deliveries(id: nat, r: Receipt): (s: set<Key>) { set a | a in r.flows :: Key(a, id, ContractReceipt) }

  /** Where it goes from an action that is no receipt or refund. */
  function Onward(env: Env, tx: Tx, k: Key, r: Receipt): (s: set<Key>) {
    match KindOf(tx)
    case Payment => if tx.to == tx.from then {} else {Key(tx.to, tx.id, TransferReceipt)}
    case IdleReport => Deliveries(tx.id, r)
    case WorkReport => {}
    case _ =>
      if k.action == ContractFreeze then {Key(tx.to, tx.id, ContractDeal)}
      else if tx.create && k.chain == SC && !r.failed then {Key(env.contractOf(r.output), tx.id, ContractDeal)}
      else {Key(tx.from, tx.id, ContractRefund)} + Deliveries(tx.id, r)
  }

  lemma ReceiversAre(k: Key, r: Receipt)
    requires k.chain.Contract? && forall a :: a in r.flows ==> a.User?
    ensures forall j: Key :: j.id == k.id ==> (j in Deliveries(k.id, r) <==> (j.chain, j.action) in Receivers(k.chain, r))
  {
    forall j: Key | j.id == k.id
      ensures j in Deliveries(k.id, r) <==> (j.chain, j.action) in Receivers(k.chain, r)
    {
      if j in Deliveries(k.id, r) {
        assert (j.chain, ContractReceipt) in Receivers(k.chain, r);
      }
      if (j.chain, j.action) in Receivers(k.chain, r) {
        assert j == Key(j.chain, k.id, ContractReceipt);
      }
    }
  }

  /** The kind fits the action. */
  lemma KindFits(txs: Txs, k: Key, e: TxExec)
    requires GoodKey(txs, k, e) && Front(k.action)
    ensures k.action == TransferPayment <==> KindOf(e.tx) == Payment
    ensures k.action == SCIdleContractDeal <==> KindOf(e.tx) == IdleReport
    ensures k.action == PowTxContractDeal <==> KindOf(e.tx) == WorkReport
    ensures k.action == ContractDeal ==> e.tx.gas > 0
  {
  }

  /** The receipt is fit to be passed on: payments and freezes do not fail, and deals pay users only. */
  predicate ReceiptFits(k: Key, r: Receipt) {
    && (k.action == TransferPayment || k.action == ContractFreeze ==> !r.failed)
    && (IsDeal(k.action) ==> k.chain.Contract? && forall a :: a in r.flows ==> a.User?)
  }

  lemma RanFits(env: Env, s: Sys, k: Key, pool: nat, used: nat, header: Header)
    requires EnvOk(env) && Inv(s) && CanExec(env, s, k, pool, used, header)
    ensures ReceiptFits(k, OutcomeOf(env, s, k, pool, used, header).receipt)
  {
    hide ApplyPayment, ApplyFreeze, ApplyToContract, OwnBalance, EffectBy, NoStaleGain, BaseAbove, ChainsOk, MarksOk,
      FrontAlone;
    var e := s.pending[k];
    assert GoodKey(s.txs, k, e);
    match k.action
    case TransferPayment => PaymentAccount(env, ChainDb(s, k.chain), pool, used, e.tx, header);
    case ContractFreeze => FreezeAccount(env, ChainDb(s, k.chain), pool, used, e.tx, header);
    case _ =>
      if IsDeal(k.action) {
        RanDeal(env, s, k, pool, used, header);
      }
  }

  lemma EmitsOnward(env: Env, txs: Txs, k: Key, e: TxExec, r: Receipt)
    requires GoodKey(txs, k, e) && Front(k.action) && ReceiptFits(k, r)
    ensures Emitted(env, k, e, r).Keys == Onward(env, e.tx, k, r)
  {
    hide GoodKey, Receivers, Deliveries;
    KindFits(txs, k, e);
    SameId(txs, k, e);
    if IsDeal(k.action) {
      ReceiversAre(k, r);
    }
    forall j
      ensures j in Emitted(env, k, e, r).Keys <==> j in Onward(env, e.tx, k, r)
    {
      hide Emitted;
      DeliveriesHave(k.id, r, j);
    }
  }

  lemma SameId(txs: Txs, k: Key, e: TxExec)
    requires GoodKey(txs, k, e)
    ensures e.tx.id == k.id
  {
  }

  lemma DeliveriesHave(id: nat, r: Receipt, j: Key)
    ensures j in Deliveries(id, r) ==> j.id == id
  {
  }

  /** Once an action other than a receipt or refund has run, exactly these actions of its transaction are in flight. */
  lemma GoesOnward(env: Env, s: Sys, k: Key, pool: nat, used: nat, header: Header)
    requires EnvOk(env) && Inv(s) && CanExec(env, s, k, pool, used, header) && Front(k.action)
    ensures var r := OutcomeOf(env, s, k, pool, used, header).receipt;
            forall j :: j in Exec(env, s, k, pool, used, header).pending && j.id == k.id
                   <==> j in Onward(env, s.pending[k].tx, k, r)
  {
    hide Exec, OutcomeOf, Emitted, Onward, EnvOk, ChainsOk, MarksOk, FrontAlone, ReceiptFits, GoodKey, CanExec;
    RanFits(env, s, k, pool, used, header);
    InFlightIsGood(env, s, k, pool, used, header);
    var r := OutcomeOf(env, s, k, pool, used, header).receipt;
    EmitsOnward(env, s.txs, k, s.pending[k], r);
    AloneInFlight(s, k);
    ExecPending(env, s, k, pool, used, header);
    OnwardIds(env, s.pending[k].tx, k, r);
    SameId(s.txs, k, s.pending[k]);
  }

  lemma InFlightIsGood(env: Env, s: Sys, k: Key, pool: nat, used: nat, header: Header)
    requires EnvOk(env) && Inv(s) && CanExec(env, s, k, pool, used, header)
    ensures k in s.pending && GoodKey(s.txs, k, s.pending[k])
  {
    hide ChainsOk, MarksOk, FrontAlone, GoodKey;
  }

  lemma OnwardIds(env: Env, tx: Tx, k: Key, r: Receipt)
    ensures forall j :: j in Onward(env, tx, k, r) ==> j.id == tx.id
  {
  }

  /** A receipt or refund is the end of its way: it only leaves. */
  lemma CreditEnds(env: Env, s: Sys, k: Key, pool: nat, used: nat, header: Header)
    requires EnvOk(env) && CanExec(env, s, k, pool, used, header) && IsCredit(k.action)
    ensures Exec(env, s, k, pool, used, header).pending == s.pending - {k}
  {
    hide Exec, OutcomeOf, EnvOk, ProcessTransaction, Emitted;
    ExecPending(env, s, k, pool, used, header);
    var p := Emitted(env, k, s.pending[k], OutcomeOf(env, s, k, pool, used, header).receipt);
    assert p == map[];
  }

  // ---- any receipt ----------------------------------------------------------------------------------------------------

  /** What an action is caused by, whatever the receipt says: a receipt by a payment to another that did not fail, a flow
      by a deal that pays the account, other than its own chain, a refund by the last deal of a transaction with gas, a
      deal by a freeze or by the first stage of a deployment, neither of which failed; and nothing else is caused. */
  lemma CausedBy(env: Env, mc: Address, action: TxAction, r: Receipt, tx: Tx, c: Address, a: TxAction)
    ensures var first := mc == SC && tx.create && !r.failed;
            (c, a) in NextActions(env, mc, action, r, tx)
            <==> match a
                 case TransferReceipt => action == TransferPayment && !r.failed && c == tx.to && c != tx.from
                 case ContractReceipt =>
                   c in r.flows && c != mc && (action == SCIdleContractDeal || (action == ContractDeal && !first))
                 case ContractRefund => action == ContractDeal && !first && c == tx.from && tx.gas > 0
                 case ContractDeal =>
                   || (action == ContractFreeze && !r.failed && c == tx.to)
                   || (action == ContractDeal && first && c == env.contractOf(r.output))
                 case _ => false
  {
  }
}
