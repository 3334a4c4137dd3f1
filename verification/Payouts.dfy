/** The payout provider of app/payouts.py: the contract, and the clock-driven mock that meets it. */
module Payouts {
  import opened Wrappers
  import opened Models

  datatype ProviderStatus = ProviderStatus(status: PayoutStatus, failureReason: Option<string>)

  const PENDING := ProviderStatus(PayoutPending, None)

  datatype BankPayout<K> = BankPayout(key: K, amount: Cents, outcome: ProviderStatus)

  /** What a provider remembers: the reference it gave each key, and each reference's payout. */
  datatype Bank<K(==)> = Bank(refs: map<K, Ref>, payouts: map<Ref, BankPayout<K>>)

  function EmptyBank<K>(): Bank<K> {
    Bank(map[], map[])
  }

  /** pending, then submitted, then an outcome. */
  function Rank(status: PayoutStatus): nat {
    match status
    case PayoutPending => 0
    case PayoutSubmitted => 1
    case _ => 2
  }

  predicate Terminal(status: PayoutStatus) {
    status == PayoutCompleted || status == PayoutFailed
  }

  /** How a payout's answer may move: forwards, and never once it is an outcome. */
  predicate Follows(before: ProviderStatus, after: ProviderStatus) {
    && Rank(before.status) <= Rank(after.status)
    && (Terminal(before.status) ==> after == before)
  }

  /** Each reference belongs to one key and each key to one reference. */
  ghost predicate BankOk<K(!new)>(b: Bank<K>) {
    && (forall k :: k in b.refs ==> b.refs[k] in b.payouts && b.payouts[b.refs[k]].key == k)
    && (forall r :: r in b.payouts ==> b.payouts[r].key in b.refs && b.refs[b.payouts[r].key] == r)
  }

  /** `create`: the same key returns the same payout; a new key gets `newRef`, a reference not yet given. */
  function Create<K>(b: Bank<K>, key: K, amount: Cents, newRef: Ref): (Bank<K>, Ref) {
    if key in b.refs then (b, b.refs[key])
    else (Bank(b.refs[key := newRef], b.payouts[newRef := BankPayout(key, amount, PENDING)]), newRef)
  }

  /** The payout behind `ref` moves on, if it may. */
  function Progress<K>(b: Bank<K>, ref: Ref, to: ProviderStatus): Bank<K> {
    if ref in b.payouts && Follows(b.payouts[ref].outcome, to) then
      b.(payouts := b.payouts[ref := b.payouts[ref].(outcome := to)])
    else b
  }

  /** What a bank never forgets or rewrites. */
  ghost predicate BankEvolves<K(!new)>(b: Bank<K>, b': Bank<K>) {
    && (forall k :: k in b.refs ==> k in b'.refs && b'.refs[k] == b.refs[k])
    && (forall r :: r in b.payouts ==>
          && r in b'.payouts
          && b'.payouts[r].key == b.payouts[r].key
          && b'.payouts[r].amount == b.payouts[r].amount
          && Follows(b.payouts[r].outcome, b'.payouts[r].outcome))
  }

  lemma CreateKeeps<K(!new)>(b: Bank<K>, key: K, amount: Cents, newRef: Ref)
    requires BankOk(b) && (key in b.refs || newRef !in b.payouts)
    ensures var (b', ref) := Create(b, key, amount, newRef);
            && BankOk(b') && BankEvolves(b, b')
            && key in b'.refs && b'.refs[key] == ref
            && b'.refs.Keys == b.refs.Keys + {key}
            && Create(b', key, amount, newRef) == (b', ref)
  {
  }

  lemma ProgressKeeps<K(!new)>(b: Bank<K>, ref: Ref, to: ProviderStatus)
    requires BankOk(b)
    ensures BankOk(Progress(b, ref, to)) && BankEvolves(b, Progress(b, ref, to))
    ensures Progress(b, ref, to).refs == b.refs
  {
  }
}
