/**
 The mock provider of app/payouts.py: the amount and the creation time travel in the reference, and the
 clock does the rest. It keeps the provider's contract (Payouts.Bank) while its references stay distinct.
 */
module MockProvider {
  import opened Wrappers
  import opened Models
  import opened Payouts
  import Fees
  import Rand

  const SUBMITTED_AFTER := 1.5
  const COMPLETED_AFTER := 3.0
  const REF_PREFIX := "mockpo"

  datatype Error = NotPositive | NoKey | Unknown

  /** The payout amounts that fail, with their reasons. */
  function FailureTrigger(amount: nat): Option<string> {
    if amount == 39_487 then Some("bank_processing_error")
    else if amount == 39_585 then Some("limit_exceeded")
    else if amount == 39_682 then Some("bank_unavailable")
    else None
  }

  // --- the reference ----------------------------------------------------------------------------------

  function RefText(amount: nat, createdMs: nat, tag: string): Ref {
    REF_PREFIX + "_" + Rand.Digits(amount) + "_" + Rand.Digits(createdMs) + "_" + tag
  }

  /** `split("_")`. */
  function Split(s: string): seq<string> {
    var n := Until(s);
    if n == |s| then [s] else [s[..n]] + Split(s[n + 1..])
  }

  function Until(s: string): (n: nat)
    ensures n <= |s| && (n < |s| ==> s[n] == '_')
  {
    if s == "" || s[0] == '_' then 0 else 1 + Until(s[1..])
  }

  predicate IsNumber(s: string) {
    s != "" && Rand.AllDigits(s)
  }

  /** `_decode`: the amount and the creation time, in milliseconds. */
  function Decode(ref: Ref): Option<(nat, nat)> {
    var parts := Split(ref);
    if |parts| == 4 && parts[0] == REF_PREFIX && IsNumber(parts[1]) && IsNumber(parts[2]) then
      Some((Rand.Value(parts[1]), Rand.Value(parts[2])))
    else None
  }

  lemma {:induction false} SplitFirst(head: string, rest: string)
    requires '_' !in head
    ensures Until(head) == |head|
    ensures Split(head + "_" + rest) == [head] + Split(rest)
  {
    UntilFirst(head, rest);
    assert (head + "_" + rest)[..|head|] == head && (head + "_" + rest)[|head| + 1..] == rest;
  }

  lemma {:induction false} UntilFirst(head: string, rest: string)
    requires '_' !in head
    ensures Until(head) == |head| && Until(head + "_" + rest) == |head|
  {
    if head != "" {
      UntilFirst(head[1..], rest);
      assert (head + "_" + rest)[1..] == head[1..] + "_" + rest;
    }
  }

  lemma {:induction false} UntilStops(s: string)
    ensures '_' !in s[..Until(s)]
    ensures s == if Until(s) == |s| then s[..Until(s)] else s[..Until(s)] + "_" + s[Until(s) + 1..]
  {
    if s != "" && s[0] != '_' {
      UntilStops(s[1..]);
      assert s[..Until(s)] == [s[0]] + s[1..][..Until(s[1..])];
    }
  }

  /** What a reference must read like to be known at all, and what is read off it. */
  lemma KnownReferences(ref: Ref)
    ensures match Decode(ref)
            case Some((amount, createdMs)) =>
              exists a, c, tag ::
                && ref == "mockpo" + "_" + (a + "_" + (c + "_" + tag)) && '_' !in tag
                && a != "" && c != "" && Rand.AllDigits(a) && Rand.AllDigits(c)
                && Rand.Value(a) == amount && Rand.Value(c) == createdMs
            case None =>
              forall a, c, tag :: a != "" && c != "" && Rand.AllDigits(a) && Rand.AllDigits(c) && '_' !in tag ==>
                ref != "mockpo" + "_" + (a + "_" + (c + "_" + tag))
  {
    hide Split, Rand.Value;
    match Decode(ref)
    case Some(_) =>
      var parts := Split(ref);
      SplitBack(ref);
      assert ref == "mockpo" + "_" + (parts[1] + "_" + (parts[2] + "_" + parts[3]));
    case None =>
      forall a, c, tag | a != "" && c != "" && Rand.AllDigits(a) && Rand.AllDigits(c) && '_' !in tag
        ensures ref != "mockpo" + "_" + (a + "_" + (c + "_" + tag))
      {
        SplitFour("mockpo", a, c, tag);
      }
  }

  lemma SplitBack(s: string)
    requires |Split(s)| == 4
    ensures var parts := Split(s);
            s == parts[0] + "_" + (parts[1] + "_" + (parts[2] + "_" + parts[3])) && '_' !in parts[3]
  {
    var a := SplitOff(s);
    var b := SplitOff(a);
    var c := SplitOff(b);
    hide Until;
    UntilStops(c);
  }

  lemma SplitOff(s: string) returns (rest: string)
    requires |Split(s)| > 1
    ensures s == Split(s)[0] + "_" + rest && Split(rest) == Split(s)[1..]
  {
    UntilStops(s);
    rest := s[Until(s) + 1..];
  }

  /** Decoding a reference gives back what it was made from. */
  lemma DecodesBack(amount: nat, createdMs: nat, tag: string)
    requires '_' !in tag
    ensures Split(RefText(amount, createdMs, tag)) == [REF_PREFIX, Rand.Digits(amount), Rand.Digits(createdMs), tag]
    ensures Decode(RefText(amount, createdMs, tag)) == Some((amount, createdMs))
  {
    hide Split, Rand.Digits, Rand.Value;
    var a, c := Rand.Digits(amount), Rand.Digits(createdMs);
    Rand.DigitsValue(amount);
    Rand.DigitsValue(createdMs);
    Joined(REF_PREFIX, a, c, tag);
    SplitFour(REF_PREFIX, a, c, tag);
  }

  lemma Joined(first: string, second: string, third: string, fourth: string)
    ensures first + "_" + second + "_" + third + "_" + fourth == first + "_" + (second + "_" + (third + "_" + fourth))
  {
  }

  lemma SplitLast(part: string)
    requires '_' !in part
    ensures Split(part) == [part]
  {
    UntilFirst(part, "");
  }

  lemma SplitFour(first: string, second: string, third: string, fourth: string)
    requires '_' !in first && '_' !in second && '_' !in third && '_' !in fourth
    ensures Split(first + "_" + (second + "_" + (third + "_" + fourth))) == [first, second, third, fourth]
  {
    hide Split, Until;
    SplitLast(fourth);
    SplitFirst(third, fourth);
    SplitFirst(second, third + "_" + fourth);
    SplitFirst(first, second + "_" + (third + "_" + fourth));
  }

  /** Two references are equal exactly when amount, millisecond and tag all are. */
  lemma ReferencesDiffer(amount: nat, ms: nat, tag: string, amount': nat, ms': nat, tag': string)
    requires '_' !in tag && '_' !in tag'
    ensures RefText(amount, ms, tag) == RefText(amount', ms', tag') <==> amount == amount' && ms == ms' && tag == tag'
  {
    DecodesBack(amount, ms, tag);
    DecodesBack(amount', ms', tag');
    if RefText(amount, ms, tag) == RefText(amount', ms', tag') {
      assert Split(RefText(amount, ms, tag))[3] == tag && Split(RefText(amount', ms', tag'))[3] == tag';
    }
  }

  // --- the clock ------------------------------------------------------------------------------------------

  /** `status` for a payout of this amount, created then, asked now. */
  function Answer(amount: nat, createdMs: nat, now: real): ProviderStatus {
    var elapsed := now - createdMs as real / 1000.0;
    if elapsed < SUBMITTED_AFTER then PENDING
    else if elapsed < COMPLETED_AFTER then ProviderStatus(PayoutSubmitted, None)
    else if FailureTrigger(amount).Some? then ProviderStatus(PayoutFailed, FailureTrigger(amount))
    else ProviderStatus(PayoutCompleted, None)
  }

  /** Pending for a second and a half, submitted until three, and then the amount decides. */
  lemma AnswerAt(amount: nat, createdMs: nat, now: real)
    ensures var ms := 1000.0 * now - createdMs as real;
            Answer(amount, createdMs, now) ==
            if ms < 1500.0 then ProviderStatus(PayoutPending, None)
            else if ms < 3000.0 then ProviderStatus(PayoutSubmitted, None)
            else match FailureTrigger(amount)
                 case Some(reason) => ProviderStatus(PayoutFailed, Some(reason))
                 case None => ProviderStatus(PayoutCompleted, None)
  {
  }

  /**
   At a fee of 250 basis points the failing payouts are those of R405, R406 and R407 vouchers, and of the vouchers
   one cent under R405 and R407, whose fee rounds the other way; every other voucher's payout completes.
   */
  lemma FailingVouchers(s: Fees.Settings, amount: nat)
    requires s.feeBasisPoints == 250
    ensures FailureTrigger(Fees.PayoutFor(s, amount)) ==
            if amount == 40_499 || amount == 40_500 then Some("bank_processing_error")
            else if amount == 40_600 then Some("limit_exceeded")
            else if amount == 40_699 || amount == 40_700 then Some("bank_unavailable")
            else None
  {
    Fees.PercentIsNearest(amount, 250, Fees.FeeFor(s, amount));
  }

  /** As the clock runs an answer only moves on, and an outcome never changes. */
  lemma AnswerMovesOn(amount: nat, createdMs: nat, now: real, later: real)
    requires now <= later
    ensures Follows(Answer(amount, createdMs, now), Answer(amount, createdMs, later))
  {
  }

  /** What the provider's memory and the clock amount to, in the contract's terms. */
  ghost predicate Shows(b: Bank<string>, refs: map<string, Ref>, now: real) {
    && BankOk(b) && b.refs == refs
    && forall r :: r in b.payouts ==>
         && Decode(r).Some? && b.payouts[r].amount == Decode(r).value.0
         && b.payouts[r].outcome == Answer(Decode(r).value.0, Decode(r).value.1, now)
  }

  function Ticked(b: Bank<string>, now: real): Bank<string> {
    b.(payouts := map r | r in b.payouts ::
      if Decode(r).Some? then b.payouts[r].(outcome := Answer(Decode(r).value.0, Decode(r).value.1, now))
      else b.payouts[r])
  }

  /** Time passing is the bank moving on: nothing is forgotten and no outcome changes, restart or not. */
  lemma ClockKeepsContract(b: Bank<string>, refs: map<string, Ref>, now: real, later: real)
    requires Shows(b, refs, now) && now <= later
    ensures Shows(Ticked(b, later), refs, later) && BankEvolves(b, Ticked(b, later))
  {
    forall r | r in b.payouts
      ensures Follows(b.payouts[r].outcome, Ticked(b, later).payouts[r].outcome)
    {
      AnswerMovesOn(Decode(r).value.0, Decode(r).value.1, now, later);
    }
  }

  /** Giving a new key a new reference, just made, is the contract's `Create`; an old key's is a repeat. */
  lemma CreateShows(b: Bank<string>, refs: map<string, Ref>, key: string, amount: nat, ref: Ref, now: real)
    requires Shows(b, refs, now) && (if key in refs then refs[key] == ref else ref !in b.payouts)
    requires key !in refs ==> exists ms :: Decode(ref) == Some((amount, ms)) && Answer(amount, ms, now) == PENDING
    ensures Payouts.Create(b, key, amount, ref).1 == ref
    ensures Shows(Payouts.Create(b, key, amount, ref).0, refs[key := ref], now)
  {
    CreateKeeps(b, key, amount, ref);
  }

  lemma ShownKeys(b: Bank<string>, refs: map<string, Ref>, now: real)
    requires Shows(b, refs, now)
    ensures b.refs == refs
  {
  }

  /** No two keys were given one reference. */
  predicate Apart(refs: map<string, Ref>) {
    forall k, j :: k in refs && j in refs && refs[k] == refs[j] ==> k == j
  }

  predicate AllDecode(refs: map<string, Ref>) {
    forall k :: k in refs ==> Decode(refs[k]).Some?
  }

  function Remembered(refs: map<string, Ref>, now: real): Bank<string>
    requires Apart(refs) && AllDecode(refs)
  {
    Bank(refs, map k | k in refs :: refs[k] := Recalled(refs, k, now))
  }

  /** Exactly when the mock keeps the provider's contract: while no two keys share a reference. */
  lemma KeepsContractIff(refs: map<string, Ref>, now: real)
    requires AllDecode(refs)
    ensures (exists b :: Shows(b, refs, now)) <==> Apart(refs)
  {
    hide Shows, Remembered;
    if Apart(refs) {
      RememberedShows(refs, now);
      assert Shows(Remembered(refs, now), refs, now);
    }
    forall b | Shows(b, refs, now)
      ensures Apart(refs)
    {
      ShownApart(b, refs, now);
    }
  }

  lemma ShownApart(b: Bank<string>, refs: map<string, Ref>, now: real)
    requires Shows(b, refs, now)
    ensures Apart(refs)
  {
    hide Decode, Answer;
  }

  predicate Given(refs: map<string, Ref>, r: Ref) {
    exists k :: k in refs && refs[k] == r
  }

  function Recalled(refs: map<string, Ref>, k: string, now: real): BankPayout<string>
    requires AllDecode(refs) && k in refs
  {
    BankPayout(k, Decode(refs[k]).value.0, Answer(Decode(refs[k]).value.0, Decode(refs[k]).value.1, now))
  }

  lemma RememberedIs(refs: map<string, Ref>, now: real)
    requires Apart(refs) && AllDecode(refs)
    ensures var b := Remembered(refs, now);
            && b.refs == refs
            && (forall r :: r in b.payouts ==> Given(refs, r))
            && (forall k :: k in refs ==> refs[k] in b.payouts && b.payouts[refs[k]] == Recalled(refs, k, now))
  {
    hide Decode, Answer;
    forall r | r in Remembered(refs, now).payouts
      ensures Given(refs, r)
    {
      var k :| k in refs && refs[k] == r;
    }
  }

  lemma EntriesShow(b: Bank<string>, refs: map<string, Ref>, now: real)
    requires AllDecode(refs) && b.refs == refs
    requires forall r :: r in b.payouts ==> Given(refs, r)
    requires forall k :: k in refs ==> refs[k] in b.payouts && b.payouts[refs[k]] == Recalled(refs, k, now)
    ensures Shows(b, refs, now)
  {
    hide Decode, Answer, AllDecode;
    forall r | r in b.payouts
      ensures b.payouts[r].key in refs && refs[b.payouts[r].key] == r && Decode(r).Some?
      ensures b.payouts[r].amount == Decode(r).value.0
      ensures b.payouts[r].outcome == Answer(Decode(r).value.0, Decode(r).value.1, now)
    {
      assert Given(refs, r);
      var k :| k in refs && refs[k] == r;
      Decodes(refs, k);
    }
  }

  lemma RememberedShows(refs: map<string, Ref>, now: real)
    requires Apart(refs) && AllDecode(refs)
    ensures Shows(Remembered(refs, now), refs, now)
  {
    RememberedIs(refs, now);
    hide Remembered, Shows, Given, Recalled, Apart, AllDecode;
    EntriesShow(Remembered(refs, now), refs, now);
  }

  lemma Decodes(refs: map<string, Ref>, k: string)
    requires AllDecode(refs) && k in refs
    ensures Decode(refs[k]).Some?
  {
  }

  class MockPayoutProvider {
    var refsByKey: map<string, Ref>
    /** The first ten hex digits of the key's SHA-256. */
    const tag: string -> string

    ghost predicate Valid()
      reads this
    {
      (forall key :: '_' !in tag(key)) && AllDecode(refsByKey)
    }

    constructor (tag: string -> string)
      requires forall key :: '_' !in tag(key)
      ensures Valid() && refsByKey == map[] && this.tag == tag
    {
      refsByKey := map[];
      this.tag := tag;
    }

    /**
     `create`: the same key gets the same reference; a new key gets a new one, still pending. While no
     other key was given that reference, this is the contract's `Create`.
     */
    method Create(amount: int, key: string, now: real) returns (r: Result<Ref, Error>)
      requires Valid() && now >= 0.0
      modifies this`refsByKey
      ensures Valid()
      ensures r.Err? ==> refsByKey == old(refsByKey) && r.error == (if amount <= 0 then NotPositive else NoKey)
      ensures r.Err? <==> amount <= 0 || key == ""
      ensures r.Ok? ==>
                && key in refsByKey && refsByKey[key] == r.value
                && (key in old(refsByKey) ==> refsByKey == old(refsByKey))
                && (key !in old(refsByKey) ==>
                      && refsByKey == old(refsByKey)[key := r.value]
                      && r.value == RefText(amount, (now * 1000.0).Floor, tag(key)))
      ensures forall b :: r.Ok? && Shows(b, old(refsByKey), now) && (key in b.refs || r.value !in b.payouts) ==>
                Payouts.Create(b, key, amount, r.value).1 == r.value
                && Shows(Payouts.Create(b, key, amount, r.value).0, refsByKey, now)
    {
      if amount <= 0 {
        return Err(NotPositive);
      }
      if key == "" {
        return Err(NoKey);
      }
      hide Shows, Decode;
      if key in refsByKey {
        assert refsByKey[key := refsByKey[key]] == refsByKey;
        forall b | Shows(b, refsByKey, now)
          ensures Payouts.Create(b, key, amount, refsByKey[key]).1 == refsByKey[key]
          ensures Shows(Payouts.Create(b, key, amount, refsByKey[key]).0, refsByKey, now)
        {
          CreateShows(b, refsByKey, key, amount, refsByKey[key], now);
        }
        return Ok(refsByKey[key]);
      }
      var createdMs := (now * 1000.0).Floor;
      var ref := RefText(amount, createdMs, tag(key));
      DecodesBack(amount, createdMs, tag(key));
      assert Answer(amount, createdMs, now) == PENDING;
      forall b | Shows(b, refsByKey, now) && (key in b.refs || ref !in b.payouts)
        ensures Payouts.Create(b, key, amount, ref).1 == ref
        ensures Shows(Payouts.Create(b, key, amount, ref).0, refsByKey[key := ref], now)
      {
        ShownKeys(b, refsByKey, now);
        CreateShows(b, refsByKey, key, amount, ref, now);
      }
      refsByKey := refsByKey[key := ref];
      r := Ok(ref);
    }

    /** `status`: decoded from the reference alone, so it answers after a restart. */
    method Status(ref: Ref, now: real) returns (r: Result<ProviderStatus, Error>)
      ensures r == match Decode(ref)
                   case None => Err(Unknown)
                   case Some((amount, createdMs)) => Ok(Answer(amount, createdMs, now))
      ensures forall b :: Shows(b, refsByKey, now) && ref in b.payouts ==> r == Ok(b.payouts[ref].outcome)
    {
      match Decode(ref)
      case None =>
        r := Err(Unknown);
      case Some((amount, createdMs)) =>
        r := Ok(Answer(amount, createdMs, now));
    }
  }
}
