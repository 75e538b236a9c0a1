/** The transaction pool: validation outside its lock, commits under it, eviction, removal for a
  block, and the orphan pool.
*/
module Mempool {
  import opened Wire
  import opened ChainCfg
  import opened Ledger
  import opened PoolDag

  const MAX_STANDARD_TX_SIZE := 100_000
  const MIN_RELAY_FEE_PER_KB := 1_000

  /** Code outside the pool: serialised size and the policy on scripts. */
  datatype Policy = Policy(size: Tx -> int, standard: Tx -> bool, inputStandard: (Tx, nat, Script) -> bool)

  /** What a validator saw when it looked one input up: the three reads happen one after another,
    without the lock, so each input may meet a different pool and a different chain. */
  datatype Glimpse = Glimpse(spent: map<OutPoint, TxId>, utxo: UtxoSet, entries: map<TxId, Pooled>)

  datatype Refusal = Missing(deps: seq<OutPoint>) | Invalid

  datatype AddError = Orphaned | Refused

  // ----- What a hash says about an output -----

  function NamedOut(k: OutPoint): Option<TxOut> {
    if k.hash.HashOf? && k.index < |k.hash.tx.outs| then Some(k.hash.tx.outs[k.index]) else None
  }

  function NamedValue(k: OutPoint): int {
    if NamedOut(k).Some? then NamedOut(k).value.value as int else 0
  }

  function NamedIn(ins: seq<TxIn>, n: nat): int
    requires n <= |ins|
  {
    if n == 0 then 0 else NamedIn(ins, n - 1) + NamedValue(ins[n - 1].prev)
  }

  function NamedOps(rules: TxRules, tx: Tx, n: nat): nat
    requires n <= |tx.ins|
  {
    if n == 0 then 0
    else
      var out := NamedOut(tx.ins[n - 1].prev);
      var ops := if out.Some? then rules.spendSigOps(tx, n - 1, out.value.pkScript) else None;
      NamedOps(rules, tx, n - 1) + (if ops.Some? then ops.value else 0)
  }

  /** Input j names a real output and verifies against it; no earlier input spends the same one. */
  ghost predicate NamedOk(rules: TxRules, tx: Tx, j: nat)
    requires j < |tx.ins|
  {
    var out := NamedOut(tx.ins[j].prev);
    && out.Some? && MoneyRange(out.value.value)
    && rules.spendSigOps(tx, j, out.value.pkScript).Some?
    && tx.ins[j].prev !in InKeys(tx.ins, j)
    && 0 <= NamedIn(tx.ins, j + 1) <= MAX_MONEY as int
  }

  /** What validation establishes whatever the pool and the chain did meanwhile: all of it is
    decided by the hashes the transaction commits to. */
  ghost predicate Sound(rules: TxRules, tx: Tx, fee: int) {
    && |tx.ins| > 0 && |tx.outs| > 0 && !IsCoinbase(tx)
    && OutputsOk(tx.outs, |tx.outs|)
    && (forall j :: 0 <= j < |tx.ins| ==> NamedOk(rules, tx, j))
    && OutOps(rules, tx.outs, |tx.outs|) + NamedOps(rules, tx, |tx.ins|) <= MAX_TX_SIG_OPS
    && fee == NamedIn(tx.ins, |tx.ins|) - SumOut(tx.outs, |tx.outs|) >= 0
  }

  ghost predicate Vetted(rules: TxRules, policy: Policy, e: Pooled) {
    && e.txid == HashOf(e.tx)
    && Sound(rules, e.tx, e.fee as int)
    && e.size == policy.size(e.tx) && 0 < e.size <= MAX_STANDARD_TX_SIZE && policy.standard(e.tx)
    && MeetsMinRelayFee(e.fee, e.size)
  }

  ghost predicate AllVetted(rules: TxRules, policy: Policy, entries: map<TxId, Pooled>) {
    forall id :: id in entries ==> id == entries[id].txid && Vetted(rules, policy, entries[id])
  }

  ghost predicate GlimpseOk(rules: TxRules, policy: Policy, g: Glimpse) {
    Sane(g.utxo) && AllVetted(rules, policy, g.entries)
  }

  predicate MeetsMinRelayFee(fee: int64, size: int) {
    size > 0 && fee as int >= (size * MIN_RELAY_FEE_PER_KB + 999) / 1000
  }

  function FeeRatePerKB(fee: int64, size: int): int {
    if size <= 0 then 0 else (fee as int * 1000 + size - 1) / size
  }

  function Rate(e: Pooled): int {
    FeeRatePerKB(e.fee, e.size)
  }

  /** The rate is the fee per thousand bytes, rounded up. */
  lemma RateIsCeiling(e: Pooled)
    requires e.size > 0 && e.fee >= 0
    ensures (Rate(e) - 1) * e.size < e.fee as int * 1000 <= Rate(e) * e.size
  {
    var n := e.fee as int * 1000 + e.size - 1;
    assert n == n / e.size * e.size + n % e.size;
  }

  /** The relay rule asks for one unit per byte. */
  lemma RelayFeeIs(fee: int64, size: int)
    ensures MeetsMinRelayFee(fee, size) <==> size > 0 && fee as int >= size
  {
  }

  // ----- Validation outside the lock -----

  /** The output an input finds: the chain first, then an unconfirmed parent. */
  function Resolve(g: Glimpse, k: OutPoint, nextHeight: int): Option<Entry> {
    if k in g.utxo then Some(g.utxo[k])
    else if k.hash in g.entries && k.index < |g.entries[k.hash].tx.outs|
    then Some(OutEntry(g.entries[k.hash].tx, k.index, nextHeight, false))
    else None
  }

  /** Wherever an output is found, it is the one its outpoint names. */
  lemma ResolvedIsNamed(rules: TxRules, policy: Policy, g: Glimpse, k: OutPoint, nextHeight: int)
    requires GlimpseOk(rules, policy, g)
    ensures var found := Resolve(g, k, nextHeight);
      found.Some? ==>
        && NamedOut(k).Some? && MoneyRange(found.value.value)
        && found.value.value == NamedOut(k).value.value && found.value.pkScript == NamedOut(k).value.pkScript
  {
    if k in g.utxo {
      assert EntrySane(k, g.utxo[k]);
    } else if k.hash in g.entries {
      var outs := g.entries[k.hash].tx.outs;
      OutputsOkRange(outs, |outs|);
    }
  }

  /** One and the same glimpse for every input: nothing else runs during validation. */
  function Undisturbed(tx: Tx, g: Glimpse): seq<Glimpse> {
    seq(|tx.ins|, i => g)
  }

  /** Input j passes on its glimpse, or is missing and otherwise unobjectionable. */
  predicate InputPasses(rules: TxRules, policy: Policy, g: Glimpse, tx: Tx, j: nat, nextHeight: int)
    requires j < |tx.ins|
  {
    var key := tx.ins[j].prev;
    var found := Resolve(g, key, nextHeight);
    && key !in InKeys(tx.ins, j)
    && key !in g.spent
    && (found.Some? ==>
          && Mature(found.value, nextHeight)
          && rules.spendSigOps(tx, j, found.value.pkScript).Some?
          && policy.inputStandard(tx, j, found.value.pkScript))
  }

  function FoundIn(gs: seq<Glimpse>, tx: Tx, n: nat, nextHeight: int): int
    requires n <= |tx.ins| == |gs|
  {
    if n == 0 then 0
    else
      var found := Resolve(gs[n - 1], tx.ins[n - 1].prev, nextHeight);
      FoundIn(gs, tx, n - 1, nextHeight) + if found.Some? then found.value.value as int else 0
  }

  function FoundOps(rules: TxRules, gs: seq<Glimpse>, tx: Tx, n: nat, nextHeight: int): nat
    requires n <= |tx.ins| == |gs|
  {
    if n == 0 then 0
    else
      var found := Resolve(gs[n - 1], tx.ins[n - 1].prev, nextHeight);
      var ops := if found.Some? then rules.spendSigOps(tx, n - 1, found.value.pkScript) else None;
      FoundOps(rules, gs, tx, n - 1, nextHeight) + if ops.Some? then ops.value else 0
  }

  /** The inputs, in order: each passes, and the running totals stay in range. */
  predicate InputsPass(rules: TxRules, policy: Policy, gs: seq<Glimpse>, tx: Tx, n: nat, nextHeight: int)
    requires n <= |tx.ins| == |gs|
  {
    n == 0 ||
    (&& InputsPass(rules, policy, gs, tx, n - 1, nextHeight)
     && InputPasses(rules, policy, gs[n - 1], tx, n - 1, nextHeight)
     && (Resolve(gs[n - 1], tx.ins[n - 1].prev, nextHeight).Some? ==>
           && FoundIn(gs, tx, n, nextHeight) <= MAX_MONEY as int
           && OutOps(rules, tx.outs, |tx.outs|) + FoundOps(rules, gs, tx, n, nextHeight) <= MAX_TX_SIG_OPS))
  }

  lemma {:induction false} InputsPassPrefix(rules: TxRules, policy: Policy, gs: seq<Glimpse>, tx: Tx, m: nat, n: nat, nextHeight: int)
    requires m <= n <= |tx.ins| == |gs| && InputsPass(rules, policy, gs, tx, n, nextHeight)
    ensures InputsPass(rules, policy, gs, tx, m, nextHeight)
    decreases n
  {
    if m < n {
      InputsPassPrefix(rules, policy, gs, tx, m, n - 1, nextHeight);
    }
  }

  /** The inputs among the first n whose output was nowhere to be found. */
  function MissingKeys(gs: seq<Glimpse>, tx: Tx, n: nat, nextHeight: int): seq<OutPoint>
    requires n <= |tx.ins| == |gs|
  {
    if n == 0 then []
    else
      var key, front := tx.ins[n - 1].prev, MissingKeys(gs, tx, n - 1, nextHeight);
      if Resolve(gs[n - 1], key, nextHeight).None? then front + [key] else front
  }

  lemma {:induction false} MissingAreInputs(gs: seq<Glimpse>, tx: Tx, n: nat, nextHeight: int)
    requires n <= |tx.ins| == |gs|
    ensures forall k :: k in MissingKeys(gs, tx, n, nextHeight) ==> k in InKeys(tx.ins, n)
    ensures MissingKeys(gs, tx, n, nextHeight) == []
       <==> forall j :: 0 <= j < n ==> Resolve(gs[j], tx.ins[j].prev, nextHeight).Some?
  {
    hide Resolve;
    if n > 0 {
      MissingAreInputs(gs, tx, n - 1, nextHeight);
    }
  }

  /** Everything the validator asks for; the fee is what the inputs found bring in over the
    outputs. */
  ghost predicate Passes(rules: TxRules, policy: Policy, gs: seq<Glimpse>, tx: Tx, nextHeight: int, time: uint32)
    requires |tx.ins| == |gs|
  {
    && |tx.ins| > 0 && |tx.outs| > 0
    && !(|tx.ins| == 1 && tx.ins[0].prev.hash == ZeroTxId)
    && OutputsOk(tx.outs, |tx.outs|)
    && IsFinalizedTx(tx, nextHeight, time)
    && InputsPass(rules, policy, gs, tx, |tx.ins|, nextHeight)
  }

  /** Summing found outputs is summing named ones. */
  lemma {:induction false} FoundIsNamed(rules: TxRules, policy: Policy, gs: seq<Glimpse>, tx: Tx, n: nat, nextHeight: int)
    requires n <= |tx.ins| == |gs| && forall j :: 0 <= j < |gs| ==> GlimpseOk(rules, policy, gs[j])
    requires InputsPass(rules, policy, gs, tx, n, nextHeight)
    requires forall j :: 0 <= j < n ==> Resolve(gs[j], tx.ins[j].prev, nextHeight).Some?
    ensures FoundIn(gs, tx, n, nextHeight) == NamedIn(tx.ins, n) >= 0
    ensures FoundOps(rules, gs, tx, n, nextHeight) == NamedOps(rules, tx, n)
    ensures forall j :: 0 <= j < n ==> NamedOk(rules, tx, j)
  {
    hide GlimpseOk, Resolve, NamedOut, InKeys;
    if n > 0 {
      FoundIsNamed(rules, policy, gs, tx, n - 1, nextHeight);
      ResolvedIsNamed(rules, policy, gs[n - 1], tx.ins[n - 1].prev, nextHeight);
    }
  }

  /** Whatever each input met, a transaction that passes with nothing missing is sound. */
  lemma PassingIsSound(rules: TxRules, policy: Policy, gs: seq<Glimpse>, tx: Tx, nextHeight: int, time: uint32, fee: int)
    requires |tx.ins| == |gs| && forall j :: 0 <= j < |gs| ==> GlimpseOk(rules, policy, gs[j])
    requires Passes(rules, policy, gs, tx, nextHeight, time)
    requires MissingKeys(gs, tx, |tx.ins|, nextHeight) == []
    requires fee == FoundIn(gs, tx, |tx.ins|, nextHeight) - SumOut(tx.outs, |tx.outs|) >= 0
    ensures Sound(rules, tx, fee)
  {
    hide GlimpseOk, Resolve, OutputsOk, NamedOk;
    MissingAreInputs(gs, tx, |tx.ins|, nextHeight);
    FoundIsNamed(rules, policy, gs, tx, |tx.ins|, nextHeight);
  }

  /** What passing asks of an input that was found: nobody in the pool spends it, it verifies, and it
    will be a hundred blocks old if a coinbase made it. */
  lemma PassingInput(rules: TxRules, policy: Policy, gs: seq<Glimpse>, tx: Tx, nextHeight: int, time: uint32, j: nat)
    requires |tx.ins| == |gs| && j < |tx.ins| && Passes(rules, policy, gs, tx, nextHeight, time)
    ensures tx.ins[j].prev !in gs[j].spent
    ensures forall k :: 0 <= k < j ==> tx.ins[k].prev != tx.ins[j].prev
    ensures var found := Resolve(gs[j], tx.ins[j].prev, nextHeight);
      found.Some? ==>
        && (found.value.coinbase ==> nextHeight - found.value.height >= 100)
        && rules.spendSigOps(tx, j, found.value.pkScript).Some? && policy.inputStandard(tx, j, found.value.pkScript)
  {
    InputsPassPrefix(rules, policy, gs, tx, j + 1, |tx.ins|, nextHeight);
    assert InputPasses(rules, policy, gs[j], tx, j, nextHeight);
    hide Resolve, InputsPass, OutputsOk, IsFinalizedTx;
    assert forall k :: 0 <= k < j ==> tx.ins[k].prev in InKeys(tx.ins, j);
  }

  method SumOutputs(rules: TxRules, outs: seq<TxOut>) returns (ok: bool, total: int64, ops: nat)
    ensures ok <==> OutputsOk(outs, |outs|)
    ensures ok ==> total as int == SumOut(outs, |outs|) && MoneyRange(total) && ops == OutOps(rules, outs, |outs|)
  {
    total, ops := 0, 0;
    for i := 0 to |outs|
      invariant OutputsOk(outs, i) && MoneyRange(total)
      invariant total as int == SumOut(outs, i) && ops == OutOps(rules, outs, i)
    {
      if !MoneyRange(outs[i].value) || !MoneyRange(total + outs[i].value) {
        if OutputsOk(outs, |outs|) {
          OutputsOkPrefix(outs, i + 1, |outs|);
        }
        return false, 0, 0;
      }
      total := total + outs[i].value;
      ops := ops + rules.outSigOps(outs[i].pkScript);
    }
    ok := true;
  }

  /** Looks the inputs up one after another, each on its own glimpse. */
  method CheckInputs(rules: TxRules, policy: Policy, gs: seq<Glimpse>, tx: Tx, nextHeight: int, outOps: nat)
    returns (ok: bool, totalIn: int64, missing: seq<OutPoint>)
    requires |tx.ins| == |gs| && outOps == OutOps(rules, tx.outs, |tx.outs|)
    requires forall j :: 0 <= j < |gs| ==> GlimpseOk(rules, policy, gs[j])
    ensures ok <==> InputsPass(rules, policy, gs, tx, |tx.ins|, nextHeight)
    ensures ok ==> totalIn as int == FoundIn(gs, tx, |tx.ins|, nextHeight) && totalIn >= 0
    ensures ok ==> missing == MissingKeys(gs, tx, |tx.ins|, nextHeight)
  {
    hide *;
    var seen: set<OutPoint>, ops: nat := {}, outOps;
    totalIn, missing := 0, [];
    CheckStart(rules, policy, gs, tx, nextHeight);
    for i := 0 to |tx.ins|
      invariant Checked(rules, policy, gs, tx, i, nextHeight, seen, totalIn, ops, missing)
    {
      var key := tx.ins[i].prev;
      CheckStep(rules, policy, gs, tx, i, nextHeight, seen, totalIn, ops, missing);
      if key in seen || key in gs[i].spent {
        CheckFails(rules, policy, gs, tx, i, nextHeight);
        return false, 0, [];
      }
      seen := seen + {key};
      var prev := Resolve(gs[i], key, nextHeight);
      if prev.None? {
        missing := missing + [key];
      } else {
        var more := rules.spendSigOps(tx, i, prev.value.pkScript);
        if !Mature(prev.value, nextHeight) || more.None? || ops + more.value > MAX_TX_SIG_OPS
           || !policy.inputStandard(tx, i, prev.value.pkScript) || !MoneyRange(totalIn + prev.value.value) {
          CheckFails(rules, policy, gs, tx, i, nextHeight);
          return false, 0, [];
        }
        ops := ops + more.value;
        totalIn := totalIn + prev.value.value;
      }
    }
    CheckDone(rules, policy, gs, tx, nextHeight, seen, totalIn, ops, missing);
    ok := true;
  }

  /** After n inputs. */
  ghost predicate Checked(rules: TxRules, policy: Policy, gs: seq<Glimpse>, tx: Tx, n: nat, nextHeight: int,
                          seen: set<OutPoint>, totalIn: int64, ops: nat, missing: seq<OutPoint>)
  {
    && n <= |tx.ins| == |gs|
    && InputsPass(rules, policy, gs, tx, n, nextHeight)
    && seen == InKeys(tx.ins, n)
    && totalIn as int == FoundIn(gs, tx, n, nextHeight) && MoneyRange(totalIn)
    && ops == OutOps(rules, tx.outs, |tx.outs|) + FoundOps(rules, gs, tx, n, nextHeight)
    && missing == MissingKeys(gs, tx, n, nextHeight)
  }

  lemma CheckStart(rules: TxRules, policy: Policy, gs: seq<Glimpse>, tx: Tx, nextHeight: int)
    requires |tx.ins| == |gs|
    ensures Checked(rules, policy, gs, tx, 0, nextHeight, {}, 0, OutOps(rules, tx.outs, |tx.outs|), [])
  {
  }

  lemma CheckDone(rules: TxRules, policy: Policy, gs: seq<Glimpse>, tx: Tx, nextHeight: int,
                  seen: set<OutPoint>, totalIn: int64, ops: nat, missing: seq<OutPoint>)
    requires Checked(rules, policy, gs, tx, |tx.ins|, nextHeight, seen, totalIn, ops, missing)
    ensures |gs| == |tx.ins| && InputsPass(rules, policy, gs, tx, |tx.ins|, nextHeight)
    ensures totalIn as int == FoundIn(gs, tx, |tx.ins|, nextHeight) && totalIn >= 0
    ensures missing == MissingKeys(gs, tx, |tx.ins|, nextHeight)
  {
  }

  lemma CheckFails(rules: TxRules, policy: Policy, gs: seq<Glimpse>, tx: Tx, i: nat, nextHeight: int)
    requires i < |tx.ins| == |gs|
    ensures !InputsPass(rules, policy, gs, tx, i + 1, nextHeight) ==> !InputsPass(rules, policy, gs, tx, |tx.ins|, nextHeight)
  {
    hide *;
    if InputsPass(rules, policy, gs, tx, |tx.ins|, nextHeight) {
      InputsPassPrefix(rules, policy, gs, tx, i + 1, |tx.ins|, nextHeight);
    }
  }

  /** What the loop body tests is what the next input has to pass. */
  lemma CheckStep(rules: TxRules, policy: Policy, gs: seq<Glimpse>, tx: Tx, i: nat, nextHeight: int,
                  seen: set<OutPoint>, totalIn: int64, ops: nat, missing: seq<OutPoint>)
    requires i < |tx.ins| == |gs| && GlimpseOk(rules, policy, gs[i])
    requires Checked(rules, policy, gs, tx, i, nextHeight, seen, totalIn, ops, missing)
    ensures var key := tx.ins[i].prev;
      var prev := Resolve(gs[i], key, nextHeight);
      var more := if prev.Some? then rules.spendSigOps(tx, i, prev.value.pkScript) else Some(0);
      var total := totalIn as int + if prev.Some? then prev.value.value as int else 0;
      var good := key !in seen && key !in gs[i].spent
        && (prev.Some? ==>
              && Mature(prev.value, nextHeight) && more.Some? && ops + more.value <= MAX_TX_SIG_OPS
              && policy.inputStandard(tx, i, prev.value.pkScript) && total <= MAX_MONEY as int);
      && (prev.Some? ==> prev.value.value >= 0 && prev.value.value <= MAX_MONEY && 0 <= totalIn <= MAX_MONEY)
      && (forall v: int64 :: MoneyRange(v) <==> 0 <= v <= MAX_MONEY)
      && MAX_MONEY == 2_100_000_000_000_000
      && (InputsPass(rules, policy, gs, tx, i + 1, nextHeight) <==> good)
      && (good ==>
            Checked(rules, policy, gs, tx, i + 1, nextHeight, seen + {key}, total as int64, ops + more.value,
                    if prev.Some? then missing else missing + [key]))
  {
    ResolvedIsNamed(rules, policy, gs[i], tx.ins[i].prev, nextHeight);
    InKeysStep(tx.ins, i);
    hide GlimpseOk, Resolve, NamedOut, InKeys, Mature;
  }

  /** Validation of one transaction.  It holds no lock: `gs[j]` is what input j met. */
  method ValidateTransaction(rules: TxRules, policy: Policy, tx: Tx, gs: seq<Glimpse>, nextHeight: int, time: uint32)
    returns (r: Result<int64, Refusal>)
    requires |tx.ins| == |gs| && forall j :: 0 <= j < |gs| ==> GlimpseOk(rules, policy, gs[j])
    ensures r.Ok? ==> Sound(rules, tx, r.value as int)
    ensures r.Ok? <==>
      && Passes(rules, policy, gs, tx, nextHeight, time) && MissingKeys(gs, tx, |tx.ins|, nextHeight) == []
      && FoundIn(gs, tx, |tx.ins|, nextHeight) >= SumOut(tx.outs, |tx.outs|)
    ensures r.Err? && r.error.Missing? <==>
      Passes(rules, policy, gs, tx, nextHeight, time) && MissingKeys(gs, tx, |tx.ins|, nextHeight) != []
    ensures r.Ok? ==> r.value as int == FoundIn(gs, tx, |tx.ins|, nextHeight) - SumOut(tx.outs, |tx.outs|)
    ensures r.Err? && r.error.Missing? ==> r.error.deps == MissingKeys(gs, tx, |tx.ins|, nextHeight)
  {
    hide GlimpseOk, Resolve, OutputsOk, InputsPass, IsFinalizedTx, Sound;
    if |tx.ins| == 0 || |tx.outs| == 0 {
      return Err(Invalid);
    }
    if |tx.ins| == 1 && tx.ins[0].prev.hash == ZeroTxId {
      return Err(Invalid);
    }
    var outsOk, totalOut, outOps := SumOutputs(rules, tx.outs);
    if !outsOk || !IsFinalizedTx(tx, nextHeight, time) {
      return Err(Invalid);
    }
    var ok, totalIn, missing := CheckInputs(rules, policy, gs, tx, nextHeight, outOps);
    if !ok {
      return Err(Invalid);
    }
    if |missing| > 0 {
      return Err(Missing(missing));
    }
    if totalIn < totalOut {
      return Err(Invalid);
    }
    PassingIsSound(rules, policy, gs, tx, nextHeight, time, totalIn as int - totalOut as int);
    r := Ok(totalIn - totalOut);
  }

  // ----- Eviction -----

  /** A childless entry of least fee rate. */
  ghost predicate LowestLeaf(entries: map<TxId, Pooled>, childs: map<TxId, set<TxId>>, id: TxId) {
    && IsLeaf(entries, childs, id)
    && forall other :: IsLeaf(entries, childs, other) ==> Rate(entries[id]) <= Rate(entries[other])
  }

  predicate IsLeaf(entries: map<TxId, Pooled>, childs: map<TxId, set<TxId>>, id: TxId) {
    id in entries && !(id in childs && childs[id] != {})
  }

  ghost predicate Lowest(entries: map<TxId, Pooled>, id: TxId) {
    id in entries && forall other :: other in entries ==> Rate(entries[id]) <= Rate(entries[other])
  }

  method LowestFeeRateEntry(entries: map<TxId, Pooled>) returns (r: Option<TxId>)
    ensures r.None? <==> entries == map[]
    ensures r.Some? ==> Lowest(entries, r.value)
  {
    r := None;
    var todo := entries.Keys;
    hide Rate;
    while todo != {}
      invariant todo <= entries.Keys
      invariant r.None? ==> todo == entries.Keys
      invariant r.Some? ==> r.value in entries && r.value !in todo
      invariant r.Some? ==> forall other :: other in entries && other !in todo ==> Rate(entries[r.value]) <= Rate(entries[other])
      decreases todo
    {
      var id :| id in todo;
      todo := todo - {id};
      if r.None? || Rate(entries[id]) < Rate(entries[r.value]) {
        r := Some(id);
      }
    }
  }

  /** Prefers leaves; only when there is none does it fall back on the lowest rate of all. */
  method LowestEvictionCandidate(entries: map<TxId, Pooled>, childs: map<TxId, set<TxId>>) returns (r: Option<(TxId, int)>)
    ensures r.None? <==> entries == map[]
    ensures r.Some? ==> r.value.0 in entries && r.value.1 == Rate(entries[r.value.0])
    ensures r.Some? && (exists id :: IsLeaf(entries, childs, id)) ==> LowestLeaf(entries, childs, r.value.0)
    ensures r.Some? && !(exists id :: IsLeaf(entries, childs, id)) ==> Lowest(entries, r.value.0)
  {
    var low: Option<TxId> := None;
    var todo := entries.Keys;
    hide Rate;
    while todo != {}
      invariant todo <= entries.Keys
      invariant low.None? ==> forall id :: IsLeaf(entries, childs, id) ==> id in todo
      invariant low.Some? ==> IsLeaf(entries, childs, low.value)
      invariant low.Some? ==> forall other :: IsLeaf(entries, childs, other) && other !in todo ==>
        Rate(entries[low.value]) <= Rate(entries[other])
      decreases todo
    {
      var id :| id in todo;
      todo := todo - {id};
      if id in childs && |childs[id]| > 0 {
        continue;
      }
      if low.None? || Rate(entries[id]) < Rate(entries[low.value]) {
        low := Some(id);
      }
    }
    if low.Some? {
      return Some((low.value, Rate(entries[low.value])));
    }
    var any := LowestFeeRateEntry(entries);
    if any.None? {
      return None;
    }
    return Some((any.value, Rate(entries[any.value])));
  }

  /** In a pool the fallback is never taken: some entry has no children. */
  lemma EvictionFindsLeaf(g: Dag)
    requires EdgesOk(g) && g.entries != map[]
    ensures exists id :: IsLeaf(g.entries, g.childs, id)
  {
    var leaf := LeafExists(g);
    assert IsLeaf(g.entries, g.childs, leaf);
  }

  /** Evicting a leaf removes just that entry. */
  lemma LeafAlone(g: Dag, id: TxId)
    requires EdgesOk(g) && IsLeaf(g.entries, g.childs, id)
    ensures DescSet(g, id) == {id}
  {
    DescSplit(g, id);
    assert id !in g.childs;
    assert Doomed(g, {}) == {};
  }

  /** The pool as a commit finds it after making room for `e`. */
  ghost predicate MadeRoom(g: Dag, maxTx: nat, e: Pooled, h: Dag) {
    if |g.entries| < maxTx then h == g
    else exists leaf :: LowestLeaf(g.entries, g.childs, leaf) && Rate(g.entries[leaf]) < Rate(e) && h == Without(g, {leaf})
  }

  /** No room: the pool is full of entries whose leaves all pay at least as much. */
  ghost predicate Full(g: Dag, maxTx: nat, e: Pooled) {
    |g.entries| >= maxTx && forall leaf :: LowestLeaf(g.entries, g.childs, leaf) ==> Rate(e) <= Rate(g.entries[leaf])
  }

  /** A full pool gives up `leaf` for `e`. */
  ghost predicate Evictable(g: Dag, maxTx: nat, e: Pooled, leaf: TxId) {
    |g.entries| >= maxTx && LowestLeaf(g.entries, g.childs, leaf) && Rate(g.entries[leaf]) < Rate(e)
  }

  /** What a commit checks once `leaf` has gone, read off the pool as it was before. */
  ghost predicate FitsWithout(g: Dag, leaf: TxId, e: Pooled) {
    && (e.txid in g.entries ==> e.txid == leaf)
    && (forall k :: k in Inputs(e.tx) && k in g.spent ==> g.spent[k] == leaf)
    && (forall p :: p in LiveParents(g.entries, e.tx.ins, |e.tx.ins|) && p != leaf ==> 1 + Depth(g.parents, p) <= MAX_ANCESTOR_DEPTH)
  }

  lemma FitsIs(g: Dag, leaf: TxId, e: Pooled)
    requires DagOk(g) && IsLeaf(g.entries, g.childs, leaf) && e.txid == HashOf(e.tx)
    ensures Insertable(Without(g, {leaf}), e) <==> FitsWithout(g, leaf, e)
  {
    LeafClosed(g, leaf);
    KeptOf(g, leaf, e.tx.ins, Inputs(e.tx));
    DepthsKept(g, leaf, e.tx.ins);
    hide DagOk, Depth, Inputs, EdgesOk, Closed, LiveParents, Without;
  }

  lemma KeptOf(g: Dag, leaf: TxId, ins: seq<TxIn>, keys: set<OutPoint>)
    ensures var h := Without(g, {leaf});
      && h.entries == g.entries - {leaf}
      && LiveParents(h.entries, ins, |ins|) == LiveParents(g.entries, ins, |ins|) - {leaf}
      && (keys !! h.spent.Keys <==> forall k :: k in keys && k in g.spent ==> g.spent[k] == leaf)
  {
    var h := Without(g, {leaf});
    hide ChildsWithout;
    assert keys !! h.spent.Keys <==> forall k :: k in keys ==> k !in h.spent;
  }

  lemma DepthsKept(g: Dag, leaf: TxId, ins: seq<TxIn>)
    requires EdgesOk(g) && Closed(g, {leaf})
    ensures forall p :: p in LiveParents(g.entries, ins, |ins|) && p != leaf ==>
      Depth(Without(g, {leaf}).parents, p) == Depth(g.parents, p)
  {
    forall p | p in LiveParents(g.entries, ins, |ins|) && p != leaf
      ensures Depth(Without(g, {leaf}).parents, p) == Depth(g.parents, p)
    {
      DepthKept(g, {leaf}, p);
      hide *;
    }
    hide *;
  }

  lemma LeafClosed(g: Dag, leaf: TxId)
    requires DagOk(g) && IsLeaf(g.entries, g.childs, leaf)
    ensures Closed(g, {leaf}) && EdgesOk(g)
  {
    hide SpentOk, DepthsOk, KeysOk;
  }

  /** A pool with room for `e` made gave up exactly an evictable leaf, and then it is smaller. */
  lemma RoomIs(g: Dag, maxTx: nat, e: Pooled, h: Dag) returns (leaf: Option<TxId>)
    requires DagOk(g) && MadeRoom(g, maxTx, e, h) && e.txid == HashOf(e.tx)
    ensures leaf.Some? <==> |g.entries| >= maxTx
    ensures leaf.None? ==> h == g
    ensures leaf.Some? ==>
      && Evictable(g, maxTx, e, leaf.value) && h == Without(g, {leaf.value}) && h != g
      && (Insertable(h, e) <==> FitsWithout(g, leaf.value, e))
  {
    hide Insertable, FitsWithout, DagOk, Rate;
    leaf := None;
    if |g.entries| >= maxTx {
      var l :| LowestLeaf(g.entries, g.childs, l) && Rate(g.entries[l]) < Rate(e) && h == Without(g, {l});
      FitsIs(g, l, e);
      assert l in g.entries && l !in h.entries;
      leaf := Some(l);
    }
  }

  /** No room, or room to spare: nothing goes. */
  lemma NotEvictable(g: Dag, maxTx: nat, e: Pooled)
    ensures Full(g, maxTx, e) || |g.entries| < maxTx ==> forall leaf :: !Evictable(g, maxTx, e, leaf)
  {
    hide Rate;
    forall leaf | Evictable(g, maxTx, e, leaf)
      ensures !Full(g, maxTx, e)
    {
      assert IsLeaf(g.entries, g.childs, leaf);
    }
  }
}
