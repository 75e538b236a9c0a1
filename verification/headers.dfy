/** Validation of an announced batch of headers on a rolling window, before any body is fetched. */
module HeaderBatch {
  import opened Wire
  import opened ChainCfg
  import opened Consensus
  import opened Targets
  import opened Ledger
  import opened ChainPath

  datatype HeaderError = NoTip | NotConnecting | BadHeader(at: nat, why: BlockError) | TipChanged

  /** What the validator copies while it holds the lock. */
  datatype Snapshot = Snapshot(tipHash: Hash, tipHeight: int, recent: seq<BlockWindowEntry>)

  ghost predicate TakenOf(snap: Snapshot, hs: seq<Header>) {
    && |hs| > 0
    && snap == Snapshot(HeaderHash(hs[|hs| - 1]), |hs| - 1, Recent(hs, DGW_PAST_BLOCKS))
  }

  /** One-by-one validation: each header passes every header rule on the headers below it. */
  ghost predicate HeadersOk(params: Params, hs: seq<Header>, headers: seq<Header>, now: Clock) {
    forall i :: 0 <= i < |headers| ==> HeaderOk(params, hs + headers[..i], headers[i], now)
  }

  function HashesOf(headers: seq<Header>): seq<Hash> {
    seq(|headers|, i requires 0 <= i < |headers| => HeaderHash(headers[i]))
  }

  method RequiredBitsFromRecent(params: Params, recent: seq<BlockWindowEntry>) returns (bits: uint32)
    ensures bits == RequiredBits(params, recent)
  {
    if |recent| == 0 {
      return params.genesisBits;
    }
    var post := params.postGenesisBits;
    if post == 0 {
      post := params.genesisBits;
    }
    if |recent| < DGW_PAST_BLOCKS {
      return post;
    }
    bits := DarkGravityWaveV3(recent[..DGW_PAST_BLOCKS], TARGET_SPACING, POW_LIMIT, post);
  }

  /** Whatever the window, the bits it asks for can be met: given usable parameters they never decode
    above the limit, and once the window is full they decode positive while the average is three or
    more. */
  lemma RequiredInRange(params: Params, recent: seq<BlockWindowEntry>)
    requires CompactToBig(params.genesisBits) <= POW_LIMIT && CompactToBig(params.postGenesisBits) <= POW_LIMIT
    ensures CompactToBig(RequiredBits(params, recent)) <= POW_LIMIT
    ensures |recent| >= DGW_PAST_BLOCKS && RunningAverage(recent[..DGW_PAST_BLOCKS], DGW_PAST_BLOCKS, POW_LIMIT) >= 3 ==>
      CompactToBig(RequiredBits(params, recent)) > 0
  {
    hide CompactToBig, DarkGravityWave, RunningAverage, NextTarget;
    if |recent| >= DGW_PAST_BLOCKS {
      var post := if params.postGenesisBits == 0 then params.genesisBits else params.postGenesisBits;
      RetargetIsUsable(recent[..DGW_PAST_BLOCKS], TARGET_SPACING, POW_LIMIT, post);
    }
  }

  /** The bits required on top of some headers: the parameter for the first, then the one for the
    start, and from 24 headers on the encoding of the retarget over their targets and the time
    between the latest and the 24th latest, against 600 seconds a block. */
  lemma RequiredBitsMean(params: Params, hs: seq<Header>)
    ensures var n, bits := |hs|, RequiredBits(params, Recent(hs, DGW_PAST_BLOCKS));
      && (n == 0 ==> bits == params.genesisBits)
      && (0 < n < 24 ==> bits == if params.postGenesisBits == 0 then params.genesisBits else params.postGenesisBits)
      && (n >= 24 ==>
            var recent := Recent(hs, DGW_PAST_BLOCKS);
            var span := hs[n - 1].time - hs[n - 24].time;
            var counted := if span < 4_800 then 4_800 else if span > 43_200 then 43_200 else span;
            && |recent| == 24 && (forall i :: 0 <= i < 24 ==> recent[i].bits == hs[n - 1 - i].bits)
            && exists next :: CappedQuotient(next, RunningAverage(recent, 24, POW_LIMIT) * counted, 14_400, POW_LIMIT)
                              && bits == BigToCompact(next))
  {
    var n := |hs|;
    if n >= 24 {
      var recent := Recent(hs, DGW_PAST_BLOCKS);
      var post := if params.postGenesisBits == 0 then params.genesisBits else params.postGenesisBits;
      assert |recent| == 24 && recent[..DGW_PAST_BLOCKS] == recent;
      assert forall i :: 0 <= i < 24 ==> recent[i] == EntryAt(hs, n - 1 - i);
      RetargetLaw(recent, TARGET_SPACING, POW_LIMIT, post);
      hide RunningAverage, NextTarget, BigToCompact, CappedQuotient, DarkGravityWave, Recent;
    }
  }

  method MedianTimeFromRecent(recent: seq<BlockWindowEntry>) returns (mtp: int)
    ensures mtp == MedianTime(recent)
  {
    if |recent| == 0 {
      return 0;
    }
    var count := |recent|;
    if count > MTP_WINDOW {
      count := MTP_WINDOW;
    }
    var times: seq<int> := [];
    for i := 0 to count
      invariant |times| == i && forall k :: 0 <= k < i ==> times[k] == recent[k].time
    {
      times := times + [recent[i].time];
    }
    assert times == TimesOf(recent);
    mtp := Median(times);
  }

  /** Rolling the window over one header gives the window of the longer chain. */
  method PrependRecentEntry(recent: seq<BlockWindowEntry>, entry: BlockWindowEntry, limit: nat, ghost hs: seq<Header>, ghost h: Header)
    returns (out: seq<BlockWindowEntry>)
    requires recent == Recent(hs, limit) && entry == BlockWindowEntry(|hs|, h.time, h.bits)
    ensures out == Recent(hs + [h], limit)
  {
    out := [entry] + recent;
    if |out| > limit {
      out := out[..limit];
    }
    ghost var longer := Recent(hs + [h], limit);
    assert |out| == |longer|;
    forall i | 0 <= i < |out|
      ensures out[i] == longer[i]
    {
      assert longer[i] == EntryAt(hs + [h], |hs| - i);
      assert if i == 0 then out[0] == entry else out[i] == recent[i - 1] == EntryAt(hs, |hs| - i);
    }
  }

  /** The five rules for one header, on a window. */
  method CheckNext(params: Params, recent: seq<BlockWindowEntry>, h: Header, now: Clock, ghost hs: seq<Header>)
    returns (err: Option<BlockError>)
    requires |hs| > 0 && recent == Recent(hs, DGW_PAST_BLOCKS) && h.prev == HeaderHash(hs[|hs| - 1])
    ensures err.None? <==> HeaderOk(params, hs, h, now)
  {
    hide MedianTime, RequiredBits, Recent, CheckProofOfWork;
    var bits := RequiredBitsFromRecent(params, recent);
    if h.bits != bits {
      return Some(BadBits);
    }
    var mtp := MedianTimeFromRecent(recent);
    if h.time <= mtp {
      return Some(TimeTooOld);
    }
    if h.time > now + MAX_FUTURE_DRIFT {
      return Some(TimeTooNew);
    }
    if !CheckProofOfWork(params.powValue(HeaderHash(h)), h.bits) {
      return Some(HighHash);
    }
    err := None;
  }

  /** The loop that runs without the lock: on a fixed snapshot and clock it accepts exactly the
    batches that one-by-one validation accepts. */
  method CheckSequence(params: Params, snap: Snapshot, headers: seq<Header>, now: Clock, ghost hs: seq<Header>)
    returns (r: Result<seq<Hash>, HeaderError>)
    requires TakenOf(snap, hs)
    ensures r.Ok? <==> HeadersOk(params, hs, headers, now)
    ensures r.Ok? ==> forall i :: 0 <= i < |headers| ==>
      0 < CompactToBig(headers[i].bits) <= POW_LIMIT && params.powValue(HeaderHash(headers[i])) <= CompactToBig(headers[i].bits)
    ensures r.Ok? ==> r.value == HashesOf(headers)
  {
    if |headers| == 0 {
      return Ok([]);
    }
    WindowStart(params, snap, headers, now, hs);
    hide *;
    if headers[0].prev != snap.tipHash {
      NotLinked(params, hs, headers, now, 0);
      return Err(NotConnecting);
    }
    var prevHash, nextHeight, recent, hashes := snap.tipHash, snap.tipHeight + 1, snap.recent, [];
    for i := 0 to |headers|
      invariant Rolled(params, hs, headers, now, i, prevHash, nextHeight, recent, hashes)
    {
      if headers[i].prev != prevHash {
        RolledFacts(params, hs, headers, now, i, prevHash, nextHeight, recent, hashes);
        NotLinked(params, hs, headers, now, i);
        return Err(BadHeader(i, BadPrevBlock));
      }
      RolledFacts(params, hs, headers, now, i, prevHash, nextHeight, recent, hashes);
      var err := CheckNext(params, recent, headers[i], now, hs + headers[..i]);
      if err.Some? {
        Rejected(params, hs, headers, now, i);
        return Err(BadHeader(i, err.value));
      }
      var entry := BlockWindowEntry(nextHeight, headers[i].time, headers[i].bits);
      ghost var before := recent;
      recent := PrependRecentEntry(recent, entry, DGW_PAST_BLOCKS, hs + headers[..i], headers[i]);
      RolledNext(params, hs, headers, now, i, prevHash, nextHeight, before, hashes, recent);
      hashes := hashes + [HeaderHash(headers[i])];
      prevHash := HeaderHash(headers[i]);
      nextHeight := nextHeight + 1;
    }
    RolledAll(params, hs, headers, now, prevHash, nextHeight, recent, hashes);
    AllMeetTarget(params, hs, headers, now);
    r := Ok(hashes);
  }

  /** After i headers: all of them accepted, and the window is that of the extended chain. */
  ghost predicate Rolled(params: Params, hs: seq<Header>, headers: seq<Header>, now: Clock, i: nat,
                         prevHash: Hash, nextHeight: int, recent: seq<BlockWindowEntry>, hashes: seq<Hash>)
  {
    && i <= |headers| && |hs| > 0
    && HeadersOk(params, hs, headers[..i], now)
    && var seen := hs + headers[..i];
    && prevHash == HeaderHash(seen[|seen| - 1])
    && nextHeight == |seen|
    && recent == Recent(seen, DGW_PAST_BLOCKS)
    && hashes == HashesOf(headers[..i])
  }

  lemma WindowStart(params: Params, snap: Snapshot, headers: seq<Header>, now: Clock, hs: seq<Header>)
    requires TakenOf(snap, hs)
    ensures |hs| > 0 && snap.tipHash == HeaderHash(hs[|hs| - 1])
    ensures Rolled(params, hs, headers, now, 0, snap.tipHash, snap.tipHeight + 1, snap.recent, [])
  {
    assert hs + headers[..0] == hs;
    hide HeaderOk, Recent;
  }

  lemma RolledFacts(params: Params, hs: seq<Header>, headers: seq<Header>, now: Clock, i: nat,
                    prevHash: Hash, nextHeight: int, recent: seq<BlockWindowEntry>, hashes: seq<Hash>)
    requires Rolled(params, hs, headers, now, i, prevHash, nextHeight, recent, hashes)
    ensures i <= |headers| && |hs| > 0
    ensures var seen := hs + headers[..i];
      prevHash == HeaderHash(seen[|seen| - 1]) && nextHeight == |seen| && recent == Recent(seen, DGW_PAST_BLOCKS)
  {
    hide HeadersOk, Recent;
  }

  lemma RolledNext(params: Params, hs: seq<Header>, headers: seq<Header>, now: Clock, i: nat,
                   prevHash: Hash, nextHeight: int, recent: seq<BlockWindowEntry>, hashes: seq<Hash>, rolled: seq<BlockWindowEntry>)
    requires i < |headers| && Rolled(params, hs, headers, now, i, prevHash, nextHeight, recent, hashes)
    requires HeaderOk(params, hs + headers[..i], headers[i], now)
    requires rolled == Recent((hs + headers[..i]) + [headers[i]], DGW_PAST_BLOCKS)
    ensures Rolled(params, hs, headers, now, i + 1, HeaderHash(headers[i]), nextHeight + 1, rolled, hashes + [HeaderHash(headers[i])])
  {
    hide HeaderOk, Recent;
    var front, more := headers[..i], headers[..i + 1];
    assert more == front + [headers[i]] && hs + more == (hs + front) + [headers[i]];
    forall k | 0 <= k <= i
      ensures HeaderOk(params, hs + more[..k], more[k], now)
    {
      assert more[..k] == headers[..k];
      assert k < i ==> front[..k] == headers[..k];
    }
  }

  lemma RolledAll(params: Params, hs: seq<Header>, headers: seq<Header>, now: Clock,
                  prevHash: Hash, nextHeight: int, recent: seq<BlockWindowEntry>, hashes: seq<Hash>)
    requires Rolled(params, hs, headers, now, |headers|, prevHash, nextHeight, recent, hashes)
    ensures HeadersOk(params, hs, headers, now) && hashes == HashesOf(headers)
  {
    assert headers[..|headers|] == headers;
    hide HeadersOk, Recent, HashesOf;
  }

  lemma AllMeetTarget(params: Params, hs: seq<Header>, headers: seq<Header>, now: Clock)
    requires HeadersOk(params, hs, headers, now)
    ensures forall i :: 0 <= i < |headers| ==>
      0 < CompactToBig(headers[i].bits) <= POW_LIMIT && params.powValue(HeaderHash(headers[i])) <= CompactToBig(headers[i].bits)
  {
    forall i | 0 <= i < |headers|
      ensures 0 < CompactToBig(headers[i].bits) <= POW_LIMIT && params.powValue(HeaderHash(headers[i])) <= CompactToBig(headers[i].bits)
    {
      HeaderMeans(params, hs + headers[..i], headers[i], now);
      hide RequiredBits, CompactToBig, Below, Recent;
    }
    hide CompactToBig;
  }

  lemma Rejected(params: Params, hs: seq<Header>, headers: seq<Header>, now: Clock, i: nat)
    requires i < |headers| && !HeaderOk(params, hs + headers[..i], headers[i], now)
    ensures !HeadersOk(params, hs, headers, now)
  {
    hide HeaderOk;
  }

  lemma NotLinked(params: Params, hs: seq<Header>, headers: seq<Header>, now: Clock, i: nat)
    requires i < |headers| && |hs| > 0
    requires var seen := hs + headers[..i];
      headers[i].prev != HeaderHash(seen[|seen| - 1])
    ensures !HeadersOk(params, hs, headers, now)
  {
    var seen := hs + headers[..i];
    assert !HeaderOk(params, seen, headers[i], now);
    hide MedianTime, RequiredBits, CheckProofOfWork, HeaderOk;
  }

  /** Accepting the headers of some blocks is what validating the blocks one after another asks
    of their headers; with good bodies it is all it asks. */
  lemma HeadersAgreeWithBlocks(params: Params, path: seq<Block>, blocks: seq<Block>, now: Clock)
    requires forall i :: 0 <= i < |blocks| ==>
      && |blocks[i].txs| > 0 && blocks[i].header.merkle == MerkleRoot(blocks[i].txs)
      && BlockTxsOk(params.txRules, Replay(path + blocks[..i]), blocks[i], |path| + i)
    ensures HeadersOk(params, HeadersOf(path), HeadersOf(blocks), now)
       <==> forall i :: 0 <= i < |blocks| ==> BlockOk(params, path + blocks[..i], blocks[i], now)
  {
    hide *;
    HeadersCount(blocks);
    var hs := HeadersOf(blocks);
    forall i | 0 <= i < |blocks|
      ensures HeaderOk(params, HeadersOf(path) + hs[..i], hs[i], now) <==> BlockOk(params, path + blocks[..i], blocks[i], now)
    {
      BlockIsHeader(params, path, blocks, i, now);
    }
    HeadersAre(params, HeadersOf(path), hs, now);
  }

  lemma HeadersCount(blocks: seq<Block>)
    ensures |HeadersOf(blocks)| == |blocks|
  {
  }

  lemma HeadersAre(params: Params, hs: seq<Header>, headers: seq<Header>, now: Clock)
    ensures HeadersOk(params, hs, headers, now)
       <==> forall i :: 0 <= i < |headers| ==> HeaderOk(params, hs + headers[..i], headers[i], now)
  {
    hide HeaderOk;
  }

  lemma BlockIsHeader(params: Params, path: seq<Block>, blocks: seq<Block>, i: nat, now: Clock)
    requires i < |blocks| && |blocks[i].txs| > 0 && blocks[i].header.merkle == MerkleRoot(blocks[i].txs)
    requires BlockTxsOk(params.txRules, Replay(path + blocks[..i]), blocks[i], |path| + i)
    ensures var hs := HeadersOf(blocks);
      i < |hs| && (HeaderOk(params, HeadersOf(path) + hs[..i], hs[i], now) <==> BlockOk(params, path + blocks[..i], blocks[i], now))
  {
    hide HeaderOk, BlockTxsOk, MerkleRoot, Replay;
    assert HeadersOf(path) + HeadersOf(blocks)[..i] == HeadersOf(path + blocks[..i]);
  }

  /** Two valid chains of one length with one tip hash are the same chain: comparing the tip
    again after the lock was released rules out every change in between. */
  lemma {:induction false} SameTipSamePath(params: Params, p: seq<Block>, q: seq<Block>, now: Clock)
    requires ValidPath(params, p, now) && ValidPath(params, q, now)
    requires |p| == |q| && TipOf(p) == TipOf(q)
    ensures p == q
    decreases |p|
  {
    hide *;
    if |p| > 0 {
      var n := |p| - 1;
      ValidPathFacts(params, p, now);
      ValidPathFacts(params, q, now);
      LastIsSame(p, q);
      ValidPathPrefix(params, p, n, now, now);
      ValidPathPrefix(params, q, n, now, now);
      SameTipSamePath(params, p[..n], q[..n], now);
      assert p == p[..n] + [p[n]] && q == q[..n] + [q[n]];
    }
  }

  lemma LastIsSame(p: seq<Block>, q: seq<Block>)
    requires |p| == |q| > 0 && TipOf(p) == TipOf(q) && Linked(p) && Linked(q)
    requires var n := |p| - 1;
      p[n].header.merkle == MerkleRoot(p[n].txs) && q[n].header.merkle == MerkleRoot(q[n].txs)
    ensures var n := |p| - 1;
      p[n] == q[n] && TipOf(p[..n]) == TipOf(q[..n])
  {
    var n := |p| - 1;
    hide MerkleRoot;
    BlockHashInjective(p[n], q[n]);
  }
}
