/** Push data on the wire, the bare multisig template, and signature matching. */
module PushData {
  import opened Wire
  import opened ScriptVM

  const MAX_SCRIPT_SIZE := 10_000

  datatype PushError = TooBig | BadPush

  // ----- One push -----

  /** The writer's form: the shortest length prefix that fits. */
  function Prefix(size: nat): Script
    requires size <= MAX_SCRIPT_SIZE
  {
    if size <= 75 then [size as byte]
    else if size <= 255 then [OP_PUSHDATA1, size as byte]
    else [OP_PUSHDATA2, (size % 256) as byte, (size / 256) as byte]
  }

  method WritePushData(data: Script) returns (r: Result<Script, PushError>)
    ensures r == if |data| > MAX_SCRIPT_SIZE then Err(TooBig) else Ok(Prefix(|data|) + data)
  {
    if |data| > MAX_SCRIPT_SIZE {
      return Err(TooBig);
    }
    if |data| <= 75 {
      return Ok([|data| as byte] + data);
    } else if |data| <= 255 {
      return Ok([OP_PUSHDATA1, |data| as byte] + data);
    } else if |data| <= 65535 {
      return Ok([OP_PUSHDATA2, (|data| % 256) as byte, (|data| / 256) as byte] + data);
    }
    r := Err(TooBig);
  }

  /** What one push at the front of `s` holds, and what follows it. */
  function FirstPush(s: Script): Option<(Script, Script)> {
    if |s| == 0 then None
    else
      var op := s[0] as int;
      if op == 0 then Some(([], s[1..]))
      else if op <= 75 then Cut(s[1..], op)
      else if op == 0x4c then if |s| < 2 then None else Cut(s[2..], s[1] as int)
      else if op == 0x4d then if |s| < 3 then None else Cut(s[3..], s[1] as int + 256 * s[2] as int)
      else None
  }

  function Cut(s: Script, size: nat): Option<(Script, Script)> {
    if size > MAX_SCRIPT_SIZE || size > |s| then None else Some((s[..size], s[size..]))
  }

  method ReadPushData(r: Script) returns (out: Option<(Script, Script)>)
    ensures out == FirstPush(r)
  {
    if |r| == 0 {
      return None;
    }
    var op, rest := r[0], r[1..];
    var size: nat;
    if op == 0 {
      return Some(([], rest));
    } else if 1 <= op <= 75 {
      size := op as int;
    } else if op == OP_PUSHDATA1 {
      if |rest| == 0 {
        return None;
      }
      size, rest := rest[0] as int, rest[1..];
    } else if op == OP_PUSHDATA2 {
      if |rest| < 2 {
        return None;
      }
      size, rest := rest[0] as int + 256 * rest[1] as int, rest[2..];
    } else {
      return None;
    }
    if size > MAX_SCRIPT_SIZE || size > |rest| {
      return None;
    }
    assert rest == r[|r| - |rest|..];
    out := Some((rest[..size], rest[size..]));
  }

  /** Reading what was written gives the data back and leaves the rest alone. */
  lemma ReadWritten(data: Script, rest: Script)
    requires |data| <= MAX_SCRIPT_SIZE
    ensures FirstPush(Prefix(|data|) + data + rest) == Some((data, rest))
  {
    var n := |data|;
    var s := Prefix(n) + data + rest;
    var k := |Prefix(n)|;
    assert s[k..] == data + rest;
    CutBack(data, rest);
    if n == 0 {
      assert s[1..] == rest;
    } else if 75 < n <= 255 {
      assert s[1] as int == n;
    } else if n > 255 {
      assert s[1] as int + 256 * s[2] as int == n;
    }
    hide Cut;
  }

  lemma CutBack(data: Script, rest: Script)
    requires |data| <= MAX_SCRIPT_SIZE
    ensures Cut(data + rest, |data|) == Some((data, rest))
  {
  }

  // ----- Push-only scripts -----

  function Encoded(pushes: seq<Script>): Script
    requires forall i :: 0 <= i < |pushes| ==> |pushes[i]| <= MAX_SCRIPT_SIZE
  {
    if |pushes| == 0 then [] else Prefix(|pushes[0]|) + pushes[0] + Encoded(pushes[1..])
  }

  function AllPushes(s: Script): Option<seq<Script>>
    decreases |s|
  {
    if |s| == 0 then Some([])
    else
      var first := FirstPush(s);
      if first.None? then None
      else
        var rest := AllPushes(first.value.1);
        if rest.None? then None else Some([first.value.0] + rest.value)
  }

  lemma {:induction false} EncodedAppend(pushes: seq<Script>, p: Script)
    requires |p| <= MAX_SCRIPT_SIZE && forall i :: 0 <= i < |pushes| ==> |pushes[i]| <= MAX_SCRIPT_SIZE
    ensures Encoded(pushes + [p]) == Encoded(pushes) + (Prefix(|p|) + p)
  {
    hide Prefix;
    var all := pushes + [p];
    if |pushes| == 0 {
      assert all[1..] == [] && Encoded(all) == Prefix(|p|) + p + Encoded([]);
    } else {
      EncodedAppend(pushes[1..], p);
      assert all[1..] == pushes[1..] + [p];
    }
  }

  method EncodePushes(pushes: seq<Script>) returns (r: Result<Script, PushError>)
    ensures r.Ok? <==> forall i :: 0 <= i < |pushes| ==> |pushes[i]| <= MAX_SCRIPT_SIZE
    ensures r.Ok? ==> r.value == Encoded(pushes)
  {
    var buf: Script := [];
    for i := 0 to |pushes|
      invariant forall k :: 0 <= k < i ==> |pushes[k]| <= MAX_SCRIPT_SIZE
      invariant buf == Encoded(pushes[..i])
    {
      var w := WritePushData(pushes[i]);
      if w.Err? {
        return Err(w.error);
      }
      EncodedAppend(pushes[..i], pushes[i]);
      assert pushes[..i + 1] == pushes[..i] + [pushes[i]];
      hide Encoded;
      buf := buf + w.value;
    }
    assert pushes[..|pushes|] == pushes;
    r := Ok(buf);
  }

  method ParsePushes(sigScript: Script) returns (r: Option<seq<Script>>)
    ensures r == AllPushes(sigScript)
  {
    var rest := sigScript;
    var pushes: seq<Script> := [];
    JoinedEnds([], AllPushes(rest));
    while |rest| > 0
      invariant AllPushes(sigScript) == Joined(pushes, AllPushes(rest))
      decreases |rest|
    {
      var d := ReadPushData(rest);
      if d.None? {
        return None;
      }
      ghost var more := AllPushes(d.value.1);
      assert more.Some? ==> pushes + ([d.value.0] + more.value) == (pushes + [d.value.0]) + more.value;
      pushes, rest := pushes + [d.value.0], d.value.1;
    }
    JoinedEnds(pushes, None);
    r := Some(pushes);
  }

  ghost function Joined(front: seq<Script>, back: Option<seq<Script>>): Option<seq<Script>> {
    if back.None? then None else Some(front + back.value)
  }

  lemma JoinedEnds(front: seq<Script>, back: Option<seq<Script>>)
    ensures Joined([], back) == back && Joined(front, Some([])) == Some(front)
  {
    assert back.Some? ==> [] + back.value == back.value;
    assert front + [] == front;
  }

  /** Parsing an encoded list of pushes gives the list back. */
  lemma {:induction false} ParseEncoded(pushes: seq<Script>)
    requires forall i :: 0 <= i < |pushes| ==> |pushes[i]| <= MAX_SCRIPT_SIZE
    ensures AllPushes(Encoded(pushes)) == Some(pushes)
  {
    hide Prefix, FirstPush;
    if |pushes| > 0 {
      ParseEncoded(pushes[1..]);
      ReadWritten(pushes[0], Encoded(pushes[1..]));
      PrefixNonEmpty(|pushes[0]|);
      assert pushes == [pushes[0]] + pushes[1..];
    }
  }

  lemma PrefixNonEmpty(n: nat)
    requires n <= MAX_SCRIPT_SIZE
    ensures |Prefix(n)| > 0
  {
  }

  // ----- The multisig template -----

  predicate KeySize(n: nat) {
    n == 33 || n == 65
  }

  function KeyBytes(keys: seq<Script>): Script
    requires forall i :: 0 <= i < |keys| ==> KeySize(|keys[i]|)
  {
    if |keys| == 0 then []
    else
      var last := keys[|keys| - 1];
      assert KeySize(|last|);
      KeyBytes(keys[..|keys| - 1]) + [|last| as byte] + last
  }

  predicate MultiSigShape(m: nat, keys: seq<Script>) {
    1 <= m <= |keys| <= 16 && forall i :: 0 <= i < |keys| ==> KeySize(|keys[i]|)
  }

  /** m, the keys with their lengths, n, OP_CHECKMULTISIG. */
  function MultiSigScript(m: nat, keys: seq<Script>): Script
    requires MultiSigShape(m, keys)
  {
    [(0x50 + m) as byte] + KeyBytes(keys) + [(0x50 + |keys|) as byte, OP_CHECKMULTISIG]
  }

  function DecodeSmallInt(op: byte): Option<nat> {
    if op < OP_1 || op > OP_16 then None else Some((op - OP_1 + 1) as nat)
  }

  /** After some keys: the bytes read so far are those keys. */
  ghost predicate KeysRead(s: Script, keys: seq<Script>, i: nat) {
    && 1 <= i <= |s|
    && (forall k :: 0 <= k < |keys| ==> KeySize(|keys[k]|))
    && s[1..i] == KeyBytes(keys)
  }

  /** If `s` is a template, its keys start with those read so far. */
  ghost predicate OnTrack(s: Script, keys: seq<Script>) {
    forall m, all :: MultiSigShape(m, all) && s == MultiSigScript(m, all) ==> keys <= all
  }

  method ParseMultiSigScript(s: Script) returns (r: Option<(nat, seq<Script>)>)
    ensures r.Some? ==> MultiSigShape(r.value.0, r.value.1) && s == MultiSigScript(r.value.0, r.value.1)
    ensures r.None? ==> forall m, all :: MultiSigShape(m, all) ==> s != MultiSigScript(m, all)
  {
    hide *;
    if |s| < 3 {
      TooShort(s);
      return None;
    }
    var m := DecodeSmallInt(s[0]);
    if m.None? || m.value < 1 {
      BadCount(s);
      return None;
    }
    var i, keys := 1, [];
    KeysStart(s);
    while i < |s| - 2
      invariant KeysRead(s, keys, i) && OnTrack(s, keys) && i < |s|
      invariant 1 <= i <= |s| - 2
      decreases |s| - i
    {
      var l := s[i] as int;
      if l != 33 && l != 65 {
        break;
      }
      KeyNext(s, keys, i, l);
      if i + 1 + l > |s| - 2 {
        return None;
      }
      keys := keys + [s[i + 1..i + 1 + l]];
      i := i + 1 + l;
    }
    KeysEnd(s, m.value, keys, i);
    var n := DecodeSmallInt(s[i]);
    if n.None? || n.value < 1 || n.value > 16 {
      return None;
    }
    i := i + 1;
    if i >= |s| || s[i] != OP_CHECKMULTISIG || i != |s| - 1 {
      return None;
    }
    if |keys| != n.value || m.value > n.value {
      return None;
    }
    r := Some((m.value, keys));
  }

  lemma KeyBytesOf(s: Script, keys: seq<Script>, i: nat)
    requires KeysRead(s, keys, i)
    ensures i == 1 + |KeyBytes(keys)| && i <= |s| && s[1..i] == KeyBytes(keys)
  {
  }

  lemma {:induction false} KeyPrefix(all: seq<Script>, k: nat)
    requires k <= |all| && forall i :: 0 <= i < |all| ==> KeySize(|all[i]|)
    ensures KeyBytes(all[..k]) <= KeyBytes(all)
    decreases |all|
  {
    if k == |all| {
      assert all[..k] == all;
    } else {
      var front := all[..|all| - 1];
      KeyPrefix(front, k);
      assert front[..k] == all[..k];
    }
  }

  lemma KeyBytesStep(keys: seq<Script>, key: Script)
    requires KeySize(|key|) && forall i :: 0 <= i < |keys| ==> KeySize(|keys[i]|)
    ensures KeyBytes(keys + [key]) == KeyBytes(keys) + [|key| as byte] + key
  {
    var all := keys + [key];
    assert all[..|all| - 1] == keys;
  }

  /** Where a template stands after some of its keys. */
  lemma TemplateAt(s: Script, m: nat, all: seq<Script>, keys: seq<Script>, i: nat)
    requires MultiSigShape(m, all) && s == MultiSigScript(m, all) && keys <= all && KeysRead(s, keys, i)
    ensures i <= |s| - 2 && (keys == all <==> i == |s| - 2)
    ensures keys != all ==>
      var l := s[i] as int;
      KeySize(l) && i + 1 + l <= |s| - 2 && keys + [s[i + 1..i + 1 + l]] <= all
  {
    var kb := KeyBytes(all);
    KeyBytesOf(s, keys, i);
    hide KeyBytes;
    assert s[1..|s| - 2] == kb;
    if keys != all {
      var k := |keys|;
      var key := all[k];
      KeyPrefix(all, k + 1);
      assert all[..k + 1] == keys + [key];
      KeyBytesStep(keys, key);
      NextKey(s, kb, KeyBytes(keys), key);
    }
  }

  lemma NextKey(s: Script, kb: Script, read: Script, key: Script)
    requires |s| == |kb| + 3 && s[1..|s| - 2] == kb && KeySize(|key|) && read + [|key| as byte] + key <= kb
    ensures var i := 1 + |read|;
      && s[i] as int == |key| && i + 1 + |key| <= |s| - 2 && s[i + 1..i + 1 + |key|] == key
  {
    var upTo := read + [|key| as byte] + key;
    assert kb[|read|] == upTo[|read|];
    assert s[1 + |read|] == kb[|read|];
    assert kb[|read| + 1..|read| + 1 + |key|] == upTo[|read| + 1..] == key;
    assert s[2 + |read|..2 + |read| + |key|] == kb[|read| + 1..|read| + 1 + |key|];
  }

  lemma TemplateEnds(s: Script, m: nat, all: seq<Script>)
    requires MultiSigShape(m, all) && s == MultiSigScript(m, all)
    ensures |s| >= 3 && s[0] as nat == 0x50 + m && s[|s| - 2] as nat == 0x50 + |all| && s[|s| - 1] == OP_CHECKMULTISIG
    ensures DecodeSmallInt(s[0]) == Some(m) && DecodeSmallInt(s[|s| - 2]) == Some(|all|)
  {
    hide KeyBytes;
  }

  lemma TooShort(s: Script)
    requires |s| < 3
    ensures forall m, all :: MultiSigShape(m, all) ==> s != MultiSigScript(m, all)
  {
    forall m, all | MultiSigShape(m, all)
      ensures s != MultiSigScript(m, all)
    {
      TemplateEnds(MultiSigScript(m, all), m, all);
    }
    hide *;
  }

  lemma BadCount(s: Script)
    requires |s| >= 3 && (DecodeSmallInt(s[0]).None? || DecodeSmallInt(s[0]).value < 1)
    ensures forall m, all :: MultiSigShape(m, all) ==> s != MultiSigScript(m, all)
  {
    forall m, all | MultiSigShape(m, all)
      ensures s != MultiSigScript(m, all)
    {
      TemplateEnds(MultiSigScript(m, all), m, all);
      hide MultiSigScript, DecodeSmallInt;
    }
    hide *;
  }

  lemma KeysStart(s: Script)
    requires |s| >= 3
    ensures KeysRead(s, [], 1) && OnTrack(s, [])
  {
    hide MultiSigScript;
  }

  lemma KeyNext(s: Script, keys: seq<Script>, i: nat, l: nat)
    requires KeysRead(s, keys, i) && OnTrack(s, keys) && i < |s| - 2 && s[i] as int == l && (l == 33 || l == 65)
    ensures i + 1 + l > |s| - 2 ==> forall m, all :: MultiSigShape(m, all) ==> s != MultiSigScript(m, all)
    ensures i + 1 + l <= |s| - 2 ==>
      KeysRead(s, keys + [s[i + 1..i + 1 + l]], i + 1 + l) && OnTrack(s, keys + [s[i + 1..i + 1 + l]])
  {
    forall m, all | MultiSigShape(m, all) && s == MultiSigScript(m, all)
      ensures i + 1 + l <= |s| - 2 && keys + [s[i + 1..i + 1 + l]] <= all
    {
      TemplateAt(s, m, all, keys, i);
      hide MultiSigScript, KeysRead;
    }
    hide MultiSigScript, MultiSigShape, KeyBytes;
    if i + 1 + l <= |s| - 2 {
      var key := s[i + 1..i + 1 + l];
      KeyBytesStep(keys, key);
      assert s[1..i + 1 + l] == s[1..i] + [s[i]] + key;
    }
  }

  /** Behind the last key that could be read. */
  lemma KeysEnd(s: Script, m: nat, keys: seq<Script>, i: nat)
    requires |s| >= 3 && DecodeSmallInt(s[0]) == Some(m) && KeysRead(s, keys, i) && OnTrack(s, keys) && i <= |s| - 2
    requires i < |s| - 2 ==> s[i] as int != 33 && s[i] as int != 65
    ensures var done := i == |s| - 2 && s[|s| - 1] == OP_CHECKMULTISIG && DecodeSmallInt(s[i]) == Some(|keys|) && 1 <= m <= |keys| <= 16;
      if done then MultiSigShape(m, keys) && s == MultiSigScript(m, keys)
      else forall k, all :: MultiSigShape(k, all) ==> s != MultiSigScript(k, all)
    ensures forall op: byte :: DecodeSmallInt(op).Some? ==> 1 <= DecodeSmallInt(op).value <= 16
  {
    forall k, all | MultiSigShape(k, all) && s == MultiSigScript(k, all)
      ensures i == |s| - 2 && keys == all && m == k && s[|s| - 1] == OP_CHECKMULTISIG && DecodeSmallInt(s[i]) == Some(|keys|)
    {
      TemplateAt(s, k, all, keys, i);
      TemplateEnds(s, k, all);
      hide MultiSigScript, KeysRead, DecodeSmallInt;
    }
    hide KeyBytes;
    if i == |s| - 2 && s[|s| - 1] == OP_CHECKMULTISIG && DecodeSmallInt(s[i]) == Some(|keys|) && 1 <= m <= |keys| <= 16 {
      assert s == [s[0]] + s[1..i] + [s[i], s[i + 1]];
    }
  }

  // ----- Matching signatures to keys -----

  /** The two-index loop tries each signature on the keys after the last match. */
  ghost predicate Assignment(good: set<(nat, nat)>, m: nat, n: nat, f: seq<nat>) {
    && |f| == m
    && (forall i :: 0 <= i < m ==> f[i] < n && (i, f[i]) in good)
    && (forall i, j :: 0 <= i < j < m ==> f[i] < f[j])
  }

  /** Signature and key parsing and verification are foreign. */
  datatype Verifier<!S, !K> = Verifier(parseSig: Script -> Option<S>, parseKey: Script -> Option<K>, verify: (S, K) -> bool)

  /** Signature i parses, key j parses, and they verify. */
  predicate Verifies<S, K>(v: Verifier<S, K>, sigs: seq<Script>, keys: seq<Script>, i: nat, j: nat) {
    && i < |sigs| && j < |keys|
    && var sig, key := v.parseSig(sigs[i]), v.parseKey(keys[j]);
    sig.Some? && key.Some? && v.verify(sig.value, key.value)
  }

  function Matches<S, K>(v: Verifier<S, K>, sigs: seq<Script>, keys: seq<Script>): set<(nat, nat)> {
    set i: nat, j: nat | i < |sigs| && j < |keys| && Verifies(v, sigs, keys, i, j) :: (i, j)
  }

  /** The greedy assignment so far is never behind any other. */
  ghost predicate Earliest(good: set<(nat, nat)>, n: nat, greedy: seq<nat>, next: nat) {
    && Assignment(good, |greedy|, n, greedy)
    && (|greedy| > 0 ==> next == greedy[|greedy| - 1] + 1)
    && (|greedy| == 0 ==> next == 0)
  }

  /** Any assignment of more signatures puts the next one at or after `next`. */
  lemma {:induction false} StaysAhead(good: set<(nat, nat)>, m: nat, n: nat, greedy: seq<nat>, next: nat, f: seq<nat>)
    requires Ahead(good, n, greedy) && Earliest(good, n, greedy, next)
    requires |greedy| < m && Assignment(good, m, n, f)
    ensures f[|greedy|] >= next
  {
    var k := |greedy|;
    if k > 0 {
      assert Assignment(good, k, n, f[..k]);
      assert f[k - 1] >= greedy[k - 1];
    }
  }

  /** Every assignment of as many signatures is pointwise at or behind the greedy one. */
  ghost predicate Ahead(good: set<(nat, nat)>, n: nat, greedy: seq<nat>) {
    forall f: seq<nat> :: Assignment(good, |greedy|, n, f) ==> forall i :: 0 <= i < |greedy| ==> f[i] >= greedy[i]
  }

  lemma AheadNone(good: set<(nat, nat)>, n: nat)
    ensures Ahead(good, n, []) && Earliest(good, n, [], 0)
  {
  }

  /** One more match: the first key that verifies, all keys between having failed. */
  lemma AheadStep(good: set<(nat, nat)>, n: nat, greedy: seq<nat>, next: nat, j: nat)
    requires Ahead(good, n, greedy) && Earliest(good, n, greedy, next)
    requires next <= j < n && (|greedy|, j) in good && forall k :: next <= k < j ==> (|greedy|, k) !in good
    ensures Ahead(good, n, greedy + [j]) && Earliest(good, n, greedy + [j], j + 1)
  {
    var more := greedy + [j];
    forall f: seq<nat> | Assignment(good, |more|, n, f)
      ensures forall i :: 0 <= i < |more| ==> f[i] >= more[i]
    {
      StaysAhead(good, |more|, n, greedy, next, f);
      var front := f[..|greedy|];
      assert Assignment(good, |greedy|, n, front);
      forall i | 0 <= i < |more|
        ensures f[i] >= more[i]
      {
        assert i < |greedy| ==> front[i] >= greedy[i];
      }
    }
  }

  /** No key left for this signature: no assignment at all. */
  lemma NoneLeft(good: set<(nat, nat)>, m: nat, n: nat, greedy: seq<nat>, next: nat)
    requires Ahead(good, n, greedy) && Earliest(good, n, greedy, next) && |greedy| < m
    requires forall k :: next <= k < n ==> (|greedy|, k) !in good
    ensures forall f: seq<nat> :: !Assignment(good, m, n, f)
  {
    forall f: seq<nat>
      ensures !Assignment(good, m, n, f)
    {
      if Assignment(good, m, n, f) {
        StaysAhead(good, m, n, greedy, next, f);
      }
    }
  }

  /** Greedy matching accepts exactly when every signature parses and some strictly increasing
    choice of keys verifies them all. */
  method MatchSignatures<S, K>(v: Verifier<S, K>, sigs: seq<Script>, keys: seq<Script>) returns (accepted: bool)
    ensures accepted <==>
      && (forall i :: 0 <= i < |sigs| ==> v.parseSig(sigs[i]).Some?)
      && exists f: seq<nat> :: Assignment(Matches(v, sigs, keys), |sigs|, |keys|, f)
  {
    ghost var good := Matches(v, sigs, keys);
    ghost var greedy: seq<nat> := [];
    AheadNone(good, |keys|);
    var pubIdx := 0;
    hide Ahead, Earliest, Assignment;
    for i := 0 to |sigs|
      invariant pubIdx <= |keys| && |greedy| == i
      invariant Ahead(good, |keys|, greedy) && Earliest(good, |keys|, greedy, pubIdx)
      invariant forall k :: 0 <= k < i ==> v.parseSig(sigs[k]).Some?
    {
      var sig := v.parseSig(sigs[i]);
      if sig.None? {
        return false;
      }
      var matched := false;
      ghost var next := pubIdx;
      while pubIdx < |keys|
        invariant next <= pubIdx <= |keys|
        invariant !matched && forall k :: next <= k < pubIdx ==> (i, k) !in good
        decreases |keys| - pubIdx
      {
        var key := v.parseKey(keys[pubIdx]);
        pubIdx := pubIdx + 1;
        if key.None? {
          continue;
        }
        if v.verify(sig.value, key.value) {
          matched := true;
          break;
        }
      }
      if !matched {
        NoneLeft(good, |sigs|, |keys|, greedy, next);
        return false;
      }
      AheadStep(good, |keys|, greedy, next, pubIdx - 1);
      greedy := greedy + [pubIdx - 1];
    }
    Matched(good, |sigs|, |keys|, greedy, pubIdx);
    accepted := true;
  }

  lemma Matched(good: set<(nat, nat)>, m: nat, n: nat, greedy: seq<nat>, next: nat)
    requires Earliest(good, n, greedy, next) && |greedy| == m
    ensures Assignment(good, m, n, greedy)
  {
    hide Assignment;
  }
}
