/** What the interpreter computes on whole programs, from their bytes: each opcode by itself, the
  conditional, and the standard templates.
*/
module ScriptTemplates {
  import opened Wire
  import opened ScriptVM
  import opened PushData
  import Mining

  // ----- Bytes to tokens, front to back -----

  /** Reading from position pc is reading the rest of the program. */
  lemma {:induction false} TokensShift(p: Script, pc: nat)
    requires pc <= |p|
    ensures Tokens(p, pc) == Tokens(p[pc..], 0)
    decreases |p| - pc
  {
    if pc < |p| {
      var rest := p[pc..];
      LexShift(p, pc);
      var t := Lex(p, pc);
      if t.Some? {
        TokensShift(p, t.value.1);
        TokensShift(rest, t.value.1 - pc);
        assert rest[t.value.1 - pc..] == p[t.value.1..];
      }
      hide Lex;
    }
  }

  lemma LexShift(p: Script, pc: nat)
    requires pc < |p|
    ensures var a, b := Lex(p, pc), Lex(p[pc..], 0);
      (a.None? <==> b.None?) && (a.Some? ==> a.value.0 == b.value.0 && a.value.1 == pc + b.value.1)
  {
    var rest := p[pc..];
    assert forall i :: 0 <= i < |rest| ==> rest[i] == p[pc + i];
    assert forall i, j :: 0 <= i <= j <= |rest| ==> rest[i..j] == p[pc + i..pc + j];
  }

  /** A plain opcode byte in front. */
  lemma OpFirst(op: byte, rest: Script)
    requires (0x60 < op && op !in {0x63, 0x64, 0x67, 0x68}) || 0x4e <= op <= 0x50
    ensures Tokens([op] + rest, 0) == Prepend(Op(op), Tokens(rest, 0))
  {
    FirstToken([op] + rest, Op(op), 1);
    assert ([op] + rest)[1..] == rest;
  }

  lemma BranchFirst(op: byte, t: Token, rest: Script)
    requires (op == 0x63 && t == If(false)) || (op == 0x64 && t == If(true)) || (op == 0x67 && t == Else) || (op == 0x68 && t == EndIf)
    ensures Tokens([op] + rest, 0) == Prepend(t, Tokens(rest, 0))
  {
    FirstToken([op] + rest, t, 1);
    assert ([op] + rest)[1..] == rest;
  }

  /** A small number in front pushes that number. */
  lemma NumberFirst(n: nat, rest: Script)
    requires 1 <= n <= 16
    ensures Tokens([(0x50 + n) as byte] + rest, 0) == Prepend(Push([n as byte]), Tokens(rest, 0))
  {
    var p := [(0x50 + n) as byte] + rest;
    FirstToken(p, Push([n as byte]), 1);
    assert p[1..] == rest;
  }

  /** A length byte and its data in front. */
  lemma PushFirst(data: Script, rest: Script)
    requires 1 <= |data| <= 75
    ensures Tokens([|data| as byte] + data + rest, 0) == Prepend(Push(data), Tokens(rest, 0))
  {
    var p := [|data| as byte] + data + rest;
    assert p[1..1 + |data|] == data && p[1 + |data|..] == rest;
    FirstToken(p, Push(data), 1 + |data|);
  }

  function Prepend(t: Token, ts: Option<seq<Token>>): Option<seq<Token>> {
    if ts.None? then None else Some([t] + ts.value)
  }

  lemma FirstToken(p: Script, t: Token, size: nat)
    requires |p| > 0 && Lex(p, 0) == Some((t, size))
    ensures size <= |p| && Tokens(p, 0) == Prepend(t, Tokens(p[size..], 0))
  {
    TokensShift(p, size);
    hide Lex;
  }

  lemma NoTokens()
    ensures Tokens([], 0) == Some([])
  {
  }

  // ----- Straight programs -----

  function Straight(ts: seq<Token>): Code {
    if |ts| == 0 then Done else Then(ts[0], Straight(ts[1..]))
  }

  lemma {:induction false} StraightIs(ts: seq<Token>)
    requires forall i :: 0 <= i < |ts| ==> Plain(ts[i])
    ensures Proper(Straight(ts)) && Flatten(Straight(ts)) == ts
  {
    if |ts| > 0 {
      StraightIs(ts[1..]);
      assert ts == [ts[0]] + ts[1..];
    }
  }

  /** Running the first step, and the rest on what it leaves. */
  lemma RunFirst(h: Hooks, t: Token, ts: seq<Token>, stack: Stack)
    requires Plain(t) && forall i :: 0 <= i < |ts| ==> Plain(ts[i])
    ensures Proper(Straight([t] + ts)) && Proper(Straight(ts))
    ensures var r := StepResult(h, t, stack);
      Run(h, Straight([t] + ts), stack) == if r.Err? then r else Run(h, Straight(ts), r.value)
  {
    StraightIs([t] + ts);
    StraightIs(ts);
    assert ([t] + ts)[1..] == ts;
    hide StepResult;
  }

  lemma RunNone(h: Hooks, stack: Stack)
    ensures Proper(Straight([])) && Run(h, Straight([]), stack) == Ok(stack)
  {
  }

  lemma TopTwo(base: Stack, a: Script, b: Script)
    ensures var s := base + [a, b];
      |s| == |base| + 2 && s[|s| - 2] == a && s[|s| - 1] == b && s[..|s| - 2] == base
  {
  }

  // ----- One opcode -----

  /** A program of one opcode, on any stack. */
  method EvalOp(h: Hooks, op: byte, stack: Stack) returns (r: Result<Stack, ScriptError>)
    requires (0x60 < op && op !in {0x63, 0x64, 0x67, 0x68}) || 0x4e <= op <= 0x50
    ensures var n := |stack|;
      && (op == 0x76 ==> r == if n < 1 then Err(ScriptEval) else Ok(stack + [stack[n - 1]]))
      && (op == 0xa9 ==> r == if n < 1 then Err(ScriptEval) else Ok(stack[..n - 1] + [h.hash160(stack[n - 1])]))
      && (op == 0x87 ==> r == if n < 2 then Err(ScriptEval) else Ok(stack[..n - 2] + [if stack[n - 1] == stack[n - 2] then [1] else []]))
      && (op == 0x88 ==> r == if n >= 2 && stack[n - 1] == stack[n - 2] then Ok(stack[..n - 2]) else Err(ScriptEval))
      && (op == 0xac && n < 2 ==> r == Err(ScriptEval))
      && (op == 0xac && n >= 2 ==>
            var signed := h.checkSig.Some? && h.checkSig.value(stack[n - 2], stack[n - 1]);
            r == Ok(stack[..n - 2] + [if signed then [1] else []]))
      && (op == 0xae && n < 1 ==> r == Err(ScriptEval))
      && (op !in {0x76, 0xa9, 0x87, 0x88, 0xac, 0xae} ==> r == Err(UnsupportedScript))
  {
    r := EvalPushScriptWithHooks(h, [op], stack);
    ghost var ts := [Op(op)];
    assert [op] + [] == [op] && [Op(op)] + [] == ts;
    OpFirst(op, []);
    NoTokens();
    StraightIs(ts);
    RunFirst(h, Op(op), [], stack);
    OneOp(h, op, stack);
    hide *;
  }

  lemma OneOp(h: Hooks, op: byte, stack: Stack)
    ensures Proper(Straight([])) && forall s :: Run(h, Straight([]), s) == Ok(s)
    ensures StepResult(h, Op(op), stack) == OpResult(h, op, stack)
    ensures |stack| >= 1 ==> stack[|stack| - 1 := h.hash160(stack[|stack| - 1])] == stack[..|stack| - 1] + [h.hash160(stack[|stack| - 1])]
  {
  }

  // ----- The standard templates -----

  /** Pay to public-key hash, on a signature and a key: the key must hash to what the script names,
    and then the answer is that of the signature check. */
  method EvalPubKeyHash(h: Hooks, base: Stack, hash: Script, sig: Script, key: Script) returns (r: Result<Stack, ScriptError>)
    requires |hash| == 20
    ensures var signed := h.checkSig.Some? && h.checkSig.value(sig, key);
      r == if h.hash160(key) != hash then Err(ScriptEval) else Ok(base + [if signed then [1] else []])
  {
    r := EvalPushScriptWithHooks(h, Mining.PayToPubKeyHash(hash), base + [sig, key]);
    PubKeyHashTokens(hash);
    PubKeyHashRuns(h, base, hash, sig, key);
    hide *;
  }

  function PubKeyHashSteps(hash: Script): seq<Token> {
    [Op(0x76), Op(0xa9), Push(hash), Op(0x88), Op(0xac)]
  }

  lemma PubKeyHashTokens(hash: Script)
    requires |hash| == 20
    ensures var c := Straight(PubKeyHashSteps(hash));
      Proper(c) && Tokens(Mining.PayToPubKeyHash(hash), 0) == Some(Flatten(c))
  {
    var e := [0xac as byte];
    var d := [0x88 as byte] + e;
    var c := [0x14 as byte] + hash + d;
    var b := [0xa9 as byte] + c;
    assert Mining.PayToPubKeyHash(hash) == [0x76 as byte] + b;
    assert e == [0xac as byte] + [];
    NoTokens();
    OpFirst(0xac, []);
    OpFirst(0x88, e);
    PushFirst(hash, d);
    OpFirst(0xa9, c);
    OpFirst(0x76, b);
    hide Tokens;
    StraightIs(PubKeyHashSteps(hash));
    assert PubKeyHashSteps(hash)
        == [Op(0x76)] + ([Op(0xa9)] + ([Push(hash)] + ([Op(0x88)] + ([Op(0xac)] + []))));
  }

  lemma PubKeyHashRuns(h: Hooks, base: Stack, hash: Script, sig: Script, key: Script)
    ensures Proper(Straight(PubKeyHashSteps(hash)))
    ensures var signed := h.checkSig.Some? && h.checkSig.value(sig, key);
      Run(h, Straight(PubKeyHashSteps(hash)), base + [sig, key])
        == if h.hash160(key) != hash then Err(ScriptEval) else Ok(base + [if signed then [1] else []])
  {
    hide *;
    var ts5 := [Op(0xac)];
    var ts4 := [Op(0x88)] + ts5;
    var ts3 := [Push(hash)] + ts4;
    var ts2 := [Op(0xa9)] + ts3;
    StepsAre(hash);
    var s0 := base + [sig, key];
    var s1 := s0 + [key];
    var s2 := s0 + [h.hash160(key)];
    var s3 := s2 + [hash];
    DupStep(h, base + [sig], key);
    HashStep(h, s0, key);
    PushStep(h, s2, hash);
    VerifyStep(h, s0, h.hash160(key), hash);
    SigStep(h, base, sig, key);
    assert base + [sig] + [key] == s0 && base + [sig] + [key, key] == s1 && s0 + [h.hash160(key), hash] == s3;
    RunFirst(h, Op(0x76), ts2, s0);
    RunFirst(h, Op(0xa9), ts3, s1);
    RunFirst(h, Push(hash), ts4, s2);
    RunFirst(h, Op(0x88), ts5, s3);
    RunFirst(h, Op(0xac), [], s0);
    RunNone(h, base + [if h.checkSig.Some? && h.checkSig.value(sig, key) then [1] else []]);
    assert ts5 == [Op(0xac)] + [];
  }

  lemma StepsAre(hash: Script)
    ensures PubKeyHashSteps(hash) == [Op(0x76)] + ([Op(0xa9)] + ([Push(hash)] + ([Op(0x88)] + [Op(0xac)])))
    ensures Plain(Op(0x76)) && Plain(Op(0xa9)) && Plain(Push(hash)) && Plain(Op(0x88)) && Plain(Op(0xac)) && Plain(Op(0x87)) && Plain(Op(0xae))
  {
  }

  lemma DupStep(h: Hooks, base: Stack, a: Script)
    ensures StepResult(h, Op(0x76), base + [a]) == Ok(base + [a, a])
  {
    assert base + [a] + [a] == base + [a, a];
  }

  lemma HashStep(h: Hooks, base: Stack, a: Script)
    ensures StepResult(h, Op(0xa9), base + [a]) == Ok(base + [h.hash160(a)])
  {
    assert (base + [a])[|base| := h.hash160(a)] == base + [h.hash160(a)];
  }

  lemma PushStep(h: Hooks, base: Stack, a: Script)
    ensures StepResult(h, Push(a), base) == Ok(base + [a])
  {
  }

  lemma VerifyStep(h: Hooks, base: Stack, a: Script, b: Script)
    ensures StepResult(h, Op(0x88), base + [a, b]) == if a == b then Ok(base) else Err(ScriptEval)
  {
    TopTwo(base, a, b);
  }

  lemma EqualStep(h: Hooks, base: Stack, a: Script, b: Script)
    ensures StepResult(h, Op(0x87), base + [a, b]) == Ok(base + [if a == b then [1] else []])
  {
    TopTwo(base, a, b);
  }

  lemma SigStep(h: Hooks, base: Stack, sig: Script, key: Script)
    ensures StepResult(h, Op(0xac), base + [sig, key])
         == Ok(base + [if h.checkSig.Some? && h.checkSig.value(sig, key) then [1] else []])
  {
    TopTwo(base, sig, key);
  }

  /** Pay to script hash, on a script: whether it hashes to what the program names. */
  method EvalScriptHash(h: Hooks, base: Stack, hash: Script, redeem: Script) returns (r: Result<Stack, ScriptError>)
    requires |hash| == 20
    ensures r == Ok(base + [if h.hash160(redeem) == hash then [1] else []])
  {
    r := EvalPushScriptWithHooks(h, [0xa9, 0x14] + hash + [0x87], base + [redeem]);
    ScriptHashTokens(hash);
    ScriptHashRuns(h, base, hash, redeem);
    hide *;
  }

  function ScriptHashSteps(hash: Script): seq<Token> {
    [Op(0xa9), Push(hash), Op(0x87)]
  }

  lemma ScriptHashTokens(hash: Script)
    requires |hash| == 20
    ensures var c := Straight(ScriptHashSteps(hash));
      Proper(c) && Tokens([0xa9, 0x14] + hash + [0x87], 0) == Some(Flatten(c))
  {
    var d := [0x87 as byte];
    var c := [0x14 as byte] + hash + d;
    assert [0xa9 as byte, 0x14] + hash + [0x87] == [0xa9 as byte] + c;
    assert d == [0x87 as byte] + [];
    NoTokens();
    OpFirst(0x87, []);
    PushFirst(hash, d);
    OpFirst(0xa9, c);
    hide Tokens;
    StraightIs(ScriptHashSteps(hash));
    assert ScriptHashSteps(hash) == [Op(0xa9)] + ([Push(hash)] + ([Op(0x87)] + []));
  }

  lemma ScriptHashRuns(h: Hooks, base: Stack, hash: Script, redeem: Script)
    ensures Proper(Straight(ScriptHashSteps(hash)))
    ensures Run(h, Straight(ScriptHashSteps(hash)), base + [redeem]) == Ok(base + [if h.hash160(redeem) == hash then [1] else []])
  {
    var ts3 := [Op(0x87)];
    var ts2 := [Push(hash)] + ts3;
    assert ScriptHashSteps(hash) == [Op(0xa9)] + ts2 && ts3 == [Op(0x87)] + [];
    hide *;
    StepsAre(hash);
    HashStep(h, base, redeem);
    PushStep(h, base + [h.hash160(redeem)], hash);
    EqualStep(h, base, h.hash160(redeem), hash);
    assert base + [h.hash160(redeem)] + [hash] == base + [h.hash160(redeem), hash];
    RunFirst(h, Op(0xa9), ts2, base + [redeem]);
    RunFirst(h, Push(hash), ts3, base + [h.hash160(redeem)]);
    RunFirst(h, Op(0x87), [], base + [h.hash160(redeem), hash]);
    RunNone(h, base + [if h.hash160(redeem) == hash then [1] else []]);
  }

  // ----- The multisig template -----

  /** The multisig template, on a dummy and m signatures: the hook sees signatures and keys in the
    order in which they were pushed, and its answer is all that is left of them. */
  method EvalMultiSig(h: Hooks, base: Stack, m: nat, keys: seq<Script>, dummy: Script, sigs: seq<Script>)
    returns (r: Result<Stack, ScriptError>)
    requires MultiSigShape(m, keys) && |sigs| == m
    ensures var pass := h.checkMultiSig.Some? && h.checkMultiSig.value(sigs, keys);
      r == Ok(base + [if pass then [1] else []])
  {
    r := EvalPushScriptWithHooks(h, MultiSigScript(m, keys), base + [dummy] + sigs);
    MultiSigTokens(m, keys);
    MultiSigRuns(h, base, m, keys, dummy, sigs);
    hide *;
  }

  function Pushes(items: seq<Script>): seq<Token> {
    seq(|items|, i requires 0 <= i < |items| => Push(items[i]))
  }

  function MultiSigSteps(m: nat, keys: seq<Script>): seq<Token>
    requires MultiSigShape(m, keys)
  {
    [Push([m as byte])] + (Pushes(keys) + ([Push([|keys| as byte])] + [Op(0xae)]))
  }

  lemma {:induction false} KeyTokens(keys: seq<Script>, rest: Script)
    requires forall i :: 0 <= i < |keys| ==> KeySize(|keys[i]|)
    ensures Tokens(KeyBytes(keys) + rest, 0)
         == if Tokens(rest, 0).None? then None else Some(Pushes(keys) + Tokens(rest, 0).value)
  {
    hide Tokens;
    if |keys| == 0 {
      assert KeyBytes(keys) + rest == rest && Pushes(keys) == [];
      if Tokens(rest, 0).Some? {
        assert Pushes(keys) + Tokens(rest, 0).value == Tokens(rest, 0).value;
      }
    } else {
      var front, last := keys[..|keys| - 1], keys[|keys| - 1];
      var next := [|last| as byte] + last + rest;
      assert KeyBytes(keys) + rest == KeyBytes(front) + next;
      KeyTokens(front, next);
      PushFirst(last, rest);
      assert Pushes(keys) == Pushes(front) + [Push(last)];
      hide KeyBytes;
      if Tokens(rest, 0).Some? {
        var ts := Tokens(rest, 0).value;
        assert Pushes(front) + ([Push(last)] + ts) == Pushes(keys) + ts;
      }
    }
  }

  lemma MultiSigTokens(m: nat, keys: seq<Script>)
    requires MultiSigShape(m, keys)
    ensures var c := Straight(MultiSigSteps(m, keys));
      Proper(c) && Tokens(MultiSigScript(m, keys), 0) == Some(Flatten(c))
  {
    var n := (0x50 + |keys|) as byte;
    var e := [0xae as byte];
    var d := [n] + e;
    assert MultiSigScript(m, keys) == [(0x50 + m) as byte] + (KeyBytes(keys) + d);
    assert e == [0xae as byte] + [];
    NoTokens();
    OpFirst(0xae, []);
    NumberFirst(|keys|, e);
    KeyTokens(keys, d);
    NumberFirst(m, KeyBytes(keys) + d);
    hide Tokens, KeyBytes;
    StraightIs(MultiSigSteps(m, keys));
    assert [Op(0xae)] + [] == [Op(0xae)];
  }

  lemma {:induction false} RunPushes(h: Hooks, items: seq<Script>, ts: seq<Token>, stack: Stack)
    requires forall i :: 0 <= i < |ts| ==> Plain(ts[i])
    ensures forall i :: 0 <= i < |Pushes(items) + ts| ==> Plain((Pushes(items) + ts)[i])
    ensures Proper(Straight(Pushes(items) + ts)) && Proper(Straight(ts))
    ensures Run(h, Straight(Pushes(items) + ts), stack) == Run(h, Straight(ts), stack + items)
  {
    StraightIs(ts);
    hide Run, Straight, Proper;
    if |items| == 0 {
      assert Pushes(items) + ts == ts && stack + items == stack;
    } else {
      var rest := Pushes(items[1..]) + ts;
      assert Pushes(items) + ts == [Push(items[0])] + rest;
      RunPushes(h, items[1..], ts, stack + [items[0]]);
      RunFirst(h, Push(items[0]), rest, stack);
      PushStep(h, stack, items[0]);
      assert stack + [items[0]] + items[1..] == stack + items;
    }
  }

  lemma MultiSigRuns(h: Hooks, base: Stack, m: nat, keys: seq<Script>, dummy: Script, sigs: seq<Script>)
    requires MultiSigShape(m, keys) && |sigs| == m
    ensures Proper(Straight(MultiSigSteps(m, keys)))
    ensures var pass := h.checkMultiSig.Some? && h.checkMultiSig.value(sigs, keys);
      Run(h, Straight(MultiSigSteps(m, keys)), base + [dummy] + sigs) == Ok(base + [if pass then [1] else []])
  {
    var n := [|keys| as byte];
    var ts3 := [Push(n)] + [Op(0xae)];
    var ts2 := Pushes(keys) + ts3;
    var s0 := base + [dummy] + sigs;
    var s1 := s0 + [[m as byte]];
    var s2 := s1 + keys;
    assert MultiSigSteps(m, keys) == [Push([m as byte])] + ts2 && [Op(0xae)] == [Op(0xae)] + [];
    hide *;
    StepsAre([]);
    StepsArePlain(keys, n);
    PushStep(h, s0, [m as byte]);
    PushStep(h, s2, n);
    MultiSigStep(h, base, m, keys, dummy, sigs);
    RunFirst(h, Push([m as byte]), ts2, s0);
    RunPushes(h, keys, ts3, s1);
    RunFirst(h, Push(n), [Op(0xae)], s2);
    RunFirst(h, Op(0xae), [], s2 + [n]);
    RunNone(h, base + [if h.checkMultiSig.Some? && h.checkMultiSig.value(sigs, keys) then [1] else []]);
  }

  lemma StepsArePlain(keys: seq<Script>, n: Script)
    ensures forall i :: 0 <= i < |Pushes(keys)| ==> Plain(Pushes(keys)[i])
    ensures Plain(Push(n)) && forall x :: Plain(Push(x))
  {
  }

  lemma MultiSigStep(h: Hooks, base: Stack, m: nat, keys: seq<Script>, dummy: Script, sigs: seq<Script>)
    requires 1 <= m <= |keys| <= 16 && |sigs| == m
    ensures var stack := base + [dummy] + sigs + [[m as byte]] + keys + [[|keys| as byte]];
      StepResult(h, Op(0xae), stack)
        == Ok(base + [if h.checkMultiSig.Some? && h.checkMultiSig.value(sigs, keys) then [1] else []])
  {
    var below := base + [dummy] + sigs + [[m as byte]];
    var stack := below + keys + [[|keys| as byte]];
    var n := |keys|;
    assert stack[..|stack| - 1 - n] == below && stack[|stack| - 1 - n..|stack| - 1] == keys;
    assert below[..|below| - 1 - m] == base + [dummy] && below[|below| - 1 - m..|below| - 1] == sigs;
    assert (base + [dummy])[..|base|] == base;
  }

  // ----- The conditional -----

  /** IF or NOTIF with an ELSE, on a condition: any non-zero byte makes it true. */
  method EvalChoice(h: Hooks, base: Stack, negate: bool, x: byte, y: byte, cond: Script) returns (r: Result<Stack, ScriptError>)
    ensures var holds := exists i :: 0 <= i < |cond| && cond[i] != 0;
      r == Ok(base + [if holds != negate then [x] else [y]])
  {
    r := EvalPushScriptWithHooks(h, [if negate then 0x64 else 0x63, 0x01, x, 0x67, 0x01, y, 0x68], base + [cond]);
    ChoiceTokens(negate, x, y);
    ChoiceRuns(h, base, negate, x, y, cond);
    hide *;
  }

  function Choice(negate: bool, x: byte, y: byte): Code {
    Cond(negate, More(Straight([Push([x])]), Last(Straight([Push([y])]))), Done)
  }

  lemma OnePush(x: byte)
    ensures var c := Straight([Push([x])]);
      Proper(c) && Flatten(c) == [Push([x])] && c == Then(Push([x]), Done)
  {
    StraightIs([Push([x])]);
    assert [Push([x])][1..] == [];
  }

  lemma ChoiceFlat(negate: bool, x: byte, y: byte)
    ensures Proper(Choice(negate, x, y))
    ensures Flatten(Choice(negate, x, y)) == [If(negate), Push([x]), Else, Push([y]), EndIf]
  {
    OnePush(x);
    OnePush(y);
    var first, second := Straight([Push([x])]), Straight([Push([y])]);
    hide Straight;
    assert Proper(Done) && ProperArms(Last(second)) && ProperArms(More(first, Last(second)));
    assert FlattenArms(Last(second)) == [Push([y])];
    assert FlattenArms(More(first, Last(second))) == [Push([x])] + [Else] + [Push([y])];
    assert Flatten(Done) == [];
  }

  lemma ChoiceTokens(negate: bool, x: byte, y: byte)
    ensures Proper(Choice(negate, x, y))
    ensures Tokens([if negate then 0x64 else 0x63, 0x01, x, 0x67, 0x01, y, 0x68], 0) == Some(Flatten(Choice(negate, x, y)))
  {
    hide Tokens, Lex, Choice, Flatten, Proper;
    var op: byte := if negate then 0x64 else 0x63;
    var d := [0x68 as byte];
    var c := [0x01 as byte] + [y] + d;
    var b := [0x67 as byte] + c;
    var a := [0x01 as byte] + [x] + b;
    assert [op, 0x01, x, 0x67, 0x01, y, 0x68] == [op] + a && d == [0x68 as byte] + [];
    NoTokens();
    BranchFirst(0x68, EndIf, []);
    PushFirst([y], d);
    BranchFirst(0x67, Else, c);
    PushFirst([x], b);
    BranchFirst(op, If(negate), a);
    ChoiceFlat(negate, x, y);
    assert [If(negate)] + ([Push([x])] + ([Else] + ([Push([y])] + ([EndIf] + [])))) == [If(negate), Push([x]), Else, Push([y]), EndIf];
  }

  lemma ChoiceRuns(h: Hooks, base: Stack, negate: bool, x: byte, y: byte, cond: Script)
    requires Proper(Choice(negate, x, y))
    ensures var holds := exists i :: 0 <= i < |cond| && cond[i] != 0;
      Run(h, Choice(negate, x, y), base + [cond]) == Ok(base + [if holds != negate then [x] else [y]])
  {
    var stack := base + [cond];
    assert stack[..|stack| - 1] == base && stack[|stack| - 1] == cond;
    OnePush(x);
    OnePush(y);
    ChoiceFlat(negate, x, y);
    var first, second := Straight([Push([x])]), Straight([Push([y])]);
    var taken := IsTruthy(cond) != negate;
    RunOne(h, x, base);
    RunOne(h, y, base);
    hide Straight, StepResult;
    assert RunArms(h, Last(second), !taken, base) == if taken then Ok(base) else Ok(base + [[y]]);
    assert RunArms(h, Last(second), false, base + [[x]]) == Ok(base + [[x]]);
    assert RunArms(h, More(first, Last(second)), taken, base) == Ok(base + [if taken then [x] else [y]]);
  }

  lemma RunOne(h: Hooks, x: byte, base: Stack)
    ensures var c := Straight([Push([x])]);
      Proper(c) && Run(h, c, base) == Ok(base + [[x]])
  {
    OnePush(x);
    RunFirst(h, Push([x]), [], base);
    RunNone(h, base + [[x]]);
    assert [Push([x])] + [] == [Push([x])];
    hide Run, Straight;
  }
}
